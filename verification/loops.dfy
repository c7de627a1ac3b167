/**
 The loop script: an indexed `for` loop totalling a cart and logging the
 running total after each item, then a `while` loop counting a game down.
 The console lines are modelled by `Line`, which keeps the numbers each line
 shows and drops its text.
 */
module Loops {
  import opened Sums
  import ArrayMethods
  import MapReduceFilter

  const CartPrices: seq<int> := [1000, 250, 30000, 15]
  const CountdownStart: int := 5

  /** One console line of the script. */
  datatype Line =
    | Added(price: int, total: int)   // an item was added; the total so far
    | FinalTotal(total: int)          // the cart's total after the loop
    | StartingIn(countdown: int)      // one tick of the countdown
    | GameStarted                     // printed once the countdown is over

  /** The cart loop. `running[i]` is the total logged right after item `i`. */
  method CartTotal(cartPrices: seq<int>) returns (total: int, running: seq<int>)
    ensures total == Sum(cartPrices)
    ensures total == ArrayMethods.Reduce(MapReduceFilter.Add, 0, cartPrices)
    ensures |running| == |cartPrices|
    ensures forall k :: 0 <= k < |running| ==> running[k] == Sum(cartPrices[..k + 1])
    ensures |running| > 0 ==> running[0] == cartPrices[0] && running[|running| - 1] == total
    ensures forall k :: 0 < k < |running| ==> running[k] == running[k - 1] + cartPrices[k]
    ensures NonNegative(cartPrices) ==> forall j, k :: 0 <= j <= k < |running| ==> running[j] <= running[k]
  {
    total := 0;
    running := [];
    var i := 0;
    while i < |cartPrices|
      invariant 0 <= i <= |cartPrices|
      invariant |running| == i
      invariant total == Sum(cartPrices[..i])
      invariant forall k :: 0 <= k < i ==> running[k] == Sum(cartPrices[..k + 1])
      invariant forall k :: 0 < k < i ==> running[k] == running[k - 1] + cartPrices[k]
      invariant 0 < i ==> running[i - 1] == total
    {
      SumPrefixStep(cartPrices, i);
      total := total + cartPrices[i];
      running := running + [total];
      i := i + 1;
    }
    assert cartPrices[..i] == cartPrices;
    MapReduceFilter.ReduceAddIsSum(cartPrices, 0);
    if 0 < |running| {
      assert cartPrices[..1] == [cartPrices[0]];
    }
    forall j, k | 0 <= j <= k < |running| && NonNegative(cartPrices)
      ensures running[j] <= running[k]
    {
      PrefixSumMonotone(cartPrices, j + 1, k + 1);
    }
  }

  /** The values the countdown shows when started at `n`: n, n-1, ..., 1. */
  function CountdownFrom(n: int): (r: seq<int>)
    ensures |r| == if n > 0 then n else 0
    ensures forall i :: 0 <= i < |r| ==> r[i] == n - i
    decreases n
  {
    if n <= 0 then [] else [n] + CountdownFrom(n - 1)
  }

  /** The countdown loop: logs `countdown` and decrements it while positive. */
  method Countdown(start: int) returns (ticks: seq<int>, countdown: int)
    ensures ticks == CountdownFrom(start)
    ensures countdown == if start > 0 then 0 else start
    ensures forall i :: 0 <= i < |ticks| ==> ticks[i] > 0
    ensures forall i :: 0 < i < |ticks| ==> ticks[i] == ticks[i - 1] - 1
  {
    countdown := start;
    ticks := [];
    while countdown > 0
      invariant countdown == start || 0 <= countdown < start
      invariant ticks + CountdownFrom(countdown) == CountdownFrom(start)
      decreases countdown
    {
      ticks := ticks + [countdown];
      countdown := countdown - 1;
    }
  }

  /** The script's console output for a given cart and countdown start. */
  method Script(cartPrices: seq<int>, start: int) returns (out: seq<Line>)
    ensures |out| == |cartPrices| + |CountdownFrom(start)| + 2
    ensures forall k :: 0 <= k < |cartPrices| ==> out[k] == Added(cartPrices[k], Sum(cartPrices[..k + 1]))
    ensures out[|cartPrices|] == FinalTotal(Sum(cartPrices))
    ensures forall k :: |cartPrices| < k < |out| - 1 ==> out[k] == StartingIn(start - (k - |cartPrices| - 1))
    ensures out[|out| - 1] == GameStarted
  {
    var total, running := CartTotal(cartPrices);
    var added := [];
    var i := 0;
    while i < |cartPrices|
      invariant 0 <= i <= |cartPrices|
      invariant |added| == i
      invariant forall k :: 0 <= k < i ==> added[k] == Added(cartPrices[k], running[k])
    {
      added := added + [Added(cartPrices[i], running[i])];
      i := i + 1;
    }
    var ticks, _ := Countdown(start);
    var shown := ArrayMethods.MapLoop(n => StartingIn(n), ticks);
    out := added + [FinalTotal(total)] + shown + [GameStarted];
  }

  /** The script as written, on its own cart and a countdown from 5. */
  method Run() returns (out: seq<Line>)
    ensures out == [
      Added(1000, 1000), Added(250, 1250), Added(30000, 31250), Added(15, 31265),
      FinalTotal(31265),
      StartingIn(5), StartingIn(4), StartingIn(3), StartingIn(2), StartingIn(1),
      GameStarted]
  {
    out := Script(CartPrices, CountdownStart);
    assert CartPrices[..1] == [1000];
    assert CartPrices[..4] == CartPrices;
    SumPrefixStep(CartPrices, 1);
    SumPrefixStep(CartPrices, 2);
    assert Sum(CartPrices) == 31265;
  }
}
