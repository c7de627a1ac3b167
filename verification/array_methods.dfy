/**
 The three JavaScript array methods the scripts use, `map`, `filter` and
 `reduce` (with an initial value), on immutable sequences. Each has a pure,
 recursive definition stating what it computes, and a loop method that visits
 the indices 0, 1, ..., length - 1 in order, as the built-in does, proved to
 compute the same value. Callbacks only ever receive the element: the index
 and array arguments the built-ins also pass are unused by the scripts.
 */
module ArrayMethods {

  /** `s.map(f)`: one result per element, in the same position. */
  function Map<A, B>(f: A -> B, s: seq<A>): (r: seq<B>)
    ensures |r| == |s|
    ensures forall i :: 0 <= i < |s| ==> r[i] == f(s[i])
  {
    if |s| == 0 then [] else [f(s[0])] + Map(f, s[1..])
  }

  /** `s.filter(p)`: the elements for which `p` holds, in their original order. */
  function Filter<T>(p: T -> bool, s: seq<T>): (r: seq<T>)
    ensures |r| <= |s|
    ensures forall i :: 0 <= i < |r| ==> p(r[i])
  {
    if |s| == 0 then [] else (if p(s[0]) then [s[0]] else []) + Filter(p, s[1..])
  }

  /** `s.reduce(f, init)`: the accumulator starts at `init` and is combined
      with each element from the first to the last. */
  function Reduce<A, T>(f: (A, T) -> A, init: A, s: seq<T>): A
  {
    if |s| == 0 then init else Reduce(f, f(init, s[0]), s[1..])
  }

  /** `t` can be obtained from `s` by deleting elements, keeping the order. */
  ghost predicate IsSubsequence<T>(t: seq<T>, s: seq<T>)
    decreases |s|
  {
    if |t| == 0 then true
    else if |s| == 0 then false
    else (t[0] == s[0] && IsSubsequence(t[1..], s[1..])) || IsSubsequence(t, s[1..])
  }

  /** The filter result is an order-preserving subsequence of its input. */
  lemma {:induction false} FilterIsSubsequence<T>(p: T -> bool, s: seq<T>)
    ensures IsSubsequence(Filter(p, s), s)
  {
    if |s| > 0 {
      FilterIsSubsequence(p, s[1..]);
      var t := Filter(p, s);
      if p(s[0]) {
        assert t[0] == s[0] && t[1..] == Filter(p, s[1..]);
      } else {
        assert t == Filter(p, s[1..]);
      }
    }
  }

  /** The filter result holds every element of the input that passes `p`, as
      many times as the input does, and no other element. */
  lemma {:induction false} FilterKeepsExactlyMatches<T>(p: T -> bool, s: seq<T>)
    ensures forall x :: x in Filter(p, s) <==> x in s && p(x)
    ensures forall x :: multiset(Filter(p, s))[x] == if p(x) then multiset(s)[x] else 0
  {
    if |s| > 0 {
      FilterKeepsExactlyMatches(p, s[1..]);
      assert s == [s[0]] + s[1..];
      assert Filter(p, s) == (if p(s[0]) then [s[0]] else []) + Filter(p, s[1..]);
    }
  }

  /** Filtering an extended list filters the extension on its own. */
  lemma {:induction false} FilterSnoc<T>(p: T -> bool, s: seq<T>, x: T)
    ensures Filter(p, s + [x]) == Filter(p, s) + (if p(x) then [x] else [])
  {
    if |s| == 0 {
      assert s + [x] == [x];
    } else {
      assert (s + [x])[1..] == s[1..] + [x];
      FilterSnoc(p, s[1..], x);
    }
  }

  /** Filtering twice with the same predicate changes nothing the second time. */
  lemma {:induction false} FilterIdempotent<T>(p: T -> bool, s: seq<T>)
    ensures Filter(p, Filter(p, s)) == Filter(p, s)
  {
    if |s| > 0 {
      FilterIdempotent(p, s[1..]);
      if p(s[0]) {
        var t := Filter(p, s);
        assert t == [s[0]] + Filter(p, s[1..]);
        assert t[1..] == Filter(p, s[1..]);
        assert Filter(p, t) == [t[0]] + Filter(p, t[1..]);
      } else {
        assert Filter(p, s) == Filter(p, s[1..]);
      }
    }
  }

  /** Reducing an extended list applies the callback once more, last. */
  lemma {:induction false} ReduceSnoc<A, T>(f: (A, T) -> A, init: A, s: seq<T>, x: T)
    ensures Reduce(f, init, s + [x]) == f(Reduce(f, init, s), x)
  {
    if |s| == 0 {
      assert s + [x] == [x];
      assert [x][1..] == [];
    } else {
      assert (s + [x])[1..] == s[1..] + [x];
      ReduceSnoc(f, f(init, s[0]), s[1..], x);
    }
  }

  /** The `map` loop: appends `f(s[k])` for k = 0, 1, ... */
  method MapLoop<A, B>(f: A -> B, s: seq<A>) returns (r: seq<B>)
    ensures r == Map(f, s)
  {
    r := [];
    var k := 0;
    while k < |s|
      invariant 0 <= k <= |s|
      invariant |r| == k
      invariant forall j :: 0 <= j < k ==> r[j] == f(s[j])
    {
      r := r + [f(s[k])];
      k := k + 1;
    }
  }

  /** The `filter` loop: appends `s[k]` whenever `p(s[k])` holds. */
  method FilterLoop<T>(p: T -> bool, s: seq<T>) returns (r: seq<T>)
    ensures r == Filter(p, s)
  {
    r := [];
    var k := 0;
    while k < |s|
      invariant 0 <= k <= |s|
      invariant r == Filter(p, s[..k])
    {
      assert s[..k + 1] == s[..k] + [s[k]];
      FilterSnoc(p, s[..k], s[k]);
      if p(s[k]) {
        r := r + [s[k]];
      }
      k := k + 1;
    }
    assert s[..k] == s;
  }

  /** The `reduce` loop: `acc := f(acc, s[k])` for k = 0, 1, ... */
  method ReduceLoop<A, T>(f: (A, T) -> A, init: A, s: seq<T>) returns (acc: A)
    ensures acc == Reduce(f, init, s)
  {
    acc := init;
    var k := 0;
    while k < |s|
      invariant 0 <= k <= |s|
      invariant acc == Reduce(f, init, s[..k])
    {
      assert s[..k + 1] == s[..k] + [s[k]];
      ReduceSnoc(f, init, s[..k], s[k]);
      acc := f(acc, s[k]);
      k := k + 1;
    }
    assert s[..k] == s;
  }
}
