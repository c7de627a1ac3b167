/**
 The combinator script: converting a USD price list to INR with `map`,
 keeping the expensive prices with `filter`, and totalling a cart with
 `reduce` starting from 0.
 */
module MapReduceFilter {
  import opened Sums
  import opened ArrayMethods

  /** Rupees per dollar used by the conversion. */
  const ExchangeRate: int := 85

  /** A price is expensive when it exceeds this bound (strictly). */
  const ExpensiveThreshold: int := 10000

  const PriceUSD: seq<int> := [10, 20, 30, 40, 50]
  const Prices: seq<int> := [5000, 12000, 3000, 20000, 80000]
  const CartPrices: seq<int> := [100000, 250000, 30000, 15000]

  /** The `map` callback `price => price*85`. */
  function ToINR(price: int): int
  {
    price * ExchangeRate
  }

  /** Undoes the conversion: every INR amount produced by `ToINR` is an exact
      multiple of the rate, so dividing by it recovers the dollar price. */
  function ToUSD(priceINR: int): int
  {
    priceINR / ExchangeRate
  }

  /** The `filter` callback `price => price > 10000`. */
  predicate IsExpensive(price: int)
  {
    price > ExpensiveThreshold
  }

  /** The `reduce` callback `(total, price) => total + price`. */
  function Add(total: int, price: int): int
  {
    total + price
  }

  /** Converting every price to INR and back gives the original list. */
  lemma ConversionRoundTrip(usd: seq<int>)
    ensures Map(ToUSD, Map(ToINR, usd)) == usd
  {
  }

  /** Converting to INR multiplies the list's total by the rate. */
  lemma {:induction false} ConversionScalesTotal(usd: seq<int>)
    ensures Sum(Map(ToINR, usd)) == ExchangeRate * Sum(usd)
  {
    if |usd| > 0 {
      ConversionScalesTotal(usd[1..]);
      assert Map(ToINR, usd)[1..] == Map(ToINR, usd[1..]);
    }
  }

  /** Every kept price is expensive, every expensive input price is kept as
      often as it occurs, nothing else is, and the input order is preserved. */
  lemma ExpensiveItemsAreExactlyTheExpensivePrices(prices: seq<int>)
    ensures forall i :: 0 <= i < |Filter(IsExpensive, prices)| ==> Filter(IsExpensive, prices)[i] > ExpensiveThreshold
    ensures forall x :: x in Filter(IsExpensive, prices) <==> x in prices && x > ExpensiveThreshold
    ensures forall x :: multiset(Filter(IsExpensive, prices))[x] == if x > ExpensiveThreshold then multiset(prices)[x] else 0
    ensures IsSubsequence(Filter(IsExpensive, prices), prices)
  {
    FilterKeepsExactlyMatches(IsExpensive, prices);
    FilterIsSubsequence(IsExpensive, prices);
  }

  /** Reducing with `+` from any start adds the sum of the list to that start;
      from 0 it is the sum itself, and 0 on an empty list. */
  lemma {:induction false} ReduceAddIsSum(s: seq<int>, init: int)
    ensures Reduce(Add, init, s) == init + Sum(s)
  {
    if |s| > 0 {
      ReduceAddIsSum(s[1..], Add(init, s[0]));
    }
  }

  /** The whole script: the three values it logs, in order. */
  method Script() returns (priceINR: seq<int>, expensiveItems: seq<int>, totalBill: int)
    ensures priceINR == [850, 1700, 2550, 3400, 4250]
    ensures expensiveItems == [12000, 20000, 80000]
    ensures totalBill == 395000
  {
    priceINR := MapLoop(ToINR, PriceUSD);
    expensiveItems := FilterLoop(IsExpensive, Prices);
    totalBill := ReduceLoop(Add, 0, CartPrices);
    ReduceAddIsSum(CartPrices, 0);
    assert Prices[1..][1..][1..][1..][1..] == [];
    assert CartPrices[1..][1..][1..][1..] == [];
  }
}
