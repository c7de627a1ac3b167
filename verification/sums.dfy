/**
 The reference meaning of "the total of a price list": the mathematical sum of
 a sequence of integers. Prices in the modelled scripts are small whole numbers,
 so JavaScript's number addition on them is exact and `int` models it.
 */
module Sums {

  /** The sum of all elements of `s`, taken from the front. */
  function Sum(s: seq<int>): int
  {
    if |s| == 0 then 0 else s[0] + Sum(s[1..])
  }

  /** Every element of `s` is at least zero (a price list without refunds). */
  predicate NonNegative(s: seq<int>)
  {
    forall i :: 0 <= i < |s| ==> s[i] >= 0
  }

  /** The sum of a concatenation is the sum of its parts. */
  lemma {:induction false} SumConcat(a: seq<int>, b: seq<int>)
    ensures Sum(a + b) == Sum(a) + Sum(b)
  {
    if |a| == 0 {
      assert a + b == b;
    } else {
      assert (a + b)[1..] == a[1..] + b;
      SumConcat(a[1..], b);
    }
  }

  /** Extending a prefix by one element adds exactly that element to its sum. */
  lemma {:induction false} SumPrefixStep(s: seq<int>, k: int)
    requires 0 <= k < |s|
    ensures Sum(s[..k + 1]) == Sum(s[..k]) + s[k]
  {
    assert s[..k + 1] == s[..k] + [s[k]];
    SumConcat(s[..k], [s[k]]);
    assert Sum([s[k]]) == s[k] + Sum([]);
  }

  /** A list of non-negative prices has a non-negative total. */
  lemma {:induction false} SumNonNegative(s: seq<int>)
    requires NonNegative(s)
    ensures Sum(s) >= 0
  {
    if |s| > 0 {
      SumNonNegative(s[1..]);
    }
  }

  /** With non-negative prices, a longer prefix never has a smaller total. */
  lemma {:induction false} PrefixSumMonotone(s: seq<int>, i: int, j: int)
    requires NonNegative(s)
    requires 0 <= i <= j <= |s|
    ensures Sum(s[..i]) <= Sum(s[..j])
  {
    assert s[..j] == s[..i] + s[i..j];
    SumConcat(s[..i], s[i..j]);
    SumNonNegative(s[i..j]);
  }
}
