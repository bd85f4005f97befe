/**
 * get_random_weighted_element: a uniform draw r in [1, sum(weights)] walks
 * the weights, subtracting each one, and stops at the first index where
 * the remainder is no longer positive. The draw is a parameter here, so the
 * pick itself is deterministic.
 */
module Sampler {
  import opened Php

  /** array_sum of the first n weights. */
  function PrefixSum(w: seq<int>, n: nat): int
    requires n <= |w|
  {
    if n == 0 then 0 else PrefixSum(w, n - 1) + w[n - 1]
  }

  /** array_sum. */
  function Sum(w: seq<int>): int {
    PrefixSum(w, |w|)
  }

  /** The sum of the weights up to and including index i. */
  function Through(w: seq<int>, i: nat): int
    requires i < |w|
  {
    PrefixSum(w, i + 1)
  }

  /** i is the least index whose running total reaches r. */
  ghost predicate LeastCover(w: seq<int>, r: int, i: nat) {
    i < |w| && Through(w, i) >= r && forall j :: 0 <= j < i ==> Through(w, j) < r
  }

  /** No running total reaches r. */
  ghost predicate NoCover(w: seq<int>, r: int) {
    forall j :: 0 <= j < |w| ==> Through(w, j) < r
  }

  /** The walk from index i on, with rand the part of the draw still to be used up. */
  function PickFrom(w: seq<int>, rand: int, i: nat): (k: Option<nat>)
    requires i <= |w|
    ensures k.Some? ==> i <= k.value < |w|
    ensures k.Some? ==> rand - (Through(w, k.value) - PrefixSum(w, i)) <= 0
    ensures k.Some? ==> forall j :: i <= j < k.value ==> rand - (Through(w, j) - PrefixSum(w, i)) > 0
    ensures k.None? ==> forall j :: i <= j < |w| ==> rand - (Through(w, j) - PrefixSum(w, i)) > 0
    decreases |w| - i
  {
    if i == |w| then None
    else if rand - w[i] <= 0 then Some(i)
    else PickFrom(w, rand - w[i], i + 1)
  }

  /** The index get_random_weighted_element returns for the draw r; None for PHP's fall-through null. */
  function PickIndex(w: seq<int>, r: int): (k: Option<nat>)
    ensures k.Some? ==> LeastCover(w, r, k.value)
    ensures k.None? ==> NoCover(w, r)
  {
    PickFrom(w, r, 0)
  }

  /** The foreach loop of get_random_weighted_element, with the mt_rand draw passed in. */
  method WeightedPick(w: seq<int>, r: int) returns (k: Option<nat>)
    ensures k.Some? ==> LeastCover(w, r, k.value)
    ensures k.None? ==> NoCover(w, r)
  {
    var rand := r;
    var i := 0;
    while i < |w|
      invariant 0 <= i <= |w|
      invariant rand == r - PrefixSum(w, i)
      invariant forall j :: 0 <= j < i ==> Through(w, j) < r
    {
      rand := rand - w[i];
      if rand <= 0 {
        return Some(i);
      }
      i := i + 1;
    }
    return None;
  }

  /** The least covering index is unique, so the loop and the function agree. */
  lemma {:induction false} LeastCoverUnique(w: seq<int>, r: int, i: nat, j: nat)
    requires LeastCover(w, r, i) && LeastCover(w, r, j)
    ensures i == j
  {
  }

  lemma {:induction false} WeightedPickIsPickIndex(w: seq<int>, r: int, k: Option<nat>)
    requires k.Some? ==> LeastCover(w, r, k.value)
    requires k.None? ==> NoCover(w, r)
    ensures k == PickIndex(w, r)
  {
    var p := PickIndex(w, r);
    if k.Some? && p.Some? {
      LeastCoverUnique(w, r, k.value, p.value);
    }
  }

  /**
   * When r is a draw in [1, sum(weights)], a pick exists and it lands on a
   * positive weight, so a weight of 0 is never selected.
   */
  lemma {:induction false} PickPositive(w: seq<int>, r: int)
    requires 1 <= r <= Sum(w)
    ensures PickIndex(w, r).Some?
    ensures w[PickIndex(w, r).value] > 0
  {
    assert |w| > 0;
    assert Through(w, |w| - 1) == Sum(w);
    var i := PickIndex(w, r).value;
    if i > 0 {
      assert Through(w, i - 1) < r;
    }
  }

  /** array_fill(0, n, 1); an n of zero or less gives an empty list. */
  function Fill(n: int): (w: seq<int>)
    ensures |w| == if n <= 0 then 0 else n
    ensures forall i :: 0 <= i < |w| ==> w[i] == 1
  {
    if n <= 0 then [] else seq(n, _ => 1)
  }

  lemma {:induction false} PrefixSumOnes(w: seq<int>, n: nat)
    requires n <= |w| && forall i :: 0 <= i < |w| ==> w[i] == 1
    ensures PrefixSum(w, n) == n
  {
    if n > 0 {
      PrefixSumOnes(w, n - 1);
    }
  }

  /** With equal weights of 1 the pick for the draw r is r - 1: every bucket is equally likely. */
  lemma {:induction false} PickUniform(n: int, r: int)
    requires 1 <= r <= n
    ensures PickIndex(Fill(n), r) == Some(r - 1)
  {
    var w := Fill(n);
    forall j | 0 <= j < |w|
      ensures Through(w, j) == j + 1
    {
      PrefixSumOnes(w, j + 1);
    }
    assert LeastCover(w, r, r - 1);
    WeightedPickIsPickIndex(w, r, Some(r - 1));
  }

  lemma {:induction false} PrefixSumMonotone(w: seq<int>, m: nat, n: nat)
    requires m <= n <= |w| && forall i :: 0 <= i < |w| ==> w[i] >= 0
    ensures PrefixSum(w, m) <= PrefixSum(w, n)
    decreases n - m
  {
    if m < n {
      PrefixSumMonotone(w, m, n - 1);
    }
  }

  predicate Within(r: int, a: int, b: int) {
    a < r <= b
  }

  /** |{r | a < r <= b}| == b - a. */
  lemma {:induction false} IntervalSize(a: int, b: int)
    requires a <= b
    ensures |set r | a < r <= b && Within(r, a, b)| == b - a
    decreases b - a
  {
    if a < b {
      var c := b - 1;
      IntervalSize(a, c);
      assert (set r | a < r <= b && Within(r, a, b)) == (set r | a < r <= c && Within(r, a, c)) + {b};
    } else {
      assert (set r | a < r <= b && Within(r, a, b)) == {};
    }
  }

  /**
   * Exactly weights[i] of the sum(weights) equally likely draws select
   * index i: each index is picked with probability weight / sum.
   */
  lemma {:induction false} PickDistribution(w: seq<int>, i: nat)
    requires i < |w| && forall j :: 0 <= j < |w| ==> w[j] >= 0
    ensures |set r | 1 <= r <= Sum(w) && PickIndex(w, r) == Some(i)| == w[i]
  {
    var lo, hi := PrefixSum(w, i), Through(w, i);
    PrefixSumMonotone(w, 0, i);
    PrefixSumMonotone(w, i + 1, |w|);
    var hits := set r | 1 <= r <= Sum(w) && PickIndex(w, r) == Some(i);
    forall r | lo < r <= hi
      ensures r in hits
    {
      forall j | 0 <= j < i
        ensures Through(w, j) < r
      {
        PrefixSumMonotone(w, j + 1, i);
      }
      assert LeastCover(w, r, i);
      WeightedPickIsPickIndex(w, r, Some(i));
    }
    forall r | r in hits
      ensures lo < r <= hi
    {
      if i > 0 {
        assert Through(w, i - 1) < r;
      }
    }
    assert hits == set r | lo < r <= hi && Within(r, lo, hi);
    IntervalSize(lo, hi);
  }
}
