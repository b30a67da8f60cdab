/**
 * The statistical noise filter of the GrovePi driver: drop the samples that
 * lie `k` population standard deviations or more away from the mean and keep
 * the rest in their original order.
 *
 * Samples are reals.  Dafny has no square root, so the standard deviation
 * `sigma` is passed in together with the requirement that it is the
 * non-negative square root of the population variance.
 */
module NoiseFilter {

  function Sum(xs: seq<real>): real
  {
    if xs == [] then 0.0 else xs[0] + Sum(xs[1..])
  }

  /** The arithmetic mean (numpy.mean). */
  function Mean(xs: seq<real>): real
    requires |xs| > 0
  {
    Sum(xs) / (|xs| as real)
  }

  /** The sum of squared deviations of the samples from `m`. */
  function SquaredDeviations(xs: seq<real>, m: real): real
  {
    if xs == [] then 0.0 else (xs[0] - m) * (xs[0] - m) + SquaredDeviations(xs[1..], m)
  }

  /** The population variance, the square of numpy.std (no Bessel correction). */
  function Variance(xs: seq<real>): real
    requires |xs| > 0
  {
    SquaredDeviations(xs, Mean(xs)) / (|xs| as real)
  }

  /**
   * `sigma` is numpy.std(xs): the non-negative square root of the variance.
   * The last conjunct (a zero variance has the root zero) follows from the
   * first two over the reals; it is stated because the solver does not
   * derive it from `sigma * sigma == 0.0`.
   */
  predicate IsStandardDeviation(xs: seq<real>, sigma: real)
    requires |xs| > 0
  {
    0.0 <= sigma && sigma * sigma == Variance(xs) && (Variance(xs) == 0.0 ==> sigma == 0.0)
  }

  /** The first comprehension: the samples strictly above `lo`, in order. */
  function KeepAbove(xs: seq<real>, lo: real): seq<real>
  {
    if xs == [] then []
    else (if xs[0] > lo then [xs[0]] else []) + KeepAbove(xs[1..], lo)
  }

  /** The second comprehension: the samples strictly below `hi`, in order. */
  function KeepBelow(xs: seq<real>, hi: real): seq<real>
  {
    if xs == [] then []
    else (if xs[0] < hi then [xs[0]] else []) + KeepBelow(xs[1..], hi)
  }

  /** The reference filter: one pass keeping the samples strictly between `lo` and `hi`. */
  function KeepBetween(xs: seq<real>, lo: real, hi: real): seq<real>
  {
    if xs == [] then []
    else (if lo < xs[0] < hi then [xs[0]] else []) + KeepBetween(xs[1..], lo, hi)
  }

  /** The two successive comprehensions are one filter on the conjunction. */
  lemma {:induction false} TwoPassesAreOne(xs: seq<real>, lo: real, hi: real)
    ensures KeepBelow(KeepAbove(xs, lo), hi) == KeepBetween(xs, lo, hi)
  {
    if xs != [] {
      TwoPassesAreOne(xs[1..], lo, hi);
      var rest := KeepAbove(xs[1..], lo);
      if xs[0] > lo {
        assert KeepAbove(xs, lo) == [xs[0]] + rest;
        assert ([xs[0]] + rest)[1..] == rest;
      } else {
        assert KeepAbove(xs, lo) == rest;
      }
    }
  }

  /**
   * statisticalNoiseReduction(values, k): empty input gives [], zero spread
   * gives the input unchanged, otherwise the samples strictly inside
   * (mean - k*sigma, mean + k*sigma), in their original order.
   */
  function StatisticalNoiseReduction(values: seq<real>, k: real, sigma: real): (r: seq<real>)
    requires |values| > 0 ==> IsStandardDeviation(values, sigma)
    ensures values == [] ==> r == []
    ensures values != [] && sigma == 0.0 ==> r == values
    ensures values != [] && sigma != 0.0 ==>
      r == KeepBetween(values, Mean(values) - k * sigma, Mean(values) + k * sigma)
  {
    if |values| == 0 then []
    else
      var mean := Mean(values);
      if sigma == 0.0 then values
      else
        var filtered := KeepAbove(values, mean - k * sigma);
        TwoPassesAreOne(values, mean - k * sigma, mean + k * sigma);
        KeepBelow(filtered, mean + k * sigma)
  }

  /**
   * The positions, from `from` on, of the samples the reference filter
   * keeps, in increasing order.
   */
  function KeptIndices(xs: seq<real>, lo: real, hi: real, from: nat): (idx: seq<nat>)
    requires from <= |xs|
    ensures forall j :: 0 <= j < |idx| ==> from <= idx[j] < |xs|
    ensures forall j :: 0 <= j < |idx| - 1 ==> idx[j] < idx[j + 1]
    decreases |xs| - from
  {
    if from == |xs| then []
    else
      var rest := KeptIndices(xs, lo, hi, from + 1);
      if lo < xs[from] < hi then [from] + rest else rest
  }

  /** A position is kept exactly when its sample lies strictly inside the band. */
  lemma {:induction false} KeptIndicesExact(xs: seq<real>, lo: real, hi: real, from: nat, i: nat)
    requires from <= i < |xs|
    ensures i in KeptIndices(xs, lo, hi, from) <==> lo < xs[i] < hi
    decreases |xs| - from
  {
    if from < i {
      KeptIndicesExact(xs, lo, hi, from + 1, i);
    }
  }

  /** The filter's output on `xs[from..]` is `xs` read at the kept positions. */
  lemma {:induction false} KeptIndicesSelect(xs: seq<real>, lo: real, hi: real, from: nat)
    requires from <= |xs|
    ensures var r, idx := KeepBetween(xs[from..], lo, hi), KeptIndices(xs, lo, hi, from);
      |r| == |idx| && forall j :: 0 <= j < |idx| ==> r[j] == xs[idx[j]]
    decreases |xs| - from
  {
    if from < |xs| {
      KeptIndicesSelect(xs, lo, hi, from + 1);
      assert xs[from..][1..] == xs[from + 1..];
    }
  }

  /**
   * The filter's output is an order-preserving subsequence of its input,
   * made of exactly the samples that lie strictly inside the band.
   */
  lemma KeepBetweenIsSubsequence(xs: seq<real>, lo: real, hi: real)
    ensures var r, idx := KeepBetween(xs, lo, hi), KeptIndices(xs, lo, hi, 0);
      |r| == |idx| &&
      (forall j :: 0 <= j < |idx| - 1 ==> idx[j] < idx[j + 1]) &&
      (forall j :: 0 <= j < |idx| ==> idx[j] < |xs| && r[j] == xs[idx[j]]) &&
      (forall i :: 0 <= i < |xs| ==> (i in idx <==> lo < xs[i] < hi))
  {
    KeptIndicesSelect(xs, lo, hi, 0);
    assert xs[0..] == xs;
    forall i | 0 <= i < |xs|
      ensures i in KeptIndices(xs, lo, hi, 0) <==> lo < xs[i] < hi
    {
      KeptIndicesExact(xs, lo, hi, 0, i);
    }
  }

  /** How often a value occurs in the filter's output: as often as in the input if it is inside the band, else never. */
  lemma {:induction false} KeepBetweenCounts(xs: seq<real>, lo: real, hi: real, x: real)
    ensures multiset(KeepBetween(xs, lo, hi))[x] == if lo < x < hi then multiset(xs)[x] else 0
  {
    if xs != [] {
      KeepBetweenCounts(xs[1..], lo, hi, x);
      assert xs == [xs[0]] + xs[1..];
    }
  }

  /** Exact membership: a value survives the filter iff it is a sample strictly inside the band. */
  lemma KeepBetweenMembers(xs: seq<real>, lo: real, hi: real, x: real)
    ensures x in KeepBetween(xs, lo, hi) <==> x in xs && lo < x < hi
  {
    KeepBetweenCounts(xs, lo, hi, x);
  }

  /**
   * Membership in the noise filter's result: a value comes back iff it is
   * one of the samples and either the spread is zero or it lies less than
   * `k * sigma` away from the mean.
   */
  lemma NoiseReductionMembers(values: seq<real>, k: real, sigma: real, x: real)
    requires |values| > 0 && IsStandardDeviation(values, sigma)
    ensures x in StatisticalNoiseReduction(values, k, sigma) <==>
      x in values && (sigma == 0.0 || Mean(values) - k * sigma < x < Mean(values) + k * sigma)
  {
    var r := StatisticalNoiseReduction(values, k, sigma);
    if sigma != 0.0 {
      var lo, hi := Mean(values) - k * sigma, Mean(values) + k * sigma;
      assert r == KeepBetween(values, lo, hi);
      KeepBetweenMembers(values, lo, hi, x);
    }
  }

  lemma SquareNonNegative(d: real)
    ensures d * d >= 0.0
  {
  }

  lemma {:induction false} SquaredDeviationsNonNegative(xs: seq<real>, m: real)
    ensures SquaredDeviations(xs, m) >= 0.0
  {
    if xs != [] {
      SquareNonNegative(xs[0] - m);
      SquaredDeviationsNonNegative(xs[1..], m);
    }
  }

  /** The population variance is never negative, so a standard deviation always exists. */
  lemma VarianceNonNegative(xs: seq<real>)
    requires |xs| > 0
    ensures Variance(xs) >= 0.0
  {
    SquaredDeviationsNonNegative(xs, Mean(xs));
  }

  lemma {:induction false} SumConstant(xs: seq<real>, c: real)
    requires forall i :: 0 <= i < |xs| ==> xs[i] == c
    ensures Sum(xs) == (|xs| as real) * c
  {
    if xs != [] {
      SumConstant(xs[1..], c);
    }
  }

  lemma {:induction false} SquaredDeviationsOfConstant(xs: seq<real>, c: real)
    requires forall i :: 0 <= i < |xs| ==> xs[i] == c
    ensures SquaredDeviations(xs, c) == 0.0
  {
    if xs != [] {
      SquaredDeviationsOfConstant(xs[1..], c);
    }
  }

  /** A run of identical samples has zero spread and comes back unchanged. */
  lemma IdenticalSamplesUnchanged(values: seq<real>, k: real, sigma: real)
    requires |values| > 0 && IsStandardDeviation(values, sigma)
    requires forall i :: 0 <= i < |values| ==> values[i] == values[0]
    ensures sigma == 0.0
    ensures StatisticalNoiseReduction(values, k, sigma) == values
  {
    SumConstant(values, values[0]);
    assert Mean(values) == values[0];
    SquaredDeviationsOfConstant(values, values[0]);
  }

  /** A single sample comes back unchanged, whatever `k`. */
  lemma SingleSampleUnchanged(x: real, k: real, sigma: real)
    requires IsStandardDeviation([x], sigma)
    ensures StatisticalNoiseReduction([x], k, sigma) == [x]
  {
    assert Sum([x]) == x;
    assert Mean([x]) == x;
    assert SquaredDeviations([x], x) == 0.0;
  }

  /** [10, 10, 10, 10, 1000] has mean 208 and standard deviation 396; with k = 1 the outlier goes. */
  lemma OutlierRemoved()
    ensures IsStandardDeviation([10.0, 10.0, 10.0, 10.0, 1000.0], 396.0)
    ensures StatisticalNoiseReduction([10.0, 10.0, 10.0, 10.0, 1000.0], 1.0, 396.0) == [10.0, 10.0, 10.0, 10.0]
  {
    var xs := [10.0, 10.0, 10.0, 10.0, 1000.0];
    assert Sum(xs) == 1040.0;
    assert Mean(xs) == 208.0;
    assert SquaredDeviations(xs, 208.0) == 784080.0;
  }
}
