/**
 * The arithmetic of the evaluation summary: mean, min and max of a score list, the
 * regression rule, and the difference tags of the printed summary. Scores are exact reals.
 */
module EvalStats {
  import opened Wrappers

  function Sum(xs: seq<real>): real {
    if xs == [] then 0.0 else Sum(xs[..|xs| - 1]) + xs[|xs| - 1]
  }

  /** Python's `min` on a non-empty list. */
  function Min(xs: seq<real>): (r: real)
    requires |xs| > 0
    ensures forall k :: 0 <= k < |xs| ==> r <= xs[k]
  {
    if |xs| == 1 then xs[0]
    else
      var m := Min(xs[..|xs| - 1]);
      assert forall k :: 0 <= k < |xs| - 1 ==> xs[..|xs| - 1][k] == xs[k];
      if xs[|xs| - 1] < m then xs[|xs| - 1] else m
  }

  /** Python's `max` on a non-empty list. */
  function Max(xs: seq<real>): (r: real)
    requires |xs| > 0
    ensures forall k :: 0 <= k < |xs| ==> xs[k] <= r
  {
    if |xs| == 1 then xs[0]
    else
      var m := Max(xs[..|xs| - 1]);
      assert forall k :: 0 <= k < |xs| - 1 ==> xs[..|xs| - 1][k] == xs[k];
      if xs[|xs| - 1] > m then xs[|xs| - 1] else m
  }

  /** The minimum and the maximum are elements of the list. */
  lemma {:induction false} MinMaxAttained(xs: seq<real>)
    requires |xs| > 0
    ensures Min(xs) in xs && Max(xs) in xs
  {
    if |xs| > 1 {
      var init := xs[..|xs| - 1];
      MinMaxAttained(init);
      assert xs == init + [xs[|xs| - 1]];
    }
  }

  function Mean(xs: seq<real>): real
    requires |xs| > 0
  {
    Sum(xs) / (|xs| as real)
  }

  /** A sum of values at least `lo` is at least n * lo. */
  lemma {:induction false} SumAtLeast(xs: seq<real>, lo: real)
    requires forall k :: 0 <= k < |xs| ==> lo <= xs[k]
    ensures (|xs| as real) * lo <= Sum(xs)
  {
    if xs != [] {
      var init := xs[..|xs| - 1];
      assert forall k :: 0 <= k < |init| ==> init[k] == xs[k];
      SumAtLeast(init, lo);
      var m := |init| as real;
      assert (m + 1.0) * lo == m * lo + lo;
    }
  }

  /** A sum of values at most `hi` is at most n * hi. */
  lemma {:induction false} SumAtMost(xs: seq<real>, hi: real)
    requires forall k :: 0 <= k < |xs| ==> xs[k] <= hi
    ensures Sum(xs) <= (|xs| as real) * hi
  {
    if xs != [] {
      var init := xs[..|xs| - 1];
      assert forall k :: 0 <= k < |init| ==> init[k] == xs[k];
      SumAtMost(init, hi);
      var m := |init| as real;
      assert (m + 1.0) * hi == m * hi + hi;
    }
  }

  /** The mean times the length is the sum. */
  lemma MeanTimesLength(xs: seq<real>)
    requires |xs| > 0
    ensures Mean(xs) * (|xs| as real) == Sum(xs)
  {
  }

  /** The mean lies between the minimum and the maximum. */
  lemma MeanBetween(xs: seq<real>)
    requires |xs| > 0
    ensures Min(xs) <= Mean(xs) <= Max(xs)
  {
    MeanWithin(xs, Min(xs), Max(xs));
  }

  /** The mean of values between `lo` and `hi` is between them. */
  lemma MeanWithin(xs: seq<real>, lo: real, hi: real)
    requires |xs| > 0
    requires forall k :: 0 <= k < |xs| ==> lo <= xs[k] <= hi
    ensures lo <= Mean(xs) <= hi
  {
    SumAtLeast(xs, lo);
    SumAtMost(xs, hi);
    DivBounds(Sum(xs), |xs| as real, lo, hi);
  }

  lemma DivBounds(s: real, n: real, lo: real, hi: real)
    requires n > 0.0 && n * lo <= s <= n * hi
    ensures lo <= s / n <= hi
  {
    var q := s / n;
    assert q * n == s;
    if q < lo {
      MulLess(q, lo, n);
    }
    if q > hi {
      MulLess(hi, q, n);
    }
  }

  /** Multiplying by a positive number keeps a strict order. */
  lemma MulLess(a: real, b: real, n: real)
    requires n > 0.0 && a < b
    ensures a * n < b * n
  {
    assert b * n - a * n == (b - a) * n;
  }

  /** The `{"mean", "min", "max"}` entry of a metric. */
  datatype Summary = Summary(mean: real, min: real, max: real)

  /** The summary entry of a score list: none for an empty list. */
  function Summarize(xs: seq<real>): (r: Option<Summary>)
    ensures r == None <==> xs == []
    ensures r.Some? ==> r.value.min <= r.value.mean <= r.value.max
    ensures r.Some? ==> r.value.min in xs && r.value.max in xs
    ensures r.Some? ==> forall k :: 0 <= k < |xs| ==> r.value.min <= xs[k] <= r.value.max
    ensures r.Some? ==> r.value.mean == Mean(xs)
  {
    if xs == [] then None
    else
      MeanBetween(xs);
      MinMaxAttained(xs);
      Some(Summary(Mean(xs), Min(xs), Max(xs)))
  }

  /** A drop of more than ten percent from a positive baseline mean, as `run_comparison` tests it. */
  predicate IsRegression(baseline: real, candidate: real) {
    baseline > 0.0 && (candidate - baseline) / baseline < -0.1
  }

  /** The rule without division: a candidate below nine tenths of a positive baseline. */
  lemma RegressionIff(baseline: real, candidate: real)
    ensures IsRegression(baseline, candidate) <==> baseline > 0.0 && candidate < 0.9 * baseline
  {
    if baseline > 0.0 {
      var q := (candidate - baseline) / baseline;
      assert q * baseline == candidate - baseline;
      if q < -0.1 {
        MulLess(q, -0.1, baseline);
      }
      if q >= -0.1 && candidate < 0.9 * baseline {
        if q > -0.1 {
          MulLess(-0.1, q, baseline);
        }
      }
    }
  }

  /** A drop of exactly ten percent, and any change from a baseline of zero or below, are not flagged. */
  lemma RegressionBoundaries(baseline: real, candidate: real)
    ensures !IsRegression(baseline, 0.9 * baseline)
    ensures baseline <= 0.0 ==> !IsRegression(baseline, candidate)
  {
    RegressionIff(baseline, 0.9 * baseline);
  }

  /** A mean of 4.0 falling to 3.4 (a 15 % drop) is a regression; falling to 3.7 (7.5 %) is not. */
  lemma RegressionExamples()
    ensures IsRegression(4.0, 3.4)
    ensures !IsRegression(4.0, 3.7)
  {
    RegressionIff(4.0, 3.4);
    RegressionIff(4.0, 3.7);
  }

  /**
   * The unrounded `drop_percent` of a regression record. It is positive exactly when the
   * candidate is below the baseline, and above ten exactly when the rule flags the pair.
   */
  function DropPercent(baseline: real, candidate: real): (r: real)
    requires baseline > 0.0
    ensures r > 0.0 <==> candidate < baseline
    ensures r > 10.0 <==> IsRegression(baseline, candidate)
  {
    var q := (candidate - baseline) / baseline;
    assert q * baseline == candidate - baseline;
    assert q < 0.0 ==> candidate < baseline by {
      if q < 0.0 { MulLess(q, 0.0, baseline); }
    }
    assert (baseline - candidate) / baseline == -q;
    (baseline - candidate) / baseline * 100.0
  }

  /** The mark `print_summary` puts after a difference. */
  datatype DiffTag = Warning | Improvement | Plain | NotAvailable

  /** The difference column: N/A unless both means exist, a warning below -0.3, an improvement above 0.1. */
  function DiffTagOf(baseline: Option<real>, candidate: Option<real>): (t: DiffTag)
    ensures t == NotAvailable <==> baseline.None? || candidate.None?
    ensures t == Warning <==> baseline.Some? && candidate.Some? && candidate.value - baseline.value < -0.3
    ensures t == Improvement <==> baseline.Some? && candidate.Some? && candidate.value - baseline.value > 0.1
  {
    if baseline.None? || candidate.None? then NotAvailable
    else
      var diff := candidate.value - baseline.value;
      if diff < -0.3 then Warning
      else if diff > 0.1 then Improvement
      else Plain
  }

  /** Differences within [-0.3, 0.1] get no mark. */
  lemma PlainBand(baseline: real, candidate: real)
    ensures DiffTagOf(Some(baseline), Some(candidate)) == Plain <==> -0.3 <= candidate - baseline <= 0.1
  {
  }
}
