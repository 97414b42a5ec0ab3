/**
 * Exact arithmetic behind the averages and deviations. The source computes
 * them in floating point; here they are rationals, so "mean" and "variance"
 * mean exactly what they say.
 */
module Scores {

  /** Sum of a list of scores, folded from the end so that a list that grows
      one score at a time unfolds in one step. */
  function Sum(s: seq<int>): int
  {
    if s == [] then 0 else Sum(s[..|s| - 1]) + s[|s| - 1]
  }

  /** Arithmetic mean; 0 for the empty list, as an unvoted ranking entry keeps 0. */
  function Mean(s: seq<int>): real
  {
    if |s| == 0 then 0.0 else Sum(s) as real / |s| as real
  }

  /** Sum of squared deviations of the scores from `m`. */
  function SqDev(s: seq<int>, m: real): real
  {
    if s == [] then 0.0
    else SqDev(s[..|s| - 1], m) + (s[|s| - 1] as real - m) * (s[|s| - 1] as real - m)
  }

  /** Population variance (denominator n): the square of the standard deviation the source reports. */
  function Variance(s: seq<int>): real
  {
    if |s| == 0 then 0.0 else SqDev(s, Mean(s)) / |s| as real
  }

  /** The incremental update `(avg * (n - 1) + score) / n` yields exactly the mean of the
      scores seen so far: the running average never drifts from the batch average. */
  lemma MeanStep(s: seq<int>, x: int)
    ensures Mean(s + [x]) == (Mean(s) * |s| as real + x as real) / (|s| + 1) as real
  {
  }

  lemma {:induction false} SumBounds(s: seq<int>, lo: int, hi: int)
    requires forall i :: 0 <= i < |s| ==> lo <= s[i] <= hi
    ensures |s| * lo <= Sum(s) <= |s| * hi
  {
    if s != [] {
      SumBounds(s[..|s| - 1], lo, hi);
    }
  }

  /** Scores in [lo, hi] have a mean in [lo, hi]: with scores in [0, 10] every average does too. */
  lemma MeanBounds(s: seq<int>, lo: int, hi: int)
    requires |s| > 0
    requires forall i :: 0 <= i < |s| ==> lo <= s[i] <= hi
    ensures lo as real <= Mean(s) <= hi as real
  {
    SumBounds(s, lo, hi);
    QuotientBounds(Sum(s), |s|, lo, hi);
  }

  /** Dividing a total that lies between `n * lo` and `n * hi` by `n` lands between `lo` and `hi`. */
  lemma QuotientBounds(total: int, n: nat, lo: int, hi: int)
    requires n > 0 && n * lo <= total <= n * hi
    ensures lo as real <= total as real / n as real <= hi as real
  {
    var q := total as real / n as real;
    assert (q - lo as real) * n as real == (total - n * lo) as real;
    assert (hi as real - q) * n as real == (n * hi - total) as real;
  }

  lemma {:induction false} SqDevNonNegative(s: seq<int>, m: real)
    ensures SqDev(s, m) >= 0.0
  {
    if s != [] {
      SqDevNonNegative(s[..|s| - 1], m);
    }
  }

  /** Deviations from a value every score equals add up to nothing. */
  lemma {:induction false} SqDevAtCommonValue(s: seq<int>, m: real)
    requires forall i :: 0 <= i < |s| ==> s[i] as real == m
    ensures SqDev(s, m) == 0.0
  {
    if s != [] {
      SqDevAtCommonValue(s[..|s| - 1], m);
    }
  }

  lemma {:induction false} SumConstant(s: seq<int>, c: int)
    requires forall i :: 0 <= i < |s| ==> s[i] == c
    ensures Sum(s) == |s| * c
  {
    if s != [] {
      SumConstant(s[..|s| - 1], c);
    }
  }

  /** The variance is never negative (so comparing variances orders standard deviations). */
  lemma VarianceNonNegative(s: seq<int>)
    ensures Variance(s) >= 0.0
  {
    if |s| > 0 {
      SqDevNonNegative(s, Mean(s));
    }
  }

  /** A performance every voter scored alike has no spread, so it is the most consensual possible. */
  lemma UnanimousHasZeroVariance(s: seq<int>, c: int)
    requires |s| > 0
    requires forall i :: 0 <= i < |s| ==> s[i] == c
    ensures Mean(s) == c as real
    ensures Variance(s) == 0.0
  {
    SumConstant(s, c);
    assert Sum(s) as real == |s| as real * c as real;
    SqDevAtCommonValue(s, c as real);
  }

  /**
   * Sum of the values of `m` over `keys`, in no particular order. The source
   * iterates a PHP array in insertion order; a sum does not depend on it.
   */
  ghost function SumOver(m: map<string, int>, keys: set<string>): int
    requires keys <= m.Keys
    decreases keys
  {
    if keys == {} then 0 else var k :| k in keys; m[k] + SumOver(m, keys - {k})
  }

  /** Any key can be peeled off first: the order of summation is irrelevant. */
  lemma {:induction false} SumOverRemove(m: map<string, int>, keys: set<string>, k: string)
    requires keys <= m.Keys && k in keys
    ensures SumOver(m, keys) == m[k] + SumOver(m, keys - {k})
    decreases keys
  {
    var j :| j in keys && SumOver(m, keys) == m[j] + SumOver(m, keys - {j});
    if j != k {
      SumOverRemove(m, keys - {j}, k);
      SumOverRemove(m, keys - {k}, j);
      assert keys - {j} - {k} == keys - {k} - {j};
    }
  }
}
