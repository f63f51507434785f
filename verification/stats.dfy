/** Arithmetic helpers shared by the strength factors: minimum, maximum,
    clamping, and the "average of a sample, or a fallback when the sample
    is empty" pattern the scorer applies three times. All arithmetic is
    exact over `real`. */
module Stats {

  function Min(a: real, b: real): (r: real)
    ensures r <= a && r <= b
    ensures r == a || r == b
  {
    if a <= b then a else b
  }

  function Max(a: real, b: real): (r: real)
    ensures a <= r && b <= r
    ensures r == a || r == b
  {
    if a >= b then a else b
  }

  /** `min(max(x, lo), hi)`: with `lo <= hi`, the point of [lo, hi] nearest to `x`. */
  function Clamp(x: real, lo: real, hi: real): (r: real)
    ensures lo <= hi ==> lo <= r <= hi
    ensures lo <= x <= hi ==> r == x
    ensures x <= lo && lo <= hi ==> r == lo
    ensures hi <= x ==> r == hi
  {
    Min(Max(x, lo), hi)
  }

  lemma ClampMonotone(x: real, y: real, lo: real, hi: real)
    requires x <= y
    ensures Clamp(x, lo, hi) <= Clamp(y, lo, hi)
  {
  }

  /** A non-negative part over a positive whole is a ratio in [0, 1]. */
  lemma RatioAtMostOne(part: real, whole: real)
    requires 0.0 <= part <= whole && 0.0 < whole
    ensures 0.0 <= part / whole <= 1.0
  {
    var q := part / whole;
    assert q * whole == part;
    assert (1.0 - q) * whole == whole - part;
  }

  function Sum(xs: seq<real>): real
  {
    if |xs| == 0 then 0.0 else xs[0] + Sum(xs[1..])
  }

  lemma {:induction false} SumAppend(xs: seq<real>, ys: seq<real>)
    ensures Sum(xs + ys) == Sum(xs) + Sum(ys)
  {
    if |xs| == 0 {
      assert xs + ys == ys;
    } else {
      assert (xs + ys)[1..] == xs[1..] + ys;
      SumAppend(xs[1..], ys);
    }
  }

  lemma SumSnoc(xs: seq<real>, x: real)
    ensures Sum(xs + [x]) == Sum(xs) + x
  {
    SumAppend(xs, [x]);
    assert [x][1..] == [];
  }

  /** A sum of `n` terms, each at least `lo`, is at least `n * lo`. */
  lemma {:induction false} SumAtLeast(xs: seq<real>, lo: real)
    requires forall i :: 0 <= i < |xs| ==> lo <= xs[i]
    ensures |xs| as real * lo <= Sum(xs)
  {
    if |xs| > 0 {
      SumAtLeast(xs[1..], lo);
    }
  }

  /** A sum of `n` terms, each at most `hi`, is at most `n * hi`. */
  lemma {:induction false} SumAtMost(xs: seq<real>, hi: real)
    requires forall i :: 0 <= i < |xs| ==> xs[i] <= hi
    ensures Sum(xs) <= |xs| as real * hi
  {
    if |xs| > 0 {
      SumAtMost(xs[1..], hi);
    }
  }

  /** A non-empty sum of positive terms is positive. */
  lemma {:induction false} SumPositive(xs: seq<real>)
    requires |xs| > 0
    requires forall i :: 0 <= i < |xs| ==> xs[i] > 0.0
    ensures Sum(xs) > 0.0
  {
    if |xs| > 1 {
      SumPositive(xs[1..]);
    }
  }

  /** The mean of `xs`, or `default` when `xs` is empty. */
  function AvgOr(xs: seq<real>, default: real): (r: real)
    ensures |xs| == 0 ==> r == default
    ensures |xs| > 0 ==> r * |xs| as real == Sum(xs)
  {
    if |xs| == 0 then default else Sum(xs) / |xs| as real
  }

  /** The mean of a non-empty sample is at least any lower bound of its elements. */
  lemma AvgAtLeast(xs: seq<real>, default: real, lo: real)
    requires |xs| > 0
    requires forall i :: 0 <= i < |xs| ==> lo <= xs[i]
    ensures lo <= AvgOr(xs, default)
  {
    SumAtLeast(xs, lo);
    var n := |xs| as real;
    var a := AvgOr(xs, default);
    if a < lo {
      assert a * n < lo * n;
    }
  }

  /** The mean of a non-empty sample is at most any upper bound of its elements. */
  lemma AvgAtMost(xs: seq<real>, default: real, hi: real)
    requires |xs| > 0
    requires forall i :: 0 <= i < |xs| ==> xs[i] <= hi
    ensures AvgOr(xs, default) <= hi
  {
    SumAtMost(xs, hi);
    var n := |xs| as real;
    var a := AvgOr(xs, default);
    if a > hi {
      assert a * n > hi * n;
    }
  }

  /** The mean of a non-empty sample of positive values is positive. */
  lemma AvgPositive(xs: seq<real>, default: real)
    requires forall i :: 0 <= i < |xs| ==> xs[i] > 0.0
    ensures |xs| > 0 ==> AvgOr(xs, default) > 0.0
  {
    if |xs| > 0 {
      SumPositive(xs);
    }
  }
}
