/**
 * Values shared by every part of the speaking-coach model: an Option type,
 * a JavaScript number that may be NaN, 2D landmark points and the sums and
 * means the scoring code takes over sequences of reals.
 */
module Common {

  datatype Option<+T> = None | Some(value: T)

  /**
   * A JavaScript number as it appears after the source's clamps.  Every
   * division the model meets is either finite or followed by `Math.min(1, .)`,
   * which turns +Infinity into 1, so the only non-finite value that survives
   * is NaN.
   */
  datatype Num = Val(v: real) | NaN

  /** `a < c` in JavaScript: false whenever `a` is NaN. */
  predicate Below(a: Num, c: real) {
    a.Val? && a.v < c
  }

  /** `a > c` in JavaScript: false whenever `a` is NaN. */
  predicate Above(a: Num, c: real) {
    a.Val? && a.v > c
  }

  /** `a + b`: NaN is absorbing. */
  function Plus(a: Num, b: Num): (r: Num)
    ensures r.NaN? <==> a.NaN? || b.NaN?
  {
    if a.Val? && b.Val? then Val(a.v + b.v) else NaN
  }

  /** `k * a` for a finite constant `k`. */
  function Scale(k: real, a: Num): (r: Num)
    ensures r.NaN? <==> a.NaN?
  {
    if a.Val? then Val(k * a.v) else NaN
  }

  /** `Math.min(1, a)`: NaN stays NaN. */
  function AtMostOne(a: Num): (r: Num)
    ensures r.NaN? <==> a.NaN?
    ensures r.Val? ==> r.v <= 1.0 && (a.v <= 1.0 ==> r.v == a.v)
  {
    if a.Val? then Val(if a.v < 1.0 then a.v else 1.0) else NaN
  }

  function Abs(x: real): (r: real)
    ensures r >= 0.0 && (r == x || r == -x)
  {
    if x < 0.0 then -x else x
  }

  function Max(a: real, b: real): (r: real)
    ensures r >= a && r >= b && (r == a || r == b)
  {
    if a < b then b else a
  }

  function Min(a: real, b: real): (r: real)
    ensures r <= a && r <= b && (r == a || r == b)
  {
    if a < b then a else b
  }

  /** `Math.max(0, Math.min(1, x))`. */
  function Clamp01(x: real): (r: real)
    ensures 0.0 <= r <= 1.0
    ensures 0.0 <= x <= 1.0 ==> r == x
    ensures x <= 0.0 ==> r == 0.0
    ensures x >= 1.0 ==> r == 1.0
  {
    Max(0.0, Min(1.0, x))
  }

  /**
   * `Math.max(0, Math.min(1, n / d))` for a non-negative numerator and
   * denominator, as JavaScript evaluates it: `n / 0` is +Infinity (clamped to
   * 1) when `n > 0` and NaN when `n == 0`.
   */
  function ClampedRatio(n: real, d: real): (r: Num)
    requires n >= 0.0 && d >= 0.0
    ensures r.NaN? <==> n == 0.0 && d == 0.0
    ensures r.Val? ==> 0.0 <= r.v <= 1.0
    ensures d > 0.0 && n <= d ==> r == Val(n / d)
  {
    if d == 0.0 then (if n == 0.0 then NaN else Val(1.0)) else Val(Clamp01(n / d))
  }

  /** `Math.round(x)`: the nearest integer, halves rounded up. */
  function Round(x: real): (r: int)
    ensures x - 0.5 < r as real <= x + 0.5
  {
    (x + 0.5).Floor
  }

  /** For a positive divisor, comparing the quotient is comparing the cross product. */
  lemma RatioCompare(w: real, d: real, c: real)
    requires d > 0.0
    ensures w / d > c <==> w > c * d
    ensures w / d >= c <==> w >= c * d
  {
    assert (w / d) * d == w;
    if w / d > c {
      assert (w / d) * d > c * d;
    }
    if w > c * d {
      assert (w / d) * d > c * d;
    }
    if w / d >= c {
      assert (w / d) * d >= c * d;
    }
    if w >= c * d {
      assert (w / d) * d >= c * d;
    }
  }

  /** A landmark as the face-mesh model reports it (x and y, normalised to the frame). */
  datatype Point = Point(x: real, y: real)

  /** One frame's landmark set; an absent key is a landmark the model did not report. */
  type Landmarks = map<nat, Point>

  function Sum(xs: seq<real>): real
  {
    if xs == [] then 0.0 else Sum(xs[..|xs| - 1]) + xs[|xs| - 1]
  }

  /** The arithmetic mean; the callers guard the empty case themselves. */
  function Mean(xs: seq<real>): real
    requires |xs| > 0
  {
    Sum(xs) / |xs| as real
  }

  lemma {:induction false} SumAppend(xs: seq<real>, x: real)
    ensures Sum(xs + [x]) == Sum(xs) + x
  {
    assert (xs + [x])[..|xs|] == xs;
  }

  /** Every element between `lo` and `hi` puts the sum between `n*lo` and `n*hi`. */
  lemma {:induction false} SumBounds(xs: seq<real>, lo: real, hi: real)
    requires forall i :: 0 <= i < |xs| ==> lo <= xs[i] <= hi
    ensures |xs| as real * lo <= Sum(xs) <= |xs| as real * hi
  {
    if xs != [] {
      SumBounds(xs[..|xs| - 1], lo, hi);
    }
  }

  /** The mean lies between any lower and upper bound of the elements. */
  lemma MeanBounds(xs: seq<real>, lo: real, hi: real)
    requires |xs| > 0
    requires forall i :: 0 <= i < |xs| ==> lo <= xs[i] <= hi
    ensures lo <= Mean(xs) <= hi
  {
    SumBounds(xs, lo, hi);
    var n := |xs| as real;
    assert n * lo <= Sum(xs) <= n * hi;
    assert Sum(xs) / n >= lo by {
      assert Sum(xs) >= lo * n;
    }
    assert Sum(xs) / n <= hi by {
      assert Sum(xs) <= hi * n;
    }
  }

  /** The mean of a constant sequence is that constant. */
  lemma MeanOfConstant(xs: seq<real>, c: real)
    requires |xs| > 0
    requires forall i :: 0 <= i < |xs| ==> xs[i] == c
    ensures Mean(xs) == c
  {
    MeanBounds(xs, c, c);
  }
}
