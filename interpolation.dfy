/**
 * numpy's `np.interp(x, xp, fp, left, right)` on a curve whose rows give
 * `xp` (speeds) and `fp` (values): `left` below the first speed, `right`
 * above the last, and the straight line through the two neighbouring
 * rows in between. Called without `left`/`right`, numpy clamps to the
 * first and last value (`InterpClamped`); the library's power curve
 * evaluators pass `left=0, right=0` (`InterpZero`).
 *
 * numpy raises a ValueError on an empty `xp`; callers check that before
 * they interpolate, so these functions require a non-empty curve. For
 * speeds that do not increase numpy's result is unspecified; the
 * functions stay total and the lemmas that characterise them ask for
 * strictly increasing speeds, except the bounds lemma, which holds for
 * every curve.
 */
module Interpolation {
  import opened Common

  /** Value at `x` of the line through rows `a` and `b`. */
  function Lerp(a: Point, b: Point, x: real): real {
    if a.speed == b.speed then b.value
    else a.value + (b.value - a.value) * ((x - a.speed) / (b.speed - a.speed))
  }

  /** Walks the rows until `x` is not beyond the next speed. */
  function Scan(c: Curve, x: real): real
    requires |c| > 0
    decreases |c|
  {
    if |c| == 1 then c[0].value
    else if x <= c[1].speed then Lerp(c[0], c[1], x)
    else Scan(c[1..], x)
  }

  function Interp(c: Curve, x: real, left: real, right: real): real
    requires |c| > 0
  {
    if x < c[0].speed then left
    else if x > Last(c).speed then right
    else Scan(c, x)
  }

  /** `np.interp(x, speeds, values, left=0, right=0)`. */
  function InterpZero(c: Curve, x: real): real
    requires |c| > 0
  {
    Interp(c, x, 0.0, 0.0)
  }

  /** `np.interp(x, speeds, values)`. */
  function InterpClamped(c: Curve, x: real): real
    requires |c| > 0
  {
    Interp(c, x, c[0].value, Last(c).value)
  }

  // ----- the line between two rows

  lemma LerpAtEnds(a: Point, b: Point)
    ensures Lerp(a, b, b.speed) == b.value
    ensures a.speed != b.speed ==> Lerp(a, b, a.speed) == a.value
  {
    if a.speed != b.speed {
      assert (b.speed - a.speed) / (b.speed - a.speed) == 1.0;
    }
  }

  /** Between the two speeds the line stays between the two values. */
  lemma LerpBetween(a: Point, b: Point, x: real)
    requires a.speed <= x <= b.speed
    ensures a.value <= b.value ==> a.value <= Lerp(a, b, x) <= b.value
    ensures b.value <= a.value ==> b.value <= Lerp(a, b, x) <= a.value
  {
    if a.speed != b.speed {
      var t := (x - a.speed) / (b.speed - a.speed);
      FractionBetween(x - a.speed, b.speed - a.speed);
      var d := b.value - a.value;
      assert Lerp(a, b, x) == a.value + d * t;
      ScaledBetween(d, t);
    }
  }




  // ----- characterisation on strictly increasing curves

  lemma {:induction false} ScanAtSample(c: Curve, k: nat)
    requires StrictlyIncreasing(c) && k < |c|
    ensures Scan(c, c[k].speed) == c[k].value
    decreases |c|
  {
    if |c| == 1 {
    } else if c[k].speed <= c[1].speed {
      assert k <= 1;
      LerpAtEnds(c[0], c[1]);
    } else {
      assert 2 <= k;
      ScanAtSample(c[1..], k - 1);
    }
  }

  /** At a row's own speed the interpolant returns that row's value. */
  lemma InterpAtSample(c: Curve, k: nat, left: real, right: real)
    requires StrictlyIncreasing(c) && k < |c|
    ensures Interp(c, c[k].speed, left, right) == c[k].value
  {
    ScanAtSample(c, k);
  }

  lemma {:induction false} ScanOnSegment(c: Curve, j: nat, x: real)
    requires StrictlyIncreasing(c) && j + 1 < |c|
    requires c[j].speed <= x <= c[j + 1].speed
    ensures Scan(c, x) == Lerp(c[j], c[j + 1], x)
    decreases |c|
  {
    if j == 0 {
    } else if x <= c[1].speed {
      assert j == 1 && x == c[1].speed;
      LerpAtEnds(c[0], c[1]);
      LerpAtEnds(c[1], c[2]);
    } else {
      ScanOnSegment(c[1..], j - 1, x);
    }
  }

  /**
   * Between the speeds of rows `j` and `j + 1` the interpolant is the
   * straight line through those two rows.
   */
  lemma InterpOnSegment(c: Curve, j: nat, x: real, left: real, right: real)
    requires StrictlyIncreasing(c) && j + 1 < |c|
    requires c[j].speed <= x <= c[j + 1].speed
    ensures Interp(c, x, left, right) == Lerp(c[j], c[j + 1], x)
  {
    ScanOnSegment(c, j, x);
  }

  /** Outside the speed range the fill values are returned. */
  lemma InterpOutside(c: Curve, x: real, left: real, right: real)
    requires StrictlyIncreasing(c) && |c| > 0
    ensures x < c[0].speed ==> Interp(c, x, left, right) == left
    ensures x > Last(c).speed ==> Interp(c, x, left, right) == right
  {
  }

  /**
   * Between two neighbouring rows the result lies between their two values.
   */
  lemma InterpSegmentBounded(c: Curve, j: nat, x: real, left: real, right: real)
    requires StrictlyIncreasing(c) && j + 1 < |c|
    requires c[j].speed <= x <= c[j + 1].speed
    ensures c[j].value <= c[j + 1].value ==>
      c[j].value <= Interp(c, x, left, right) <= c[j + 1].value
    ensures c[j + 1].value <= c[j].value ==>
      c[j + 1].value <= Interp(c, x, left, right) <= c[j].value
  {
    InterpOnSegment(c, j, x, left, right);
    LerpBetween(c[j], c[j + 1], x);
  }

  // ----- bounds, for every curve

  lemma {:induction false} ScanBounds(c: Curve, x: real, lo: real, hi: real)
    requires |c| > 0 && c[0].speed <= x
    requires ValuesWithin(c, lo, hi)
    ensures lo <= Scan(c, x) <= hi
    decreases |c|
  {
    if |c| == 1 {
    } else if x <= c[1].speed {
      LerpBetween(c[0], c[1], x);
    } else {
      ScanBounds(c[1..], x, lo, hi);
    }
  }

  /**
   * If every value and both fill values lie in [lo, hi], so does the
   * result; this holds whatever order the speeds are in.
   */
  lemma InterpBounds(c: Curve, x: real, left: real, right: real, lo: real, hi: real)
    requires |c| > 0
    requires ValuesWithin(c, lo, hi)
    requires lo <= left <= hi && lo <= right <= hi
    ensures lo <= Interp(c, x, left, right) <= hi
  {
    if c[0].speed <= x <= Last(c).speed {
      ScanBounds(c, x, lo, hi);
    }
  }

  /** With values in [0, hi], `InterpZero` never leaves [0, hi]. */
  lemma InterpZeroBounds(c: Curve, x: real, hi: real)
    requires |c| > 0 && 0.0 <= hi
    requires ValuesWithin(c, 0.0, hi)
    ensures 0.0 <= InterpZero(c, x) <= hi
  {
    InterpBounds(c, x, 0.0, 0.0, 0.0, hi);
  }

  /** The clamped interpolant stays within the range of the values. */
  lemma InterpClampedBounds(c: Curve, x: real, lo: real, hi: real)
    requires |c| > 0
    requires ValuesWithin(c, lo, hi)
    ensures lo <= InterpClamped(c, x) <= hi
  {
    InterpBounds(c, x, c[0].value, Last(c).value, lo, hi);
  }

  /** The clamped interpolant is the first value below the range and the last above it. */
  lemma InterpClampedOutside(c: Curve, x: real)
    requires StrictlyIncreasing(c) && |c| > 0
    ensures x <= c[0].speed ==> InterpClamped(c, x) == c[0].value
    ensures x >= Last(c).speed ==> InterpClamped(c, x) == Last(c).value
  {
    if x == c[0].speed {
      InterpAtSample(c, 0, c[0].value, Last(c).value);
    }
    if x == Last(c).speed {
      InterpAtSample(c, |c| - 1, c[0].value, Last(c).value);
    }
  }
}
