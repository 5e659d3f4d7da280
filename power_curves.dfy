/**
 * Power curve transformations: smoothing by a Gaussian distribution of
 * wind speeds (with the grid extended beyond the last wind speed first),
 * and reduction of the power values by a wind farm efficiency.
 *
 * The Gaussian density `gauss(x, standard_deviation, mean)` is the `gauss`
 * field of a `Math` parameter.
 */
module PowerCurves {
  import opened Common
  import opened Interpolation

  const TurbulenceIntensityMethod: string := "turbulence_intensity"
  const StaffellPfenninger: string := "Staffell_Pfenninger"

  // ----- standard deviation

  /**
   * The normalised standard deviation: the turbulence intensity, which must
   * be given (and not NaN; `None` stands for both) for the
   * 'turbulence_intensity' method; 0.2 for 'Staffell_Pfenninger'; any
   * other method name raises ValueError.
   */
  function NormalizedStandardDeviation(sdMethod: string, turbulenceIntensity: Option<real>): (r: Result<real>)
    ensures sdMethod == TurbulenceIntensityMethod ==>
      (r.Success? <==> turbulenceIntensity.Some?) &&
      (r.Success? ==> r.value == turbulenceIntensity.value)
    ensures sdMethod == StaffellPfenninger ==> r == Success(0.2)
    ensures r.Failure? ==> r.error.ValueError?
    ensures r.Success? <==>
      sdMethod == StaffellPfenninger ||
      (sdMethod == TurbulenceIntensityMethod && turbulenceIntensity.Some?)
  {
    if sdMethod == TurbulenceIntensityMethod then
      if turbulenceIntensity.Some? then Success(turbulenceIntensity.value)
      else Failure(ValueError("turbulence_intensity"))
    else if sdMethod == StaffellPfenninger then Success(0.2)
    else Failure(ValueError("standard_deviation_method"))
  }

  /** σ at wind speed `v`: `v * n + 0.6` for Staffell–Pfenninger, `v * n` otherwise. */
  function StandardDeviation(sdMethod: string, normalized: real, v: real): real {
    if sdMethod == StaffellPfenninger then v * normalized + 0.6 else v * normalized
  }

  /**
   * σ is TI·v for the turbulence-intensity method, so it vanishes at
   * 0 m/s and is negative for a negative intensity at a positive speed,
   * and 0.2·v + 0.6 for Staffell–Pfenninger, which is positive for every
   * non-negative wind speed.
   */
  lemma StandardDeviationRule(ti: real, v: real)
    ensures NormalizedStandardDeviation(TurbulenceIntensityMethod, Some(ti)) == Success(ti)
    ensures StandardDeviation(TurbulenceIntensityMethod, ti, v) == ti * v
    ensures StandardDeviation(TurbulenceIntensityMethod, ti, 0.0) == 0.0
    ensures StandardDeviation(StaffellPfenninger, 0.2, v) == 0.2 * v + 0.6
    ensures 0.0 <= v ==> StandardDeviation(StaffellPfenninger, 0.2, v) > 0.0
    ensures ti < 0.0 && 0.0 < v ==> StandardDeviation(TurbulenceIntensityMethod, ti, v) < 0.0
  {
  }

  // ----- extension of the grid

  /** `n` rows of value 0 continuing from speed `s0` in steps of `step`. */
  function Appended(s0: real, step: real, n: nat): (r: Curve)
    ensures |r| == n
    ensures forall k :: 0 <= k < n ==> r[k] == Point(s0 + (k + 1) as real * step, 0.0)
  {
    seq(n, k requires 0 <= k < n => Point(s0 + (k + 1) as real * step, 0.0))
  }

  /**
   * The grid before smoothing: rows of value 0 are appended, each one step
   * `speeds[5] - speeds[4]` beyond the last, until the last speed reaches
   * the original last speed plus `range`. The first access to the last row
   * raises IndexError on an empty curve; a loop that runs needs a sixth
   * row; a step that is not positive never reaches the target.
   */
  function ExtendGrid(c: Curve, range: real): (r: Result<Curve>)
    ensures r.Success? ==> |r.value| >= |c| > 0 && r.value[..|c|] == c
  {
    if |c| == 0 then Failure(IndexError("power_curve_wind_speeds"))
    else if range <= 0.0 then Success(c)
    else if |c| < 6 then Failure(IndexError("power_curve_wind_speeds"))
    else
      var step := c[5].speed - c[4].speed;
      if step <= 0.0 then Failure(Diverges("power_curve_wind_speeds"))
      else
        PositiveQuotient(range, step);
        Success(c + Appended(Last(c).speed, step, Ceil(range / step)))
  }

  lemma PositiveQuotient(p: real, q: real)
    requires 0.0 < p && 0.0 < q
    ensures 0.0 < p / q
  {
    assert (p / q) * q == p;
  }

  /** `k * step < range` bounds `k` by the quotient. */
  lemma BelowQuotient(k: real, step: real, range: real)
    requires 0.0 < step && k * step < range
    ensures k < range / step
  {
    assert range / step * step == range;
  }

  lemma AtLeastQuotient(n: real, step: real, range: real)
    requires 0.0 < step && range / step <= n
    ensures range <= n * step
  {
    assert range / step * step == range;
    assert (n - range / step) * step >= 0.0;
  }

  lemma BelowFromQuotient(n: real, step: real, range: real)
    requires 0.0 < step && n < range / step
    ensures n * step < range
  {
    assert range / step * step == range;
    assert (range / step - n) * step > 0.0;
  }

  lemma AtLeastFromProduct(k: real, step: real, range: real)
    requires 0.0 < step && range <= k * step
    ensures range / step <= k
  {
    assert range / step * step == range;
  }

  /** The step and the number of rows the extension appends. */
  lemma ExtendGridAppends(c: Curve, range: real)
    requires ExtendGrid(c, range).Success? && 0.0 < range
    ensures 6 <= |c| && 0.0 < c[5].speed - c[4].speed && 0 < Ceil(range / (c[5].speed - c[4].speed))
    ensures ExtendGrid(c, range).value ==
      c + Appended(Last(c).speed, c[5].speed - c[4].speed, Ceil(range / (c[5].speed - c[4].speed)))
  {
    PositiveQuotient(range, c[5].speed - c[4].speed);
  }

  /**
   * The extended grid keeps the original rows and appends only rows of
   * value 0, each one step beyond the one before.
   */
  lemma ExtendGridRows(c: Curve, range: real)
    requires ExtendGrid(c, range).Success? && 0.0 < range
    ensures var e := ExtendGrid(c, range).value;
      |e| > |c| && e[..|c|] == c &&
      forall k :: |c| <= k < |e| ==>
        e[k].value == 0.0 && e[k].speed == e[k - 1].speed + (c[5].speed - c[4].speed)
  {
    ExtendGridAppends(c, range);
    var e := ExtendGrid(c, range).value;
    var step := c[5].speed - c[4].speed;
    var t := Appended(Last(c).speed, step, Ceil(range / step));
    forall k | |c| <= k < |e| ensures e[k].value == 0.0 && e[k].speed == e[k - 1].speed + step {
      assert e[k] == t[k - |c|];
      if k > |c| { assert e[k - 1] == t[k - 1 - |c|]; }
    }
  }

  /**
   * The extension stops at the first speed that reaches the last original
   * speed plus `range`.
   */
  lemma ExtendGridStops(c: Curve, range: real)
    requires ExtendGrid(c, range).Success? && 0.0 < range
    ensures var e := ExtendGrid(c, range).value;
      Last(e).speed >= Last(c).speed + range &&
      e[|e| - 2].speed < Last(c).speed + range
  {
    ExtendGridAppends(c, range);
    var e := ExtendGrid(c, range).value;
    var step := c[5].speed - c[4].speed;
    var n := Ceil(range / step);
    var t := Appended(Last(c).speed, step, n);
    assert Last(e) == t[n - 1];
    AtLeastQuotient(n as real, step, range);
    if n > 1 {
      assert e[|e| - 2] == t[n - 2];
      BelowFromQuotient((n - 1) as real, step, range);
    }
  }

  /** On a strictly increasing curve the extended grid is strictly increasing. */
  lemma ExtendGridIncreasing(c: Curve, range: real)
    requires ExtendGrid(c, range).Success? && StrictlyIncreasing(c)
    ensures StrictlyIncreasing(ExtendGrid(c, range).value)
  {
    if 0.0 < range {
      ExtendGridAppends(c, range);
      var e := ExtendGrid(c, range).value;
      var step := c[5].speed - c[4].speed;
      var t := Appended(Last(c).speed, step, Ceil(range / step));
      forall i, j | 0 <= i < j < |e| ensures e[i].speed < e[j].speed {
        if j >= |c| {
          assert e[j] == t[j - |c|];
          var dj := (j - |c| + 1) as real;
          assert 1.0 <= dj;
          assert step <= dj * step;
          if i >= |c| {
            assert e[i] == t[i - |c|];
            var di := (i - |c| + 1) as real;
            assert dj * step - di * step == (dj - di) * step;
          } else {
            assert e[i] == c[i];
            assert c[i].speed <= Last(c).speed;
          }
        } else {
          assert e[i] == c[i] && e[j] == c[j];
        }
      }
    }
  }

  lemma AppendedSnoc(s0: real, step: real, k: nat)
    ensures Appended(s0, step, k + 1) == Appended(s0, step, k) + [Point(s0 + k as real * step + step, 0.0)]
  {
    var a := Appended(s0, step, k + 1);
    var b := Appended(s0, step, k) + [Point(s0 + k as real * step + step, 0.0)];
    forall i | 0 <= i < k + 1 ensures a[i] == b[i] {
      if i == k {
        assert (k + 1) as real * step == k as real * step + step;
      }
    }
    assert a == b;
  }

  /**
   * One turn of the extension loop: the step read from the grid is still
   * the original one, and the appended row is the next row of `Appended`.
   */
  lemma ExtendOnce(c: Curve, step: real, k: nat, e: Curve)
    requires 6 <= |c| && step == c[5].speed - c[4].speed
    requires e == c + Appended(Last(c).speed, step, k)
    ensures e[5].speed - e[4].speed == step
    ensures Last(e).speed == Last(c).speed + k as real * step
    ensures e + [Point(Last(e).speed + step, 0.0)] == c + Appended(Last(c).speed, step, k + 1)
  {
    assert e[5] == c[5] && e[4] == c[4];
    if k > 0 {
      assert Last(e) == Appended(Last(c).speed, step, k)[k - 1];
    }
    AppendedSnoc(Last(c).speed, step, k);
  }

  /** The `while` loop of `smooth_power_curve` on the two series. */
  method ExtendGridLoop(c: Curve, range: real) returns (r: Result<Curve>)
    ensures r == ExtendGrid(c, range)
  {
    if |c| == 0 {
      return Failure(IndexError("power_curve_wind_speeds"));
    }
    var maximum := Last(c).speed + range;
    var e := c;
    if Last(e).speed < maximum {
      if |e| < 6 {
        return Failure(IndexError("power_curve_wind_speeds"));
      }
      var step := e[5].speed - e[4].speed;
      if step <= 0.0 {
        return Failure(Diverges("power_curve_wind_speeds"));
      }
      PositiveQuotient(range, step);
      ghost var total: nat := Ceil(range / step);
      ghost var k: nat := 0;
      ExtendOnce(c, step, k, e);
      while Last(e).speed < maximum
        invariant k <= total
        invariant e == c + Appended(Last(c).speed, step, k)
        invariant Last(e).speed == Last(c).speed + k as real * step
        decreases total - k
      {
        BelowQuotient(k as real, step, range);
        ExtendOnce(c, step, k, e);
        e := e + [Point(Last(e).speed + (e[5].speed - e[4].speed), 0.0)];
        k := k + 1;
        ExtendOnce(c, step, k, e);
      }
      AtLeastFromProduct(k as real, step, range);
    }
    return Success(e);
  }

  // ----- the Gaussian sum

  /** Length of `np.arange(-range, range + bw, bw)`. */
  function BlockLength(blockWidth: real, range: real): nat
    requires blockWidth != 0.0
  {
    var n := Ceil((2.0 * range + blockWidth) / blockWidth);
    if n < 0 then 0 else n
  }

  /** The `j`-th wind speed of the block around `v`. */
  function BlockSpeed(v: real, blockWidth: real, range: real, j: nat): real {
    -range + j as real * blockWidth + v
  }

  /**
   * `sum(bw * np.interp(w, speeds, values, left=0, right=0) *
   * gauss(v - w, sigma, mean))` over the first `n` block speeds `w`.
   */
  function GaussSum(e: Curve, v: real, blockWidth: real, range: real, sigma: real,
                    meanGauss: real, m: Math, n: nat): real
    requires |e| > 0
  {
    if n == 0 then 0.0
    else
      var w := BlockSpeed(v, blockWidth, range, n - 1);
      GaussSum(e, v, blockWidth, range, sigma, meanGauss, m, n - 1)
        + blockWidth * InterpZero(e, w) * m.gauss(v - w, sigma, meanGauss)
  }

  /** The smoothed value at wind speed `v`; 0 where σ is 0. */
  function SmoothedValue(e: Curve, v: real, sdMethod: string, normalized: real,
                         blockWidth: real, range: real, meanGauss: real, m: Math): real
    requires |e| > 0 && blockWidth != 0.0
  {
    var sigma := StandardDeviation(sdMethod, normalized, v);
    if sigma == 0.0 then 0.0
    else GaussSum(e, v, blockWidth, range, sigma, meanGauss, m, BlockLength(blockWidth, range))
  }

  /**
   * `smooth_power_curve`: the method is checked first, then the grid is
   * extended, then every wind speed of the extended grid gets its smoothed
   * value (`np.arange` with step 0 raises ZeroDivisionError).
   */
  function SmoothedPowerCurve(c: Curve, blockWidth: real, range: real, sdMethod: string,
                              turbulenceIntensity: Option<real>, meanGauss: real, m: Math): (r: Result<Curve>)
    ensures NormalizedStandardDeviation(sdMethod, turbulenceIntensity).Failure? ==>
      r == Failure(NormalizedStandardDeviation(sdMethod, turbulenceIntensity).error)
    ensures r.Success? ==>
      ExtendGrid(c, range).Success? && Speeds(r.value) == Speeds(ExtendGrid(c, range).value)
    ensures r.Success? <==>
      NormalizedStandardDeviation(sdMethod, turbulenceIntensity).Success? &&
      ExtendGrid(c, range).Success? && blockWidth != 0.0
    ensures r.Failure? && r.error.ValueError? ==>
      NormalizedStandardDeviation(sdMethod, turbulenceIntensity).Failure?
  {
    var normalized := NormalizedStandardDeviation(sdMethod, turbulenceIntensity);
    if normalized.Failure? then Failure(normalized.error)
    else
      var extended := ExtendGrid(c, range);
      if extended.Failure? then Failure(extended.error)
      else if blockWidth == 0.0 then Failure(ZeroDivisionError("block_width"))
      else
        var e := extended.value;
        Success(seq(|e|, i requires 0 <= i < |e| =>
          Point(e[i].speed, SmoothedValue(e, e[i].speed, sdMethod, normalized.value,
                                          blockWidth, range, meanGauss, m))))
  }

  /**
   * The loops of `smooth_power_curve`: a `while` loop appends grid rows
   * until the target speed is reached, then a `for` loop appends one
   * smoothed value per wind speed.
   */
  method SmoothPowerCurve(c: Curve, blockWidth: real, range: real, sdMethod: string,
                          turbulenceIntensity: Option<real>, meanGauss: real, m: Math)
    returns (r: Result<Curve>)
    ensures r == SmoothedPowerCurve(c, blockWidth, range, sdMethod, turbulenceIntensity, meanGauss, m)
  {
    var normalized := NormalizedStandardDeviation(sdMethod, turbulenceIntensity);
    if normalized.Failure? {
      return Failure(normalized.error);
    }
    var extended := ExtendGridLoop(c, range);
    if extended.Failure? {
      return Failure(extended.error);
    }
    var e := extended.value;
    if blockWidth == 0.0 {
      return Failure(ZeroDivisionError("block_width"));
    }
    var smoothed: seq<real> := [];
    for i := 0 to |e|
      invariant |smoothed| == i
      invariant forall j :: 0 <= j < i ==>
        smoothed[j] == SmoothedValue(e, e[j].speed, sdMethod, normalized.value,
                                     blockWidth, range, meanGauss, m)
    {
      var v := e[i].speed;
      var sigma := StandardDeviation(sdMethod, normalized.value, v);
      var value;
      if sigma == 0.0 {
        value := 0.0;
      } else {
        value := GaussSum(e, v, blockWidth, range, sigma, meanGauss, m, BlockLength(blockWidth, range));
      }
      smoothed := smoothed + [value];
    }
    var rows := seq(|e|, i requires 0 <= i < |e| => Point(e[i].speed, smoothed[i]));
    assert rows == SmoothedPowerCurve(c, blockWidth, range, sdMethod, turbulenceIntensity, meanGauss, m).value;
    r := Success(rows);
  }

  // ----- the turbulence intensity keyword

  /**
   * How `turbulence_intensity` reaches `smooth_power_curve` through its
   * keyword arguments: not passed, NaN, an explicit `None`, or a number.
   * Elsewhere in this module `Option.None` stands for the first two.
   */
  datatype TurbulenceKeyword = NotPassed | PassedNaN | PassedNone | Passed(value: real)

  /** The number a keyword carries, if any. */
  function KeywordValue(kw: TurbulenceKeyword): (r: Option<real>)
    ensures r.Some? <==> kw.Passed?
  {
    if kw.Passed? then Some(kw.value) else None
  }

  /**
   * The method check on the keyword itself: an explicit `None` passes the
   * `is not np.nan` test, so the 'turbulence_intensity' method then takes
   * `None` as its normalised deviation; every other keyword is checked as
   * by `NormalizedStandardDeviation`.
   */
  function NormalizedDeviationOfKeyword(sdMethod: string, kw: TurbulenceKeyword): (r: Result<Option<real>>)
    ensures sdMethod == TurbulenceIntensityMethod ==>
      (r.Success? <==> kw.Passed? || kw.PassedNone?) &&
      (kw.Passed? ==> r == Success(Some(kw.value))) &&
      (kw.PassedNone? ==> r == Success(None))
    ensures sdMethod == StaffellPfenninger ==> r == Success(Some(0.2))
    ensures r.Failure? ==> r.error.ValueError?
    ensures r.Success? && r.value.None? <==> sdMethod == TurbulenceIntensityMethod && kw.PassedNone?
  {
    if sdMethod == TurbulenceIntensityMethod && kw.PassedNone? then Success(None)
    else
      var n := NormalizedStandardDeviation(sdMethod, KeywordValue(kw));
      if n.Success? then Success(Some(n.value)) else Failure(n.error)
  }

  /**
   * `smooth_power_curve` called with the keyword `kw`. With the
   * 'turbulence_intensity' method an explicit `None` gets past the method
   * check and the grid extension and the block's `np.arange`, then
   * `power_curve_wind_speed * None` raises TypeError at the first wind
   * speed; every other keyword gives the smoothed curve of its value.
   */
  function SmoothedPowerCurveOfKeyword(c: Curve, blockWidth: real, range: real, sdMethod: string,
                                       kw: TurbulenceKeyword, meanGauss: real, m: Math): (r: Result<Curve>)
    ensures !(sdMethod == TurbulenceIntensityMethod && kw.PassedNone?) ==>
      r == SmoothedPowerCurve(c, blockWidth, range, sdMethod, KeywordValue(kw), meanGauss, m)
    ensures sdMethod == TurbulenceIntensityMethod && kw.PassedNone? ==>
      r.Failure? && (r.error.TypeError? <==> ExtendGrid(c, range).Success? && blockWidth != 0.0)
  {
    var normalized := NormalizedDeviationOfKeyword(sdMethod, kw);
    if normalized.Success? && normalized.value.None? then
      var extended := ExtendGrid(c, range);
      if extended.Failure? then Failure(extended.error)
      else if blockWidth == 0.0 then Failure(ZeroDivisionError("block_width"))
      else Failure(TypeError("turbulence_intensity"))
    else SmoothedPowerCurve(c, blockWidth, range, sdMethod, KeywordValue(kw), meanGauss, m)
  }

  /**
   * Only the keyword's value matters: not passing it and passing NaN
   * smooth alike, and a call that passes a known intensity and nothing
   * otherwise is the smoothing of that intensity.
   */
  lemma KeywordAbsentOrNaN(c: Curve, blockWidth: real, range: real, sdMethod: string,
                           ti: Option<real>, meanGauss: real, m: Math)
    ensures SmoothedPowerCurveOfKeyword(c, blockWidth, range, sdMethod, NotPassed, meanGauss, m) ==
            SmoothedPowerCurveOfKeyword(c, blockWidth, range, sdMethod, PassedNaN, meanGauss, m)
    ensures SmoothedPowerCurveOfKeyword(c, blockWidth, range, sdMethod,
                                        if ti.Some? then Passed(ti.value) else NotPassed, meanGauss, m) ==
            SmoothedPowerCurve(c, blockWidth, range, sdMethod, ti, meanGauss, m)
  {
  }

  /**
   * The smoothed curve has one row per wind speed of the extended grid, in
   * the same order; where σ is 0 (for instance at 0 m/s with the
   * turbulence-intensity method) the smoothed value is 0.
   */
  lemma SmoothedPowerCurveShape(c: Curve, blockWidth: real, range: real, sdMethod: string,
                                turbulenceIntensity: Option<real>, meanGauss: real, m: Math)
    requires SmoothedPowerCurve(c, blockWidth, range, sdMethod, turbulenceIntensity, meanGauss, m).Success?
    ensures var r := SmoothedPowerCurve(c, blockWidth, range, sdMethod, turbulenceIntensity, meanGauss, m).value;
      var n := NormalizedStandardDeviation(sdMethod, turbulenceIntensity).value;
      |r| == |ExtendGrid(c, range).value| &&
      (forall i :: 0 <= i < |r| && StandardDeviation(sdMethod, n, r[i].speed) == 0.0 ==> r[i].value == 0.0) &&
      (sdMethod == TurbulenceIntensityMethod ==>
        forall i :: 0 <= i < |r| && r[i].speed == 0.0 ==> r[i].value == 0.0)
  {
  }

  /**
   * The Gaussian density of a positive standard deviation is never
   * negative (`gauss_distribution` is negative for a negative one).
   */
  ghost predicate GaussNonNegative(m: Math) {
    forall x: real, s: real, mu: real :: 0.0 < s ==> 0.0 <= m.gauss(x, s, mu)
  }

  lemma {:induction false} GaussSumNonNegative(e: Curve, v: real, blockWidth: real, range: real,
                                               sigma: real, meanGauss: real, m: Math, n: nat, hi: real)
    requires |e| > 0 && 0.0 < blockWidth && 0.0 <= hi && ValuesWithin(e, 0.0, hi) && GaussNonNegative(m)
    requires 0.0 < sigma
    ensures 0.0 <= GaussSum(e, v, blockWidth, range, sigma, meanGauss, m, n)
    decreases n
  {
    if n > 0 {
      GaussSumNonNegative(e, v, blockWidth, range, sigma, meanGauss, m, n - 1, hi);
      var w := BlockSpeed(v, blockWidth, range, n - 1);
      InterpZeroBounds(e, w, hi);
      var g := m.gauss(v - w, sigma, meanGauss);
      assert 0.0 <= g;
      assert 0.0 <= blockWidth * InterpZero(e, w);
      assert 0.0 <= blockWidth * InterpZero(e, w) * g;
    }
  }

  /** The extended grid holds the original values and zeros only. */
  lemma ExtendGridValues(c: Curve, range: real, hi: real)
    requires ExtendGrid(c, range).Success? && 0.0 <= hi && ValuesWithin(c, 0.0, hi)
    ensures ValuesWithin(ExtendGrid(c, range).value, 0.0, hi)
  {
    var e := ExtendGrid(c, range).value;
    if 0.0 < range {
      var step := c[5].speed - c[4].speed;
      PositiveQuotient(range, step);
      var t := Appended(Last(c).speed, step, Ceil(range / step));
      assert e == c + t;
      forall k | 0 <= k < |e| ensures 0.0 <= e[k].value <= hi {
        if k >= |c| { assert e[k] == t[k - |c|]; }
      }
    }
  }

  /**
   * At a non-negative wind speed with a non-negative normalised deviation
   * σ is positive or 0, so the smoothed value is not negative.
   */
  lemma SmoothedValueNonNegative(e: Curve, v: real, sdMethod: string, normalized: real, blockWidth: real,
                                 range: real, meanGauss: real, m: Math, hi: real)
    requires |e| > 0 && 0.0 < blockWidth && 0.0 <= hi && ValuesWithin(e, 0.0, hi) && GaussNonNegative(m)
    requires 0.0 <= v && 0.0 <= normalized
    ensures 0.0 <= SmoothedValue(e, v, sdMethod, normalized, blockWidth, range, meanGauss, m)
  {
    var sigma := StandardDeviation(sdMethod, normalized, v);
    assert 0.0 <= v * normalized;
    if sigma != 0.0 {
      GaussSumNonNegative(e, v, blockWidth, range, sigma, meanGauss, m, BlockLength(blockWidth, range), hi);
    }
  }

  /** The extended grid keeps the speeds non-negative. */
  lemma ExtendGridSpeedsNonNegative(c: Curve, range: real)
    requires ExtendGrid(c, range).Success?
    requires forall k :: 0 <= k < |c| ==> 0.0 <= c[k].speed
    ensures forall k :: 0 <= k < |ExtendGrid(c, range).value| ==> 0.0 <= ExtendGrid(c, range).value[k].speed
  {
    var e := ExtendGrid(c, range).value;
    if 0.0 < range {
      var step := c[5].speed - c[4].speed;
      PositiveQuotient(range, step);
      var t := Appended(Last(c).speed, step, Ceil(range / step));
      assert e == c + t;
      forall k | 0 <= k < |e| ensures 0.0 <= e[k].speed {
        if k >= |c| {
          assert e[k] == t[k - |c|];
          assert 0.0 <= (k - |c| + 1) as real * step;
        }
      }
    }
  }

  /**
   * With power values in [0, hi], non-negative wind speeds and turbulence
   * intensity, a positive block width and a Gaussian density that is not
   * negative for a positive standard deviation, smoothing yields no
   * negative power: σ is then positive or 0, and a zero σ gives 0.
   */
  lemma SmoothedPowerCurveNonNegative(c: Curve, blockWidth: real, range: real, sdMethod: string,
                                      turbulenceIntensity: Option<real>, meanGauss: real, m: Math, hi: real)
    requires 0.0 < blockWidth && 0.0 <= hi && ValuesWithin(c, 0.0, hi) && GaussNonNegative(m)
    requires forall k :: 0 <= k < |c| ==> 0.0 <= c[k].speed
    requires turbulenceIntensity.Some? ==> 0.0 <= turbulenceIntensity.value
    requires SmoothedPowerCurve(c, blockWidth, range, sdMethod, turbulenceIntensity, meanGauss, m).Success?
    ensures forall i :: 0 <= i < |SmoothedPowerCurve(c, blockWidth, range, sdMethod, turbulenceIntensity, meanGauss, m).value| ==>
      0.0 <= SmoothedPowerCurve(c, blockWidth, range, sdMethod, turbulenceIntensity, meanGauss, m).value[i].value
  {
    var r := SmoothedPowerCurve(c, blockWidth, range, sdMethod, turbulenceIntensity, meanGauss, m).value;
    var e := ExtendGrid(c, range).value;
    var n := NormalizedStandardDeviation(sdMethod, turbulenceIntensity).value;
    ExtendGridValues(c, range, hi);
    ExtendGridSpeedsNonNegative(c, range);
    assert 0.0 <= n;
    forall i | 0 <= i < |r| ensures 0.0 <= r[i].value {
      SmoothedValueNonNegative(e, e[i].speed, sdMethod, n, blockWidth, range, meanGauss, m, hi);
    }
  }

  // ----- wake losses

  /** The ways `wind_farm_efficiency` can be given. */
  datatype Efficiency =
    | FloatEfficiency(factor: real)
    | IntEfficiency(count: int)
    | DictEfficiency(table: Curve)
    | FrameEfficiency(curve: Curve)
    | OtherEfficiency

  /** A kept row: its value times the efficiency interpolated at its wind speed. */
  function EfficiencyRow(q: Point, eff: Curve): Point
    requires |eff| > 0
  {
    Point(q.speed, q.value * InterpClamped(eff, q.speed))
  }

  /**
   * Rows of the power curve at or after the efficiency curve's first wind
   * speed, each value multiplied by the efficiency interpolated at its
   * wind speed (the last efficiency after the curve's end).
   */
  function ReduceByEfficiencyCurve(c: Curve, eff: Curve): (r: Curve)
    requires |eff| > 0
    ensures |r| <= |c|
    decreases |c|
  {
    if |c| == 0 then []
    else
      var rest := ReduceByEfficiencyCurve(c[1..], eff);
      if c[0].speed < eff[0].speed then rest
      else [EfficiencyRow(c[0], eff)] + rest
  }

  /**
   * `wake_losses_to_power_curve`: a float scales every value; a data frame
   * multiplies by the efficiency curve interpolated on the union grid and
   * drops the rows without an efficiency; a dict fails on `set_index`; any
   * other type, the int 1 included, raises TypeError.
   */
  function WakeLossesToPowerCurve(c: Curve, efficiency: Efficiency): (r: Result<Curve>)
    ensures efficiency.IntEfficiency? || efficiency.OtherEfficiency? ==> r.Failure? && r.error.TypeError?
    ensures efficiency.DictEfficiency? ==> r.Failure? && r.error.AttributeError?
    ensures r.Success? <==> efficiency.FloatEfficiency? || efficiency.FrameEfficiency?
    ensures r.Success? ==> |r.value| <= |c|
  {
    match efficiency
    case FloatEfficiency(f) => Success(Scale(c, f))
    case FrameEfficiency(eff) =>
      if |eff| == 0 then Success([]) else Success(ReduceByEfficiencyCurve(c, eff))
    case DictEfficiency(_) => Failure(AttributeError("set_index"))
    case IntEfficiency(_) => Failure(TypeError("wind_farm_efficiency"))
    case OtherEfficiency => Failure(TypeError("wind_farm_efficiency"))
  }

  /**
   * A constant efficiency keeps the wind speed grid and multiplies every
   * value by the factor; a factor of 1 leaves the curve as it is.
   */
  lemma ConstantEfficiency(c: Curve, f: real)
    ensures WakeLossesToPowerCurve(c, FloatEfficiency(f)).Success?
    ensures Speeds(WakeLossesToPowerCurve(c, FloatEfficiency(f)).value) == Speeds(c)
    ensures forall k :: 0 <= k < |c| ==>
      WakeLossesToPowerCurve(c, FloatEfficiency(f)).value[k].value == c[k].value * f
    ensures WakeLossesToPowerCurve(c, FloatEfficiency(1.0)) == Success(c)
  {
    var r := Scale(c, 1.0);
    forall k | 0 <= k < |c| ensures r[k] == c[k] { }
    assert r == c;
  }

  /**
   * Every row of the reduced curve is a row of the power curve at or after
   * the efficiency curve's first wind speed, with its value multiplied by
   * the interpolated efficiency.
   */
  lemma {:induction false} EfficiencyCurveRows(c: Curve, eff: Curve)
    requires |eff| > 0
    ensures forall p :: p in ReduceByEfficiencyCurve(c, eff) ==>
      exists q ::
        q in c && q.speed >= eff[0].speed && p == EfficiencyRow(q, eff)
    decreases |c|
  {
    if |c| > 0 {
      EfficiencyCurveRows(c[1..], eff);
      var rest := ReduceByEfficiencyCurve(c[1..], eff);
      forall p | p in ReduceByEfficiencyCurve(c, eff)
        ensures exists q ::
          q in c && q.speed >= eff[0].speed && p == EfficiencyRow(q, eff)
      {
        if p in rest {
          var q :| q in c[1..] && q.speed >= eff[0].speed &&
            p == EfficiencyRow(q, eff);
          assert q in c;
        } else {
          assert c[0] in c;
        }
      }
    }
  }

  /**
   * When no row lies before the efficiency curve's first wind speed, every
   * row is kept, in order, with its value multiplied by the interpolated
   * efficiency.
   */
  lemma {:induction false} EfficiencyCurveKeepsAll(c: Curve, eff: Curve)
    requires |eff| > 0
    requires forall k :: 0 <= k < |c| ==> c[k].speed >= eff[0].speed
    ensures ReduceByEfficiencyCurve(c, eff) ==
      seq(|c|, k requires 0 <= k < |c| => EfficiencyRow(c[k], eff))
    decreases |c|
  {
    if |c| > 0 {
      assert forall k :: 0 <= k < |c[1..]| ==> c[1..][k].speed >= eff[0].speed by {
        forall k | 0 <= k < |c[1..]| ensures c[1..][k].speed >= eff[0].speed {
          assert c[1..][k] == c[k + 1];
        }
      }
      EfficiencyCurveKeepsAll(c[1..], eff);
      var rest := ReduceByEfficiencyCurve(c[1..], eff);
      var full := seq(|c|, k requires 0 <= k < |c| =>
        EfficiencyRow(c[k], eff));
      forall k | 0 <= k < |rest| ensures rest[k] == full[k + 1] {
        assert c[1..][k] == c[k + 1];
      }
      assert rest == full[1..];
      assert c[0].speed >= eff[0].speed;
      assert full[0] == EfficiencyRow(c[0], eff);
      assert ReduceByEfficiencyCurve(c, eff) == [full[0]] + rest;
      assert full == [full[0]] + full[1..];
    }
  }
}
