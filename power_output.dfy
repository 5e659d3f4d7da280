/**
 * Turbine power output from a power curve or a power coefficient curve,
 * evaluated at every wind speed of a time series, optionally with the
 * power curve corrected for air density.
 *
 * The curve is a table of (wind speed, value) rows. Every lookup is
 * `np.interp(v, speeds, values, left=0, right=0)`: zero outside the
 * sampled wind speed range. The real power `x ** p` of the density
 * correction is the `pow` field of a `Math` parameter.
 */
module PowerOutput {
  import opened Common
  import opened Interpolation

  /** Air density the power curves are given for, in kg/m³. */
  const ReferenceDensity: real := 1.225

  // ----- density correction

  /** The two rows `np.interp(v, [7.5, 12.5], [1/3, 2/3])` interpolates between. */
  function ExponentCurve(): (c: Curve)
    ensures StrictlyIncreasing(c) && |c| == 2
  {
    [Point(7.5, 1.0 / 3.0), Point(12.5, 2.0 / 3.0)]
  }

  /** The exponent `p(v)` of the density correction. */
  function DensityCorrectionExponent(v: real): real {
    InterpClamped(ExponentCurve(), v)
  }

  /**
   * The exponent is 1/3 up to 7.5 m/s, 2/3 from 12.5 m/s on and
   * `v / 15 - 1 / 6` in between.
   */
  lemma DensityCorrectionExponentCases(v: real)
    ensures v <= 7.5 ==> DensityCorrectionExponent(v) == 1.0 / 3.0
    ensures v >= 12.5 ==> DensityCorrectionExponent(v) == 2.0 / 3.0
    ensures 7.5 < v < 12.5 ==> DensityCorrectionExponent(v) == v / 15.0 - 1.0 / 6.0
    ensures 1.0 / 3.0 <= DensityCorrectionExponent(v) <= 2.0 / 3.0
  {
    var c := ExponentCurve();
    InterpClampedOutside(c, v);
    InterpClampedBounds(c, v, 1.0 / 3.0, 2.0 / 3.0);
    if 7.5 < v < 12.5 {
      InterpOnSegment(c, 0, v, c[0].value, Last(c).value);
      assert Lerp(c[0], c[1], v) == 1.0 / 3.0 + (1.0 / 3.0) * ((v - 7.5) / 5.0);
    }
  }

  /**
   * The power curve at site density `rho`: every wind speed `v` becomes
   * `v * (1.225 / rho) ** p(v)`, every power value stays.
   */
  function CorrectedCurve(c: Curve, rho: real, m: Math): (r: Curve)
    requires rho != 0.0
    ensures |r| == |c| && Values(r) == Values(c)
  {
    seq(|c|, k requires 0 <= k < |c| =>
      Point(c[k].speed * m.pow(ReferenceDensity / rho, DensityCorrectionExponent(c[k].speed)),
            c[k].value))
  }

  /** Some of the first `n` densities is not positive. */
  predicate HasNonPositive(density: seq<real>, n: nat)
    requires n <= |density|
  {
    exists i :: 0 <= i < n && density[i] <= 0.0
  }

  /**
   * `power_curve_density_correction`: a missing density raises TypeError;
   * an empty series gives an empty result before the curve is looked at;
   * the first element reads `density[0]` before `np.interp` sees the
   * curve, so an empty density raises IndexError ahead of the ValueError
   * of an empty curve; a density series otherwise shorter than the wind
   * speed series raises IndexError; a zero or
   * negative density makes `(1.225 / rho) ** p` infinite or NaN.
   */
  function PowerCurveDensityCorrection(ws: seq<real>, c: Curve,
                                       density: Option<seq<real>>, m: Math): (r: Result<seq<real>>)
    ensures density.None? ==> r.Failure? && r.error.TypeError?
    ensures density.Some? && |ws| == 0 ==> r == Success([])
    ensures density.Some? && |ws| > 0 && |density.value| == 0 ==> r == Failure(IndexError("density"))
    ensures density.Some? && |ws| > 0 && |density.value| > 0 && |c| == 0 ==> r == Failure(ValueError("power curve"))
    ensures r.Success? ==> |r.value| == |ws|
    ensures r.Success? <==>
      density.Some? &&
      (|ws| == 0 || (|c| > 0 && |density.value| >= |ws| && !HasNonPositive(density.value, |ws|)))
  {
    if density.None? then Failure(TypeError("density"))
    else if |ws| == 0 then Success([])
    else if |density.value| == 0 then Failure(IndexError("density"))
    else if |c| == 0 then Failure(ValueError("power curve"))
    else if |density.value| < |ws| then Failure(IndexError("density"))
    else if HasNonPositive(density.value, |ws|) then Failure(NonFinite("density"))
    else
      var d := density.value;
      Success(seq(|ws|, i requires 0 <= i < |ws| => InterpZero(CorrectedCurve(c, d[i], m), ws[i])))
  }

  // ----- power curve

  /** `np.interp(wind_speed, speeds, values, left=0, right=0)` over a series. */
  function EvaluateCurve(ws: seq<real>, c: Curve): (r: seq<real>)
    requires |c| > 0
    ensures |r| == |ws|
  {
    seq(|ws|, i requires 0 <= i < |ws| => InterpZero(c, ws[i]))
  }

  /**
   * `power_curve`: `density_correction` must be one of the two booleans;
   * without correction the curve is interpolated directly (numpy raises
   * ValueError on an empty curve), with correction the density-corrected
   * curve is used.
   */
  function PowerCurve(ws: seq<real>, c: Curve, density: Option<seq<real>>,
                      densityCorrection: PyFlag, m: Math): (r: Result<seq<real>>)
    ensures densityCorrection == PyOther ==> r.Failure? && r.error.TypeError?
    ensures densityCorrection == PyFalse ==> (r.Success? <==> |c| > 0)
    ensures r.Success? ==> |r.value| == |ws|
  {
    match densityCorrection
    case PyFalse =>
      if |c| == 0 then Failure(ValueError("power curve")) else Success(EvaluateCurve(ws, c))
    case PyTrue => PowerCurveDensityCorrection(ws, c, density, m)
    case PyOther => Failure(TypeError("density_correction"))
  }

  /**
   * Without correction, a wind speed outside the curve's range gives 0,
   * a wind speed equal to a row's speed gives that row's value, and between
   * two neighbouring rows the result lies between their values.
   */
  lemma PowerCurveLookup(ws: seq<real>, c: Curve, density: Option<seq<real>>, m: Math, i: nat)
    requires StrictlyIncreasing(c) && |c| > 0 && i < |ws|
    ensures PowerCurve(ws, c, density, PyFalse, m).Success?
    ensures ws[i] < c[0].speed || ws[i] > Last(c).speed ==>
      PowerCurve(ws, c, density, PyFalse, m).value[i] == 0.0
    ensures forall k :: 0 <= k < |c| && c[k].speed == ws[i] ==>
      PowerCurve(ws, c, density, PyFalse, m).value[i] == c[k].value
    ensures forall j :: 0 <= j < |c| - 1 && c[j].speed <= ws[i] <= c[j + 1].speed ==>
      Min(c[j].value, c[j + 1].value) <= PowerCurve(ws, c, density, PyFalse, m).value[i]
                                   <= Max(c[j].value, c[j + 1].value)
  {
    var r := PowerCurve(ws, c, density, PyFalse, m).value;
    assert r[i] == InterpZero(c, ws[i]);
    InterpOutside(c, ws[i], 0.0, 0.0);
    forall k | 0 <= k < |c| && c[k].speed == ws[i] ensures r[i] == c[k].value {
      InterpAtSample(c, k, 0.0, 0.0);
    }
    forall j | 0 <= j < |c| - 1 && c[j].speed <= ws[i] <= c[j + 1].speed
      ensures Min(c[j].value, c[j + 1].value) <= r[i] <= Max(c[j].value, c[j + 1].value)
    {
      InterpSegmentBounded(c, j, ws[i], 0.0, 0.0);
    }
  }

  function Min(a: real, b: real): real { if a <= b then a else b }
  function Max(a: real, b: real): real { if a <= b then b else a }

  /**
   * With power values in [0, hi], every output value lies in [0, hi],
   * with or without density correction and whatever the row order.
   */
  lemma PowerCurveBounds(ws: seq<real>, c: Curve, density: Option<seq<real>>,
                         densityCorrection: PyFlag, m: Math, hi: real)
    requires 0.0 <= hi && ValuesWithin(c, 0.0, hi)
    ensures PowerCurve(ws, c, density, densityCorrection, m).Success? ==>
      forall i :: 0 <= i < |ws| ==> 0.0 <= PowerCurve(ws, c, density, densityCorrection, m).value[i] <= hi
  {
    var r := PowerCurve(ws, c, density, densityCorrection, m);
    if r.Success? && |ws| > 0 {
      forall i | 0 <= i < |ws| ensures 0.0 <= r.value[i] <= hi {
        if densityCorrection == PyFalse {
          InterpZeroBounds(c, ws[i], hi);
        } else {
          var cc := CorrectedCurve(c, density.value[i], m);
          forall k | 0 <= k < |cc| ensures 0.0 <= cc[k].value <= hi {
            assert cc[k].value == Values(cc)[k] == Values(c)[k];
          }
          InterpZeroBounds(cc, ws[i], hi);
        }
      }
    }
  }

  /**
   * At the reference density 1.225 kg/m³ the correction factor is
   * `1 ** p == 1`, so the corrected output is the uncorrected one.
   */
  lemma DensityCorrectionAtReference(ws: seq<real>, c: Curve, m: Math)
    requires PowOfOne(m) && |c| > 0
    ensures PowerCurve(ws, c, Some(seq(|ws|, _ => ReferenceDensity)), PyTrue, m)
         == PowerCurve(ws, c, None, PyFalse, m)
  {
    var d := seq(|ws|, _ => ReferenceDensity);
    assert !HasNonPositive(d, |ws|);
    var cc := CorrectedCurve(c, ReferenceDensity, m);
    forall k | 0 <= k < |c| ensures cc[k] == c[k] {
      assert ReferenceDensity / ReferenceDensity == 1.0;
      assert cc[k].speed == c[k].speed * m.pow(1.0, DensityCorrectionExponent(c[k].speed));
      assert cc[k].value == Values(cc)[k] == Values(c)[k];
    }
    assert cc == c;
    if |ws| > 0 {
      var r := PowerCurve(ws, c, Some(d), PyTrue, m).value;
      forall i | 0 <= i < |ws| ensures r[i] == EvaluateCurve(ws, c)[i] {
        assert CorrectedCurve(c, d[i], m) == cc;
      }
      assert r == EvaluateCurve(ws, c);
    }
  }

  /** The example series [2, 5.5, 7] m/s on the curve 4→300, 5→400, 6→500 W gives [0, 450, 0] W. */
  lemma PowerCurveExample(density: Option<seq<real>>, m: Math)
    ensures PowerCurve([2.0, 5.5, 7.0],
                       [Point(4.0, 300.0), Point(5.0, 400.0), Point(6.0, 500.0)],
                       density, PyFalse, m) == Success([0.0, 450.0, 0.0])
  {
    var c := [Point(4.0, 300.0), Point(5.0, 400.0), Point(6.0, 500.0)];
    var ws := [2.0, 5.5, 7.0];
    var r := EvaluateCurve(ws, c);
    InterpOnSegment(c, 1, 5.5, 0.0, 0.0);
    assert r[1] == 450.0;
    assert r == [0.0, 450.0, 0.0];
  }

  // ----- power coefficient curve

  /** `1/8 * rho * d**2 * pi * v**3 * cp`, the power the rotor extracts. */
  function RotorPower(rho: real, d: real, v: real, cp: real): real {
    1.0 / 8.0 * rho * (d * d) * Pi * (v * v * v) * cp
  }

  /**
   * `power_coefficient_curve`. Without correction the power coefficient
   * is interpolated (ValueError on an empty curve), then a missing density
   * or rotor diameter fails in the arithmetic with TypeError. With
   * correction a power curve at the reference density is built at the
   * coefficient curve's wind speeds and the density-corrected power curve
   * is used. Any other flag raises TypeError.
   */
  function PowerCoefficientCurve(ws: seq<real>, cp: Curve, d: Option<real>,
                                 density: Option<seq<real>>, densityCorrection: PyFlag,
                                 m: Math): (r: Result<seq<real>>)
    requires densityCorrection == PyFalse && density.Some? ==> |density.value| == |ws|
    ensures densityCorrection == PyOther ==> r.Failure? && r.error.TypeError?
    ensures densityCorrection == PyFalse ==>
      (r.Success? <==> |cp| > 0 && density.Some? && d.Some?)
    ensures r.Success? ==> |r.value| == |ws|
  {
    match densityCorrection
    case PyFalse =>
      if |cp| == 0 then Failure(ValueError("power coefficient curve"))
      else if density.None? then Failure(TypeError("density"))
      else if d.None? then Failure(TypeError("rotor_diameter"))
      else
        var rho := density.value;
        Success(seq(|ws|, i requires 0 <= i < |ws| =>
          RotorPower(rho[i], d.value, ws[i], InterpZero(cp, ws[i]))))
    case PyTrue =>
      if d.None? then Failure(TypeError("rotor_diameter"))
      else PowerCurveDensityCorrection(ws, ReferencePowerCurve(cp, d.value), density, m)
    case PyOther => Failure(TypeError("density_correction"))
  }

  /** The power curve at the reference density, on the coefficient curve's wind speeds. */
  function ReferencePowerCurve(cp: Curve, d: real): (r: Curve)
    ensures Speeds(r) == Speeds(cp)
    ensures forall k :: 0 <= k < |cp| ==>
      r[k].value == RotorPower(ReferenceDensity, d, cp[k].speed, cp[k].value)
  {
    seq(|cp|, k requires 0 <= k < |cp| =>
      Point(cp[k].speed, RotorPower(ReferenceDensity, d, cp[k].speed, cp[k].value)))
  }

  /**
   * Without correction, outside the coefficient curve's range the power
   * coefficient and hence the output is 0; at a row's wind speed the output
   * is the rotor power with that row's coefficient.
   */
  lemma PowerCoefficientCurveLookup(ws: seq<real>, cp: Curve, d: real, density: seq<real>,
                                    m: Math, i: nat)
    requires StrictlyIncreasing(cp) && |cp| > 0 && |density| == |ws| && i < |ws|
    ensures PowerCoefficientCurve(ws, cp, Some(d), Some(density), PyFalse, m).Success?
    ensures ws[i] < cp[0].speed || ws[i] > Last(cp).speed ==>
      PowerCoefficientCurve(ws, cp, Some(d), Some(density), PyFalse, m).value[i] == 0.0
    ensures forall k :: 0 <= k < |cp| && cp[k].speed == ws[i] ==>
      PowerCoefficientCurve(ws, cp, Some(d), Some(density), PyFalse, m).value[i]
        == RotorPower(density[i], d, ws[i], cp[k].value)
  {
    InterpOutside(cp, ws[i], 0.0, 0.0);
    forall k | 0 <= k < |cp| && cp[k].speed == ws[i]
      ensures InterpZero(cp, ws[i]) == cp[k].value
    {
      InterpAtSample(cp, k, 0.0, 0.0);
    }
  }

  /**
   * With correction the coefficient path is the density-corrected power
   * curve of the reference-density power curve.
   */
  lemma PowerCoefficientCurveDelegates(ws: seq<real>, cp: Curve, d: real,
                                       density: Option<seq<real>>, m: Math)
    ensures PowerCoefficientCurve(ws, cp, Some(d), density, PyTrue, m)
         == PowerCurve(ws, ReferencePowerCurve(cp, d), density, PyTrue, m)
    ensures PowerCoefficientCurve(ws, cp, None, density, PyTrue, m).Failure?
  {
  }

  /**
   * The example: 5.5 m/s, density 1.3 kg/m³, an 80 m rotor and the
   * coefficient curve 4→0.3, 5→0.4, 6→0.5 give about 244615.399 W; 2 and
   * 7 m/s lie outside the curve and give 0.
   */
  lemma PowerCoefficientCurveExample(m: Math)
    ensures var r := PowerCoefficientCurve([2.0, 5.5, 7.0],
                                           [Point(4.0, 0.3), Point(5.0, 0.4), Point(6.0, 0.5)],
                                           Some(80.0), Some([1.3, 1.3, 1.3]), PyFalse, m);
      r.Success? && r.value[0] == 0.0 && r.value[2] == 0.0 &&
      244615.39 < r.value[1] < 244615.40
  {
    var cp := [Point(4.0, 0.3), Point(5.0, 0.4), Point(6.0, 0.5)];
    InterpOnSegment(cp, 1, 5.5, 0.0, 0.0);
    assert InterpZero(cp, 5.5) == 0.45;
    assert RotorPower(1.3, 80.0, 5.5, 0.45) == 77863.5 * Pi;
  }
}
