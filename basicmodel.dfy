/**
 * The library's first, stand-alone turbine model `SimpleWindTurbine`: a
 * turbine given by hub height, rotor diameter, a power coefficient (cp)
 * curve and a nominal power, with its own air density and wind speed
 * formulas, a cp lookup that clamps the caller's wind speeds in place, and
 * a power output clipped at the nominal power.
 *
 * The turbine's attributes are only set by its constructor, so the
 * turbine is a value. The lookup `cp_series` overwrites the array it is
 * given, so it is a method on an `array`.
 */
module BasicModel {
  import opened Common
  import opened Interpolation
  import Temperature
  import Density
  import WindSpeed
  import PowerOutput

  /** What `fetch_wpp_data` hands back for a converter type: its cp curve and nominal power. */
  datatype Fetched = Fetched(cpValues: Curve, nominalPower: real)

  datatype SimpleWindTurbine = SimpleWindTurbine(
    windConvType: Option<string>,
    hHub: Option<real>,
    dRotor: Option<real>,
    cpValues: Curve,
    nominalPower: real)

  /**
   * `SimpleWindTurbine(wind_conv_type, h_hub, d_rotor, cp_values,
   * nominal_power)`. When the cp curve or the nominal power is missing the
   * converter type's data are fetched; `fetch` is what the fetch returns
   * (its failure is the SystemExit for an unknown type), and it fills in
   * only what was missing.
   */
  function NewSimpleWindTurbine(windConvType: Option<string>, hHub: Option<real>, dRotor: Option<real>,
                                cpValues: Option<Curve>, nominalPower: Option<real>,
                                fetch: Result<Fetched>): (r: Result<SimpleWindTurbine>)
    ensures r.Failure? <==> (cpValues.None? || nominalPower.None?) && fetch.Failure?
    ensures r.Failure? ==> r.error == fetch.error
    ensures r.Success? ==> r.value.windConvType == windConvType && r.value.hHub == hHub && r.value.dRotor == dRotor
    ensures r.Success? && cpValues.Some? ==> r.value.cpValues == cpValues.value
    ensures r.Success? && cpValues.None? ==> r.value.cpValues == fetch.value.cpValues
    ensures r.Success? && nominalPower.Some? ==> r.value.nominalPower == nominalPower.value
    ensures r.Success? && nominalPower.None? ==> r.value.nominalPower == fetch.value.nominalPower
  {
    if cpValues.Some? && nominalPower.Some? then
      Success(SimpleWindTurbine(windConvType, hHub, dRotor, cpValues.value, nominalPower.value))
    else if fetch.Failure? then
      Failure(fetch.error)
    else
      Success(SimpleWindTurbine(windConvType, hHub, dRotor,
        if cpValues.Some? then cpValues.value else fetch.value.cpValues,
        if nominalPower.Some? then nominalPower.value else fetch.value.nominalPower))
  }

  /** With both the curve and the nominal power given, the fetched data play no part. */
  lemma GivenDataNeedNoFetch(windConvType: Option<string>, hHub: Option<real>, dRotor: Option<real>,
                             cpValues: Curve, nominalPower: real, fetch1: Result<Fetched>, fetch2: Result<Fetched>)
    ensures NewSimpleWindTurbine(windConvType, hHub, dRotor, Some(cpValues), Some(nominalPower), fetch1)
         == NewSimpleWindTurbine(windConvType, hHub, dRotor, Some(cpValues), Some(nominalPower), fetch2)
         == Success(SimpleWindTurbine(windConvType, hHub, dRotor, cpValues, nominalPower))
  {
  }

  // ----- weather

  /** The weather columns the model reads, as time series. */
  datatype Weather = Weather(tempAir: seq<real>, pressure: seq<real>, vWind: seq<real>, z0: seq<real>)

  /** All columns have one value per time step. */
  predicate Aligned(w: Weather) {
    |w.tempAir| == |w.pressure| && |w.pressure| == |w.vWind| && |w.vWind| == |w.z0|
  }

  /** `data_height`: for each weather column, the height at which it was measured. */
  type DataHeight = map<string, real>

  // ----- air density at hub height

  /** `rho_hub` for one time step, from the hub-height temperature `temperatureHub`. */
  function RhoAt(pressure: real, pressureHeight: real, hubHeight: real, temperatureHub: real): real
    requires temperatureHub != 0.0
  {
    Density.PressureAtHub(pressure, pressureHeight, hubHeight) / (2.8706 * temperatureHub)
  }

  /** The hub-height temperature series `rho_hub` divides by. */
  function TemperatureAtHub(t: SimpleWindTurbine, w: Weather, dh: DataHeight): seq<real>
    requires "temp_air" in dh && t.hHub.Some?
  {
    Temperature.LinearGradientSeries(w.tempAir, dh["temp_air"], t.hHub.value)
  }

  /**
   * `rho_hub(weather, data_height)`: the two measurement heights are looked
   * up first (KeyError), then a missing hub height fails in the
   * arithmetic (TypeError); a zero hub-height temperature is a division by
   * zero. Otherwise the density times 2.8706 times the hub-height
   * temperature is the hub-height pressure in hPa.
   */
  function RhoHub(t: SimpleWindTurbine, w: Weather, dh: DataHeight): (r: Result<seq<real>>)
    requires |w.tempAir| == |w.pressure|
    ensures "temp_air" !in dh ==> r == Failure(KeyError("temp_air"))
    ensures "temp_air" in dh && "pressure" !in dh ==> r == Failure(KeyError("pressure"))
    ensures "temp_air" in dh && "pressure" in dh && t.hHub.None? ==> r == Failure(TypeError("h_hub"))
    ensures r.Success? <==> ("temp_air" in dh && "pressure" in dh && t.hHub.Some?
      && !Density.HasZero(TemperatureAtHub(t, w, dh)))
    ensures r.Success? ==> |r.value| == |w.pressure| && forall i :: 0 <= i < |w.pressure| ==>
      var tHub := Temperature.LinearGradient(w.tempAir[i], dh["temp_air"], t.hHub.value);
      tHub != 0.0 &&
      r.value[i] * (2.8706 * tHub) == Density.PressureAtHub(w.pressure[i], dh["pressure"], t.hHub.value)
  {
    if "temp_air" !in dh then Failure(KeyError("temp_air"))
    else if "pressure" !in dh then Failure(KeyError("pressure"))
    else if t.hHub.None? then Failure(TypeError("h_hub"))
    else
      var tHub := TemperatureAtHub(t, w, dh);
      if Density.HasZero(tHub) then Failure(NonFinite("temperature_hub"))
      else Success(seq(|w.pressure|, i requires 0 <= i < |w.pressure| =>
        RhoAt(w.pressure[i], dh["pressure"], t.hHub.value, tHub[i])))
  }

  /**
   * `rho_hub` is the ideal-gas density of the density module with the gas
   * constant 287.058 rounded to 287.06.
   */
  lemma RhoAtIsIdealGas(pressure: real, pressureHeight: real, hubHeight: real, temperatureHub: real)
    requires temperatureHub != 0.0
    ensures RhoAt(pressure, pressureHeight, hubHeight, temperatureHub)
         == Density.IdealGas(pressure, pressureHeight, hubHeight, temperatureHub) * (287.058 / 287.06)
  {
    var p := Density.PressureAtHub(pressure, pressureHeight, hubHeight);
    var rho := RhoAt(pressure, pressureHeight, hubHeight, temperatureHub);
    var ig := Density.IdealGas(pressure, pressureHeight, hubHeight, temperatureHub);
    assert rho * (2.8706 * temperatureHub) == p;
    assert ig * (287.058 * temperatureHub) == p * 100.0;
    assert (ig * (287.058 / 287.06)) * (2.8706 * temperatureHub) == ig * (287.058 * temperatureHub) / 100.0;
  }

  // ----- wind speed at hub height

  /** `v_wind_hub` for one time step. */
  function VWindAt(v: real, hubHeight: real, dataHeight: real, z0: real, m: Math): real
    requires z0 != 0.0 && m.ln(dataHeight / z0) != 0.0
  {
    v * m.ln(hubHeight / z0) / m.ln(dataHeight / z0)
  }

  /** A time step at which the logarithmic quotient would divide by zero. */
  predicate VWindDivergesAt(dataHeight: real, z0: seq<real>, m: Math) {
    exists i :: 0 <= i < |z0| && (z0[i] == 0.0 || m.ln(dataHeight / z0[i]) == 0.0)
  }

  /**
   * `v_wind_hub(weather, data_height)`: a missing hub height fails first
   * (TypeError, in `h_hub / z0`), then the wind speed's measurement height
   * is looked up (KeyError); a zero roughness length or a zero logarithm
   * below the fraction is a division by zero. Otherwise the hub speed times
   * ln(h_data / z0) is the measured speed times ln(h_hub / z0).
   */
  function VWindHub(t: SimpleWindTurbine, w: Weather, dh: DataHeight, m: Math): (r: Result<seq<real>>)
    requires |w.vWind| == |w.z0|
    ensures t.hHub.None? ==> r == Failure(TypeError("h_hub"))
    ensures t.hHub.Some? && "v_wind" !in dh ==> r == Failure(KeyError("v_wind"))
    ensures r.Success? <==> t.hHub.Some? && "v_wind" in dh && !VWindDivergesAt(dh["v_wind"], w.z0, m)
    ensures r.Success? ==> |r.value| == |w.vWind| && forall i :: 0 <= i < |w.vWind| ==>
      w.z0[i] != 0.0 && m.ln(dh["v_wind"] / w.z0[i]) != 0.0 &&
      r.value[i] * m.ln(dh["v_wind"] / w.z0[i]) == w.vWind[i] * m.ln(t.hHub.value / w.z0[i])
  {
    if t.hHub.None? then Failure(TypeError("h_hub"))
    else if "v_wind" !in dh then Failure(KeyError("v_wind"))
    else if VWindDivergesAt(dh["v_wind"], w.z0, m) then Failure(NonFinite("roughness_length"))
    else Success(seq(|w.vWind|, i requires 0 <= i < |w.vWind| =>
      VWindAt(w.vWind[i], t.hHub.value, dh["v_wind"], w.z0[i], m)))
  }

  /**
   * `v_wind_hub` is the logarithmic wind profile of the wind speed module
   * without an obstacle, for every measurement height that profile accepts.
   */
  lemma VWindHubIsLogarithmicProfile(t: SimpleWindTurbine, w: Weather, dh: DataHeight, m: Math)
    requires |w.vWind| == |w.z0| && t.hHub.Some? && "v_wind" in dh && 0.0 <= dh["v_wind"]
    ensures VWindHub(t, w, dh, m)
         == WindSpeed.LogarithmicProfile(w.vWind, dh["v_wind"], t.hHub.value, w.z0, 0.0, m)
  {
    var h, hub := dh["v_wind"], t.hHub.value;
    NoDisplacement(h);
    NoDisplacement(hub);
    if !VWindDivergesAt(h, w.z0, m) {
      var a := VWindHub(t, w, dh, m).value;
      var b := WindSpeed.LogarithmicProfile(w.vWind, h, hub, w.z0, 0.0, m).value;
      forall i | 0 <= i < |a| ensures a[i] == b[i] {
        VWindAtIsLogProfileAt(w.vWind[i], hub, h, w.z0[i], m);
      }
      assert a == b;
    } else {
      var i :| 0 <= i < |w.z0| && (w.z0[i] == 0.0 || m.ln(h / w.z0[i]) == 0.0);
      assert WindSpeed.LogProfileDivergesAt(h, w.z0, 0.0, m);
    }
  }

  /** Without an obstacle the displaced height is the height itself. */
  lemma NoDisplacement(h: real)
    ensures WindSpeed.Displaced(h, 0.0) == h
  {
  }

  /** One time step of `v_wind_hub` is one time step of the obstacle-free logarithmic profile. */
  lemma VWindAtIsLogProfileAt(v: real, hubHeight: real, dataHeight: real, z0: real, m: Math)
    requires z0 != 0.0 && m.ln(dataHeight / z0) != 0.0
    ensures WindSpeed.LogProfileAt(v, dataHeight, hubHeight, z0, 0.0, m) == VWindAt(v, hubHeight, dataHeight, z0, m)
  {
    NoDisplacement(dataHeight);
    NoDisplacement(hubHeight);
  }

  // ----- power coefficient lookup

  /** The largest wind speed of a non-empty curve (`cp_values.index.max()`). */
  function MaxSpeed(c: Curve): (r: real)
    requires |c| > 0
    ensures forall k :: 0 <= k < |c| ==> c[k].speed <= r
    ensures exists k :: 0 <= k < |c| && c[k].speed == r
    decreases |c|
  {
    if |c| == 1 then c[0].speed
    else
      var rest := MaxSpeed(c[..|c| - 1]);
      if Last(c).speed > rest then Last(c).speed else rest
  }

  /** On a curve with increasing speeds the largest speed is the last row's. */
  lemma MaxSpeedIsLast(c: Curve)
    requires |c| > 0 && StrictlyIncreasing(c)
    ensures MaxSpeed(c) == Last(c).speed
  {
    var k :| 0 <= k < |c| && c[k].speed == MaxSpeed(c);
    if k < |c| - 1 {
      assert c[k].speed < Last(c).speed;
    }
  }

  function Clamp(x: real, hi: real): real {
    if x > hi then hi else x
  }

  /** `v_wind[v_wind > v_max] = v_max`: the series after the masked assignment. */
  function Clamped(v: seq<real>, hi: real): (r: seq<real>)
    ensures |r| == |v|
    ensures forall i :: 0 <= i < |v| ==> r[i] <= hi
    ensures forall i :: 0 <= i < |v| ==> (v[i] <= hi ==> r[i] == v[i]) && (v[i] > hi ==> r[i] == hi)
  {
    seq(|v|, i requires 0 <= i < |v| => Clamp(v[i], hi))
  }

  /** Clamping a second time changes nothing. */
  lemma ClampedIdempotent(v: seq<real>, hi: real)
    ensures Clamped(Clamped(v, hi), hi) == Clamped(v, hi)
  {
  }

  /** `np.interp(v, cp_values.index, cp_values.cp)`, time step by time step. */
  function Interpolated(c: Curve, v: seq<real>): (r: seq<real>)
    requires |c| > 0
    ensures |r| == |v|
  {
    seq(|v|, i requires 0 <= i < |v| => InterpClamped(c, v[i]))
  }

  /**
   * `cp_series(v_wind)`. Every speed of the caller's array above the
   * curve's largest speed is overwritten with that speed, then the cp
   * values are interpolated at the clamped speeds. An empty curve leaves
   * the array as it is (numpy compares with NaN) and makes the
   * interpolation raise ValueError.
   */
  method CpSeries(t: SimpleWindTurbine, v: array<real>) returns (r: Result<seq<real>>)
    modifies v
    ensures |t.cpValues| == 0 ==> v[..] == old(v[..]) && r == Failure(ValueError("power coefficient curve"))
    ensures |t.cpValues| > 0 ==> v[..] == Clamped(old(v[..]), MaxSpeed(t.cpValues))
    ensures |t.cpValues| > 0 ==> r == Success(Interpolated(t.cpValues, v[..]))
  {
    if |t.cpValues| == 0 {
      r := Failure(ValueError("power coefficient curve"));
      return;
    }
    var vMax := MaxSpeed(t.cpValues);
    for i := 0 to v.Length
      invariant forall k :: 0 <= k < i ==> v[k] == Clamp(old(v[k]), vMax)
      invariant forall k :: i <= k < v.Length ==> v[k] == old(v[k])
    {
      if v[i] > vMax {
        v[i] := vMax;
      }
    }
    assert v[..] == Clamped(old(v[..]), vMax);
    r := Success(Interpolated(t.cpValues, v[..]));
  }

  /**
   * On a curve with increasing speeds the clamping changes the caller's
   * array but never the cp values: above the last speed numpy already
   * returns the last value.
   */
  lemma ClampKeepsCp(c: Curve, v: seq<real>)
    requires |c| > 0 && StrictlyIncreasing(c)
    ensures Interpolated(c, Clamped(v, MaxSpeed(c))) == Interpolated(c, v)
  {
    var a, b := Interpolated(c, Clamped(v, MaxSpeed(c))), Interpolated(c, v);
    forall i | 0 <= i < |v| ensures a[i] == b[i] {
      ClampKeepsCpAt(c, v[i]);
    }
  }

  /** The same for one speed. */
  lemma ClampKeepsCpAt(c: Curve, x: real)
    requires |c| > 0 && StrictlyIncreasing(c)
    ensures InterpClamped(c, Clamp(x, MaxSpeed(c))) == InterpClamped(c, x)
  {
    MaxSpeedIsLast(c);
    if x > MaxSpeed(c) {
      InterpClampedOutside(c, x);
      InterpClampedOutside(c, MaxSpeed(c));
    }
  }

  /**
   * At a row's own speed the lookup returns that row's cp, and below the
   * first speed the first row's cp: speeds of 1 and 2 m/s get the cp of a
   * curve whose first row is (1 m/s, 0), which is 0.
   */
  lemma CpAtRowsAndBelow(c: Curve, k: nat, x: real)
    requires |c| > 0 && StrictlyIncreasing(c) && k < |c|
    ensures InterpClamped(c, Clamp(c[k].speed, MaxSpeed(c))) == c[k].value
    ensures x <= c[0].speed ==> InterpClamped(c, Clamp(x, MaxSpeed(c))) == c[0].value
  {
    MaxSpeedIsLast(c);
    if k < |c| - 1 {
      assert c[k].speed < Last(c).speed;
    }
    InterpAtSample(c, k, c[0].value, Last(c).value);
    if x <= c[0].speed {
      if |c| > 1 {
        assert c[0].speed < Last(c).speed;
      }
      InterpClampedOutside(c, x);
    }
  }

  // ----- power output

  /** `(rho / 2) * ((d / 2) ** 2 * pi) * v ** 3 * cp` for one time step. */
  function PowerAt(rho: real, d: real, v: real, cp: real): real {
    (rho / 2.0) * ((d / 2.0) * (d / 2.0) * Pi) * (v * v * v) * cp
  }

  /**
   * What `turbine_power_output(weather, data_height)` returns: the process
   * exits when the hub height or the rotor diameter is missing; then the
   * density and the hub wind speed are computed; the cube uses the hub
   * speeds as they are, the cp lookup a second, clamped copy; every value
   * is clipped at the nominal power.
   */
  function PowerOutputOf(t: SimpleWindTurbine, w: Weather, dh: DataHeight, m: Math): (r: Result<seq<real>>)
    requires Aligned(w)
    ensures t.hHub.None? ==> r == Failure(SystemExit("h_hub"))
    ensures t.hHub.Some? && t.dRotor.None? ==> r == Failure(SystemExit("d_rotor"))
    ensures r.Success? ==> |r.value| == |w.pressure| && forall i :: 0 <= i < |r.value| ==> r.value[i] <= t.nominalPower
  {
    if t.hHub.None? then Failure(SystemExit("h_hub"))
    else if t.dRotor.None? then Failure(SystemExit("d_rotor"))
    else
      var rho := RhoHub(t, w, dh);
      if rho.Failure? then Failure(rho.error)
      else
        var v := VWindHub(t, w, dh, m);
        if v.Failure? then Failure(v.error)
        else if |t.cpValues| == 0 then Failure(ValueError("power coefficient curve"))
        else
          var cp := Interpolated(t.cpValues, Clamped(v.value, MaxSpeed(t.cpValues)));
          Success(seq(|w.pressure|, i requires 0 <= i < |w.pressure| =>
            PowerOutput.Min(PowerAt(rho.value[i], t.dRotor.value, v.value[i], cp[i]), t.nominalPower)))
  }

  /**
   * `turbine_power_output(weather, data_height)`: the cp lookup runs on a
   * fresh array holding the hub wind speeds, so the caller's data are not
   * changed.
   */
  method TurbinePowerOutput(t: SimpleWindTurbine, w: Weather, dh: DataHeight, m: Math) returns (r: Result<seq<real>>)
    requires Aligned(w)
    ensures r == PowerOutputOf(t, w, dh, m)
  {
    if t.hHub.None? {
      return Failure(SystemExit("h_hub"));
    }
    if t.dRotor.None? {
      return Failure(SystemExit("d_rotor"));
    }
    var rho := RhoHub(t, w, dh);
    if rho.Failure? {
      return Failure(rho.error);
    }
    var v := VWindHub(t, w, dh, m);
    if v.Failure? {
      return Failure(v.error);
    }
    var speeds := new real[|v.value|](i requires 0 <= i < |v.value| => v.value[i]);
    assert speeds[..] == v.value;
    var cp := CpSeries(t, speeds);
    if cp.Failure? {
      return Failure(cp.error);
    }
    assert cp.value == Interpolated(t.cpValues, Clamped(v.value, MaxSpeed(t.cpValues)));
    var n := |w.pressure|;
    var p := seq(n, i requires 0 <= i < n =>
      PowerOutput.Min(PowerAt(rho.value[i], t.dRotor.value, v.value[i], cp.value[i]), t.nominalPower));
    ghost var expected := PowerOutputOf(t, w, dh, m);
    assert expected.Success? && expected.value == p by {
      assert |t.cpValues| > 0;
      forall i | 0 <= i < n ensures expected.value[i] == p[i] {
      }
    }
    r := Success(p);
  }

  /** The value at one time step, in terms of the density, the hub speed and the clamped cp lookup. */
  lemma PowerOutputAt(t: SimpleWindTurbine, w: Weather, dh: DataHeight, m: Math, i: nat)
    requires Aligned(w)
    requires PowerOutputOf(t, w, dh, m).Success? && i < |w.pressure|
    ensures RhoHub(t, w, dh).Success? && VWindHub(t, w, dh, m).Success? && |t.cpValues| > 0
    ensures t.dRotor.Some?
    ensures var v := VWindHub(t, w, dh, m).value;
      PowerOutputOf(t, w, dh, m).value[i] == PowerOutput.Min(
        PowerAt(RhoHub(t, w, dh).value[i], t.dRotor.value, v[i],
          InterpClamped(t.cpValues, Clamp(v[i], MaxSpeed(t.cpValues)))),
        t.nominalPower)
  {
  }

  /**
   * On a curve with increasing speeds every value is the rotor power
   * 1/8 rho d² pi v³ cp(v) of the power output module, at the unclamped
   * hub speed, clipped at the nominal power.
   */
  lemma PowerOutputIsClippedRotorPower(t: SimpleWindTurbine, w: Weather, dh: DataHeight, m: Math, i: nat)
    requires Aligned(w) && StrictlyIncreasing(t.cpValues)
    requires PowerOutputOf(t, w, dh, m).Success? && i < |w.pressure|
    ensures PowerOutputOf(t, w, dh, m).value[i] == PowerOutput.Min(
      PowerOutput.RotorPower(RhoHub(t, w, dh).value[i], t.dRotor.value, VWindHub(t, w, dh, m).value[i],
        InterpClamped(t.cpValues, VWindHub(t, w, dh, m).value[i])),
      t.nominalPower)
  {
    PowerOutputAt(t, w, dh, m, i);
    var x := VWindHub(t, w, dh, m).value[i];
    ClampKeepsCpAt(t.cpValues, x);
    PowerAtIsRotorPower(RhoHub(t, w, dh).value[i], t.dRotor.value, x, InterpClamped(t.cpValues, x));
  }

  /** `(rho / 2) * ((d / 2) ** 2 * pi)` is `1/8 * rho * d**2 * pi`. */
  lemma PowerAtIsRotorPower(rho: real, d: real, v: real, cp: real)
    ensures PowerAt(rho, d, v, cp) == PowerOutput.RotorPower(rho, d, v, cp)
  {
    assert (rho / 2.0) * ((d / 2.0) * (d / 2.0) * Pi) == 1.0 / 8.0 * rho * (d * d) * Pi;
  }

  /**
   * With a non-negative nominal power, density, hub wind speed and cp
   * curve, no value is negative; with the clipping, every value lies in
   * [0, nominal power].
   */
  lemma PowerOutputWithin(t: SimpleWindTurbine, w: Weather, dh: DataHeight, m: Math, i: nat)
    requires Aligned(w) && ValuesWithin(t.cpValues, 0.0, 1.0) && 0.0 <= t.nominalPower
    requires PowerOutputOf(t, w, dh, m).Success? && i < |w.pressure|
    requires 0.0 <= RhoHub(t, w, dh).value[i] && 0.0 <= VWindHub(t, w, dh, m).value[i]
    ensures 0.0 <= PowerOutputOf(t, w, dh, m).value[i] <= t.nominalPower
  {
    PowerOutputAt(t, w, dh, m, i);
    var x := VWindHub(t, w, dh, m).value[i];
    var cp := InterpClamped(t.cpValues, Clamp(x, MaxSpeed(t.cpValues)));
    InterpClampedBounds(t.cpValues, Clamp(x, MaxSpeed(t.cpValues)), 0.0, 1.0);
    PowerAtNonNegative(RhoHub(t, w, dh).value[i], t.dRotor.value, x, cp);
  }

  /** The power formula is non-negative on non-negative density, speed and cp. */
  lemma PowerAtNonNegative(rho: real, d: real, v: real, cp: real)
    requires 0.0 <= rho && 0.0 <= v && 0.0 <= cp
    ensures 0.0 <= PowerAt(rho, d, v, cp)
  {
    var area := (d / 2.0) * (d / 2.0) * Pi;
    assert 0.0 <= (d / 2.0) * (d / 2.0);
    MulNonNegative((d / 2.0) * (d / 2.0), Pi);
    MulNonNegative(v * v, v);
    MulNonNegative(rho / 2.0, area);
    MulNonNegative((rho / 2.0) * area, v * v * v);
    MulNonNegative((rho / 2.0) * area * (v * v * v), cp);
  }

  /**
   * A hub wind speed at or above the curve's last speed gets the last cp
   * value, while the cube is taken of the unclamped speed.
   */
  lemma PowerAboveLastSpeed(t: SimpleWindTurbine, w: Weather, dh: DataHeight, m: Math, i: nat)
    requires Aligned(w) && StrictlyIncreasing(t.cpValues)
    requires PowerOutputOf(t, w, dh, m).Success? && i < |w.pressure|
    requires VWindHub(t, w, dh, m).value[i] >= Last(t.cpValues).speed
    ensures PowerOutputOf(t, w, dh, m).value[i] == PowerOutput.Min(
      PowerAt(RhoHub(t, w, dh).value[i], t.dRotor.value, VWindHub(t, w, dh, m).value[i], Last(t.cpValues).value),
      t.nominalPower)
  {
    PowerOutputAt(t, w, dh, m, i);
    MaxSpeedIsLast(t.cpValues);
    InterpClampedOutside(t.cpValues, MaxSpeed(t.cpValues));
  }
}
