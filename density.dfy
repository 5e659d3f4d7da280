/**
 * Air density at hub height from a pressure measured at another height and
 * the temperature at hub height: the barometric height equation and the
 * ideal gas equation, both with a pressure gradient of -1/8 hPa per metre.
 */
module Density {
  import opened Common

  /** Pressure at hub height in hPa (pressure given in Pa). */
  function PressureAtHub(pressure: real, pressureHeight: real, hubHeight: real): real {
    pressure / 100.0 - (hubHeight - pressureHeight) * 1.0 / 8.0
  }

  /** `barometric(pressure, pressure_height, hub_height, temperature_hub_height)` for one time step. */
  function Barometric(pressure: real, pressureHeight: real, hubHeight: real, temperatureHub: real): real
    requires temperatureHub != 0.0
  {
    PressureAtHub(pressure, pressureHeight, hubHeight) * 1.225 * 288.15 * 100.0 / (101330.0 * temperatureHub)
  }

  /** `ideal_gas(pressure, pressure_height, hub_height, temperature_hub_height)` for one time step. */
  function IdealGas(pressure: real, pressureHeight: real, hubHeight: real, temperatureHub: real): real
    requires temperatureHub != 0.0
  {
    PressureAtHub(pressure, pressureHeight, hubHeight) * 100.0 / (287.058 * temperatureHub)
  }

  /** Some time step has a zero temperature, where numpy would divide by zero. */
  predicate HasZero(t: seq<real>) {
    exists i :: 0 <= i < |t| && t[i] == 0.0
  }

  /** `barometric` on aligned series. */
  function BarometricSeries(pressure: seq<real>, pressureHeight: real, hubHeight: real, temperatureHub: seq<real>): (r: Result<seq<real>>)
    requires |pressure| == |temperatureHub|
    ensures r.Failure? <==> HasZero(temperatureHub)
    ensures r.Success? ==> |r.value| == |pressure| && forall i :: 0 <= i < |pressure| ==>
      r.value[i] == Barometric(pressure[i], pressureHeight, hubHeight, temperatureHub[i])
  {
    if HasZero(temperatureHub) then Failure(NonFinite("temperature_hub_height"))
    else Success(seq(|pressure|, i requires 0 <= i < |pressure| =>
      Barometric(pressure[i], pressureHeight, hubHeight, temperatureHub[i])))
  }

  /** `ideal_gas` on aligned series. */
  function IdealGasSeries(pressure: seq<real>, pressureHeight: real, hubHeight: real, temperatureHub: seq<real>): (r: Result<seq<real>>)
    requires |pressure| == |temperatureHub|
    ensures r.Failure? <==> HasZero(temperatureHub)
    ensures r.Success? ==> |r.value| == |pressure| && forall i :: 0 <= i < |pressure| ==>
      r.value[i] == IdealGas(pressure[i], pressureHeight, hubHeight, temperatureHub[i])
  {
    if HasZero(temperatureHub) then Failure(NonFinite("temperature_hub_height"))
    else Success(seq(|pressure|, i requires 0 <= i < |pressure| =>
      IdealGas(pressure[i], pressureHeight, hubHeight, temperatureHub[i])))
  }

  /** Ratio of the barometric to the ideal-gas density: 1.225 * 288.15 * 287.058 / 101330. */
  const BarometricToIdealGas: real := 1.225 * 288.15 * 287.058 / 101330.0

  /**
   * Both equations give the same pressure-over-temperature shape: the
   * barometric density is the ideal-gas density times a constant close
   * to 1, both are positive exactly when the hub-height pressure is, and at
   * a fixed positive temperature both fall as the hub rises.
   */
  lemma DensityProperties(pressure: real, pressureHeight: real, hubHeight: real, temperatureHub: real)
    requires temperatureHub > 0.0
    ensures Barometric(pressure, pressureHeight, hubHeight, temperatureHub)
         == BarometricToIdealGas * IdealGas(pressure, pressureHeight, hubHeight, temperatureHub)
    ensures 0.0 < IdealGas(pressure, pressureHeight, hubHeight, temperatureHub)
        <==> 0.0 < PressureAtHub(pressure, pressureHeight, hubHeight)
    ensures 0.0 < Barometric(pressure, pressureHeight, hubHeight, temperatureHub)
        <==> 0.0 < PressureAtHub(pressure, pressureHeight, hubHeight)
    ensures IdealGas(pressure, pressureHeight, hubHeight + 1.0, temperatureHub)
          < IdealGas(pressure, pressureHeight, hubHeight, temperatureHub)
    ensures Barometric(pressure, pressureHeight, hubHeight + 1.0, temperatureHub)
          < Barometric(pressure, pressureHeight, hubHeight, temperatureHub)
  {
    var p := PressureAtHub(pressure, pressureHeight, hubHeight);
    var ig := IdealGas(pressure, pressureHeight, hubHeight, temperatureHub);
    assert ig * (287.058 * temperatureHub) == p * 100.0;
    assert PressureAtHub(pressure, pressureHeight, hubHeight + 1.0) == p - 1.0 / 8.0;
    var ig1 := IdealGas(pressure, pressureHeight, hubHeight + 1.0, temperatureHub);
    assert ig1 * (287.058 * temperatureHub) == (p - 1.0 / 8.0) * 100.0;
    assert (ig - ig1) * (287.058 * temperatureHub) == 12.5;
    PositiveProduct(ig - ig1, 287.058 * temperatureHub);
    var b := Barometric(pressure, pressureHeight, hubHeight, temperatureHub);
    assert b * (101330.0 * temperatureHub) == p * 1.225 * 288.15 * 100.0;
    var b1 := Barometric(pressure, pressureHeight, hubHeight + 1.0, temperatureHub);
    assert b1 * (101330.0 * temperatureHub) == (p - 1.0 / 8.0) * 1.225 * 288.15 * 100.0;
    PositiveProduct(b - b1, 101330.0 * temperatureHub);
    PositiveProduct(ig, 287.058 * temperatureHub);
    PositiveProduct(b, 101330.0 * temperatureHub);
  }

  /** With a positive second factor, a product is positive exactly when the first factor is. */
  lemma PositiveProduct(x: real, y: real)
    requires y > 0.0
    ensures 0.0 < x * y <==> 0.0 < x
  {
    if x <= 0.0 {
      assert x * y <= 0.0 * y;
    }
  }

  /**
   * 101125 Pa at 0 m and 267 K give 1.30305 kg/m³ with the barometric and
   * 1.30309 kg/m³ with the ideal gas equation at 100 m (to five decimals).
   */
  lemma DensityExample()
    ensures 1.303053 < Barometric(101125.0, 0.0, 100.0, 267.0) < 1.303054
    ensures 1.303094 < IdealGas(101125.0, 0.0, 100.0, 267.0) < 1.303095
  {
  }
}
