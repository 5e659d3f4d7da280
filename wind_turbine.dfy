/**
 * The wind turbine record: hub height, nominal power, rotor diameter and
 * the two curves, as the constructor validates and stores them, and the
 * grouping of a turbine type with a number of turbines.
 *
 * Loading turbine data from a file or database is not part of this model;
 * the curves arrive as arguments.
 */
module Turbine {
  import opened Common

  /** A curve argument: absent, a dict of columns, a table, or any other object. */
  datatype CurveArg = NoCurve | DictCurve(rows: Curve) | TableCurve(rows: Curve) | OtherCurve

  datatype WindTurbine = WindTurbine(
    hubHeight: real,
    nominalPower: Option<real>,
    rotorDiameter: Option<real>,
    powerCurve: Option<Curve>,
    powerCoefficientCurve: Option<Curve>,
    turbineType: string)

  /** A constructed turbine and whether the "no curve" warning was issued. */
  datatype Constructed = Constructed(turbine: WindTurbine, warned: bool)

  /** Python truthiness of an optional number. */
  predicate Truthy(x: Option<real>) {
    x.Some? && x.value != 0.0
  }

  /** The stored form of a curve argument that is a dict or a table. */
  function Stored(c: CurveArg): Option<Curve> {
    match c
    case DictCurve(rows) => Some(rows)
    case TableCurve(rows) => Some(rows)
    case _ => None
  }

  /**
   * `WindTurbine.__init__` without file loading: a truthy rotor diameter
   * must be less than twice the hub height; with neither curve the turbine
   * is built with a warning; otherwise dicts become tables, the result of
   * sorting by wind speed is discarded, and a curve of any other type
   * raises TypeError, the power curve being checked first.
   */
  function NewWindTurbine(hubHeight: real, nominalPower: Option<real>, powerCurve: CurveArg,
                          powerCoefficientCurve: CurveArg, rotorDiameter: Option<real>,
                          turbineType: string): (r: Result<Constructed>)
    ensures Truthy(rotorDiameter) && hubHeight <= 0.5 * rotorDiameter.value ==>
      r.Failure? && r.error.ValueError?
    ensures r.Failure? && r.error.ValueError? ==>
      Truthy(rotorDiameter) && hubHeight <= 0.5 * rotorDiameter.value
    ensures r.Failure? && !r.error.ValueError? ==>
      r.error.TypeError? && (powerCurve.OtherCurve? || powerCoefficientCurve.OtherCurve?)
    ensures r.Success? <==>
      !(Truthy(rotorDiameter) && hubHeight <= 0.5 * rotorDiameter.value) &&
      !powerCurve.OtherCurve? && !powerCoefficientCurve.OtherCurve?
    ensures r.Success? ==>
      r.value.warned == (powerCurve.NoCurve? && powerCoefficientCurve.NoCurve?) &&
      r.value.turbine == WindTurbine(hubHeight, nominalPower, rotorDiameter,
                                     Stored(powerCurve), Stored(powerCoefficientCurve), turbineType)
  {
    if Truthy(rotorDiameter) && hubHeight <= 0.5 * rotorDiameter.value then
      Failure(ValueError("rotor_diameter"))
    else if powerCurve.NoCurve? && powerCoefficientCurve.NoCurve? then
      Success(Constructed(WindTurbine(hubHeight, nominalPower, rotorDiameter, None, None, turbineType), true))
    else if powerCurve.OtherCurve? then Failure(TypeError("power_curve"))
    else if powerCoefficientCurve.OtherCurve? then Failure(TypeError("power_coefficient_curve"))
    else
      Success(Constructed(WindTurbine(hubHeight, nominalPower, rotorDiameter,
                                      Stored(powerCurve), Stored(powerCoefficientCurve), turbineType), false))
  }

  /**
   * A power curve given as a table is stored exactly as given, in the given
   * row order, even when its wind speeds are not sorted.
   */
  lemma StoredCurveKeepsOrder(hubHeight: real, nominalPower: Option<real>, c: Curve,
                              rotorDiameter: Option<real>, turbineType: string)
    requires |c| == 2 && c[1].speed < c[0].speed
    requires !Truthy(rotorDiameter)
    ensures var r := NewWindTurbine(hubHeight, nominalPower, TableCurve(c), NoCurve, rotorDiameter, turbineType);
      r.Success? && r.value.turbine.powerCurve == Some(c) &&
      !StrictlyIncreasing(r.value.turbine.powerCurve.value) && !r.value.warned
  {
  }

  /** The named tuple `WindTurbineGroup(wind_turbine, number_of_turbines)`. */
  datatype WindTurbineGroup = WindTurbineGroup(windTurbine: WindTurbine, numberOfTurbines: real)

  /**
   * `to_group`: the number and the total capacity are mutually exclusive;
   * a total capacity is divided by the nominal power (a missing nominal
   * power raises TypeError, a zero one ZeroDivisionError); no argument
   * means one turbine.
   */
  function ToGroup(t: WindTurbine, numberTurbines: Option<real>, totalCapacity: Option<real>): (r: Result<WindTurbineGroup>)
    ensures numberTurbines.Some? && totalCapacity.Some? ==> r.Failure? && r.error.ValueError?
    ensures r.Success? ==> r.value.windTurbine == t
    ensures numberTurbines.Some? && totalCapacity.None? ==> r == Success(WindTurbineGroup(t, numberTurbines.value))
    ensures numberTurbines.None? && totalCapacity.None? ==> r == Success(WindTurbineGroup(t, 1.0))
    ensures numberTurbines.None? && totalCapacity.Some? ==>
      (r.Success? <==> t.nominalPower.Some? && t.nominalPower.value != 0.0) &&
      (r.Success? ==> r.value.numberOfTurbines * t.nominalPower.value == totalCapacity.value)
  {
    if numberTurbines.Some? && totalCapacity.Some? then Failure(ValueError("number_turbines"))
    else if totalCapacity.Some? then
      if t.nominalPower.None? then Failure(TypeError("nominal_power"))
      else if t.nominalPower.value == 0.0 then Failure(ZeroDivisionError("nominal_power"))
      else Success(WindTurbineGroup(t, totalCapacity.value / t.nominalPower.value))
    else if numberTurbines.None? then Success(WindTurbineGroup(t, 1.0))
    else Success(WindTurbineGroup(t, numberTurbines.value))
  }

  /**
   * Grouping by the capacity of `k` turbines gives `k` turbines; a turbine
   * of 1.5 MW grouped by 3 MW gives 2.
   */
  lemma ToGroupByCapacity(t: WindTurbine, k: real)
    requires t.nominalPower.Some? && t.nominalPower.value != 0.0
    ensures ToGroup(t, None, Some(k * t.nominalPower.value)).Success?
    ensures ToGroup(t, None, Some(k * t.nominalPower.value)).value == WindTurbineGroup(t, k)
    ensures t.nominalPower.value == 1.5e6 ==>
      ToGroup(t, None, Some(3.0e6)).Success? && ToGroup(t, None, Some(3.0e6)).value.numberOfTurbines == 2.0
  {
    var p := t.nominalPower.value;
    var g := ToGroup(t, None, Some(k * p));
    assert g.value.numberOfTurbines * p == k * p;
  }
}
