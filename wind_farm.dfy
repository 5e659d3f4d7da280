/**
 * A wind farm: a fleet table of turbine types, each with a number of
 * turbines and a total capacity; the completion and consistency check of
 * that table; the cached nominal power; the capacity-weighted mean hub
 * height; and the aggregation of the turbines' power curves into the
 * farm's power curve.
 */
module Farm {
  import opened Common
  import opened Aggregation
  import opened PowerCurves
  import opened Turbine
  import Tools

  /** A `wind_turbine` cell: a `WindTurbine` object or anything else. */
  datatype Entry = TurbineEntry(turbine: WindTurbine) | OtherEntry

  /**
   * One row of the fleet table; `None` stands for a missing cell or NaN in
   * `number_of_turbines` or `total_capacity`.
   */
  datatype FleetRow = FleetRow(entry: Entry, number: Option<real>, capacity: Option<real>)

  function Abs(x: real): real { if x < 0.0 then -x else x }

  /** The consistency test of the fleet check: the capacity lies within 1 of number times nominal power. */
  predicate Within(capacity: real, number: real, nominal: real) {
    Abs(capacity - number * nominal) < 1.0
  }

  // ----- completion of the fleet table

  /**
   * The first loop's body for one row: a missing number of turbines
   * becomes total capacity / nominal power. The rows of `iterrows` over
   * the mixed table hold Python floats, so a zero nominal power raises
   * ZeroDivisionError whatever the capacity (the handler catches only
   * TypeError); a missing nominal power (the TypeError of `/ None`) and a
   * NaN quotient (no capacity) raise ValueError.
   */
  function DeducedNumber(row: FleetRow): (r: Result<FleetRow>)
    ensures row.number.Some? ==> r == Success(row)
    ensures r.Success? ==>
      r.value.entry == row.entry && r.value.capacity == row.capacity && r.value.number.Some?
    ensures row.number.None? && r.Success? ==>
      row.entry.TurbineEntry? && row.entry.turbine.nominalPower.Some? && row.capacity.Some? &&
      r.value.number.value * row.entry.turbine.nominalPower.value == row.capacity.value
    ensures row.number.None? && row.entry.TurbineEntry? ==>
      (r.Failure? && r.error.ValueError? <==>
        row.entry.turbine.nominalPower.None? ||
        (row.capacity.None? && row.entry.turbine.nominalPower.value != 0.0))
    ensures row.number.None? && row.entry.TurbineEntry? && row.entry.turbine.nominalPower == Some(0.0) ==>
      r == Failure(ZeroDivisionError("nominal_power"))
  {
    if row.number.Some? then Success(row)
    else if row.entry.OtherEntry? then Failure(AttributeError("nominal_power"))
    else
      var p := row.entry.turbine.nominalPower;
      if p.None? then Failure(ValueError("number_of_turbines"))
      else if p.value == 0.0 then Failure(ZeroDivisionError("nominal_power"))
      else if row.capacity.None? then Failure(ValueError("number_of_turbines"))
      else Success(FleetRow(row.entry, Some(row.capacity.value / p.value), row.capacity))
  }

  /** The row's recorded capacity differs from number times nominal power by 1 W or more. */
  predicate Inconsistent(row: FleetRow) {
    row.capacity.Some? && row.entry.TurbineEntry? && row.entry.turbine.nominalPower.Some? &&
    (row.number.None? ||
     !Within(row.capacity.value, row.number.value, row.entry.turbine.nominalPower.value))
  }

  /** `number * nominal`, NaN when the number is NaN. */
  function Product(number: Option<real>, nominal: real): (r: Option<real>)
    ensures number.Some? <==> r.Some?
    ensures r.Some? ==> r.value == number.value * nominal
  {
    if number.None? then None else Some(number.value * nominal)
  }

  /**
   * The second loop's body for one row: a missing capacity becomes
   * number times nominal power (ValueError without a nominal power); a
   * given capacity is compared with that product (a missing nominal power
   * fails the arithmetic with TypeError) and overwritten when it differs
   * by 1 or more.
   */
  function CompletedCapacity(row: FleetRow): (r: Result<FleetRow>)
    ensures r.Success? ==>
      r.value.entry == row.entry && r.value.number == row.number &&
      row.entry.TurbineEntry? && row.entry.turbine.nominalPower.Some?
    ensures r.Success? && row.number.Some? ==> r.value.capacity.Some?
    ensures r.Success? && row.number.Some? && (row.capacity.None? || Inconsistent(row)) ==>
      r.value.capacity.value == row.number.value * row.entry.turbine.nominalPower.value
    ensures r.Success? && row.capacity.Some? && !Inconsistent(row) ==> r.value == row
    ensures row.entry.TurbineEntry? ==>
      (r.Failure? <==> row.entry.turbine.nominalPower.None?) &&
      (r.Failure? ==> (r.error.ValueError? <==> row.capacity.None?))
  {
    if row.entry.OtherEntry? then Failure(AttributeError("nominal_power"))
    else
      var p := row.entry.turbine.nominalPower;
      if row.capacity.None? then
        if p.None? then Failure(ValueError("total_capacity"))
        else Success(FleetRow(row.entry, row.number, Product(row.number, p.value)))
      else if p.None? then Failure(TypeError("nominal_power"))
      else if Inconsistent(row) then Success(FleetRow(row.entry, row.number, Product(row.number, p.value)))
      else Success(row)
  }

  /** Some row issues the "total capacity overwritten" warning. */
  predicate AnyInconsistent(rows: seq<FleetRow>) {
    exists i :: 0 <= i < |rows| && Inconsistent(rows[i])
  }

  /**
   * `check_and_complete_wind_turbine_fleet`: a missing `wind_turbine`
   * column raises KeyError and an entry that is not a turbine ValueError;
   * then the two loops run over the rows.
   */
  function CompletedFleet(hasTurbineColumn: bool, rows: seq<FleetRow>): (r: Result<seq<FleetRow>>)
    ensures !hasTurbineColumn ==> r.Failure? && r.error.KeyError?
    ensures hasTurbineColumn && (exists i :: 0 <= i < |rows| && rows[i].entry.OtherEntry?) ==>
      r.Failure? && r.error.ValueError?
    ensures r.Success? ==> |r.value| == |rows|
  {
    if !hasTurbineColumn then Failure(KeyError("wind_turbine"))
    else if exists i :: 0 <= i < |rows| && rows[i].entry.OtherEntry? then Failure(ValueError("wind_turbine"))
    else
      var deduced := MapAll(DeducedNumber, rows);
      if deduced.Failure? then deduced else MapAll(CompletedCapacity, deduced.value)
  }

  /**
   * A row of zero nominal power whose number of turbines must be deduced
   * stops the completion with ZeroDivisionError, unless an earlier row
   * already failed.
   */
  lemma ZeroNominalPowerRaises(rows: seq<FleetRow>, i: nat)
    requires i < |rows| && forall j :: 0 <= j < |rows| ==> rows[j].entry.TurbineEntry?
    requires MapAll(DeducedNumber, rows[..i]).Success?
    requires rows[i].number.None? && rows[i].entry.turbine.nominalPower == Some(0.0)
    ensures CompletedFleet(true, rows) == Failure(ZeroDivisionError("nominal_power"))
  {
    MapAllFails(DeducedNumber, rows, i);
  }

  /** What every successfully constructed farm's table satisfies. */
  ghost predicate Checked(rows: seq<FleetRow>) {
    forall i :: 0 <= i < |rows| ==>
      rows[i].entry.TurbineEntry? && rows[i].number.Some? && rows[i].capacity.Some?
  }

  /**
   * How a completed row `r` relates to the row `orig` the user gave: same
   * turbine, which has a nominal power `p`; a given number is kept, a
   * missing one is capacity / p; the capacity lies within 1 of number
   * times `p`, and a given capacity that was within 1 already is kept.
   */
  ghost predicate CompletedFrom(orig: FleetRow, r: FleetRow) {
    r.entry == orig.entry && r.entry.TurbineEntry? && r.entry.turbine.nominalPower.Some? &&
    r.number.Some? && r.capacity.Some? &&
    CompletedWith(orig, r, r.entry.turbine.nominalPower.value)
  }

  /** The number and capacity clauses of `CompletedFrom` for the nominal power `p`. */
  ghost predicate CompletedWith(orig: FleetRow, r: FleetRow, p: real)
    requires r.number.Some? && r.capacity.Some?
  {
    (orig.number.Some? ==> r.number == orig.number) &&
    (orig.number.None? ==> orig.capacity.Some? && r.number.value * p == orig.capacity.value) &&
    Within(r.capacity.value, r.number.value, p) &&
    (orig.capacity.None? ==> r.capacity.value == r.number.value * p) &&
    (orig.capacity.Some? && (orig.number.None? || Within(orig.capacity.value, orig.number.value, p)) ==>
      r.capacity == orig.capacity)
  }

  /** The two loop bodies applied to one row. */
  lemma RowCompleted(orig: FleetRow)
    requires orig.entry.TurbineEntry? && DeducedNumber(orig).Success?
    requires CompletedCapacity(DeducedNumber(orig).value).Success?
    ensures CompletedFrom(orig, CompletedCapacity(DeducedNumber(orig).value).value)
  {
    var d := DeducedNumber(orig).value;
    var r := CompletedCapacity(d).value;
    var p := r.entry.turbine.nominalPower.value;
    if orig.number.None? {
      assert d.number.value * p == orig.capacity.value;
      assert Abs(d.capacity.value - d.number.value * p) == 0.0;
      assert !Inconsistent(d);
      assert r == d;
    } else {
      assert d == orig && r.number == orig.number;
      if d.capacity.None? || Inconsistent(d) {
        assert r.capacity.value == r.number.value * p;
        assert Abs(r.capacity.value - r.number.value * p) == 0.0;
      } else {
        assert r == orig;
      }
    }
  }

  /** After completion every row is complete and relates to its original as `CompletedFrom` says. */
  lemma CompletedFleetRows(hasTurbineColumn: bool, rows: seq<FleetRow>)
    requires CompletedFleet(hasTurbineColumn, rows).Success?
    ensures Checked(CompletedFleet(hasTurbineColumn, rows).value)
    ensures forall i :: 0 <= i < |rows| ==> CompletedFrom(rows[i], CompletedFleet(hasTurbineColumn, rows).value[i])
  {
    var deduced := MapAll(DeducedNumber, rows).value;
    var done := CompletedFleet(hasTurbineColumn, rows).value;
    MapAllRows(DeducedNumber, rows);
    MapAllRows(CompletedCapacity, deduced);
    forall i | 0 <= i < |rows| ensures CompletedFrom(rows[i], done[i]) {
      RowCompleted(rows[i]);
    }
  }

  /** `sum()` of the capacity column; NaN cells are skipped. */
  function FleetCapacity(rows: seq<FleetRow>): real
    decreases |rows|
  {
    if |rows| == 0 then 0.0
    else FleetCapacity(rows[..|rows| - 1]) + CapacityOrZero(rows[|rows| - 1])
  }

  /** What `nominal_power` returns for a cache and a fleet: the cache while it is truthy, otherwise the capacity sum. */
  function NominalFrom(cache: Option<real>, fleet: seq<FleetRow>): real {
    if Truthy(cache) then cache.value else FleetCapacity(fleet)
  }

  function CapacityOrZero(row: FleetRow): real {
    if row.capacity.Some? then row.capacity.value else 0.0
  }

  // ----- the farm power curve

  const WindFarmEfficiency: string := "wind_farm_efficiency"
  const TurbinePowerCurves: string := "turbine_power_curves"
  const WindFarmPowerCurves: string := "wind_farm_power_curves"

  /** (0, 0) in front when the first wind speed is not 0. */
  function PadFront(c: Curve): (r: Curve)
    requires |c| > 0
  {
    if c[0].speed != 0.0 then [Point(0.0, 0.0)] + c else c
  }

  /** (last speed + 0.5, 0) behind when the last value is not 0. */
  function PadBack(c: Curve): (r: Curve)
    requires |c| > 0
  {
    if Last(c).value != 0.0 then c + [Point(Last(c).speed + 0.5, 0.0)] else c
  }

  /**
   * Pads an unsmoothed turbine curve for the aggregation; the first row of
   * an empty curve does not exist.
   */
  function Pad(c: Curve): (r: Result<Curve>)
    ensures r.Success? <==> |c| > 0
  {
    if |c| == 0 then Failure(IndexError("power_curve")) else Success(PadBack(PadFront(c)))
  }

  lemma PadFrontProperties(c: Curve)
    requires |c| > 0
    ensures var r := PadFront(c); var off := if c[0].speed != 0.0 then 1 else 0;
      |r| == |c| + off && r[0].speed == 0.0 && r[off..] == c && Last(r) == Last(c) &&
      (WellFormedCurve(c) ==> StrictlyIncreasing(r))
  {
    var r := PadFront(c);
    if c[0].speed != 0.0 {
      assert r[1..] == c;
      if WellFormedCurve(c) {
        forall i, j | 0 <= i < j < |r| ensures r[i].speed < r[j].speed {
          assert r[j] == c[j - 1];
          if i > 0 {
            assert r[i] == c[i - 1];
          } else {
            assert 0.0 <= c[j - 1].speed;
          }
        }
      }
    }
  }

  lemma PadBackProperties(c: Curve)
    requires |c| > 0
    ensures var r := PadBack(c);
      |c| <= |r| <= |c| + 1 && r[..|c|] == c && Last(r).value == 0.0 &&
      (StrictlyIncreasing(c) ==> StrictlyIncreasing(r))
  {
    var r := PadBack(c);
    if Last(c).value != 0.0 {
      assert r[..|c|] == c;
      if StrictlyIncreasing(c) {
        forall i, j | 0 <= i < j < |r| ensures r[i].speed < r[j].speed {
          assert r[i] == c[i];
          if j < |c| {
            assert r[j] == c[j];
          } else if i < |c| - 1 {
            assert c[i].speed < Last(c).speed;
          }
        }
      }
    }
  }

  /**
   * The padded curve starts at 0 m/s and ends with the value 0, holds the
   * original rows as one contiguous block, and is strictly increasing when
   * the original curve is well formed.
   */
  lemma PadProperties(c: Curve)
    requires |c| > 0
    ensures var r := Pad(c).value; var off := if c[0].speed != 0.0 then 1 else 0;
      |c| <= |r| <= |c| + 2 && r[0].speed == 0.0 && Last(r).value == 0.0 &&
      r[off..off + |c|] == c &&
      (WellFormedCurve(c) ==> StrictlyIncreasing(r))
  {
    var front := PadFront(c);
    var off := if c[0].speed != 0.0 then 1 else 0;
    PadFrontProperties(c);
    PadBackProperties(front);
    var r := Pad(c).value;
    assert r[..|front|] == front;
    assert r[off..off + |c|] == front[off..];
  }

  /** The turbulence intensity at hub height that smoothing receives. */
  function ForwardedTurbulenceIntensity(rows: seq<FleetRow>, smoothing: bool, sdMethod: string,
                                        turbulenceIntensity: Option<real>, roughnessLength: Option<real>,
                                        m: Math): (r: Result<Option<real>>)
    ensures turbulenceIntensity.Some? ==> r == Success(turbulenceIntensity)
    ensures r.Failure? <==>
      smoothing && sdMethod == TurbulenceIntensityMethod && turbulenceIntensity.None? && |rows| > 0 &&
      (roughnessLength.None? || !rows[0].entry.TurbineEntry? ||
       Tools.EstimateTurbulenceIntensity(rows[0].entry.turbine.hubHeight, roughnessLength.value, m).Failure?)
  {
    if smoothing && sdMethod == TurbulenceIntensityMethod && turbulenceIntensity.None? && |rows| > 0 then
      if roughnessLength.None? then Failure(ValueError("roughness_length"))
      else if !rows[0].entry.TurbineEntry? then Failure(AttributeError("hub_height"))
      else
        var ti := Tools.EstimateTurbulenceIntensity(rows[0].entry.turbine.hubHeight, roughnessLength.value, m);
        if ti.Failure? then Failure(ti.error) else Success(Some(ti.value))
    else Success(turbulenceIntensity)
  }

  /**
   * The same selection as the source writes it: a turbulence intensity
   * passed to `assign_power_curve` only suppresses the estimate from the
   * roughness length and is never put into the keyword arguments that reach
   * the smoothing.
   */
  function ForwardedTurbulenceIntensityAsWritten(rows: seq<FleetRow>, smoothing: bool, sdMethod: string,
                                                 turbulenceIntensity: Option<real>, roughnessLength: Option<real>,
                                                 m: Math): (r: Result<Option<real>>)
    ensures turbulenceIntensity.Some? ==> r == Success(None)
    ensures turbulenceIntensity.None? ==>
      r == ForwardedTurbulenceIntensity(rows, smoothing, sdMethod, turbulenceIntensity, roughnessLength, m)
  {
    if turbulenceIntensity.Some? then Success(None)
    else ForwardedTurbulenceIntensity(rows, smoothing, sdMethod, turbulenceIntensity, roughnessLength, m)
  }

  /** The smoothing parameters of `assign_power_curve`. */
  datatype Smoothing = Smoothing(
    enabled: bool, blockWidth: real, sdMethod: string, order: string,
    range: real, meanGauss: real)

  /**
   * `number_of_turbines` as a factor. A checked fleet has no NaN there;
   * a NaN column would be skipped by the row sum, as a zero column is.
   */
  function NumberOrZero(row: FleetRow): real {
    if row.number.Some? then row.number.value else 0.0
  }

  /**
   * One row's column of the aggregation table: the turbine's curve,
   * smoothed when smoothing the turbine curves and padded otherwise, times
   * the number of turbines.
   */
  function FarmColumn(row: FleetRow, s: Smoothing, ti: Option<real>, m: Math): (r: Result<Curve>)
    ensures row.entry.TurbineEntry? && row.entry.turbine.powerCurve.Some? &&
            !(s.enabled && s.order == TurbinePowerCurves) &&
            |row.entry.turbine.powerCurve.value| > 0 ==>
      r == Success(Scale(Pad(row.entry.turbine.powerCurve.value).value, NumberOrZero(row)))
  {
    if row.entry.OtherEntry? then Failure(AttributeError("power_curve"))
    else if row.entry.turbine.powerCurve.None? then Failure(ValueError("power_curve"))
    else
      var c := row.entry.turbine.powerCurve.value;
      var edited :=
        if s.enabled && s.order == TurbinePowerCurves then
          SmoothedPowerCurve(c, s.blockWidth, s.range, s.sdMethod, ti, s.meanGauss, m)
        else Pad(c);
      if edited.Failure? then Failure(edited.error) else Success(Scale(edited.value, NumberOrZero(row)))
  }

  /** `FarmColumn` with the smoothing parameters fixed, for the loop over the rows. */
  function ColumnOf(s: Smoothing, ti: Option<real>, m: Math): FleetRow -> Result<Curve> {
    row => FarmColumn(row, s, ti, m)
  }

  /** Every row holds a turbine with a power curve. */
  predicate AllHaveCurves(rows: seq<FleetRow>) {
    forall i :: 0 <= i < |rows| ==> rows[i].entry.TurbineEntry? && rows[i].entry.turbine.powerCurve.Some?
  }

  /**
   * `assign_power_curve` given the turbulence intensity smoothing
   * receives: every turbine needs a power curve; the columns are summed;
   * the sum is smoothed when smoothing the farm curve; the efficiency is
   * applied for the 'wind_farm_efficiency' model when the farm has one.
   */
  function FarmPowerCurveWith(rows: seq<FleetRow>, efficiency: Option<Efficiency>,
                              wakeLossesModel: Option<string>, s: Smoothing,
                              forwarded: Result<Option<real>>, m: Math): (r: Result<Curve>)
    ensures !AllHaveCurves(rows) ==> r.Failure?
  {
    if !AllHaveCurves(rows) then Failure(ValueError("power_curve"))
    else if forwarded.Failure? then Failure(forwarded.error)
    else
      var cols := MapAll(ColumnOf(s, forwarded.value, m), rows);
      if cols.Failure? then Failure(cols.error)
      else FinishedCurve(Aggregate(cols.value), efficiency, wakeLossesModel, s, forwarded.value, m)
  }

  /**
   * The steps after the summation: the sum is smoothed when smoothing the
   * farm curve, then reduced by the efficiency for the
   * 'wind_farm_efficiency' model when the farm has one.
   */
  function FinishedCurve(summed: Curve, efficiency: Option<Efficiency>, wakeLossesModel: Option<string>,
                         s: Smoothing, ti: Option<real>, m: Math): Result<Curve>
  {
    var smoothed :=
      if s.enabled && s.order == WindFarmPowerCurves then
        SmoothedPowerCurve(summed, s.blockWidth, s.range, s.sdMethod, ti, s.meanGauss, m)
      else Success(summed);
    if smoothed.Failure? then smoothed
    else if wakeLossesModel == Some(WindFarmEfficiency) && efficiency.Some? then
      WakeLossesToPowerCurve(smoothed.value, efficiency.value)
    else smoothed
  }

  /** The farm power curve with a given turbulence intensity forwarded to smoothing. */
  function FarmPowerCurve(rows: seq<FleetRow>, efficiency: Option<Efficiency>,
                          wakeLossesModel: Option<string>, s: Smoothing,
                          turbulenceIntensity: Option<real>, roughnessLength: Option<real>,
                          m: Math): Result<Curve>
  {
    FarmPowerCurveWith(rows, efficiency, wakeLossesModel, s,
                       ForwardedTurbulenceIntensity(rows, s.enabled, s.sdMethod,
                                                    turbulenceIntensity, roughnessLength, m), m)
  }

  /** The farm power curve as the source computes it. */
  function FarmPowerCurveAsWritten(rows: seq<FleetRow>, efficiency: Option<Efficiency>,
                                   wakeLossesModel: Option<string>, s: Smoothing,
                                   turbulenceIntensity: Option<real>, roughnessLength: Option<real>,
                                   m: Math): Result<Curve>
  {
    FarmPowerCurveWith(rows, efficiency, wakeLossesModel, s,
                       ForwardedTurbulenceIntensityAsWritten(rows, s.enabled, s.sdMethod,
                                                             turbulenceIntensity, roughnessLength, m), m)
  }

  /** `mean_hub_height`'s numerator: the sum of ln(hub height) times total capacity. */
  function WeightedLogSum(rows: seq<FleetRow>, m: Math): real
    requires forall i :: 0 <= i < |rows| ==> rows[i].entry.TurbineEntry?
    decreases |rows|
  {
    if |rows| == 0 then 0.0
    else
      var row := rows[|rows| - 1];
      WeightedLogSum(rows[..|rows| - 1], m) + m.ln(row.entry.turbine.hubHeight) * CapacityOrZero(row)
  }

  /** `exp(sum(ln(h_k) * P_k) / P)` for the farm's nominal power `P`. */
  function MeanHubHeightOf(rows: seq<FleetRow>, nominalPower: real, m: Math): real
    requires forall i :: 0 <= i < |rows| ==> rows[i].entry.TurbineEntry?
    requires nominalPower != 0.0
  {
    m.exp(WeightedLogSum(rows, m) / nominalPower)
  }

  /** The loop of `check_and_complete_wind_turbine_fleet` that fills in missing numbers of turbines. */
  method DeduceNumbers(original: seq<FleetRow>) returns (r: Result<seq<FleetRow>>)
    ensures r == MapAll(DeducedNumber, original)
  {
    var rows := original;
    var n := |rows|;
    for i := 0 to n
      invariant |rows| == n
      invariant MapAll(DeducedNumber, original[..i]) == Success(rows[..i])
      invariant forall k :: i <= k < n ==> rows[k] == original[k]
    {
      MapAllSnoc(DeducedNumber, original, i);
      if rows[i].number.None? {
        var row := DeducedNumber(rows[i]);
        if row.Failure? {
          MapAllFails(DeducedNumber, original, i);
          return Failure(row.error);
        }
        rows := rows[i := row.value];
      }
      assert rows[..i + 1] == rows[..i] + [rows[i]];
    }
    assert original[..n] == original;
    assert rows[..n] == rows;
    r := Success(rows);
  }

  /**
   * The loop of `check_and_complete_wind_turbine_fleet` that fills in
   * missing total capacities and warns about rows whose capacity does not
   * match number times nominal power.
   */
  method CompleteCapacities(deduced: seq<FleetRow>) returns (r: Result<seq<FleetRow>>, warned: bool)
    ensures r == MapAll(CompletedCapacity, deduced)
    ensures r.Success? ==> warned == AnyInconsistent(deduced)
  {
    var rows := deduced;
    var n := |rows|;
    warned := false;
    for i := 0 to n
      invariant |rows| == n
      invariant MapAll(CompletedCapacity, deduced[..i]) == Success(rows[..i])
      invariant forall k :: i <= k < n ==> rows[k] == deduced[k]
      invariant warned == AnyInconsistent(deduced[..i])
    {
      MapAllSnoc(CompletedCapacity, deduced, i);
      InconsistentSnoc(deduced, i);
      var row := CompletedCapacity(rows[i]);
      if row.Failure? {
        MapAllFails(CompletedCapacity, deduced, i);
        return Failure(row.error), false;
      }
      if Inconsistent(rows[i]) {
        warned := true;
      }
      rows := rows[i := row.value];
      assert rows[..i + 1] == rows[..i] + [rows[i]];
    }
    assert deduced[..n] == deduced;
    assert rows[..n] == rows;
    r := Success(rows);
  }

  class WindFarm {
    var hasTurbineColumn: bool
    var fleet: seq<FleetRow>
    var efficiency: Option<Efficiency>
    var name: string
    var hubHeight: Option<real>
    var nominalPowerCache: Option<real>
    var powerCurve: Option<Curve>

    /** Every row of the fleet holds a turbine, a number and a capacity. */
    ghost predicate Valid()
      reads this`hasTurbineColumn, this`fleet
    {
      hasTurbineColumn && Checked(fleet)
    }

    /** The value `nominal_power` returns: the cache while it is truthy, otherwise the capacity sum. */
    ghost function Nominal(): real
      reads this`nominalPowerCache, this`fleet
    {
      NominalFrom(nominalPowerCache, fleet)
    }

    /** The assignments of `__init__` before the fleet check. */
    constructor (hasTurbineColumn: bool, fleet: seq<FleetRow>, efficiency: Option<Efficiency>, name: string)
      ensures this.hasTurbineColumn == hasTurbineColumn && this.fleet == fleet
      ensures this.efficiency == efficiency && this.name == name
      ensures hubHeight.None? && nominalPowerCache.None? && powerCurve.None?
    {
      this.hasTurbineColumn := hasTurbineColumn;
      this.fleet := fleet;
      this.efficiency := efficiency;
      this.name := name;
      hubHeight := None;
      nominalPowerCache := None;
      powerCurve := None;
    }

    /**
     * `check_and_complete_wind_turbine_fleet`; `warned` tells whether a
     * capacity was overwritten. After a failure the constructor raises and
     * the farm is discarded; the model then leaves the table as it was.
     */
    method CheckAndCompleteWindTurbineFleet() returns (r: Outcome, warned: bool)
      modifies this`fleet
      ensures r.Pass? <==> CompletedFleet(old(hasTurbineColumn), old(fleet)).Success?
      ensures r.Fail? ==> r.error == CompletedFleet(old(hasTurbineColumn), old(fleet)).error && fleet == old(fleet)
      ensures r.Pass? ==> fleet == CompletedFleet(old(hasTurbineColumn), old(fleet)).value
      ensures r.Pass? ==> warned == AnyInconsistent(MapAll(DeducedNumber, old(fleet)).value)
      ensures r.Pass? ==> Valid()
    {
      warned := false;
      if !hasTurbineColumn {
        return Fail(KeyError("wind_turbine")), false;
      }
      var rows := fleet;
      for i := 0 to |rows|
        modifies {}
        invariant forall j :: 0 <= j < i ==> rows[j].entry.TurbineEntry?
      {
        if rows[i].entry.OtherEntry? {
          return Fail(ValueError("wind_turbine")), false;
        }
      }
      var deduced := DeduceNumbers(rows);
      if deduced.Failure? {
        return Fail(deduced.error), false;
      }
      var completed;
      completed, warned := CompleteCapacities(deduced.value);
      if completed.Failure? {
        return Fail(completed.error), false;
      }
      rows := completed.value;
      CompletedFleetRows(hasTurbineColumn, fleet);
      fleet := rows;
      r := Pass;
    }

    /**
     * `nominal_power`: the sum of the capacity column, computed and cached
     * while the cache is falsy (unset or 0); otherwise the cached value.
     */
    method NominalPower() returns (p: real)
      modifies this`nominalPowerCache
      ensures Truthy(old(nominalPowerCache)) ==>
        p == old(nominalPowerCache).value && nominalPowerCache == old(nominalPowerCache)
      ensures !Truthy(old(nominalPowerCache)) ==>
        p == FleetCapacity(fleet) && nominalPowerCache == Some(p)
      ensures p == old(Nominal()) && Nominal() == old(Nominal())
    {
      if !Truthy(nominalPowerCache) {
        nominalPowerCache := Some(FleetCapacity(fleet));
      }
      p := nominalPowerCache.value;
    }

    /**
     * `mean_hub_height`: the capacity-weighted geometric mean of the hub
     * heights; a zero nominal power makes it infinite or NaN.
     */
    method MeanHubHeight(m: Math) returns (r: Outcome)
      requires Valid()
      modifies this`nominalPowerCache, this`hubHeight
      ensures Valid()
      ensures Truthy(old(nominalPowerCache)) ==> nominalPowerCache == old(nominalPowerCache)
      ensures !Truthy(old(nominalPowerCache)) ==> nominalPowerCache == Some(FleetCapacity(fleet))
      ensures nominalPowerCache.Some?
      ensures r.Pass? <==> nominalPowerCache.value != 0.0
      ensures r.Pass? ==> hubHeight == Some(MeanHubHeightOf(fleet, nominalPowerCache.value, m))
      ensures r.Fail? ==> r == Fail(NonFinite("hub_height")) && hubHeight == old(hubHeight)
      ensures Nominal() == old(Nominal()) && nominalPowerCache.value == Nominal()
    {
      var p := NominalPower();
      if p == 0.0 {
        return Fail(NonFinite("hub_height"));
      }
      hubHeight := Some(MeanHubHeightOf(fleet, p, m));
      r := Pass;
    }

    /**
     * `assign_power_curve`: checks that every turbine has a power curve,
     * then loops over the rows, estimating the turbulence intensity from
     * the roughness length at the first row when smoothing by turbulence
     * intensity without one and building each row's column; the columns
     * are summed, smoothed and reduced by the efficiency. A given
     * turbulence intensity is forwarded to smoothing, as intended; as
     * written it is dropped and smoothing by turbulence intensity raises
     * ValueError (`FarmPowerCurveAsWritten`,
     * `TurbulenceIntensityDroppedAsWritten`).
     */
    method AssignPowerCurve(wakeLossesModel: Option<string>, s: Smoothing,
                            turbulenceIntensity: Option<real>, roughnessLength: Option<real>,
                            m: Math) returns (r: Outcome)
      requires Valid()
      modifies this`powerCurve
      ensures Valid()
      ensures var expected := FarmPowerCurve(fleet, efficiency, wakeLossesModel, s,
                                             turbulenceIntensity, roughnessLength, m);
        (r.Pass? <==> expected.Success?) &&
        (r.Pass? ==> powerCurve == Some(expected.value)) &&
        (r.Fail? ==> r.error == expected.error && powerCurve == old(powerCurve))
      ensures Nominal() == old(Nominal())
    {
      var rows := fleet;
      var complete := CheckCurves(rows);
      if !complete {
        return Fail(ValueError("power_curve"));
      }
      var cols, kwargsTi := FleetColumns(rows, s, turbulenceIntensity, roughnessLength, m);
      if cols.Failure? {
        return Fail(cols.error);
      }
      var farmCurve := FinishFarmCurve(Aggregate(cols.value), efficiency, wakeLossesModel, s, kwargsTi, m);
      if farmCurve.Failure? {
        return Fail(farmCurve.error);
      }
      powerCurve := Some(farmCurve.value);
      r := Pass;
    }
  }

  /** The check that every turbine of the fleet has a power curve. */
  method CheckCurves(rows: seq<FleetRow>) returns (complete: bool)
    requires forall i :: 0 <= i < |rows| ==> rows[i].entry.TurbineEntry?
    ensures complete <==> AllHaveCurves(rows)
  {
    for i := 0 to |rows|
      invariant AllHaveCurves(rows[..i])
    {
      if rows[i].entry.turbine.powerCurve.None? {
        return false;
      }
      assert rows[..i + 1][i] == rows[i];
    }
    assert rows[..|rows|] == rows;
    complete := true;
  }

  /** The rest of `assign_power_curve` after the summation of the columns. */
  method FinishFarmCurve(summed: Curve, efficiency: Option<Efficiency>, wakeLossesModel: Option<string>,
                         s: Smoothing, ti: Option<real>, m: Math) returns (r: Result<Curve>)
    ensures r == FinishedCurve(summed, efficiency, wakeLossesModel, s, ti, m)
  {
    var farmCurve := summed;
    if s.enabled && s.order == WindFarmPowerCurves {
      var smoothed := SmoothPowerCurve(farmCurve, s.blockWidth, s.range, s.sdMethod, ti, s.meanGauss, m);
      if smoothed.Failure? {
        return Failure(smoothed.error);
      }
      farmCurve := smoothed.value;
    }
    if wakeLossesModel == Some(WindFarmEfficiency) && efficiency.Some? {
      r := WakeLossesToPowerCurve(farmCurve, efficiency.value);
    } else {
      r := Success(farmCurve);
    }
  }

  /**
   * The loop over the fleet in `assign_power_curve`: the turbulence
   * intensity is estimated at the first row when smoothing by turbulence
   * intensity without one (a missing roughness length raises ValueError),
   * and every row's column is built; `kwargsTi` is the turbulence intensity
   * the smoothing calls receive.
   */
  method FleetColumns(rows: seq<FleetRow>, s: Smoothing, turbulenceIntensity: Option<real>,
                      roughnessLength: Option<real>, m: Math)
    returns (r: Result<seq<Curve>>, kwargsTi: Option<real>)
    requires AllHaveCurves(rows)
    ensures var forwarded := ForwardedTurbulenceIntensity(rows, s.enabled, s.sdMethod,
                                                          turbulenceIntensity, roughnessLength, m);
      (forwarded.Failure? ==> r == Failure(forwarded.error)) &&
      (forwarded.Success? ==> kwargsTi == forwarded.value && r == MapAll(ColumnOf(s, kwargsTi, m), rows))
  {
    ghost var forwarded := ForwardedTurbulenceIntensity(rows, s.enabled, s.sdMethod,
                                                        turbulenceIntensity, roughnessLength, m);
    var ti := turbulenceIntensity;
    kwargsTi := turbulenceIntensity;
    var cols: seq<Curve> := [];
    for i := 0 to |rows|
      invariant i == 0 ==> ti == turbulenceIntensity && kwargsTi == turbulenceIntensity && cols == []
      invariant i > 0 ==> forwarded.Success? && kwargsTi == forwarded.value
      invariant i > 0 && s.enabled && s.sdMethod == TurbulenceIntensityMethod ==> ti.Some?
      invariant i > 0 ==> MapAll(ColumnOf(s, kwargsTi, m), rows[..i]) == Success(cols)
    {
      var row := rows[i];
      if s.enabled && s.sdMethod == TurbulenceIntensityMethod && ti.None? {
        if roughnessLength.None? {
          return Failure(ValueError("roughness_length")), kwargsTi;
        }
        var estimate := Tools.EstimateTurbulenceIntensity(row.entry.turbine.hubHeight,
                                                           roughnessLength.value, m);
        if estimate.Failure? {
          return Failure(estimate.error), kwargsTi;
        }
        ti := Some(estimate.value);
        kwargsTi := ti;
      }
      assert forwarded.Success? && kwargsTi == forwarded.value;
      if i == 0 {
        assert rows[..0] == [];
      }
      MapAllSnoc(ColumnOf(s, kwargsTi, m), rows, i);
      var c := row.entry.turbine.powerCurve.value;
      if s.enabled && s.order == TurbinePowerCurves {
        var smoothed := SmoothPowerCurve(c, s.blockWidth, s.range, s.sdMethod, kwargsTi, s.meanGauss, m);
        if smoothed.Failure? {
          assert ColumnOf(s, kwargsTi, m)(rows[i]).Failure?;
          MapAllFails(ColumnOf(s, kwargsTi, m), rows, i);
          return Failure(smoothed.error), kwargsTi;
        }
        c := smoothed.value;
      } else {
        var padded := Pad(c);
        if padded.Failure? {
          assert ColumnOf(s, kwargsTi, m)(rows[i]).Failure?;
          MapAllFails(ColumnOf(s, kwargsTi, m), rows, i);
          return Failure(padded.error), kwargsTi;
        }
        c := padded.value;
      }
      cols := cols + [Scale(c, NumberOrZero(row))];
    }
    assert rows[..|rows|] == rows;
    if |rows| == 0 {
      assert forwarded == Success(turbulenceIntensity);
      assert MapAll(ColumnOf(s, kwargsTi, m), rows) == Success([]);
    }
    r := Success(cols);
  }

  lemma InconsistentSnoc(rows: seq<FleetRow>, i: nat)
    requires i < |rows|
    ensures AnyInconsistent(rows[..i + 1]) == (AnyInconsistent(rows[..i]) || Inconsistent(rows[i]))
  {
    assert rows[..i + 1][i] == rows[i];
    if AnyInconsistent(rows[..i]) {
      var j :| 0 <= j < i && Inconsistent(rows[..i][j]);
      assert rows[..i + 1][j] == rows[..i][j];
    }
    if AnyInconsistent(rows[..i + 1]) && !Inconsistent(rows[i]) {
      var j :| 0 <= j < i + 1 && Inconsistent(rows[..i + 1][j]);
      assert rows[..i][j] == rows[..i + 1][j];
    }
  }

  // ----- properties

  /**
   * 3 turbines of 4.2 MW and 4 MW of 2 MW turbines: the second row gets 2
   * turbines and the farm 16.6 MW.
   */
  lemma FleetDeducedExample(e126: WindTurbine, v90: WindTurbine)
    requires e126.nominalPower == Some(4.2e6) && v90.nominalPower == Some(2.0e6)
    ensures var rows := [FleetRow(TurbineEntry(e126), Some(3.0), None),
                         FleetRow(TurbineEntry(v90), None, Some(4.0e6))];
      CompletedFleet(true, rows).Success? &&
      CompletedFleet(true, rows).value[1].number == Some(2.0) &&
      FleetCapacity(CompletedFleet(true, rows).value) == 16.6e6
  {
    var rows := [FleetRow(TurbineEntry(e126), Some(3.0), None), FleetRow(TurbineEntry(v90), None, Some(4.0e6))];
    var deduced := [rows[0], FleetRow(TurbineEntry(v90), Some(2.0), Some(4.0e6))];
    var done := [FleetRow(TurbineEntry(e126), Some(3.0), Some(12.6e6)), deduced[1]];
    assert 4.0e6 / 2.0e6 == 2.0;
    MapAllPair(DeducedNumber, rows[0], rows[1]);
    assert MapAll(DeducedNumber, rows) == Success(deduced);
    assert CompletedCapacity(deduced[1]) == Success(deduced[1]);
    MapAllPair(CompletedCapacity, deduced[0], deduced[1]);
    assert CompletedFleet(true, rows) == Success(done);
    assert done[..1][..0] == [] && done[..1] == [done[0]];
    assert FleetCapacity(done[..1]) == 12.6e6;
  }

  /**
   * A capacity of 3 W recorded for 3 turbines of 4.2 MW is overwritten with
   * 12.6 MW and warned about; a missing capacity for 2 turbines of 2 MW
   * becomes 4 MW.
   */
  lemma FleetOverwrittenExample(e126: WindTurbine, v90: WindTurbine)
    requires e126.nominalPower == Some(4.2e6) && v90.nominalPower == Some(2.0e6)
    ensures var rows := [FleetRow(TurbineEntry(e126), Some(3.0), Some(3.0)),
                         FleetRow(TurbineEntry(v90), Some(2.0), None)];
      CompletedFleet(true, rows).Success? &&
      CompletedFleet(true, rows).value[0].capacity == Some(12.6e6) &&
      CompletedFleet(true, rows).value[1].capacity == Some(4.0e6) &&
      AnyInconsistent(MapAll(DeducedNumber, rows).value)
  {
    var rows := [FleetRow(TurbineEntry(e126), Some(3.0), Some(3.0)), FleetRow(TurbineEntry(v90), Some(2.0), None)];
    MapAllPair(DeducedNumber, rows[0], rows[1]);
    assert MapAll(DeducedNumber, rows) == Success(rows);
    assert Inconsistent(rows[0]);
    MapAllPair(CompletedCapacity, rows[0], rows[1]);
  }

  /** A missing nominal power, or neither a number nor a capacity, raises ValueError. */
  lemma FleetErrorExamples(e126: WindTurbine, unrated: WindTurbine)
    requires e126.nominalPower == Some(4.2e6) && unrated.nominalPower.None?
    ensures CompletedFleet(true, [FleetRow(TurbineEntry(unrated), None, Some(3.0e6))]).Failure?
    ensures CompletedFleet(true, [FleetRow(TurbineEntry(unrated), None, Some(3.0e6))]).error.ValueError?
    ensures CompletedFleet(true, [FleetRow(TurbineEntry(unrated), Some(3.0), None)]).Failure?
    ensures CompletedFleet(true, [FleetRow(TurbineEntry(unrated), Some(3.0), None)]).error.ValueError?
    ensures CompletedFleet(true, [FleetRow(TurbineEntry(e126), None, None)]).Failure?
    ensures CompletedFleet(true, [FleetRow(TurbineEntry(e126), None, None)]).error.ValueError?
  {
    var a := [FleetRow(TurbineEntry(unrated), None, Some(3.0e6))];
    MapAllFails(DeducedNumber, a, 0);
    var b := [FleetRow(TurbineEntry(unrated), Some(3.0), None)];
    MapAllOne(DeducedNumber, b[0]);
    MapAllFails(CompletedCapacity, b, 0);
    var e := [FleetRow(TurbineEntry(e126), None, None)];
    MapAllFails(DeducedNumber, e, 0);
  }

  lemma {:induction false} WeightedLogSumUniform(rows: seq<FleetRow>, h: real, m: Math)
    requires forall i :: 0 <= i < |rows| ==> rows[i].entry.TurbineEntry? && rows[i].entry.turbine.hubHeight == h
    ensures WeightedLogSum(rows, m) == m.ln(h) * FleetCapacity(rows)
    decreases |rows|
  {
    if |rows| > 0 {
      var front := rows[..|rows| - 1];
      assert forall i :: 0 <= i < |front| ==> front[i] == rows[i];
      WeightedLogSumUniform(front, h, m);
      var last := CapacityOrZero(rows[|rows| - 1]);
      Distributes(m.ln(h), FleetCapacity(front), last);
    }
  }

  lemma Distributes(a: real, b: real, c: real)
    ensures a * b + a * c == a * (b + c)
  {
  }

  lemma MulDivCancel(x: real, c: real)
    requires c != 0.0
    ensures x * c / c == x
  {
  }

  /** A farm whose turbines all stand at the same height `h` has mean hub height `h`. */
  lemma MeanHubHeightUniform(rows: seq<FleetRow>, h: real, m: Math)
    requires forall i :: 0 <= i < |rows| ==> rows[i].entry.TurbineEntry? && rows[i].entry.turbine.hubHeight == h
    requires 0.0 < h && ExpInvertsLn(m) && FleetCapacity(rows) != 0.0
    ensures MeanHubHeightOf(rows, FleetCapacity(rows), m) == h
  {
    WeightedLogSumUniform(rows, h, m);
    MulDivCancel(m.ln(h), FleetCapacity(rows));
    assert WeightedLogSum(rows, m) / FleetCapacity(rows) == m.ln(h);
  }

  /**
   * A farm of one turbine type, without smoothing, has that turbine's
   * padded curve times the number of turbines, reduced by the efficiency
   * only for the 'wind_farm_efficiency' model.
   */
  lemma SingleTypeFarm(row: FleetRow, efficiency: Option<Efficiency>, wakeLossesModel: Option<string>,
                       s: Smoothing, turbulenceIntensity: Option<real>, roughnessLength: Option<real>, m: Math)
    requires row.entry.TurbineEntry? && row.entry.turbine.powerCurve.Some?
    requires |row.entry.turbine.powerCurve.value| > 0 && WellFormedCurve(row.entry.turbine.powerCurve.value)
    requires !s.enabled
    ensures var scaled := Scale(Pad(row.entry.turbine.powerCurve.value).value, NumberOrZero(row));
      FarmPowerCurve([row], efficiency, wakeLossesModel, s, turbulenceIntensity, roughnessLength, m) ==
      if wakeLossesModel == Some(WindFarmEfficiency) && efficiency.Some? then
        WakeLossesToPowerCurve(scaled, efficiency.value)
      else Success(scaled)
  {
    var c := row.entry.turbine.powerCurve.value;
    var scaled := Scale(Pad(c).value, NumberOrZero(row));
    var rows := [row];
    assert AllHaveCurves(rows);
    assert ForwardedTurbulenceIntensity(rows, s.enabled, s.sdMethod, turbulenceIntensity, roughnessLength, m) ==
      Success(turbulenceIntensity);
    assert ColumnOf(s, turbulenceIntensity, m)(row) == Success(scaled);
    MapAllOne(ColumnOf(s, turbulenceIntensity, m), row);
    PadProperties(c);
    AggregateSingleScaled(Pad(c).value, NumberOrZero(row));
    assert Aggregate([scaled]) == scaled;
  }

  /**
   * As written, a turbulence intensity given to `assign_power_curve` never
   * reaches the smoothing: smoothing by turbulence intensity then fails with
   * the ValueError for a missing turbulence intensity (at the first turbine
   * curve, or at the farm curve when every turbine curve can be padded).
   */
  lemma TurbulenceIntensityDroppedAsWritten(rows: seq<FleetRow>, efficiency: Option<Efficiency>,
                                            wakeLossesModel: Option<string>, s: Smoothing, ti: real,
                                            roughnessLength: Option<real>, m: Math)
    requires s.enabled && s.sdMethod == TurbulenceIntensityMethod
    requires AllHaveCurves(rows)
    requires (s.order == TurbinePowerCurves && |rows| > 0) ||
             (s.order == WindFarmPowerCurves &&
              forall i :: 0 <= i < |rows| ==> |rows[i].entry.turbine.powerCurve.value| > 0)
    ensures FarmPowerCurveAsWritten(rows, efficiency, wakeLossesModel, s, Some(ti), roughnessLength, m) ==
      Failure(ValueError("turbulence_intensity"))
  {
    var f := ColumnOf(s, None, m);
    if s.order == TurbinePowerCurves {
      assert rows[..0] == [];
      assert f(rows[0]) == Failure(ValueError("turbulence_intensity"));
      MapAllFails(f, rows, 0);
    } else {
      assert forall i :: 0 <= i < |rows| ==> f(rows[i]).Success?;
      MapAllSucceeds(f, rows);
    }
  }

  /**
   * With the given turbulence intensity forwarded, smoothing by turbulence
   * intensity receives it, and the farm curve never fails with ValueError
   * once every turbine has a power curve.
   */
  lemma TurbulenceIntensityForwarded(rows: seq<FleetRow>, efficiency: Option<Efficiency>,
                                     wakeLossesModel: Option<string>, s: Smoothing, ti: real,
                                     roughnessLength: Option<real>, m: Math)
    requires s.enabled && s.sdMethod == TurbulenceIntensityMethod
    requires AllHaveCurves(rows)
    ensures ForwardedTurbulenceIntensity(rows, s.enabled, s.sdMethod, Some(ti), roughnessLength, m) ==
      Success(Some(ti))
    ensures var r := FarmPowerCurve(rows, efficiency, wakeLossesModel, s, Some(ti), roughnessLength, m);
      r.Failure? ==> !r.error.ValueError?
  {
    var f := ColumnOf(s, Some(ti), m);
    var cols := MapAll(f, rows);
    if cols.Failure? {
      var i := MapAllFailure(f, rows);
      assert !f(rows[i]).error.ValueError?;
    }
  }
}
