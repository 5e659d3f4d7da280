/**
 * A wind turbine cluster: a list of wind farms whose nominal powers are
 * summed and cached, whose mean hub heights are averaged, and whose power
 * curves are summed into the cluster's power curve.
 */
module Cluster {
  import opened Common
  import opened Aggregation
  import opened PowerCurves
  import opened Turbine
  import opened Farm

  /** What the cluster's computations read from one farm, and keep unchanged. */
  datatype FarmState = FarmState(fleet: seq<FleetRow>, efficiency: Option<Efficiency>, nominal: real)

  /** The farm whose fleet, efficiency and nominal power cache are these is in state `f`. */
  predicate Holds(fleet: seq<FleetRow>, efficiency: Option<Efficiency>, cache: Option<real>, f: FarmState) {
    fleet == f.fleet && efficiency == f.efficiency && NominalFrom(cache, fleet) == f.nominal
  }

  /** The farms' states, in list order. */
  ghost function States(farms: seq<WindFarm>): (r: seq<FarmState>)
    reads farms`fleet, farms`efficiency, farms`nominalPowerCache
    ensures |r| == |farms|
    ensures forall j :: 0 <= j < |farms| ==>
      Holds(farms[j].fleet, farms[j].efficiency, farms[j].nominalPowerCache, r[j])
  {
    if |farms| == 0 then []
    else
      var last := farms[|farms| - 1];
      States(farms[..|farms| - 1]) +
      [FarmState(last.fleet, last.efficiency, NominalFrom(last.nominalPowerCache, last.fleet))]
  }

  /** The sum of the farms' nominal powers. */
  function SumNominal(states: seq<FarmState>): real
    decreases |states|
  {
    if |states| == 0 then 0.0 else SumNominal(states[..|states| - 1]) + states[|states| - 1].nominal
  }

  /** The parameters `assign_power_curve` passes on to every farm. */
  datatype Parameters = Parameters(
    wakeLossesModel: Option<string>, smoothing: Smoothing,
    turbulenceIntensity: Option<real>, roughnessLength: Option<real>)

  /**
   * One farm's part of the cluster curve: its mean hub height must be
   * finite (a zero nominal power is not), then its power curve is
   * assigned.
   */
  function FarmCurve(f: FarmState, p: Parameters, m: Math): Result<Curve> {
    if f.nominal == 0.0 then Failure(NonFinite("hub_height"))
    else FarmPowerCurve(f.fleet, f.efficiency, p.wakeLossesModel, p.smoothing,
                        p.turbulenceIntensity, p.roughnessLength, m)
  }

  function FarmCurveOf(p: Parameters, m: Math): FarmState -> Result<Curve> {
    f => FarmCurve(f, p, m)
  }

  /**
   * The cluster power curve: every farm's curve in list order, then the
   * sum over the union of their wind-speed grids; concatenating no farm
   * curves at all raises ValueError.
   */
  function ClusterPowerCurve(states: seq<FarmState>, p: Parameters, m: Math): (r: Result<Curve>)
    ensures |states| == 0 ==> r.Failure? && r.error.ValueError?
  {
    var curves := MapAll(FarmCurveOf(p, m), states);
    if curves.Failure? then Failure(curves.error)
    else if |states| == 0 then Failure(ValueError("wind_farms"))
    else Success(Aggregate(curves.value))
  }

  /**
   * The hub height the farm's `mean_hub_height` gives it: defined when its
   * nominal power is not zero (a zero one makes the mean infinite or NaN).
   */
  ghost function FarmHub(f: FarmState, m: Math): Option<real> {
    if f.nominal != 0.0 && forall i :: 0 <= i < |f.fleet| ==> f.fleet[i].entry.TurbineEntry?
    then Some(MeanHubHeightOf(f.fleet, f.nominal, m))
    else None
  }

  /** Every farm's hub height after the cluster's `assign_power_curve`. */
  ghost function FarmHubs(states: seq<FarmState>, m: Math): (r: seq<Option<real>>)
    ensures |r| == |states| && forall j :: 0 <= j < |states| ==> r[j] == FarmHub(states[j], m)
  {
    seq(|states|, j requires 0 <= j < |states| => FarmHub(states[j], m))
  }

  /** The nominal power of the cluster: the cache while it is truthy, otherwise the sum over the farms. */
  function ClusterNominal(cache: Option<real>, states: seq<FarmState>): real {
    if Truthy(cache) then cache.value else SumNominal(states)
  }

  /**
   * What the cluster's `mean_hub_height` computes from the farms' states,
   * their hub heights `hs` and the cluster's nominal power cache. With no
   * farms both sums are the integer 0, so an unset cache divides `0 / 0`.
   */
  function ClusterHubHeight(states: seq<FarmState>, hs: seq<Option<real>>, cache: Option<real>, m: Math): (r: Result<real>)
    requires |hs| == |states|
    ensures !AllSet(hs) ==> r == Failure(TypeError("hub_height"))
    ensures AllSet(hs) && |states| == 0 && !Truthy(cache) ==> r == Failure(ZeroDivisionError("nominal_power"))
    ensures AllSet(hs) && |states| > 0 && ClusterNominal(cache, states) == 0.0 ==> r == Failure(NonFinite("hub_height"))
  {
    if !AllSet(hs) then Failure(TypeError("hub_height"))
    else if ClusterNominal(cache, states) == 0.0 then
      (if |states| == 0 then Failure(ZeroDivisionError("nominal_power")) else Failure(NonFinite("hub_height")))
    else Success(GeometricMean(LogSum(Heights(hs), states, m), ClusterNominal(cache, states), m))
  }

  /** `exp(log sum / nominal power)`. */
  function GeometricMean(logSum: real, nominal: real, m: Math): real
    requires nominal != 0.0
  {
    m.exp(logSum / nominal)
  }

  /** One farm's term: ln(hub height) times nominal power. */
  function LogTerm(h: real, nominal: real, m: Math): real {
    m.ln(h) * nominal
  }

  /** sum(ln(farm hub height) * farm nominal power) over the farms. */
  function LogSum(hubs: seq<real>, states: seq<FarmState>, m: Math): real
    requires |hubs| == |states|
    decreases |states|
  {
    if |states| == 0 then 0.0
    else
      LogSum(hubs[..|hubs| - 1], states[..|states| - 1], m) + LogTerm(hubs[|hubs| - 1], states[|states| - 1].nominal, m)
  }

  lemma LogSumSnoc(hubs: seq<real>, states: seq<FarmState>, i: nat, h: real, m: Math)
    requires |hubs| == i < |states|
    ensures LogSum(hubs + [h], states[..i + 1], m) ==
      LogSum(hubs, states[..i], m) + LogTerm(h, states[i].nominal, m)
  {
    assert states[..i + 1][..i] == states[..i];
    assert (hubs + [h])[..i] == hubs;
  }

  /**
   * The cluster curve succeeds exactly when the cluster has a farm and
   * every farm's curve succeeds; it is then the sum of the farm curves,
   * taken in list order, and otherwise carries the error of a failing farm.
   */
  lemma ClusterPowerCurveCases(states: seq<FarmState>, p: Parameters, m: Math)
    ensures ClusterPowerCurve(states, p, m).Success? <==>
      |states| > 0 && forall j :: 0 <= j < |states| ==> FarmCurve(states[j], p, m).Success?
    ensures ClusterPowerCurve(states, p, m).Success? ==>
      var curves := MapAll(FarmCurveOf(p, m), states);
      curves.Success? && ClusterPowerCurve(states, p, m).value == Aggregate(curves.value) &&
      forall j :: 0 <= j < |states| ==> curves.value[j] == FarmCurve(states[j], p, m).value
    ensures ClusterPowerCurve(states, p, m).Failure? && |states| > 0 ==>
      exists j :: 0 <= j < |states| && FarmCurve(states[j], p, m).Failure? &&
        ClusterPowerCurve(states, p, m).error == FarmCurve(states[j], p, m).error
  {
    var g := FarmCurveOf(p, m);
    var curves := MapAll(g, states);
    if curves.Success? {
      MapAllRows(g, states);
    } else {
      var i := MapAllFailure(g, states);
      assert FarmCurve(states[i], p, m).Failure?;
    }
    if forall j :: 0 <= j < |states| ==> FarmCurve(states[j], p, m).Success? {
      assert forall j :: 0 <= j < |states| ==> g(states[j]).Success?;
      MapAllSucceeds(g, states);
    }
  }

  /** The first farm whose curve fails decides the cluster's error. */
  lemma ClusterFailsAtFirstFarm(states: seq<FarmState>, p: Parameters, m: Math, i: nat)
    requires i < |states| && FarmCurve(states[i], p, m).Failure?
    requires forall j :: 0 <= j < i ==> FarmCurve(states[j], p, m).Success?
    ensures ClusterPowerCurve(states, p, m) == Failure(FarmCurve(states[i], p, m).error)
  {
    var g := FarmCurveOf(p, m);
    var front := states[..i];
    assert forall j :: 0 <= j < |front| ==> g(front[j]).Success?;
    MapAllSucceeds(g, front);
    MapAllFails(g, states, i);
  }

  /** A farm of zero nominal power fails the cluster curve unless an earlier farm already failed. */
  lemma ZeroNominalFarmFails(states: seq<FarmState>, p: Parameters, m: Math, i: nat)
    requires i < |states| && states[i].nominal == 0.0
    requires forall j :: 0 <= j < i ==> FarmCurve(states[j], p, m).Success?
    ensures ClusterPowerCurve(states, p, m) == Failure(NonFinite("hub_height"))
  {
    ClusterFailsAtFirstFarm(states, p, m, i);
  }

  /** A cluster of one farm has that farm's power curve. */
  lemma ClusterOfOneFarm(f: FarmState, p: Parameters, m: Math)
    requires FarmCurve(f, p, m).Success? && StrictlyIncreasing(FarmCurve(f, p, m).value)
    ensures ClusterPowerCurve([f], p, m) == FarmCurve(f, p, m)
  {
    MapAllOne(FarmCurveOf(p, m), f);
    AggregateSingle(FarmCurve(f, p, m).value);
  }

  /** With every farm at hub height `h`, the log sum is the term of `h` and the summed nominal power. */
  lemma {:induction false} LogSumUniform(hubs: seq<real>, states: seq<FarmState>, h: real, m: Math)
    requires |hubs| == |states| && forall j :: 0 <= j < |hubs| ==> hubs[j] == h
    ensures LogSum(hubs, states, m) == LogTerm(h, SumNominal(states), m)
    decreases |states|
  {
    if |states| > 0 {
      var n := |states|;
      LogSumUniform(hubs[..n - 1], states[..n - 1], h, m);
      Distributes(m.ln(h), SumNominal(states[..n - 1]), states[n - 1].nominal);
    }
  }

  /** Farms that all stand at hub height `h` give the cluster the mean hub height `h`. */
  lemma ClusterMeanHubHeightUniform(hubs: seq<real>, states: seq<FarmState>, h: real, m: Math)
    requires |hubs| == |states| && forall j :: 0 <= j < |hubs| ==> hubs[j] == h
    requires 0.0 < h && ExpInvertsLn(m) && SumNominal(states) != 0.0
    ensures m.exp(LogSum(hubs, states, m) / SumNominal(states)) == h
  {
    LogSumUniform(hubs, states, h, m);
    LogTermQuotient(h, SumNominal(states), m);
    assert m.exp(m.ln(h)) == h;
  }

  lemma LogTermQuotient(h: real, nominal: real, m: Math)
    requires nominal != 0.0
    ensures LogTerm(h, nominal, m) / nominal == m.ln(h)
  {
    MulDivCancel(m.ln(h), nominal);
  }

  class WindTurbineCluster {
    var farms: seq<WindFarm>
    var name: string
    var hubHeight: Option<real>
    var nominalPowerCache: Option<real>
    var powerCurve: Option<Curve>

    /** Every farm passed its fleet check. */
    ghost predicate Valid()
      reads this`farms, farms`hasTurbineColumn, farms`fleet
    {
      forall j :: 0 <= j < |farms| ==> farms[j].Valid()
    }

    constructor (farms: seq<WindFarm>, name: string)
      ensures this.farms == farms && this.name == name
      ensures hubHeight.None? && nominalPowerCache.None? && powerCurve.None?
    {
      this.farms := farms;
      this.name := name;
      hubHeight := None;
      nominalPowerCache := None;
      powerCurve := None;
    }

    /**
     * `nominal_power`: the sum of the farms' nominal powers (each farm
     * filling its own cache), computed and cached while the cache is
     * falsy; otherwise the cached value. `states` and `hs` name what the
     * farms hold when it is called (`States(farms)`, `Hubs(farms)`).
     */
    method NominalPower(ghost states: seq<FarmState>, ghost hs: seq<Option<real>>) returns (p: real)
      requires InStates(farms, states, hs)
      modifies this`nominalPowerCache, farms`nominalPowerCache
      ensures InStates(farms, states, hs)
      ensures Truthy(old(nominalPowerCache)) ==> p == old(nominalPowerCache).value
      ensures !Truthy(old(nominalPowerCache)) ==> p == SumNominal(states)
      ensures nominalPowerCache == Some(p)
    {
      if Truthy(nominalPowerCache) {
        return nominalPowerCache.value;
      }
      p := SumFarmNominal(farms, states, hs);
      nominalPowerCache := Some(p);
    }

    /**
     * `mean_hub_height`: the nominal-power-weighted geometric mean of the
     * farms' hub heights. A farm without a hub height fails the logarithm
     * with TypeError; a zero nominal power makes the mean infinite or NaN,
     * except for a cluster without farms, whose integer sums make `0 / 0`
     * raise ZeroDivisionError.
     */
    method MeanHubHeight(ghost states: seq<FarmState>, ghost hs: seq<Option<real>>, m: Math) returns (r: Outcome)
      requires InStates(farms, states, hs)
      modifies this`nominalPowerCache, this`hubHeight, farms`nominalPowerCache
      ensures InStates(farms, states, hs)
      ensures var expected := ClusterHubHeight(states, hs, old(nominalPowerCache), m);
        (r.Pass? <==> expected.Success?) &&
        (r.Pass? ==> hubHeight == Some(expected.value)) &&
        (r.Fail? ==> r.error == expected.error && hubHeight == old(hubHeight))
    {
      ghost var cache := nominalPowerCache;
      var total, ok := FarmLogSum(farms, states, hs, m);
      if !ok {
        return Fail(TypeError("hub_height"));
      }
      assert nominalPowerCache == cache;
      var p := NominalPower(states, hs);
      assert p == ClusterNominal(cache, states);
      if p == 0.0 && |farms| == 0 {
        return Fail(ZeroDivisionError("nominal_power"));
      } else if p == 0.0 {
        return Fail(NonFinite("hub_height"));
      }
      hubHeight := Some(GeometricMean(total, p, m));
      assert ClusterHubHeight(states, hs, cache, m) == Success(GeometricMean(total, p, m));
      r := Pass;
    }

    /**
     * `assign_power_curve`: every farm in list order gets its mean hub
     * height and then its power curve, with the same parameters; the
     * cluster curve is the sum of the farm curves. The cluster applies no
     * efficiency of its own. Each farm curve forwards the turbulence
     * intensity to smoothing, as `Farm.WindFarm.AssignPowerCurve` does.
     */
    method AssignPowerCurve(ghost states: seq<FarmState>, p: Parameters, m: Math) returns (r: Outcome)
      requires Valid() && |states| == |farms|
      requires forall j :: 0 <= j < |farms| ==>
        Holds(farms[j].fleet, farms[j].efficiency, farms[j].nominalPowerCache, states[j])
      modifies this`powerCurve, farms`nominalPowerCache, farms`hubHeight, farms`powerCurve
      ensures var expected := ClusterPowerCurve(states, p, m);
        (r.Pass? <==> expected.Success?) &&
        (r.Pass? ==> powerCurve == Some(expected.value)) &&
        (r.Fail? ==> r.error == expected.error && powerCurve == old(powerCurve))
      ensures Valid()
      ensures forall j :: 0 <= j < |farms| ==>
        Holds(farms[j].fleet, farms[j].efficiency, farms[j].nominalPowerCache, states[j])
      ensures r.Pass? ==> forall j :: 0 <= j < |farms| ==> farms[j].hubHeight == FarmHub(states[j], m)
    {
      var curves := AssignFarms(farms, states, p, m);
      if curves.Failure? {
        return Fail(curves.error);
      }
      if |farms| == 0 {
        return Fail(ValueError("wind_farms"));
      }
      powerCurve := Some(Aggregate(curves.value));
      r := Pass;
    }
  }

  /** The loop of the cluster's `nominal_power`. */
  method SumFarmNominal(farms: seq<WindFarm>, ghost states: seq<FarmState>, ghost hs: seq<Option<real>>)
    returns (total: real)
    requires InStates(farms, states, hs)
    modifies farms`nominalPowerCache
    ensures InStates(farms, states, hs)
    ensures total == SumNominal(states)
  {
    total := 0.0;
    for i := 0 to |farms|
      modifies farms`nominalPowerCache
      invariant InStates(farms, states, hs)
      invariant total == SumNominal(states[..i])
    {
      SharedFarmShared(farms, states, i);
      var q := farms[i].NominalPower();
      assert states[..i + 1][..i] == states[..i];
      total := total + q;
    }
    assert states[..|farms|] == states;
  }

  /** Every farm is in its state and has its hub height. */
  ghost predicate InStates(farms: seq<WindFarm>, states: seq<FarmState>, hs: seq<Option<real>>)
    reads farms`fleet, farms`efficiency, farms`nominalPowerCache, farms`hubHeight
  {
    |states| == |farms| && |hs| == |farms| &&
    forall j :: 0 <= j < |farms| ==>
      Holds(farms[j].fleet, farms[j].efficiency, farms[j].nominalPowerCache, states[j]) &&
      farms[j].hubHeight == hs[j]
  }

  /**
   * The loop of the cluster's `mean_hub_height`: ln(hub height) times
   * nominal power summed over the farms in list order, each farm filling
   * its nominal power cache; the first farm without a hub height stops it.
   */
  method FarmLogSum(farms: seq<WindFarm>, ghost states: seq<FarmState>, ghost hs: seq<Option<real>>, m: Math)
    returns (total: real, ok: bool)
    requires InStates(farms, states, hs)
    modifies farms`nominalPowerCache
    ensures InStates(farms, states, hs)
    ensures ok <==> AllSet(hs)
    ensures ok ==> total == LogSum(Heights(hs), states, m)
  {
    total := 0.0;
    for i := 0 to |farms|
      modifies farms`nominalPowerCache
      invariant InStates(farms, states, hs)
      invariant AllSet(hs[..i]) && total == LogSum(Heights(hs[..i]), states[..i], m)
    {
      var t := FarmLogStep(farms, states, hs, i, m);
      if t.None? {
        return total, false;
      }
      LogSumStep(hs, states, i, total, m);
      total := total + t.value;
    }
    assert states[..|farms|] == states;
    assert hs[..|farms|] == hs;
    ok := true;
  }

  /** A farm that appears twice in the list is in one state. */
  lemma SharedFarmShared(farms: seq<WindFarm>, states: seq<FarmState>, i: nat)
    requires i < |farms| == |states|
    requires forall j :: 0 <= j < |farms| ==>
      Holds(farms[j].fleet, farms[j].efficiency, farms[j].nominalPowerCache, states[j])
    ensures forall j :: 0 <= j < |farms| && farms[j] == farms[i] ==> states[j] == states[i]
  {
  }

  /** The `i`-th farm's term, keeping every farm in its state. */
  method FarmLogStep(farms: seq<WindFarm>, ghost states: seq<FarmState>, ghost hs: seq<Option<real>>, i: nat, m: Math)
    returns (t: Option<real>)
    requires i < |farms| && InStates(farms, states, hs)
    modifies farms`nominalPowerCache
    ensures InStates(farms, states, hs)
    ensures hs[i].None? ==> t.None?
    ensures hs[i].Some? ==> t == Some(LogTerm(hs[i].value, states[i].nominal, m))
  {
    SharedFarmShared(farms, states, i);
    t := FarmLogTerm(farms[i], states[i], m);
  }

  /** One farm's term of the cluster's `mean_hub_height`. */
  method FarmLogTerm(farm: WindFarm, ghost f: FarmState, m: Math) returns (t: Option<real>)
    requires Holds(farm.fleet, farm.efficiency, farm.nominalPowerCache, f)
    modifies farm`nominalPowerCache
    ensures Holds(farm.fleet, farm.efficiency, farm.nominalPowerCache, f)
    ensures farm.hubHeight.None? ==> t.None?
    ensures farm.hubHeight.Some? ==> t == Some(LogTerm(farm.hubHeight.value, f.nominal, m))
  {
    if farm.hubHeight.None? {
      return None;
    }
    var h := farm.hubHeight.value;
    var q := farm.NominalPower();
    t := Some(LogTerm(h, q, m));
  }

  /**
   * The loop of the cluster's `assign_power_curve`: every farm in list
   * order gets its mean hub height and its power curve; the first failure
   * stops it.
   */
  method AssignFarms(farms: seq<WindFarm>, ghost states: seq<FarmState>, p: Parameters, m: Math)
    returns (r: Result<seq<Curve>>)
    requires |states| == |farms|
    requires forall j :: 0 <= j < |farms| ==>
      farms[j].Valid() && Holds(farms[j].fleet, farms[j].efficiency, farms[j].nominalPowerCache, states[j])
    modifies farms`nominalPowerCache, farms`hubHeight, farms`powerCurve
    ensures r == MapAll(FarmCurveOf(p, m), states)
    ensures forall j :: 0 <= j < |farms| ==>
      farms[j].Valid() && Holds(farms[j].fleet, farms[j].efficiency, farms[j].nominalPowerCache, states[j])
    ensures r.Success? ==> forall j :: 0 <= j < |farms| ==> farms[j].hubHeight == FarmHub(states[j], m)
  {
    ghost var g := FarmCurveOf(p, m);
    assert forall j :: 0 <= j < |farms| ==> Checked(states[j].fleet);
    var curves: seq<Curve> := [];
    for i := 0 to |farms|
      modifies farms`nominalPowerCache, farms`hubHeight, farms`powerCurve
      invariant forall j :: 0 <= j < |farms| ==> Checked(states[j].fleet)
      invariant forall j :: 0 <= j < |farms| ==>
        farms[j].hasTurbineColumn && Holds(farms[j].fleet, farms[j].efficiency, farms[j].nominalPowerCache, states[j])
      invariant |curves| == i
      invariant forall j :: 0 <= j < i ==> g(states[j]) == Success(curves[j])
      invariant forall j :: 0 <= j < i ==> farms[j].hubHeight == FarmHub(states[j], m)
    {
      SharedFarmShared(farms, states, i);
      var c := AssignFarm(farms[i], states[i], p, m);
      if c.Failure? {
        MapAllFirstFailure(g, states, curves, i);
        return Failure(c.error);
      }
      PointwiseSnoc(g, states, curves, c.value);
      curves := curves + [c.value];
    }
    MapAllPointwise(g, states, curves);
    r := Success(curves);
  }

  /**
   * One farm's turn in the cluster's `assign_power_curve`: its mean hub
   * height, then its power curve; the result is the farm's curve.
   */
  method AssignFarm(farm: WindFarm, ghost f: FarmState, p: Parameters, m: Math) returns (r: Result<Curve>)
    requires farm.Valid() && Holds(farm.fleet, farm.efficiency, farm.nominalPowerCache, f)
    modifies farm`nominalPowerCache, farm`hubHeight, farm`powerCurve
    ensures farm.Valid() && Holds(farm.fleet, farm.efficiency, farm.nominalPowerCache, f)
    ensures r == FarmCurveOf(p, m)(f)
    ensures r.Success? ==> farm.powerCurve == Some(r.value) && farm.hubHeight == FarmHub(f, m)
  {
    var hub := farm.MeanHubHeight(m);
    if hub.Fail? {
      return Failure(hub.error);
    }
    var done := farm.AssignPowerCurve(p.wakeLossesModel, p.smoothing, p.turbulenceIntensity,
                                      p.roughnessLength, m);
    if done.Fail? {
      return Failure(done.error);
    }
    r := Success(farm.powerCurve.value);
  }

  /** The farms' hub heights. */
  ghost function Hubs(farms: seq<WindFarm>): (r: seq<Option<real>>)
    reads farms`hubHeight
    ensures |r| == |farms| && forall j :: 0 <= j < |farms| ==> r[j] == farms[j].hubHeight
  {
    if |farms| == 0 then [] else Hubs(farms[..|farms| - 1]) + [farms[|farms| - 1].hubHeight]
  }

  predicate AllSet(hs: seq<Option<real>>) {
    forall j :: 0 <= j < |hs| ==> hs[j].Some?
  }

  /** The hub heights, all of them set. */
  function Heights(hs: seq<Option<real>>): (r: seq<real>)
    requires AllSet(hs)
    ensures |r| == |hs| && forall j :: 0 <= j < |hs| ==> r[j] == hs[j].value
  {
    if |hs| == 0 then [] else Heights(hs[..|hs| - 1]) + [hs[|hs| - 1].value]
  }

  /** One turn of the loop of `mean_hub_height`. */
  lemma LogSumStep(hs: seq<Option<real>>, states: seq<FarmState>, i: nat, total: real, m: Math)
    requires i < |hs| == |states| && AllSet(hs[..i]) && hs[i].Some?
    requires total == LogSum(Heights(hs[..i]), states[..i], m)
    ensures AllSet(hs[..i + 1])
    ensures total + LogTerm(hs[i].value, states[i].nominal, m) == LogSum(Heights(hs[..i + 1]), states[..i + 1], m)
  {
    LogSumSnoc(Heights(hs[..i]), states, i, hs[i].value, m);
    HeightsSnoc(hs, i);
  }

  lemma HeightsSnoc(hs: seq<Option<real>>, i: nat)
    requires i < |hs| && AllSet(hs[..i]) && hs[i].Some?
    ensures AllSet(hs[..i + 1]) && Heights(hs[..i + 1]) == Heights(hs[..i]) + [hs[i].value]
  {
    assert hs[..i + 1][..i] == hs[..i];
  }
}
