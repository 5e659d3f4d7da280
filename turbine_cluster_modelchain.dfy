/**
 * The model chain of a wind farm or a wind turbine cluster: the power
 * curve of the plant is aggregated first (with the weather's mean
 * turbulence intensity and roughness length), then the plant's mean hub
 * height is computed, and the single-turbine chain runs on the plant with
 * the wind speed optionally reduced by a wind efficiency curve.
 *
 * Wake losses are taken into account once: either the farms' power curves
 * are reduced by their own efficiency (`wind_farm_efficiency`), or the hub
 * wind speed is reduced by a named wind efficiency curve, or neither.
 */
module ClusterModelChains {
  import opened Common
  import opened Tools
  import opened Turbine
  import opened Farm
  import Cluster
  import opened WakeLosses
  import opened ModelChains

  /** The power plant of the chain. */
  datatype Plant = FarmPlant(farm: WindFarm) | ClusterPlant(cluster: Cluster.WindTurbineCluster)

  /** The plant object itself. */
  function PlantObject(p: Plant): object {
    match p
    case FarmPlant(farm) => farm
    case ClusterPlant(c) => c
  }

  /** The farms of a cluster plant; a wind farm plant has none of its own. */
  function PlantFarms(p: Plant): seq<object>
    reads PlantObject(p)
  {
    match p
    case FarmPlant(_) => []
    case ClusterPlant(c) => c.farms
  }

  // ----- wake losses

  /**
   * The wake losses model the plant's `assign_power_curve` receives: the
   * chain's own when it is `wind_farm_efficiency` or None, None otherwise.
   */
  function ForwardedWakeModel(wake: Option<string>): (r: Option<string>)
    ensures r.None? || r == Some(WindFarmEfficiency)
    ensures r == Some(WindFarmEfficiency) <==> wake == Some(WindFarmEfficiency)
  {
    if wake == Some(WindFarmEfficiency) || wake.None? then wake else None
  }

  /**
   * The reduction of the hub wind speed in `run_model`: by the wind
   * efficiency curve of that name when the wake losses model is neither
   * `wind_farm_efficiency` nor None. It and the forwarded model never both
   * act, and one of them acts whenever a wake losses model is set.
   */
  function WakeReduction(wake: Option<string>, read: string -> EfficiencyTable): (r: Reduction)
    ensures r.ReduceBy? <==> wake.Some? && wake.value != WindFarmEfficiency
    ensures r.ReduceBy? ==> r.curveName == wake.value && r.read == read
    ensures r.ReduceBy? ==> ForwardedWakeModel(wake).None?
    ensures wake.Some? ==> r.ReduceBy? || ForwardedWakeModel(wake).Some?
  {
    if wake.Some? && wake.value != WindFarmEfficiency then ReduceBy(wake.value, read) else NoReduction
  }

  // ----- weather means

  /** The values of every column of a variable, column after column (`.values` of the sub-table). */
  function AllValues(cols: seq<HeightColumn>): (vs: seq<real>)
    decreases |cols|
  {
    if |cols| == 0 then [] else AllValues(cols[..|cols| - 1]) + cols[|cols| - 1].values
  }

  function Sum(xs: seq<real>): real
    decreases |xs|
  {
    if |xs| == 0 then 0.0 else Sum(xs[..|xs| - 1]) + xs[|xs| - 1]
  }

  /**
   * `weather_df[variable].values.mean() if variable in weather_df else
   * None`: the mean over all heights and time steps; the mean of no values
   * is NaN (`NonFinite`).
   */
  function ColumnMean(cols: seq<HeightColumn>, variable: string): (r: Result<Option<real>>)
    ensures r == Success(None) <==> |cols| == 0
    ensures r.Failure? <==> |cols| > 0 && |AllValues(cols)| == 0
    ensures r.Failure? ==> r.error == NonFinite(variable)
  {
    if |cols| == 0 then Success(None)
    else
      var vs := AllValues(cols);
      if |vs| == 0 then Failure(NonFinite(variable))
      else Success(Some(Sum(vs) / (|vs| as real)))
  }

  /** The means `assign_power_curve` hands on to the plant. */
  datatype Means = Means(turbulenceIntensity: Option<real>, roughnessLength: Option<real>)

  /** The turbulence intensity mean first, then the roughness length mean. */
  function WeatherMeans(w: Weather): Result<Means> {
    var ti := ColumnMean(w.turbulenceIntensity, "turbulence_intensity");
    if ti.Failure? then Failure(ti.error)
    else
      var z0 := ColumnMean(w.roughnessLength, "roughness_length");
      if z0.Failure? then Failure(z0.error)
      else Success(Means(ti.value, z0.value))
  }

  /** Columns that are all as long as the time index hold that many values each. */
  lemma {:induction false} AllValuesLength(cols: seq<HeightColumn>, n: nat)
    requires SameLength(cols, n)
    ensures |AllValues(cols)| == |cols| * n
    decreases |cols|
  {
    if |cols| > 0 {
      var front := cols[..|cols| - 1];
      assert SameLength(front, n);
      AllValuesLength(front, n);
      assert |cols| * n == |front| * n + n;
    }
  }

  /**
   * On a weather table whose columns are as long as its time index, the
   * means are computed exactly when the table has time steps or has
   * neither turbulence intensity nor roughness length.
   */
  lemma WeatherMeansDefined(w: Weather)
    requires Aligned(w)
    ensures WeatherMeans(w).Success? <==>
      w.steps > 0 || (|w.turbulenceIntensity| == 0 && |w.roughnessLength| == 0)
    ensures WeatherMeans(w).Success? ==>
      (WeatherMeans(w).value.turbulenceIntensity.None? <==> |w.turbulenceIntensity| == 0) &&
      (WeatherMeans(w).value.roughnessLength.None? <==> |w.roughnessLength| == 0)
  {
    AllValuesLength(w.turbulenceIntensity, w.steps);
    AllValuesLength(w.roughnessLength, w.steps);
    if w.steps > 0 {
      if |w.turbulenceIntensity| > 0 {
        assert |w.turbulenceIntensity| * w.steps > 0;
      }
      if |w.roughnessLength| > 0 {
        assert |w.roughnessLength| * w.steps > 0;
      }
    }
  }

  /** A sum of `n` values within [lo, hi] lies within [n * lo, n * hi]. */
  lemma {:induction false} SumWithin(xs: seq<real>, lo: real, hi: real)
    requires forall i :: 0 <= i < |xs| ==> lo <= xs[i] <= hi
    ensures (|xs| as real) * lo <= Sum(xs) <= (|xs| as real) * hi
    decreases |xs|
  {
    if |xs| > 0 {
      var n := |xs| - 1;
      SumWithin(xs[..n], lo, hi);
      assert Sum(xs) == Sum(xs[..n]) + xs[n];
      assert (|xs| as real) * lo == (n as real) * lo + lo;
      assert (|xs| as real) * hi == (n as real) * hi + hi;
    }
  }

  /** Every value of every column is a value of the flattened table, and nothing else is. */
  lemma {:induction false} AllValuesMembers(cols: seq<HeightColumn>, lo: real, hi: real)
    requires forall k, i :: 0 <= k < |cols| && 0 <= i < |cols[k].values| ==> lo <= cols[k].values[i] <= hi
    ensures forall i :: 0 <= i < |AllValues(cols)| ==> lo <= AllValues(cols)[i] <= hi
    decreases |cols|
  {
    if |cols| > 0 {
      var front := cols[..|cols| - 1];
      AllValuesMembers(front, lo, hi);
      var last := cols[|cols| - 1].values;
      assert AllValues(cols) == AllValues(front) + last;
      forall i | 0 <= i < |AllValues(cols)|
        ensures lo <= AllValues(cols)[i] <= hi
      {
        if i >= |AllValues(front)| {
          assert AllValues(cols)[i] == last[i - |AllValues(front)|];
        }
      }
    }
  }

  lemma QuotientWithin(s: real, n: real, lo: real, hi: real)
    requires 0.0 < n && n * lo <= s <= n * hi
    ensures lo <= s / n <= hi
  {
  }

  /** The mean of a variable whose values all lie within [lo, hi] lies within [lo, hi]. */
  lemma ColumnMeanWithin(cols: seq<HeightColumn>, variable: string, lo: real, hi: real)
    requires forall k, i :: 0 <= k < |cols| && 0 <= i < |cols[k].values| ==> lo <= cols[k].values[i] <= hi
    requires ColumnMean(cols, variable).Success? && ColumnMean(cols, variable).value.Some?
    ensures lo <= ColumnMean(cols, variable).value.value <= hi
  {
    var vs := AllValues(cols);
    AllValuesMembers(cols, lo, hi);
    SumWithin(vs, lo, hi);
    QuotientWithin(Sum(vs), |vs| as real, lo, hi);
  }

  /** A variable measured as the same value `c` everywhere has the mean `c`. */
  lemma ColumnMeanConstant(cols: seq<HeightColumn>, variable: string, c: real)
    requires forall k, i :: 0 <= k < |cols| && 0 <= i < |cols[k].values| ==> cols[k].values[i] == c
    requires |AllValues(cols)| > 0
    ensures ColumnMean(cols, variable) == Success(Some(c))
  {
    assert |cols| > 0;
    ColumnMeanWithin(cols, variable, c, c);
  }

  // ----- what the chain computes

  /** The smoothing arguments the chain passes on; range and mean keep the defaults of `smooth_power_curve`. */
  function SmoothingOf(enabled: bool, blockWidth: real, sdMethod: string, order: string): Smoothing {
    Smoothing(enabled, blockWidth, sdMethod, order, 15.0, 0.0)
  }

  /** The parameters of the plant's `assign_power_curve`. */
  function PlantParameters(wake: Option<string>, s: Smoothing, means: Means): Cluster.Parameters {
    Cluster.Parameters(ForwardedWakeModel(wake), s, means.turbulenceIntensity, means.roughnessLength)
  }

  /** `assign_power_curve` on a wind farm in state `f`. */
  function FarmCurveFor(wake: Option<string>, s: Smoothing, w: Weather, f: Cluster.FarmState, m: Math): Result<Curve> {
    var means := WeatherMeans(w);
    if means.Failure? then Failure(means.error)
    else
      var p := PlantParameters(wake, s, means.value);
      FarmPowerCurve(f.fleet, f.efficiency, p.wakeLossesModel, p.smoothing,
                     p.turbulenceIntensity, p.roughnessLength, m)
  }

  /** `assign_power_curve` on a wind turbine cluster whose farms are in `states`. */
  function ClusterCurveFor(wake: Option<string>, s: Smoothing, w: Weather, states: seq<Cluster.FarmState>, m: Math)
    : Result<Curve>
  {
    var means := WeatherMeans(w);
    if means.Failure? then Failure(means.error)
    else Cluster.ClusterPowerCurve(states, PlantParameters(wake, s, means.value), m)
  }

  /** A farm or cluster as the plant of the single-turbine chain: no power coefficient curve attribute. */
  function AggregatedPlant(hub: real, curve: Curve): (d: PlantData)
    ensures d.hubHeight == hub && d.powerCurve == Some(curve) && !d.hasCoefficientCurve
  {
    PlantData(hub, Some(curve), false, None, None)
  }

  /**
   * The plant `run_model` hands on to the single-turbine chain when the
   * plant is a wind farm in state `f`: its power curve, then its mean hub
   * height, which a zero nominal power makes infinite or NaN.
   */
  ghost function FarmPlantData(wake: Option<string>, s: Smoothing, w: Weather, f: Cluster.FarmState, m: Math)
    : Result<PlantData>
    requires Checked(f.fleet)
  {
    var curve := FarmCurveFor(wake, s, w, f, m);
    if curve.Failure? then Failure(curve.error)
    else if f.nominal == 0.0 then Failure(NonFinite("hub_height"))
    else Success(AggregatedPlant(MeanHubHeightOf(f.fleet, f.nominal, m), curve.value))
  }

  /**
   * The same for a cluster whose farms are in `states` and whose nominal
   * power cache is `cache`: its power curve (which sets every farm's hub
   * height), then its mean hub height.
   */
  ghost function ClusterPlantData(wake: Option<string>, s: Smoothing, w: Weather,
                                  states: seq<Cluster.FarmState>, cache: Option<real>, m: Math)
    : Result<PlantData>
  {
    var curve := ClusterCurveFor(wake, s, w, states, m);
    if curve.Failure? then Failure(curve.error)
    else
      var hub := Cluster.ClusterHubHeight(states, Cluster.FarmHubs(states, m), cache, m);
      if hub.Failure? then Failure(hub.error)
      else Success(AggregatedPlant(hub.value, curve.value))
  }

  /**
   * `run_model` once the plant is ready: the hub values, the reduction
   * of the wind speed chosen by the wake losses model and the power output
   * of the intended call (see `ModelChains.RunOutput`).
   */
  ghost function PlantRun(cfg: Config, wake: Option<string>, w: Weather, plant: Result<PlantData>,
                          read: string -> EfficiencyTable, m: Math): Result<seq<real>>
    requires Aligned(w)
  {
    if plant.Failure? then Failure(plant.error)
    else RunOutput(cfg, w, plant.value, WakeReduction(wake, read), m)
  }

  /** The outcome `o` and the stored output `now` report the result `expected`; a failure stores nothing. */
  predicate Reports(o: Outcome, expected: Result<seq<real>>, now: Option<seq<real>>, before: Option<seq<real>>) {
    (o.Pass? <==> expected.Success?) &&
    (o.Pass? ==> now == Some(expected.value)) &&
    (o.Fail? ==> o.error == expected.error && now == before)
  }

  /** `states` names what the plant's farms hold: the one farm, or the cluster's farms in order. */
  ghost predicate PlantIn(p: Plant, states: seq<Cluster.FarmState>)
    reads PlantObject(p), PlantFarms(p)
  {
    match p
    case FarmPlant(farm) =>
      |states| == 1 && farm.Valid() &&
      Cluster.Holds(farm.fleet, farm.efficiency, farm.nominalPowerCache, states[0])
    case ClusterPlant(c) =>
      c.Valid() && |states| == |c.farms| &&
      forall j :: 0 <= j < |c.farms| ==>
        Cluster.Holds(c.farms[j].fleet, c.farms[j].efficiency, c.farms[j].nominalPowerCache, states[j])
  }

  class TurbineClusterModelChain {
    var powerPlant: Plant
    var windSpeedModel: string
    var temperatureModel: string
    var densityModel: string
    var powerOutputModel: string
    var densityCorrection: PyFlag
    var obstacleHeight: real
    var hellmanExp: Option<real>
    var wakeLossesModel: Option<string>
    var smoothing: bool
    var blockWidth: real
    var standardDeviationMethod: string
    var smoothingOrder: string
    var powerCurve: Option<Curve>
    var powerOutput: Option<seq<real>>

    function Configuration(): Config
      reads this`windSpeedModel, this`temperatureModel, this`densityModel, this`powerOutputModel,
            this`densityCorrection, this`obstacleHeight, this`hellmanExp
    {
      Config(windSpeedModel, temperatureModel, densityModel, powerOutputModel,
             densityCorrection, obstacleHeight, hellmanExp)
    }

    function SmoothingArguments(): Smoothing
      reads this`smoothing, this`blockWidth, this`standardDeviationMethod, this`smoothingOrder
    {
      SmoothingOf(smoothing, blockWidth, standardDeviationMethod, smoothingOrder)
    }

    /**
     * `__init__`: stores the arguments (by default the wake losses model
     * `dena_mean`, no smoothing, block width 0.5, the standard deviation
     * from the turbulence intensity, smoothing the farm power curves);
     * there is neither a power curve nor a power output yet.
     */
    constructor (powerPlant: Plant, cfg: Config, wakeLossesModel: Option<string>, smoothing: bool,
                 blockWidth: real, standardDeviationMethod: string, smoothingOrder: string)
      ensures this.powerPlant == powerPlant && Configuration() == cfg
      ensures this.wakeLossesModel == wakeLossesModel
      ensures SmoothingArguments() == SmoothingOf(smoothing, blockWidth, standardDeviationMethod, smoothingOrder)
      ensures powerCurve.None? && powerOutput.None?
    {
      this.powerPlant := powerPlant;
      windSpeedModel := cfg.windSpeedModel;
      temperatureModel := cfg.temperatureModel;
      densityModel := cfg.densityModel;
      powerOutputModel := cfg.powerOutputModel;
      densityCorrection := cfg.densityCorrection;
      obstacleHeight := cfg.obstacleHeight;
      hellmanExp := cfg.hellmanExp;
      this.wakeLossesModel := wakeLossesModel;
      this.smoothing := smoothing;
      this.blockWidth := blockWidth;
      this.standardDeviationMethod := standardDeviationMethod;
      this.smoothingOrder := smoothingOrder;
      powerCurve := None;
      powerOutput := None;
    }

    /**
     * `assign_power_curve`: the mean turbulence intensity and roughness
     * length of the weather, then the plant's own `assign_power_curve`
     * with the forwarded wake losses model and the smoothing arguments.
     * A farm plant's curve is the one with the turbulence intensity
     * forwarded to smoothing (`Farm.FarmPowerCurve`); as written a mean
     * turbulence intensity column makes smoothing by turbulence intensity
     * raise ValueError (`Farm.TurbulenceIntensityDroppedAsWritten`).
     */
    method AssignPowerCurve(w: Weather, ghost states: seq<Cluster.FarmState>, m: Math) returns (o: Outcome)
      requires PlantIn(powerPlant, states)
      modifies PlantObject(powerPlant), PlantFarms(powerPlant)
      ensures PlantIn(powerPlant, states)
      ensures powerPlant.FarmPlant? ==>
        var farm := powerPlant.farm;
        var expected := FarmCurveFor(wakeLossesModel, SmoothingArguments(), w, states[0], m);
        (o.Pass? <==> expected.Success?) &&
        (o.Pass? ==> farm.powerCurve == Some(expected.value)) &&
        (o.Fail? ==> o.error == expected.error) &&
        farm.hubHeight == old(farm.hubHeight)
      ensures powerPlant.ClusterPlant? ==>
        var c := powerPlant.cluster;
        var expected := ClusterCurveFor(wakeLossesModel, SmoothingArguments(), w, states, m);
        (o.Pass? <==> expected.Success?) &&
        (o.Pass? ==> c.powerCurve == Some(expected.value) &&
                     forall j :: 0 <= j < |c.farms| ==> c.farms[j].hubHeight == Cluster.FarmHub(states[j], m)) &&
        (o.Fail? ==> o.error == expected.error) &&
        c.farms == old(c.farms) && c.nominalPowerCache == old(c.nominalPowerCache)
    {
      var ti := ColumnMean(w.turbulenceIntensity, "turbulence_intensity");
      if ti.Failure? {
        return Fail(ti.error);
      }
      var z0 := ColumnMean(w.roughnessLength, "roughness_length");
      if z0.Failure? {
        return Fail(z0.error);
      }
      var p := Cluster.Parameters(ForwardedWakeModel(wakeLossesModel), SmoothingArguments(), ti.value, z0.value);
      assert p == PlantParameters(wakeLossesModel, SmoothingArguments(), Means(ti.value, z0.value));
      match powerPlant
      case FarmPlant(farm) =>
        o := farm.AssignPowerCurve(p.wakeLossesModel, p.smoothing, p.turbulenceIntensity, p.roughnessLength, m);
      case ClusterPlant(c) =>
        o := c.AssignPowerCurve(states, p, m);
    }

    /**
     * `run_model`: the plant's power curve, its mean hub height, the hub
     * wind speed, the hub density unless the power curve is used without
     * density correction, the reduction of the wind speed by the wind
     * efficiency curve named by the wake losses model unless that is
     * `wind_farm_efficiency` or None, and the power output, which is
     * stored. `read` stands for the efficiency curve files. The power
     * output step is the intended call (`ModelChains.RunOutput`), and the
     * plant's curve is assigned as by `AssignPowerCurve`.
     */
    method RunModel(w: Weather, ghost states: seq<Cluster.FarmState>, read: string -> EfficiencyTable, m: Math)
      returns (o: Outcome, ghost expected: Result<seq<real>>)
      requires Aligned(w) && PlantIn(powerPlant, states)
      modifies this`powerOutput, PlantObject(powerPlant), PlantFarms(powerPlant)
      ensures expected == PlantRun(Configuration(), wakeLossesModel, w, old(ExpectedPlant(w, states, m)), read, m)
      ensures Reports(o, expected, powerOutput, old(powerOutput))
    {
      var r := PlantOutput(w, states, read, m);
      expected := r;
      if r.Failure? {
        o := Fail(r.error);
        return;
      }
      powerOutput := Some(r.value);
      o := Pass;
    }

    /** What `run_model` computes, before it is stored, with the intended calls of `RunModel`. */
    method PlantOutput(w: Weather, ghost states: seq<Cluster.FarmState>, read: string -> EfficiencyTable, m: Math)
      returns (r: Result<seq<real>>)
      requires Aligned(w) && PlantIn(powerPlant, states)
      modifies PlantObject(powerPlant), PlantFarms(powerPlant)
      ensures PlantIn(powerPlant, states)
      ensures r == PlantRun(Configuration(), wakeLossesModel, w, old(ExpectedPlant(w, states, m)), read, m)
    {
      var plant := PreparePlant(w, states, m);
      if plant.Failure? {
        return Failure(plant.error);
      }
      r := RunOutput(Configuration(), w, plant.value, WakeReduction(wakeLossesModel, read), m);
    }

    /** The first two steps of `run_model`: the plant's power curve, then its mean hub height. */
    method PreparePlant(w: Weather, ghost states: seq<Cluster.FarmState>, m: Math) returns (plant: Result<PlantData>)
      requires PlantIn(powerPlant, states)
      modifies PlantObject(powerPlant), PlantFarms(powerPlant)
      ensures PlantIn(powerPlant, states)
      ensures plant == old(ExpectedPlant(w, states, m))
    {
      ghost var wake, sm := wakeLossesModel, SmoothingArguments();
      ghost var expected := ExpectedPlant(w, states, m);
      match powerPlant {
        case FarmPlant(farm) =>
          assert expected == FarmPlantData(wake, sm, w, states[0], m);
          var done := AssignPowerCurve(w, states, m);
          if done.Fail? {
            return Failure(done.error);
          }
          plant := FarmAtHub(farm, states[0], m);
        case ClusterPlant(c) =>
          assert expected == ClusterPlantData(wake, sm, w, states, c.nominalPowerCache, m);
          var done := AssignPowerCurve(w, states, m);
          if done.Fail? {
            return Failure(done.error);
          }
          plant := ClusterAtHub(c, states, m);
      }
    }

    /**
     * The plant `run_model` hands on to the single-turbine chain, in terms
     * of the state before `run_model`: a wind farm's or a cluster's.
     */
    ghost function ExpectedPlant(w: Weather, states: seq<Cluster.FarmState>, m: Math): Result<PlantData>
      reads this, PlantObject(powerPlant), PlantFarms(powerPlant)
      requires PlantIn(powerPlant, states)
    {
      if powerPlant.FarmPlant?
      then FarmPlantData(wakeLossesModel, SmoothingArguments(), w, states[0], m)
      else ClusterPlantData(wakeLossesModel, SmoothingArguments(), w, states, powerPlant.cluster.nominalPowerCache, m)
    }
  }

  /** The farm's `mean_hub_height` in `run_model`, after its power curve is assigned. */
  method FarmAtHub(farm: WindFarm, ghost f: Cluster.FarmState, m: Math) returns (r: Result<PlantData>)
    requires farm.Valid() && Cluster.Holds(farm.fleet, farm.efficiency, farm.nominalPowerCache, f)
    requires farm.powerCurve.Some?
    modifies farm`nominalPowerCache, farm`hubHeight
    ensures farm.Valid() && Cluster.Holds(farm.fleet, farm.efficiency, farm.nominalPowerCache, f)
    ensures r == if f.nominal == 0.0 then Failure(NonFinite("hub_height"))
                 else Success(AggregatedPlant(MeanHubHeightOf(f.fleet, f.nominal, m), farm.powerCurve.value))
  {
    var hub := farm.MeanHubHeight(m);
    if hub.Fail? {
      return Failure(hub.error);
    }
    r := Success(AggregatedPlant(farm.hubHeight.value, farm.powerCurve.value));
  }

  /** The cluster's `mean_hub_height` in `run_model`, after its power curve is assigned. */
  method ClusterAtHub(c: Cluster.WindTurbineCluster, ghost states: seq<Cluster.FarmState>, m: Math)
    returns (r: Result<PlantData>)
    requires c.Valid() && |states| == |c.farms| && c.powerCurve.Some?
    requires forall j :: 0 <= j < |c.farms| ==>
      Cluster.Holds(c.farms[j].fleet, c.farms[j].efficiency, c.farms[j].nominalPowerCache, states[j]) &&
      c.farms[j].hubHeight == Cluster.FarmHub(states[j], m)
    modifies c`nominalPowerCache, c`hubHeight, c.farms`nominalPowerCache
    ensures c.Valid() && forall j :: 0 <= j < |c.farms| ==>
      Cluster.Holds(c.farms[j].fleet, c.farms[j].efficiency, c.farms[j].nominalPowerCache, states[j])
    ensures var hub := Cluster.ClusterHubHeight(states, Cluster.FarmHubs(states, m), old(c.nominalPowerCache), m);
      r == if hub.Failure? then Failure(hub.error) else Success(AggregatedPlant(hub.value, c.powerCurve.value))
  {
    ghost var hs := Cluster.Hubs(c.farms);
    assert hs == Cluster.FarmHubs(states, m);
    var hub := c.MeanHubHeight(states, hs, m);
    if hub.Fail? {
      return Failure(hub.error);
    }
    r := Success(AggregatedPlant(c.hubHeight.value, c.powerCurve.value));
  }

  // ----- properties

  /**
   * A wind farm or cluster has no power coefficient curve: once the power
   * curve, the hub height, the hub values and the reduction have
   * succeeded, the power coefficient model raises AttributeError.
   */
  lemma NoCoefficientCurve(cfg: Config, w: Weather, hub: real, curve: Curve, red: Reduction, m: Math)
    requires Aligned(w) && cfg.powerOutputModel == "power_coefficient_curve"
    requires WindSpeedHubOk(cfg, w, hub, m) && DensityFor(cfg, w, hub).Success?
    requires Reduced(WindSpeedHub(w, hub, cfg.windSpeedModel, cfg.obstacleHeight, cfg.hellmanExp, m).value, red).Success?
    ensures RunOutput(cfg, w, AggregatedPlant(hub, curve), red, m) == Failure(AttributeError("power_coefficient_curve"))
  {
  }

  predicate WindSpeedHubOk(cfg: Config, w: Weather, hub: real, m: Math)
    requires Aligned(w)
  {
    WindSpeedHub(w, hub, cfg.windSpeedModel, cfg.obstacleHeight, cfg.hellmanExp, m).Success?
  }

  /**
   * After a successful cluster power curve every farm has its hub height,
   * so the cluster's mean hub height cannot fail for a missing one.
   */
  lemma ClusterCurveSetsEveryHub(states: seq<Cluster.FarmState>, p: Cluster.Parameters, m: Math)
    requires forall j :: 0 <= j < |states| ==> Checked(states[j].fleet)
    requires Cluster.ClusterPowerCurve(states, p, m).Success?
    ensures Cluster.AllSet(Cluster.FarmHubs(states, m))
  {
    Cluster.ClusterPowerCurveCases(states, p, m);
    assert forall j :: 0 <= j < |states| ==> states[j].nominal != 0.0 by {
      forall j | 0 <= j < |states|
        ensures states[j].nominal != 0.0
      {
        assert Cluster.FarmCurve(states[j], p, m).Success?;
      }
    }
  }

  /**
   * A cluster of a single farm hands the single-turbine chain the same
   * plant as that farm on its own: the same power curve (the sum over one
   * curve is the curve) and the same hub height (the weighted geometric
   * mean of one height is that height), so both chains compute the same
   * power output.
   */
  lemma SingleFarmCluster(wake: Option<string>, s: Smoothing, w: Weather, f: Cluster.FarmState,
                          cache: Option<real>, m: Math)
    requires Checked(f.fleet) && f.nominal != 0.0 && !Truthy(cache) && ExpInvertsLn(m)
    requires 0.0 < MeanHubHeightOf(f.fleet, f.nominal, m)
    requires FarmCurveFor(wake, s, w, f, m).Success? ==> StrictlyIncreasing(FarmCurveFor(wake, s, w, f, m).value)
    ensures ClusterPlantData(wake, s, w, [f], cache, m) == FarmPlantData(wake, s, w, f, m)
  {
    var means := WeatherMeans(w);
    if means.Success? {
      var p := PlantParameters(wake, s, means.value);
      assert Cluster.FarmCurve(f, p, m) == FarmCurveFor(wake, s, w, f, m);
      if Cluster.FarmCurve(f, p, m).Success? {
        Cluster.ClusterOfOneFarm(f, p, m);
        SingleFarmHub(f, cache, m);
      } else {
        MapAllOne(Cluster.FarmCurveOf(p, m), f);
      }
    }
  }

  /** The mean hub height of a cluster of one farm is the farm's hub height. */
  lemma SingleFarmHub(f: Cluster.FarmState, cache: Option<real>, m: Math)
    requires Checked(f.fleet) && f.nominal != 0.0 && !Truthy(cache) && ExpInvertsLn(m)
    requires 0.0 < MeanHubHeightOf(f.fleet, f.nominal, m)
    ensures Cluster.ClusterHubHeight([f], Cluster.FarmHubs([f], m), cache, m) ==
      Success(MeanHubHeightOf(f.fleet, f.nominal, m))
  {
    var h := MeanHubHeightOf(f.fleet, f.nominal, m);
    var hs := Cluster.FarmHubs([f], m);
    assert hs == [Some(h)];
    assert Cluster.Heights(hs) == [h];
    assert Cluster.SumNominal([f]) == f.nominal by {
      assert [f][..0] == [];
    }
    assert Cluster.LogSum([h], [f], m) == Cluster.LogTerm(h, f.nominal, m) by {
      assert [h][..0] == [] && [f][..0] == [];
    }
    Cluster.LogTermQuotient(h, f.nominal, m);
  }
}
