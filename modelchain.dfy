/**
 * The model chain of one wind turbine: hub-height temperature, density and
 * wind speed chosen by model name from weather data measured at several
 * heights, then the power output from the power curve or the power
 * coefficient curve.
 *
 * The weather table is a set of variables (temperature, pressure, ...),
 * each a list of columns, one per measurement height, all as long as the
 * time index. A variable the table does not have is an empty list.
 */
module ModelChains {
  import opened Common
  import opened Tools
  import opened Temperature
  import opened Density
  import opened WindSpeed
  import opened PowerOutput
  import opened Turbine
  import opened WakeLosses

  /** The weather table: its number of time steps and its variables by name. */
  datatype Weather = Weather(
    steps: nat,
    temperature: seq<HeightColumn>,
    pressure: seq<HeightColumn>,
    density: seq<HeightColumn>,
    windSpeed: seq<HeightColumn>,
    roughnessLength: seq<HeightColumn>,
    turbulenceIntensity: seq<HeightColumn>)

  /** Every column is as long as the time index. */
  ghost predicate Aligned(w: Weather) {
    SameLength(w.temperature, w.steps) && SameLength(w.pressure, w.steps) &&
    SameLength(w.density, w.steps) && SameLength(w.windSpeed, w.steps) &&
    SameLength(w.roughnessLength, w.steps) && SameLength(w.turbulenceIntensity, w.steps)
  }

  /** `h in weather_df[variable]`: some column of the variable is measured at `h`. */
  predicate Measured(cols: seq<HeightColumn>, h: real) {
    exists k :: 0 <= k < |cols| && cols[k].height == h
  }

  /** `weather_df[variable][h]`: the first column measured at `h`. */
  function FirstAt(cols: seq<HeightColumn>, h: real): (k: nat)
    requires Measured(cols, h)
    ensures k < |cols| && cols[k].height == h
    ensures forall j :: 0 <= j < k ==> cols[j].height != h
  {
    if cols[0].height == h then 0
    else
      assert Measured(cols[1..], h) by {
        var k :| 0 <= k < |cols| && cols[k].height == h;
        assert cols[1..][k - 1].height == h;
      }
      1 + FirstAt(cols[1..], h)
  }

  /**
   * The column the `min(range(...), key=...)` expressions pick: the one
   * measured closest to `h`, the first one on ties.
   */
  function ClosestColumn(cols: seq<HeightColumn>, h: real): (c: HeightColumn)
    requires |cols| > 0
  {
    cols[Closest(Heights(cols), h)]
  }

  /**
   * `temperature_hub`: a temperature measured at hub height is returned
   * as it is, whatever the model name; otherwise 'linear_gradient' uses
   * the closest height and 'interpolation_extrapolation' the two closest;
   * any other name raises ValueError.
   */
  function TemperatureHub(w: Weather, hub: real, model: string): (r: Result<seq<real>>)
    requires Aligned(w)
    ensures r.Success? ==> |r.value| == w.steps
  {
    var cols := w.temperature;
    if |cols| == 0 then Failure(KeyError("temperature"))
    else if Measured(cols, hub) then Success(cols[FirstAt(cols, hub)].values)
    else if model == "linear_gradient" then
      var c := ClosestColumn(cols, hub);
      Success(LinearGradientSeries(c.values, c.height, hub))
    else if model == "interpolation_extrapolation" then LinearInterpolationExtrapolation(cols, hub, w.steps)
    else Failure(ValueError("temperature_model"))
  }

  /** The density branches of `density_hub` that use the hub temperature `t`. */
  function DensityFromTemperature(w: Weather, hub: real, model: string, t: seq<real>): (r: Result<seq<real>>)
    requires Aligned(w) && |t| == w.steps
    ensures r.Success? ==> |r.value| == w.steps
  {
    if model == "barometric" then
      if |w.pressure| == 0 then Failure(KeyError("pressure"))
      else
        var p := ClosestColumn(w.pressure, hub);
        BarometricSeries(p.values, p.height, hub, t)
    else if model == "ideal_gas" then
      if |w.pressure| == 0 then Failure(KeyError("pressure"))
      else
        var p := ClosestColumn(w.pressure, hub);
        IdealGasSeries(p.values, p.height, hub, t)
    else Failure(ValueError("density_model"))
  }

  /**
   * `density_hub`: unless the density model is
   * 'interpolation_extrapolation', the hub temperature is computed first
   * (and its errors raised first); then the barometric or ideal gas
   * equation uses the pressure measured closest to hub height, and
   * 'interpolation_extrapolation' uses the density columns.
   */
  function DensityHub(w: Weather, hub: real, densityModel: string, temperatureModel: string): (r: Result<seq<real>>)
    requires Aligned(w)
    ensures r.Success? ==> |r.value| == w.steps
  {
    if densityModel != "interpolation_extrapolation" then
      var t := TemperatureHub(w, hub, temperatureModel);
      if t.Failure? then Failure(t.error)
      else DensityFromTemperature(w, hub, densityModel, t.value)
    else if |w.density| == 0 then Failure(KeyError("density"))
    else LinearInterpolationExtrapolation(w.density, hub, w.steps)
  }

  /**
   * `wind_speed_hub`: a wind speed measured at hub height is returned as it
   * is, whatever the model name; otherwise the logarithmic profile and the
   * Hellman law use the closest height and the first roughness column,
   * the two interpolations use the two closest heights, and any other
   * name raises ValueError.
   */
  function WindSpeedHub(w: Weather, hub: real, model: string, obstacleHeight: real,
                        hellmanExp: Option<real>, m: Math): (r: Result<seq<real>>)
    requires Aligned(w)
    ensures r.Success? ==> |r.value| == w.steps
  {
    var cols := w.windSpeed;
    if |cols| == 0 then Failure(KeyError("wind_speed"))
    else if Measured(cols, hub) then Success(cols[FirstAt(cols, hub)].values)
    else if model == "logarithmic" then
      var c := ClosestColumn(cols, hub);
      if |w.roughnessLength| == 0 then Failure(KeyError("roughness_length"))
      else LogarithmicProfile(c.values, c.height, hub, w.roughnessLength[0].values, obstacleHeight, m)
    else if model == "hellman" then
      var c := ClosestColumn(cols, hub);
      if |w.roughnessLength| == 0 then Failure(KeyError("roughness_length"))
      else Hellman(c.values, c.height, hub, Some(w.roughnessLength[0].values), hellmanExp, m)
    else if model == "interpolation_extrapolation" then LinearInterpolationExtrapolation(cols, hub, w.steps)
    else if model == "log_interpolation_extrapolation" then
      LogarithmicInterpolationExtrapolation(cols, hub, w.steps, m)
    else Failure(ValueError("wind_speed_model"))
  }

  /**
   * What the power output step reads from the power plant. A wind farm or
   * cluster has no power coefficient curve attribute at all.
   */
  datatype PlantData = PlantData(
    hubHeight: real,
    powerCurve: Option<Curve>,
    hasCoefficientCurve: bool,
    powerCoefficientCurve: Option<Curve>,
    rotorDiameter: Option<real>)

  /** A wind turbine as a power plant. */
  function TurbinePlant(t: WindTurbine): PlantData {
    PlantData(t.hubHeight, t.powerCurve, true, t.powerCoefficientCurve, t.rotorDiameter)
  }

  /**
   * `calculate_power_output` with each curve passed as the one curve
   * argument the power output functions take (`CalculatePowerOutputAsWritten`
   * is the call as the source writes it): the selected curve must be set
   * (TypeError otherwise). The power curve is evaluated with the chain's density
   * correction flag; the power coefficient curve is called without one,
   * so it is never density corrected. Any other model name raises
   * ValueError.
   */
  function CalculatePowerOutput(ws: seq<real>, density: Option<seq<real>>, model: string,
                                densityCorrection: PyFlag, plant: PlantData, m: Math): (r: Result<seq<real>>)
    requires density.Some? ==> |density.value| == |ws|
    ensures r.Success? ==> |r.value| == |ws|
  {
    if model == "power_curve" then
      if plant.powerCurve.None? then Failure(TypeError("power_curve"))
      else PowerCurve(ws, plant.powerCurve.value, density, densityCorrection, m)
    else if model == "power_coefficient_curve" then
      if !plant.hasCoefficientCurve then Failure(AttributeError("power_coefficient_curve"))
      else if plant.powerCoefficientCurve.None? then Failure(TypeError("power_coefficient_curve"))
      else PowerCoefficientCurve(ws, plant.powerCoefficientCurve.value, plant.rotorDiameter, density, PyFalse, m)
    else Failure(ValueError("power_output_model"))
  }

  /**
   * `calculate_power_output` with the two calls as the source writes them:
   * `power_curve` takes four parameters and is passed five, which Python
   * refuses with TypeError; `power_coefficient_curve` receives the hub
   * density in the place of its `density_correction` flag, which is then
   * neither True nor False, so it raises TypeError too.
   */
  function CalculatePowerOutputAsWritten(ws: seq<real>, density: Option<seq<real>>, model: string,
                                         densityCorrection: PyFlag, plant: PlantData, m: Math): (r: Result<seq<real>>)
    requires density.Some? ==> |density.value| == |ws|
    ensures r.Failure?
    ensures r.error.ValueError? <==> model != "power_curve" && model != "power_coefficient_curve"
  {
    if model == "power_curve" then
      if plant.powerCurve.None? then Failure(TypeError("power_curve"))
      else Failure(TypeError("power_curve_arguments"))
    else if model == "power_coefficient_curve" then
      if !plant.hasCoefficientCurve then Failure(AttributeError("power_coefficient_curve"))
      else if plant.powerCoefficientCurve.None? then Failure(TypeError("power_coefficient_curve"))
      else Failure(TypeError("density_correction"))
    else Failure(ValueError("power_output_model"))
  }

  /** The model names and parameters of a model chain. */
  datatype Config = Config(
    windSpeedModel: string,
    temperatureModel: string,
    densityModel: string,
    powerOutputModel: string,
    densityCorrection: PyFlag,
    obstacleHeight: real,
    hellmanExp: Option<real>)

  /** `run_model` computes the density unless the power curve is used without density correction. */
  predicate DensityNeeded(cfg: Config) {
    !(cfg.powerOutputModel == "power_curve" && cfg.densityCorrection == PyFalse)
  }

  /** A reduction of the hub wind speed by a wind efficiency curve, or none. */
  datatype Reduction = NoReduction | ReduceBy(curveName: string, read: string -> EfficiencyTable)

  function Reduced(ws: seq<real>, red: Reduction): (r: Result<seq<real>>)
    ensures r.Success? ==> |r.value| == |ws|
  {
    match red
    case NoReduction => Success(ws)
    case ReduceBy(name, read) => ReduceWindSpeed(ws, name, read)
  }

  /** The hub density `run_model` passes on: None when it is not needed. */
  function DensityFor(cfg: Config, w: Weather, hub: real): (r: Result<Option<seq<real>>>)
    requires Aligned(w)
    ensures r.Success? && r.value.Some? ==> |r.value.value| == w.steps
  {
    if !DensityNeeded(cfg) then Success(None)
    else
      var d := DensityHub(w, hub, cfg.densityModel, cfg.temperatureModel);
      if d.Failure? then Failure(d.error) else Success(Some(d.value))
  }

  /**
   * The power output `run_model` stores: the hub wind speed, then the
   * hub density if needed, then the optional reduction of the wind speed,
   * then the power output; the first error raised is the result. The power
   * output step is the intended call `CalculatePowerOutput`: as written
   * (`CalculatePowerOutputAsWritten`) it raises TypeError for every plant
   * whose selected curve is set, see `PowerCurveCallAsWritten`.
   */
  function RunOutput(cfg: Config, w: Weather, plant: PlantData, red: Reduction, m: Math): (r: Result<seq<real>>)
    requires Aligned(w)
    ensures r.Success? ==> |r.value| == w.steps
  {
    var ws := WindSpeedHub(w, plant.hubHeight, cfg.windSpeedModel, cfg.obstacleHeight, cfg.hellmanExp, m);
    if ws.Failure? then Failure(ws.error)
    else
      var density := DensityFor(cfg, w, plant.hubHeight);
      if density.Failure? then Failure(density.error)
      else
        var reduced := Reduced(ws.value, red);
        if reduced.Failure? then Failure(reduced.error)
        else CalculatePowerOutput(reduced.value, density.value, cfg.powerOutputModel, cfg.densityCorrection, plant, m)
  }

  /** `ModelChain`: a wind turbine, the model names, and the computed power output. */
  class ModelChain {
    var powerPlant: WindTurbine
    var windSpeedModel: string
    var temperatureModel: string
    var densityModel: string
    var powerOutputModel: string
    var densityCorrection: PyFlag
    var obstacleHeight: real
    var hellmanExp: Option<real>
    var powerOutput: Option<seq<real>>

    function Configuration(): Config
      reads this
    {
      Config(windSpeedModel, temperatureModel, densityModel, powerOutputModel,
             densityCorrection, obstacleHeight, hellmanExp)
    }

    /** `__init__`: stores the arguments; there is no power output yet. */
    constructor (powerPlant: WindTurbine, cfg: Config)
      ensures this.powerPlant == powerPlant && Configuration() == cfg
      ensures powerOutput.None?
    {
      this.powerPlant := powerPlant;
      windSpeedModel := cfg.windSpeedModel;
      temperatureModel := cfg.temperatureModel;
      densityModel := cfg.densityModel;
      powerOutputModel := cfg.powerOutputModel;
      densityCorrection := cfg.densityCorrection;
      obstacleHeight := cfg.obstacleHeight;
      hellmanExp := cfg.hellmanExp;
      powerOutput := None;
    }

    /**
     * `run_model`: the hub wind speed, the hub density unless the power
     * curve is used without density correction, then the power output,
     * which is stored; nothing else changes. The output is the one of the
     * intended power output call (see `RunOutput`), not the TypeError the
     * call as written raises.
     */
    method RunModel(w: Weather, m: Math) returns (o: Outcome)
      requires Aligned(w)
      modifies this`powerOutput
      ensures var expected := RunOutput(Configuration(), w, TurbinePlant(powerPlant), NoReduction, m);
        (o.Pass? <==> expected.Success?) &&
        (o.Pass? ==> powerOutput == Some(expected.value)) &&
        (o.Fail? ==> o.error == expected.error && powerOutput == old(powerOutput))
    {
      var hub := powerPlant.hubHeight;
      var ws := WindSpeedHub(w, hub, windSpeedModel, obstacleHeight, hellmanExp, m);
      if ws.Failure? {
        return Fail(ws.error);
      }
      var density: Option<seq<real>> := None;
      if !(powerOutputModel == "power_curve" && densityCorrection == PyFalse) {
        var d := DensityHub(w, hub, densityModel, temperatureModel);
        if d.Failure? {
          return Fail(d.error);
        }
        density := Some(d.value);
      }
      var p := CalculatePowerOutput(ws.value, density, powerOutputModel, densityCorrection,
                                    TurbinePlant(powerPlant), m);
      if p.Failure? {
        return Fail(p.error);
      }
      powerOutput := Some(p.value);
      o := Pass;
    }
  }

  // ----- properties

  /**
   * A temperature or wind speed measured at hub height is returned
   * unchanged, before the model name is looked at: even an unknown name
   * gives the measured column.
   */
  lemma MeasuredAtHubHeight(w: Weather, hub: real, cfg: Config, m: Math)
    requires Aligned(w)
    ensures Measured(w.temperature, hub) ==>
      TemperatureHub(w, hub, cfg.temperatureModel) == Success(w.temperature[FirstAt(w.temperature, hub)].values)
    ensures Measured(w.windSpeed, hub) ==>
      WindSpeedHub(w, hub, cfg.windSpeedModel, cfg.obstacleHeight, cfg.hellmanExp, m) ==
      Success(w.windSpeed[FirstAt(w.windSpeed, hub)].values)
  {
  }

  /**
   * Otherwise the temperature gradient uses the column measured closest to
   * hub height, the first one on ties.
   */
  lemma TemperatureFromClosestHeight(w: Weather, hub: real)
    requires Aligned(w) && |w.temperature| > 0 && !Measured(w.temperature, hub)
    ensures var hs := Heights(w.temperature); var k := Closest(hs, hub);
      TemperatureHub(w, hub, "linear_gradient") ==
        Success(LinearGradientSeries(w.temperature[k].values, w.temperature[k].height, hub)) &&
      (forall j :: 0 <= j < |hs| ==> Distance(w.temperature[k].height, hub) <= Distance(w.temperature[j].height, hub)) &&
      (forall j :: 0 <= j < k ==> Distance(w.temperature[k].height, hub) < Distance(w.temperature[j].height, hub))
  {
  }

  /**
   * A wind speed measured at hub height is the result for every model
   * name: the first column at that height.
   */
  lemma WindSpeedMeasuredAtHub(w: Weather, hub: real, model: string, obstacleHeight: real,
                               hellmanExp: Option<real>, m: Math)
    requires Aligned(w) && Measured(w.windSpeed, hub)
    ensures var r := WindSpeedHub(w, hub, model, obstacleHeight, hellmanExp, m);
      r.Success? &&
      exists k :: 0 <= k < |w.windSpeed| && w.windSpeed[k].height == hub && r.value == w.windSpeed[k].values &&
        forall j :: 0 <= j < k ==> w.windSpeed[j].height != hub
  {
    var k := FirstAt(w.windSpeed, hub);
    assert w.windSpeed[k].height == hub;
  }

  /**
   * Without a wind speed at hub height, the logarithmic profile and the
   * Hellman law start from the column measured closest to hub height (the
   * first one on ties) and take the first roughness length column; with no
   * roughness length column both raise KeyError.
   */
  lemma WindSpeedFromClosestHeight(w: Weather, hub: real, obstacleHeight: real,
                                   hellmanExp: Option<real>, m: Math)
    requires Aligned(w) && |w.windSpeed| > 0 && !Measured(w.windSpeed, hub)
    ensures var hs := Heights(w.windSpeed); var k := Closest(hs, hub); var c := w.windSpeed[k];
      (forall j :: 0 <= j < |hs| ==> Distance(c.height, hub) <= Distance(w.windSpeed[j].height, hub)) &&
      (forall j :: 0 <= j < k ==> Distance(c.height, hub) < Distance(w.windSpeed[j].height, hub)) &&
      (|w.roughnessLength| == 0 ==>
        WindSpeedHub(w, hub, "logarithmic", obstacleHeight, hellmanExp, m) == Failure(KeyError("roughness_length")) &&
        WindSpeedHub(w, hub, "hellman", obstacleHeight, hellmanExp, m) == Failure(KeyError("roughness_length"))) &&
      (|w.roughnessLength| > 0 ==>
        WindSpeedHub(w, hub, "logarithmic", obstacleHeight, hellmanExp, m) ==
          LogarithmicProfile(c.values, c.height, hub, w.roughnessLength[0].values, obstacleHeight, m) &&
        WindSpeedHub(w, hub, "hellman", obstacleHeight, hellmanExp, m) ==
          Hellman(c.values, c.height, hub, Some(w.roughnessLength[0].values), hellmanExp, m))
  {
  }

  /**
   * Without a measurement at hub height the interpolating models apply
   * the tools' linear or logarithmic inter- and extrapolation to the
   * whole weather variable; the density interpolation does so without
   * looking for a measured column first.
   */
  lemma InterpolatingModels(w: Weather, hub: real, temperatureModel: string, obstacleHeight: real,
                            hellmanExp: Option<real>, m: Math)
    requires Aligned(w)
    ensures |w.temperature| > 0 && !Measured(w.temperature, hub) ==>
      TemperatureHub(w, hub, "interpolation_extrapolation") ==
        LinearInterpolationExtrapolation(w.temperature, hub, w.steps)
    ensures |w.density| > 0 ==>
      DensityHub(w, hub, "interpolation_extrapolation", temperatureModel) ==
        LinearInterpolationExtrapolation(w.density, hub, w.steps)
    ensures |w.windSpeed| > 0 && !Measured(w.windSpeed, hub) ==>
      WindSpeedHub(w, hub, "interpolation_extrapolation", obstacleHeight, hellmanExp, m) ==
        LinearInterpolationExtrapolation(w.windSpeed, hub, w.steps) &&
      WindSpeedHub(w, hub, "log_interpolation_extrapolation", obstacleHeight, hellmanExp, m) ==
        LogarithmicInterpolationExtrapolation(w.windSpeed, hub, w.steps, m)
    ensures |w.density| == 0 ==>
      DensityHub(w, hub, "interpolation_extrapolation", temperatureModel) == Failure(KeyError("density"))
  {
  }

  /**
   * The intended power output call hands the selected curve to the power
   * output functions: the power curve with the chain's density and
   * density correction flag, the power coefficient curve with the rotor
   * diameter, the density and no density correction.
   */
  lemma PowerOutputModels(ws: seq<real>, density: Option<seq<real>>, densityCorrection: PyFlag,
                          plant: PlantData, m: Math)
    requires density.Some? ==> |density.value| == |ws|
    ensures plant.powerCurve.Some? ==>
      CalculatePowerOutput(ws, density, "power_curve", densityCorrection, plant, m) ==
        PowerCurve(ws, plant.powerCurve.value, density, densityCorrection, m)
    ensures plant.hasCoefficientCurve && plant.powerCoefficientCurve.Some? ==>
      CalculatePowerOutput(ws, density, "power_coefficient_curve", densityCorrection, plant, m) ==
        PowerCoefficientCurve(ws, plant.powerCoefficientCurve.value, plant.rotorDiameter, density, PyFalse, m)
    ensures !plant.hasCoefficientCurve ==>
      CalculatePowerOutput(ws, density, "power_coefficient_curve", densityCorrection, plant, m) ==
        Failure(AttributeError("power_coefficient_curve"))
  {
  }

  /** The temperatures of the model chain tests at 2 m and 10 m. */
  function TestTemperatures(h1: real, h2: real): Weather {
    Weather(2, [HeightColumn(h1, [267.0, 268.0]), HeightColumn(h2, [267.0, 266.0])], [], [], [], [], [])
  }

  /**
   * For a hub at 100 m the 10 m column is closer than the 2 m one and gives
   * 266.415 K and 265.415 K; with the columns at 10 m and 200 m the 10 m
   * column (the former 2 m one) is closer and gives 266.415 K and 267.415 K.
   */
  lemma TemperatureHubExample()
    ensures TemperatureHub(TestTemperatures(2.0, 10.0), 100.0, "linear_gradient") == Success([266.415, 265.415])
    ensures TemperatureHub(TestTemperatures(10.0, 200.0), 100.0, "linear_gradient") == Success([266.415, 267.415])
  {
    var w1 := TestTemperatures(2.0, 10.0);
    ClosestOfTwo(w1.temperature, 100.0);
    assert ClosestColumn(w1.temperature, 100.0) == w1.temperature[1];
    assert LinearGradientSeries([267.0, 266.0], 10.0, 100.0) == [266.415, 265.415];
    var w2 := TestTemperatures(10.0, 200.0);
    ClosestOfTwo(w2.temperature, 100.0);
    assert ClosestColumn(w2.temperature, 100.0) == w2.temperature[0];
    assert LinearGradientSeries([267.0, 268.0], 10.0, 100.0) == [266.415, 267.415];
  }

  /** Of two columns the first is closest unless the second is strictly closer. */
  lemma ClosestOfTwo(cols: seq<HeightColumn>, h: real)
    requires |cols| == 2
    ensures Distance(cols[1].height, h) < Distance(cols[0].height, h) ==> Closest(Heights(cols), h) == 1
    ensures Distance(cols[0].height, h) <= Distance(cols[1].height, h) ==> Closest(Heights(cols), h) == 0
  {
    var hs := Heights(cols);
    assert hs[0] == cols[0].height && hs[1] == cols[1].height;
  }

  /** A temperature measured at hub height is returned as it is. */
  lemma TemperatureAtHubExample()
    ensures TemperatureHub(TestTemperatures(100.0, 10.0), 100.0, "linear_gradient") == Success([267.0, 268.0])
  {
    var w := TestTemperatures(100.0, 10.0);
    assert Measured(w.temperature, 100.0) by {
      assert w.temperature[0].height == 100.0;
    }
    assert FirstAt(w.temperature, 100.0) == 0;
  }

  /**
   * Unknown model names raise ValueError: the temperature and wind speed
   * names when hub height is not measured, the density name once the hub
   * temperature has been computed, and the power output name always.
   */
  lemma UnknownModelNames(w: Weather, hub: real, cfg: Config, ws: seq<real>, density: Option<seq<real>>,
                          plant: PlantData, m: Math)
    requires Aligned(w)
    requires density.Some? ==> |density.value| == |ws|
    ensures |w.temperature| > 0 && !Measured(w.temperature, hub) &&
            cfg.temperatureModel != "linear_gradient" && cfg.temperatureModel != "interpolation_extrapolation" ==>
      TemperatureHub(w, hub, cfg.temperatureModel) == Failure(ValueError("temperature_model"))
    ensures |w.windSpeed| > 0 && !Measured(w.windSpeed, hub) &&
            cfg.windSpeedModel != "logarithmic" && cfg.windSpeedModel != "hellman" &&
            cfg.windSpeedModel != "interpolation_extrapolation" && cfg.windSpeedModel != "log_interpolation_extrapolation" ==>
      WindSpeedHub(w, hub, cfg.windSpeedModel, cfg.obstacleHeight, cfg.hellmanExp, m) ==
      Failure(ValueError("wind_speed_model"))
    ensures TemperatureHub(w, hub, cfg.temperatureModel).Success? &&
            cfg.densityModel != "barometric" && cfg.densityModel != "ideal_gas" &&
            cfg.densityModel != "interpolation_extrapolation" ==>
      DensityHub(w, hub, cfg.densityModel, cfg.temperatureModel) == Failure(ValueError("density_model"))
    ensures cfg.powerOutputModel != "power_curve" && cfg.powerOutputModel != "power_coefficient_curve" ==>
      CalculatePowerOutput(ws, density, cfg.powerOutputModel, cfg.densityCorrection, plant, m) ==
      Failure(ValueError("power_output_model"))
  {
  }

  /**
   * `density_hub` computes the hub temperature first unless the density
   * model is 'interpolation_extrapolation': then a failing temperature
   * fails the density, even under an unknown density name, and otherwise
   * the barometric and ideal gas densities use that temperature. The
   * interpolation does not look at the temperature at all.
   */
  lemma DensityHubUsesTemperature(w: Weather, hub: real, densityModel: string, temperatureModel: string)
    requires Aligned(w)
    ensures var t := TemperatureHub(w, hub, temperatureModel);
      densityModel != "interpolation_extrapolation" && t.Failure? ==>
        DensityHub(w, hub, densityModel, temperatureModel) == Failure(t.error)
    ensures var t := TemperatureHub(w, hub, temperatureModel);
      densityModel == "barometric" && t.Success? && |w.pressure| > 0 ==>
        DensityHub(w, hub, densityModel, temperatureModel) ==
        BarometricSeries(ClosestColumn(w.pressure, hub).values, ClosestColumn(w.pressure, hub).height, hub, t.value)
    ensures var t := TemperatureHub(w, hub, temperatureModel);
      densityModel == "ideal_gas" && t.Success? && |w.pressure| > 0 ==>
        DensityHub(w, hub, densityModel, temperatureModel) ==
        IdealGasSeries(ClosestColumn(w.pressure, hub).values, ClosestColumn(w.pressure, hub).height, hub, t.value)
    ensures densityModel == "interpolation_extrapolation" ==>
      DensityHub(w, hub, densityModel, temperatureModel) ==
      DensityHub(w.(temperature := []), hub, densityModel, "")
  {
  }

  /**
   * A missing power curve or power coefficient curve, whichever the model
   * name selects, raises TypeError.
   */
  lemma MissingCurveRaises(ws: seq<real>, density: Option<seq<real>>, densityCorrection: PyFlag,
                           plant: PlantData, m: Math)
    requires density.Some? ==> |density.value| == |ws|
    ensures plant.powerCurve.None? ==>
      CalculatePowerOutput(ws, density, "power_curve", densityCorrection, plant, m) == Failure(TypeError("power_curve"))
    ensures plant.hasCoefficientCurve && plant.powerCoefficientCurve.None? ==>
      CalculatePowerOutput(ws, density, "power_coefficient_curve", densityCorrection, plant, m) ==
      Failure(TypeError("power_coefficient_curve"))
  {
  }

  /** The weather without the variables only the density uses. */
  function WithoutDensityData(w: Weather): (r: Weather)
    ensures Aligned(w) ==> Aligned(r)
  {
    w.(temperature := [], pressure := [], density := [])
  }

  /**
   * `run_model` skips the density exactly when the power curve is used
   * without density correction: then the temperature, pressure and
   * density data do not matter; otherwise a failing density fails the run
   * with the density's error.
   */
  lemma RunModelSkipsDensity(cfg: Config, w: Weather, plant: PlantData, red: Reduction, m: Math)
    requires Aligned(w)
    ensures !DensityNeeded(cfg) ==>
      RunOutput(cfg, w, plant, red, m) == RunOutput(cfg, WithoutDensityData(w), plant, red, m)
    ensures DensityNeeded(cfg) &&
            WindSpeedHub(w, plant.hubHeight, cfg.windSpeedModel, cfg.obstacleHeight, cfg.hellmanExp, m).Success? &&
            DensityHub(w, plant.hubHeight, cfg.densityModel, cfg.temperatureModel).Failure? ==>
      RunOutput(cfg, w, plant, red, m) ==
      Failure(DensityHub(w, plant.hubHeight, cfg.densityModel, cfg.temperatureModel).error)
  {
    if !DensityNeeded(cfg) {
      var w' := WithoutDensityData(w);
      var h := plant.hubHeight;
      assert w'.windSpeed == w.windSpeed && w'.roughnessLength == w.roughnessLength && w'.steps == w.steps;
      assert WindSpeedHub(w, h, cfg.windSpeedModel, cfg.obstacleHeight, cfg.hellmanExp, m) ==
             WindSpeedHub(w', h, cfg.windSpeedModel, cfg.obstacleHeight, cfg.hellmanExp, m);
      assert DensityFor(cfg, w, h) == DensityFor(cfg, w', h) == Success(None);
    }
  }

  /**
   * Without reduction and with the power curve used without density
   * correction, the power output of the intended call is the power curve
   * at the hub wind speed (as written the call raises TypeError, see
   * `PowerCurveCallAsWritten`).
   */
  lemma RunModelWithPowerCurve(cfg: Config, w: Weather, plant: PlantData, m: Math)
    requires Aligned(w)
    requires cfg.powerOutputModel == "power_curve" && cfg.densityCorrection == PyFalse
    requires plant.powerCurve.Some? && |plant.powerCurve.value| > 0
    ensures var ws := WindSpeedHub(w, plant.hubHeight, cfg.windSpeedModel, cfg.obstacleHeight, cfg.hellmanExp, m);
      ws.Success? ==>
        RunOutput(cfg, w, plant, NoReduction, m) == Success(EvaluateCurve(ws.value, plant.powerCurve.value))
  {
  }
  /**
   * As written, the power curve path raises TypeError for a turbine that
   * has a power curve, where the intended call evaluates the curve at the
   * hub wind speeds; the power coefficient path raises TypeError for a
   * turbine that has a power coefficient curve.
   */
  lemma PowerCurveCallAsWritten(ws: seq<real>, density: seq<real>, plant: PlantData, m: Math)
    requires |density| == |ws|
    requires plant.powerCurve.Some? && |plant.powerCurve.value| > 0
    ensures CalculatePowerOutputAsWritten(ws, None, "power_curve", PyFalse, plant, m) ==
      Failure(TypeError("power_curve_arguments"))
    ensures CalculatePowerOutput(ws, None, "power_curve", PyFalse, plant, m) ==
      Success(EvaluateCurve(ws, plant.powerCurve.value))
    ensures plant.hasCoefficientCurve && plant.powerCoefficientCurve.Some? ==>
      CalculatePowerOutputAsWritten(ws, Some(density), "power_coefficient_curve", PyFalse, plant, m) ==
      Failure(TypeError("density_correction"))
  {
  }
}
