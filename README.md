# windpowerlib in Dafny

windpowerlib computes the power output of a wind turbine, a wind farm or a
cluster of wind farms from weather data. Measured temperature, pressure,
density and wind speed are brought to hub height: temperature by a linear
gradient, density by the barometric height formula or the ideal gas law,
wind speed by the logarithmic profile or Hellman's power law, or any of
them by linear interpolation between two measurement heights. The power
output is then read off the turbine's power curve, with an optional density
correction, or computed from its power coefficient curve. A farm's power
curve is the turbines' curves padded, scaled by the number of turbines,
optionally smoothed by a Gaussian over wind speed and summed on the union of
their wind-speed grids, with a constant efficiency or an efficiency curve for
wake losses. A cluster's curve is the sum of its farms' curves. `ModelChain`
and `TurbineClusterModelChain` choose the sub-models by name and store the
result. The older `basicmodel` module does the same for a single, simpler
turbine.

The model has one Dafny module per source file:

| module | file | form |
|---|---|---|
| `Common` | (shared) | curves, `Result`, Python's three-valued flags, the abstract `Math` functions |
| `Interpolation` | `np.interp` | linear interpolation: 0 outside the curve, or clamped at its ends |
| `Temperature`, `Density`, `WindSpeed`, `Tools` | temperature.py, density.py, wind_speed.py, tools.py | pure functions over series |
| `PowerOutput` | power_output.py | pure functions |
| `PowerCurves` | power_curves.py | `SmoothPowerCurve` is a method with the source's two loops, proved against a function |
| `CurveNaming`, `WakeLosses` | wake_losses.py | curve-name validation and wind speed reduction |
| `Aggregation` | the pandas concat/interpolate/sum | the sum of curves on the union grid |
| `Turbine` | wind_turbine.py | `WindTurbine` is a datatype (its fields are only set when it is built) |
| `Farm` | wind_farm.py | class `WindFarm` with its fleet table, cached nominal power and power curve |
| `Cluster` | wind_turbine_cluster.py | class `WindTurbineCluster` over a sequence of `WindFarm` objects |
| `ModelChains` | modelchain.py | class `ModelChain`; the hub-height dispatch is pure |
| `ClusterModelChains` | turbine_cluster_modelchain.py | class `TurbineClusterModelChain` |
| `BasicModel` | basicmodel.py | `CpSeries` clamps the caller's `array` in place |

Conventions:
- Numbers are `real`. A division by zero or a NaN that numpy would produce
  without complaint is the failure `NonFinite`. A loop that would never end
  is the failure `Diverges`. An exception the source raises is a `Failure`
  with the matching error constructor.
- `ln`, real powers, `exp` and the Gaussian density are fields of a `Math`
  value passed as a parameter. Lemmas that need a law about them (`1^a = 1`,
  `exp(ln x) = x`) take it as a precondition.
- A Python argument that should be `True` or `False` is a `PyFlag`:
  `PyTrue`, `PyFalse` or `PyOther`. `PyOther` is any other value, `None`
  included.
- Weather data is one `HeightColumn` (a height and its series) per measured
  height of a variable. pandas aligns series on their time index; the model
  requires them to have equal lengths instead (the `Aligned` preconditions).
- Curves are sequences of (wind speed, value) points. Properties of
  interpolation require strictly increasing wind speeds, which `np.interp`
  assumes without checking.

## Model

| member | source | states |
|---|---|---|
| Temperature.LinearGradientSeries | windpowerlib/temperature.py:57 | every time step is T − 0.0065·(h_hub − h_T), one value per input value |
| Temperature.LinearGradientProperties | windpowerlib/temperature.py:49-57 | equal heights return T; each extra metre is exactly 0.0065 K colder; going up and back down returns T; a higher hub is colder |
| Temperature.LinearGradientExample | tests/test_temperature.py:16-22 | 267 K and 268 K at 2 m give 266.363 K and 267.363 K at 100 m |
| Density.BarometricSeries | windpowerlib/density.py:65-66 | fails exactly when some hub temperature is 0 (numpy would divide by zero); otherwise each value is (p/100 − (h_hub − h_p)/8)·1.225·288.15·100/(101330·T) |
| Density.IdealGasSeries | windpowerlib/density.py:128-129 | fails exactly when some hub temperature is 0; otherwise each value is (p/100 − (h_hub − h_p)/8)·100/(287.058·T) |
| Density.DensityProperties | windpowerlib/density.py:65-66 | barometric = 1.225·288.15·287.058/101330 × ideal gas; for T > 0 both are positive iff the hub pressure is; both fall as the hub rises (also lines 128-129) |
| Density.DensityExample | tests/test_density.py:16-52 | 101125 Pa at 0 m, hub 100 m, 267 K give 1.303053… (barometric) and 1.303094… (ideal gas) |
| WindSpeed.LogarithmicProfile | windpowerlib/wind_speed.py:75-87 | ValueError exactly when 0.7·obstacle > measurement height; on success each value is v·ln((h_hub − 0.7d)/z0)/ln((h − 0.7d)/z0), with the divisors nonzero |
| WindSpeed.LogarithmicProfileAtMeasuredHeight | windpowerlib/wind_speed.py:84-87 | at hub height = measurement height the measured speeds come back unchanged |
| WindSpeed.LogarithmicProfileGrowsWithHeight | windpowerlib/wind_speed.py:84-87 | with a non-decreasing ln and positive logarithmic terms, a hub above the measurement height never sees less wind |
| WindSpeed.HellmanExponent | windpowerlib/wind_speed.py:160-168 | the given exponent wins; else 1/ln(h_hub/z0) when z0 is given; else 1/7; fails exactly when the logarithm's quotient or value is 0 |
| WindSpeed.Hellman | windpowerlib/wind_speed.py:160-169 | each value is v·(h_hub/h)^α with α from the exponent selection |
| WindSpeed.HellmanAtMeasuredHeight | windpowerlib/wind_speed.py:169 | with 1^a = 1, equal heights return the measured speeds |
| WindSpeed.HellmanDefaultExponent | windpowerlib/wind_speed.py:160-169 | with neither exponent nor roughness every value is v·(h_hub/h)^(1/7) |
| Tools.Closest | windpowerlib/tools.py:80-83 | the index of a height at minimal distance to the target, earlier indices strictly farther (the stable sort's first element) |
| Tools.SecondClosest | windpowerlib/tools.py:80-83 | the stable sort's second element: minimal distance among the other indices, first on ties |
| Tools.LinearInterpolationExtrapolation | windpowerlib/tools.py:80-86 | IndexError with fewer than two heights; a division by zero for two equal closest heights; otherwise one value per time step |
| Tools.LinearAtMeasuredHeight | windpowerlib/tools.py:80-86 | a target equal to a column height returns that column exactly |
| Tools.LineBetween | windpowerlib/tools.py:84-86 | between x1 and x2 the line stays between f1 and f2 |
| Tools.LinearInterpolationBetween | windpowerlib/tools.py:80-86 | between the two closest heights every value lies between the two measured values |
| Tools.LinearInterpolationExamples | tests/test_tools.py:18-65 | on the 10/80/200 m table: 80 m → [4, 5, 6], 140 m → [4.5, 6.5, 8], 240 m → [16/3, 9, 34/3], 5 m → [13/7, 25/14, 39/14] |
| Tools.LogarithmicInterpolationExtrapolation | windpowerlib/tools.py:134-142 | IndexError with fewer than two heights, a division by zero for equal logarithms; otherwise one value per time step |
| Tools.LogarithmicAtClosestHeight | windpowerlib/tools.py:138-142 | a target equal to the closest height returns that column exactly |
| Tools.EstimateTurbulenceIntensity | windpowerlib/tools.py:217 | on success z0 ≠ 0, ln(h/z0) ≠ 0 and TI·ln(h/z0) = 1 |
| Interpolation.LerpBetween | windpowerlib/power_output.py:132-133 | between two rows the line stays between their two values |
| Interpolation.InterpAtSample | windpowerlib/power_output.py:132-133 | on increasing speeds, a speed equal to a row's speed returns that row's value |
| Interpolation.InterpOnSegment | windpowerlib/power_output.py:132-133 | between rows j and j+1 the interpolant is the line through them |
| Interpolation.InterpOutside | windpowerlib/power_output.py:132-133 | below the first speed the result is `left`, above the last `right` |
| Interpolation.InterpSegmentBounded | windpowerlib/power_output.py:132-133 | between neighbouring rows the result lies between their values |
| Interpolation.InterpBounds | windpowerlib/power_output.py:132-133 | with values and fill values in [lo, hi], every result is in [lo, hi], whatever the row order |
| Interpolation.InterpZeroBounds | windpowerlib/power_output.py:132-133 | with values in [0, hi], `left=0, right=0` results stay in [0, hi] |
| Interpolation.InterpClampedBounds | windpowerlib/wake_losses.py:51-53 | without `left`/`right` results stay within the range of the values |
| Interpolation.InterpClampedOutside | windpowerlib/wake_losses.py:51-53 | without `left`/`right` the first value applies at or below the first speed, the last at or above the last |
| PowerOutput.DensityCorrectionExponentCases | windpowerlib/power_output.py:219 | the exponent is 1/3 up to 7.5 m/s, 2/3 from 12.5 m/s, v/15 − 1/6 in between, and always within [1/3, 2/3] (also lines 182-187) |
| PowerOutput.CorrectedCurve | windpowerlib/power_output.py:217-220 | same number of rows and the same power values; only the speeds are scaled by (1.225/ρ)^p(v) |
| PowerOutput.PowerCurveDensityCorrection | windpowerlib/power_output.py:213-221 | TypeError when density is None; [] for no wind speeds; with wind speeds, IndexError for an empty density series (read before the curve), then ValueError for an empty curve; one value per wind speed; success exactly when density is given and there are no wind speeds, or the curve is non-empty and the first |ws| densities exist and are positive |
| PowerOutput.PowerCurve | windpowerlib/power_output.py:131-147 | any flag other than True/False raises TypeError; without correction success iff the curve is non-empty; one value per wind speed |
| PowerOutput.PowerCurveLookup | windpowerlib/power_output.py:131-133 | without correction: 0 outside the curve, a row's value at its speed, and between its neighbours' values in between |
| PowerOutput.PowerCurveBounds | windpowerlib/power_output.py:131-136 | power values in [0, hi] give outputs in [0, hi], with or without correction (also lines 217-221) |
| PowerOutput.DensityCorrectionAtReference | windpowerlib/power_output.py:217-220 | at ρ = 1.225 everywhere the corrected output equals the uncorrected one (given 1^a = 1) |
| PowerOutput.PowerCurveExample | tests/test_power_output.py:62-77 | [2, 5.5, 7] m/s on 4→300, 5→400, 6→500 W give [0, 450, 0] W |
| PowerOutput.PowerCoefficientCurve | windpowerlib/power_output.py:70-84 | a flag other than True/False raises TypeError; without correction success iff the cp curve is non-empty and density and diameter are given; one value per wind speed |
| PowerOutput.ReferencePowerCurve | windpowerlib/power_output.py:76-78 | same speeds as the cp curve, each value the rotor power at 1.225 kg/m³ |
| PowerOutput.PowerCoefficientCurveLookup | windpowerlib/power_output.py:70-74 | without correction the output is 0 outside the cp curve and 1/8·ρ·d²·π·v³·cp at a row's speed |
| PowerOutput.PowerCoefficientCurveDelegates | windpowerlib/power_output.py:75-80 | with correction the result is the density-corrected power curve of the reference-density power curve; a missing diameter fails |
| PowerOutput.PowerCoefficientCurveExample | tests/test_power_output.py:19-30 | 5.5 m/s, ρ 1.3, d 80 m on 4→0.3, 5→0.4, 6→0.5 give ≈ 244615.399 W; 2 and 7 m/s give 0 |
| PowerCurves.NormalizedStandardDeviation | windpowerlib/power_curves.py:113-127 | with `None` standing for a keyword not passed or NaN: the TI for 'turbulence_intensity' (ValueError without one), 0.2 for 'Staffell_Pfenninger', ValueError for any other method |
| PowerCurves.StandardDeviationRule | windpowerlib/power_curves.py:146-149 | σ = TI·v (0 at 0 m/s, negative for a negative TI at a positive speed) for the TI method and 0.2·v + 0.6 (positive for v ≥ 0) for Staffell–Pfenninger |
| PowerCurves.ExtendGrid | windpowerlib/power_curves.py:131-139 | on success the extended grid starts with the original rows |
| PowerCurves.ExtendGridAppends | windpowerlib/power_curves.py:131-139 | a successful extension needs six rows and a positive step speeds[5] − speeds[4], and appends ⌈range/step⌉ zero rows |
| PowerCurves.ExtendGridRows | windpowerlib/power_curves.py:133-139 | appended rows have value 0, each one step beyond the previous |
| PowerCurves.ExtendGridStops | windpowerlib/power_curves.py:131-132 | the last speed reaches last + range, and the row before it does not |
| PowerCurves.ExtendGridIncreasing | windpowerlib/power_curves.py:131-139 | strictly increasing input speeds stay strictly increasing |
| PowerCurves.ExtendGridLoop | windpowerlib/power_curves.py:131-139 | the `while` loop returns exactly the extended grid (or its error) |
| PowerCurves.SmoothedPowerCurve | windpowerlib/power_curves.py:113-172 | a failing method check is the result; success exactly when the method check passes, the grid extends and the block width is nonzero; then the speeds are the extended grid's; ValueError only from the method check |
| PowerCurves.NormalizedDeviationOfKeyword | windpowerlib/power_curves.py:113-127 | an explicit `None` keyword passes the `is not np.nan` test of the 'turbulence_intensity' method and becomes the normalised deviation; a number is taken as it is; a keyword not passed or NaN raises ValueError; 0.2 for 'Staffell_Pfenninger'; only ValueError is raised |
| PowerCurves.SmoothedPowerCurveOfKeyword | windpowerlib/power_curves.py:113-149 | an explicit `None` with the 'turbulence_intensity' method always fails, with TypeError exactly when the grid extends and the block width is nonzero (`power_curve_wind_speed * None`); every other keyword smooths as its value does |
| PowerCurves.SmoothPowerCurve | windpowerlib/power_curves.py:128-172 | the two loops compute exactly the smoothed curve (or its error) |
| PowerCurves.SmoothedPowerCurveShape | windpowerlib/power_curves.py:140-172 | one row per wind speed of the extended grid, same speeds and order; value 0 where σ = 0 |
| PowerCurves.GaussSumNonNegative | windpowerlib/power_curves.py:156-162 | with non-negative powers, a positive block width, a positive σ and a Gaussian that is non-negative for positive σ (as `gauss_distribution`, tools.py:183-185, is), the block sum is non-negative |
| PowerCurves.ExtendGridValues | windpowerlib/power_curves.py:138-139 | the extended grid holds the original values and zeros only |
| PowerCurves.SmoothedPowerCurveNonNegative | windpowerlib/power_curves.py:140-165 | power values in [0, hi], non-negative wind speeds and a non-negative turbulence intensity give a smoothed curve without negative values (σ is then positive, or 0 with value 0) |
| PowerCurves.SmoothedValueNonNegative | windpowerlib/power_curves.py:146-162 | at a non-negative wind speed with a non-negative normalised deviation, σ is positive or 0 and the smoothed value is not negative |
| PowerCurves.ExtendGridSpeedsNonNegative | windpowerlib/power_curves.py:130-139 | the extended grid of non-negative speeds has only non-negative speeds |
| PowerCurves.ReduceByEfficiencyCurve | windpowerlib/power_curves.py:212-221 | at most as many rows as the power curve |
| PowerCurves.WakeLossesToPowerCurve | windpowerlib/power_curves.py:202-226 | int and other types raise TypeError, a dict fails on `set_index`; success exactly for a float or a data frame; never more rows than the input |
| PowerCurves.ConstantEfficiency | windpowerlib/power_curves.py:208-209 | a float keeps the speeds, multiplies every value, and 1.0 returns the curve itself |
| PowerCurves.EfficiencyCurveRows | windpowerlib/power_curves.py:212-218 | every kept row is an input row at or after the efficiency curve's first speed, its value times the interpolated efficiency |
| PowerCurves.EfficiencyCurveKeepsAll | windpowerlib/power_curves.py:212-218 | with no row before the efficiency curve, every row is kept in order, value times interpolated efficiency |
| CurveNaming.Prefix | windpowerlib/wake_losses.py:124 | the prefix is a leading part of the name without underscore, and it is cut exactly at an underscore when shorter than the name |
| CurveNaming.PrefixWhole | windpowerlib/wake_losses.py:124 | a name without underscore is its own prefix |
| CurveNaming.PrefixAt | windpowerlib/wake_losses.py:124 | the prefix ends at the first underscore |
| CurveNaming.MisspelledWhole | tests/test_wake_losses.py:32-35 | "misspelled" is its own prefix |
| CurveNaming.MisspelledDena | tests/test_wake_losses.py:36-38 | "dena_misspelled" has the prefix "dena" |
| CurveNaming.PossibleNamesDistinct | windpowerlib/wake_losses.py:110-112 | the seven shipped curve names are pairwise different |
| WakeLosses.CurveOf | windpowerlib/wake_losses.py:124-141 | fails exactly when the prefix is neither "dena" nor "knorr" or the prefix's file has no such column, always with ValueError; otherwise the column itself |
| WakeLosses.Put | windpowerlib/wake_losses.py:142-148 | the table never shrinks and is non-empty afterwards |
| WakeLosses.Collected | windpowerlib/wake_losses.py:121-148 | a successful loop over at least one name yields a non-empty table |
| WakeLosses.GetWindEfficiencyCurve | windpowerlib/wake_losses.py:114-152 | the loop's result equals the specification `EfficiencyCurve`: the first bad name's error, one curve for a single name, the table otherwise |
| WakeLosses.PutNew | windpowerlib/wake_losses.py:142-148 | setting a name the table does not hold appends it last |
| WakeLosses.CollectedFailsAtFirst | windpowerlib/wake_losses.py:123-138 | the first failing name decides the error, whatever follows it |
| WakeLosses.CollectedDistinct | windpowerlib/wake_losses.py:121-148 | distinct existing names give exactly one entry per name, in the names' order, each the name's curve |
| WakeLosses.SingleName | windpowerlib/wake_losses.py:116-117 | a single name other than 'all' gives its curve alone, or ValueError (also lines 149-150) |
| WakeLosses.AllNames | windpowerlib/wake_losses.py:110-115 | 'all' gives the two-level table of the seven curves in their listed order (also lines 151-152) |
| WakeLosses.MisspelledName | tests/test_wake_losses.py:32-35 | "misspelled" raises ValueError |
| WakeLosses.MisspelledColumn | tests/test_wake_losses.py:36-38 | "dena_misspelled", absent from the dena file, raises ValueError |
| WakeLosses.ReduceWindSpeed | windpowerlib/wake_losses.py:48-54 | a successful reduction has one speed per input speed |
| WakeLosses.ReduceWindSpeedValues | windpowerlib/wake_losses.py:51-53 | for a known name with a non-empty curve, every speed is multiplied by the efficiency interpolated at it |
| WakeLosses.ReduceWindSpeedZero | windpowerlib/wake_losses.py:51-53 | a speed of 0 stays 0 |
| WakeLosses.ReduceWindSpeedOutside | windpowerlib/wake_losses.py:51-53 | outside a sorted curve the first or the last efficiency applies |
| WakeLosses.ReduceWindSpeedAtSamples | windpowerlib/wake_losses.py:51-53 | at a sample's speed its own efficiency applies |
| WakeLosses.ReduceWindSpeedBadName | windpowerlib/wake_losses.py:124-138 | an unknown name fails with the name check's ValueError (also lines 48-49) |
| WakeLosses.ReduceWindSpeedCases | windpowerlib/wake_losses.py:48-54 | success exactly for a single known name other than 'all' whose curve is non-empty |
| WakeLosses.ReduceWindSpeedBounds | windpowerlib/wake_losses.py:51-53 | with efficiencies in [0, 1], every reduced speed lies between 0 and the original non-negative speed |
| Aggregation.MergeMembers | windpowerlib/wind_farm.py:381-386 | the merged index holds exactly the speeds of both lists |
| Aggregation.MergeIncreasing | windpowerlib/wind_farm.py:381-386 | merging two ascending lists gives an ascending list without repeats |
| Aggregation.UnionGridProperties | windpowerlib/wind_farm.py:381-386 | the table's index is ascending without repeats and holds exactly the speeds of all columns |
| Aggregation.AggregateShape | windpowerlib/wind_farm.py:384-386 | the summed curve is indexed by the union grid, ascending, and each row is the sum of the filled columns at its speed |
| Aggregation.ColumnAtCases | windpowerlib/wind_farm.py:385-386 | a column counts 0 before its first row, its own value at its rows and its last value after its last row |
| Aggregation.AggregateSingle | windpowerlib/wind_turbine_cluster.py:188-194 | a table of one curve sums to that curve |
| Aggregation.AggregateSingleScaled | windpowerlib/wind_farm.py:381-386 | one column scaled by the number of turbines sums to the scaled curve |
| Aggregation.SumAtBounds | windpowerlib/wind_farm.py:385-386 | a row sum of columns in [0, hi] lies in [0, columns × hi] |
| Aggregation.AggregateBounds | windpowerlib/wind_farm.py:385-386 | every aggregated value of columns in [0, hi] lies in [0, columns × hi] |
| Farm.DeducedNumber | windpowerlib/wind_farm.py:160-177 | a given number is kept; a deduced number times the nominal power is the capacity; a zero nominal power raises ZeroDivisionError (Python floats, not caught by the TypeError handler); ValueError exactly when the nominal power is missing or the capacity is missing over a non-zero nominal power |
| Farm.Product | windpowerlib/wind_farm.py:185-196 | number times nominal power, missing exactly when the number is |
| Farm.CompletedCapacity | windpowerlib/wind_farm.py:179-205 | fails exactly without a nominal power (ValueError when the capacity is missing, TypeError otherwise); a missing or inconsistent capacity becomes number × nominal power; a consistent one is kept |
| Farm.CompletedFleet | windpowerlib/wind_farm.py:128-205 | no turbine column gives KeyError; a non-turbine entry ValueError; success keeps the number of rows; the deduction errors are `DeducedNumber`'s, in row order |
| Farm.ZeroNominalPowerRaises | windpowerlib/wind_farm.py:166-177 | the first row of zero nominal power that needs its number deduced stops the completion with ZeroDivisionError |
| Farm.RowCompleted | windpowerlib/wind_farm.py:160-205 | one row after both loops is complete and relates to the original: same turbine, given number kept, deduced number is capacity / nominal power, capacity within 1 of number × nominal power |
| Farm.CompletedFleetRows | windpowerlib/wind_farm.py:128-205 | after completion every row is complete and related to its original row as above |
| Farm.Pad | windpowerlib/wind_farm.py:366-377 | padding succeeds exactly for a non-empty curve |
| Farm.PadProperties | windpowerlib/wind_farm.py:366-377 | the padded curve starts at 0 m/s, ends with 0, holds the original rows as one block, adds at most two rows and is strictly increasing for a well-formed curve |
| Farm.ForwardedTurbulenceIntensity | windpowerlib/wind_farm.py:340-356 | a given turbulence intensity is forwarded; it fails exactly when smoothing by turbulence intensity without one and the roughness length is missing or the estimate at the first turbine's hub height fails |
| Farm.ForwardedTurbulenceIntensityAsWritten | windpowerlib/wind_farm.py:340-363 | a given turbulence intensity is not forwarded (None reaches smoothing); otherwise as `ForwardedTurbulenceIntensity` |
| Farm.FarmColumn | windpowerlib/wind_farm.py:357-383 | without turbine-curve smoothing, a row's column is its padded curve times its number of turbines |
| Farm.FarmPowerCurveWith | windpowerlib/wind_farm.py:329-335 | a turbine without power curve fails the farm curve |
| Farm.CheckCurves | windpowerlib/wind_farm.py:329-335 | the loop over the turbines passes exactly when every turbine of the fleet has a power curve |
| Farm.DeduceNumbers | windpowerlib/wind_farm.py:160-177 | the loop gives the rows mapped by `DeducedNumber`, failing at the first failing row with its error (ZeroDivisionError for a zero nominal power) |
| Farm.CompleteCapacities | windpowerlib/wind_farm.py:179-205 | the loop gives the rows mapped by `CompletedCapacity`, and warns exactly when some row was inconsistent |
| Farm.WindFarm.constructor | windpowerlib/wind_farm.py:116-124 | the fleet, efficiency and name are stored and hub height, nominal power and power curve are unset |
| Farm.WindFarm.CheckAndCompleteWindTurbineFleet | windpowerlib/wind_farm.py:128-205 | passes exactly when `CompletedFleet` succeeds; then the fleet is the completed one, valid, and the warning is issued exactly for an inconsistent row; on failure the error is `CompletedFleet`'s and the fleet unchanged |
| Farm.WindFarm.NominalPower | windpowerlib/wind_farm.py:215-232 | a truthy cache is returned unchanged; otherwise the capacity sum is computed, cached and returned |
| Farm.WindFarm.MeanHubHeight | windpowerlib/wind_farm.py:234-275 | the hub height becomes exp(Σ ln(h_k)·P_k / P) exactly when the nominal power P is non-zero; the cache is filled as `nominal_power` fills it |
| Farm.WindFarm.AssignPowerCurve | windpowerlib/wind_farm.py:276-408 | passes exactly when `FarmPowerCurve` succeeds and then stores it; on failure the error is its error and the stored curve is unchanged; the nominal power is unchanged; a given turbulence intensity is forwarded to smoothing, as intended (see Left out and Findings) |
| Farm.FleetColumns | windpowerlib/wind_farm.py:338-383 | the columns are the rows mapped by `FarmColumn` with the forwarded turbulence intensity, failing with the selection's error; the returned keyword value is the forwarded one |
| Farm.FleetDeducedExample | tests/test_wind_farm.py:34-43 | 3 turbines of 4.2 MW and 4 MW of 2 MW turbines: the second row gets 2 turbines and the farm 16.6 MW |
| Farm.FleetOverwrittenExample | tests/test_wind_farm.py:83-102 | a capacity of 3 W for 3 turbines of 4.2 MW becomes 12.6 MW with the warning; a missing capacity for 2 turbines of 2 MW becomes 4 MW |
| Farm.FleetErrorExamples | tests/test_wind_farm.py:104-134 | a missing nominal power, or neither number nor capacity, raises ValueError |
| Farm.MeanHubHeightUniform | windpowerlib/wind_farm.py:270-273 | turbines all at height h give the mean hub height h |
| Farm.SingleTypeFarm | windpowerlib/wind_farm.py:366-408 | one turbine type without smoothing gives its padded curve times the number of turbines, reduced by the efficiency only for 'wind_farm_efficiency' |
| Farm.TurbulenceIntensityDroppedAsWritten | windpowerlib/wind_farm.py:340-363 | as written, smoothing by a given turbulence intensity fails with ValueError for the missing turbulence intensity |
| Farm.TurbulenceIntensityForwarded | windpowerlib/wind_farm.py:340-363 | with the given value forwarded, smoothing receives it and the farm curve never fails with ValueError once every turbine has a curve |
| Turbine.NewWindTurbine | windpowerlib/wind_turbine.py:116-221 | ValueError exactly for a truthy rotor diameter not below twice the hub height; otherwise TypeError exactly when a curve argument is neither absent, a dict nor a table; on success the arguments are stored, dicts as tables, and the warning is issued exactly when both curves are absent |
| Turbine.StoredCurveKeepsOrder | windpowerlib/wind_turbine.py:199-201 | a table with descending wind speeds is stored in the given order, as the sorted copy is discarded |
| Turbine.ToGroup | windpowerlib/wind_turbine.py:249-313 | number and capacity together raise ValueError; a number is kept; none means 1; a capacity gives number × nominal power = capacity, failing exactly without a non-zero nominal power; the turbine is kept |
| Turbine.ToGroupByCapacity | tests/test_wind_turbine.py:77-87 | grouping by the capacity of k turbines gives k turbines; 3 MW of a 1.5 MW turbine gives 2 |
| Cluster.ClusterPowerCurve | windpowerlib/wind_turbine_cluster.py:176-194 | a cluster without farms fails with ValueError, as concatenating no curves does |
| Cluster.ClusterHubHeight | windpowerlib/wind_turbine_cluster.py:116-118 | a farm without hub height gives TypeError; a cluster without farms and without a truthy cached nominal power divides the integers `0 / 0` and gives ZeroDivisionError (also lines 72-73); with farms, a zero nominal power gives a non-finite mean |
| Cluster.ClusterPowerCurveCases | windpowerlib/wind_turbine_cluster.py:176-194 | success exactly with at least one farm and every farm's curve succeeding; then the sum of the farm curves in list order; otherwise a failing farm's error |
| Cluster.ClusterFailsAtFirstFarm | windpowerlib/wind_turbine_cluster.py:176-186 | the first failing farm decides the cluster's error |
| Cluster.ZeroNominalFarmFails | windpowerlib/wind_turbine_cluster.py:179 | a farm of zero nominal power fails the cluster curve unless an earlier farm already failed |
| Cluster.ClusterOfOneFarm | windpowerlib/wind_turbine_cluster.py:188-194 | a cluster of one farm has that farm's curve |
| Cluster.LogSumUniform | windpowerlib/wind_turbine_cluster.py:116-117 | with every farm at height h, the log sum is ln(h) times the summed nominal power |
| Cluster.ClusterMeanHubHeightUniform | windpowerlib/wind_turbine_cluster.py:116-118 | farms that all stand at height h give the cluster the mean hub height h |
| Cluster.WindTurbineCluster.constructor | windpowerlib/wind_turbine_cluster.py:40-47 | the farms and the name are stored; hub height, nominal power and power curve are unset |
| Cluster.WindTurbineCluster.NominalPower | windpowerlib/wind_turbine_cluster.py:59-78 | a truthy cache is returned; otherwise the sum of the farms' nominal powers is computed and cached; the farms keep their states |
| Cluster.WindTurbineCluster.MeanHubHeight | windpowerlib/wind_turbine_cluster.py:80-119 | passes exactly when `ClusterHubHeight` succeeds and then stores it; a failure keeps the hub height and carries its error |
| Cluster.WindTurbineCluster.AssignPowerCurve | windpowerlib/wind_turbine_cluster.py:121-195 | passes exactly when `ClusterPowerCurve` succeeds and then stores it; failure keeps the stored curve and carries its error; every farm keeps its fleet and gets its mean hub height on success; each farm curve forwards the turbulence intensity, as intended (see Left out) |
| Cluster.SumFarmNominal | windpowerlib/wind_turbine_cluster.py:72-73 | the loop gives the sum of the farms' nominal powers, the farms keeping their states |
| Cluster.FarmLogSum | windpowerlib/wind_turbine_cluster.py:116-117 | the loop succeeds exactly when every farm has a hub height, and then gives Σ ln(h_k)·P_k |
| Cluster.FarmLogTerm | windpowerlib/wind_turbine_cluster.py:117 | one farm's term is ln(hub height) times its nominal power, none without hub height |
| Cluster.AssignFarms | windpowerlib/wind_turbine_cluster.py:176-186 | the loop gives the farms' states mapped by `FarmCurve`, stopping at the first failure; on success every farm has its mean hub height |
| Cluster.AssignFarm | windpowerlib/wind_turbine_cluster.py:176-186 | one farm's turn gives `FarmCurve` of its state and, on success, stores its curve and hub height |
| ModelChains.FirstAt | windpowerlib/modelchain.py:185-187 | the column read is measured at the height, and no earlier column is |
| ModelChains.TemperatureHub | windpowerlib/modelchain.py:156-207 | a successful hub temperature has one value per time step |
| ModelChains.DensityFromTemperature | windpowerlib/modelchain.py:248-277 | a successful hub density has one value per time step |
| ModelChains.DensityHub | windpowerlib/modelchain.py:209-277 | a successful hub density has one value per time step |
| ModelChains.WindSpeedHub | windpowerlib/modelchain.py:279-349 | a successful hub wind speed has one value per time step |
| ModelChains.CalculatePowerOutput | windpowerlib/modelchain.py:351-397 | a successful power output has one value per hub wind speed, for the intended calls of the two power output functions (see Findings) |
| ModelChains.Reduced | windpowerlib/turbine_cluster_modelchain.py:276-281 | a reduced wind speed keeps its length |
| ModelChains.DensityFor | windpowerlib/modelchain.py:442-444 | a hub density that is passed on has one value per time step |
| ModelChains.RunOutput | windpowerlib/modelchain.py:441-446 | a successful run has one power value per time step; the power output step is the intended call `CalculatePowerOutput` (see Left out and Findings) |
| ModelChains.ModelChain.constructor | windpowerlib/modelchain.py:137-154 | the plant and the model names are stored and there is no power output yet |
| ModelChains.ModelChain.RunModel | windpowerlib/modelchain.py:399-447 | passes exactly when `RunOutput` succeeds and then stores it as the power output; a failure carries its error and keeps the old output; `RunOutput` uses the intended power output call (see Left out) |
| ModelChains.MeasuredAtHubHeight | windpowerlib/modelchain.py:185-187 | a temperature or wind speed measured at hub height is returned unchanged, whatever the model name (also lines 308-310) |
| ModelChains.TemperatureFromClosestHeight | windpowerlib/modelchain.py:188-197 | otherwise the temperature gradient is applied to the column closest to hub height, the first one on ties |
| ModelChains.WindSpeedMeasuredAtHub | windpowerlib/modelchain.py:308-310 | a wind speed measured at hub height is the result for every model name: the first column at that height |
| ModelChains.WindSpeedFromClosestHeight | windpowerlib/modelchain.py:311-333 | otherwise the logarithmic profile and the Hellman law start from the column closest to hub height (the first one on ties) and the first roughness length column; without a roughness length column both raise KeyError |
| ModelChains.InterpolatingModels | windpowerlib/modelchain.py:198-202 | without a measurement at hub height, 'interpolation_extrapolation' is the tools' linear inter-/extrapolation of the weather variable for temperature and wind speed (also lines 334-343, where 'log_interpolation_extrapolation' is the logarithmic one); the density interpolation is the linear one of the density columns, KeyError without any (also lines 267-271) |
| ModelChains.PowerOutputModels | windpowerlib/modelchain.py:370-397 | the intended call gives the power curve function of the selected curve with the chain's density and flag, and the power coefficient function with the rotor diameter, the density and no correction; a plant without a power coefficient curve attribute raises AttributeError |
| ModelChains.TemperatureHubExample | tests/test_modelchain.py:50-70 | for a hub at 100 m the columns at 2 m and 10 m give 266.415 K and 265.415 K, and the columns at 10 m and 200 m give 266.415 K and 267.415 K |
| ModelChains.ClosestOfTwo | windpowerlib/modelchain.py:191-194 | of two columns the second is chosen exactly when it is strictly closer |
| ModelChains.TemperatureAtHubExample | tests/test_modelchain.py:74-78 | a temperature measured at 100 m is returned as it is |
| ModelChains.UnknownModelNames | windpowerlib/modelchain.py:203-206 | unknown temperature, wind speed, density and power output model names raise ValueError, each once the earlier steps are done (also lines 272-276, 344-348, 393-397) |
| ModelChains.DensityHubUsesTemperature | windpowerlib/modelchain.py:244-271 | unless the model is 'interpolation_extrapolation', a failing hub temperature fails the density and the barometric and ideal gas equations use the hub temperature with the pressure closest to hub height; the interpolation does not depend on the temperature |
| ModelChains.MissingCurveRaises | windpowerlib/modelchain.py:370-383 | the selected curve missing raises TypeError |
| ModelChains.WithoutDensityData | windpowerlib/modelchain.py:442-444 | dropping the density variables keeps the columns aligned with the time index |
| ModelChains.RunModelSkipsDensity | windpowerlib/modelchain.py:441-446 | without density correction of the power curve the density data do not matter; otherwise a failing density fails the run with its error |
| ModelChains.RunModelWithPowerCurve | windpowerlib/modelchain.py:370-379 | with the intended power output call in place of the one at lines 375-379 (which as written raises TypeError, see `PowerCurveCallAsWritten`), the power curve without density correction gives the curve evaluated at the hub wind speed (also lines 441-446) |
| ModelChains.CalculatePowerOutputAsWritten | windpowerlib/modelchain.py:370-397 | as written every call fails: a missing curve with TypeError, a present power curve with the TypeError of five arguments for four parameters, a present power coefficient curve with the TypeError of a density in the flag's place; ValueError exactly for other model names |
| ModelChains.PowerCurveCallAsWritten | windpowerlib/modelchain.py:375-392 | with a non-empty power curve the call as written raises TypeError where the intended one returns the curve evaluated at the hub wind speeds; with a power coefficient curve it raises TypeError too |
| ClusterModelChains.ForwardedWakeModel | windpowerlib/turbine_cluster_modelchain.py:198-209 | the plant receives 'wind_farm_efficiency' exactly when that is the chain's model, and None otherwise |
| ClusterModelChains.WakeReduction | windpowerlib/turbine_cluster_modelchain.py:198-209 | the wind speed is reduced by the named efficiency curve exactly for a set model other than 'wind_farm_efficiency'; then the plant receives no wake model; the two never both act and one acts whenever a model is set (also lines 276-281) |
| ClusterModelChains.ColumnMean | windpowerlib/turbine_cluster_modelchain.py:189-196 | None exactly when the variable is absent; NonFinite exactly when it is present with no values |
| ClusterModelChains.AllValuesLength | windpowerlib/turbine_cluster_modelchain.py:190-194 | aligned columns hold columns × steps values |
| ClusterModelChains.WeatherMeansDefined | windpowerlib/turbine_cluster_modelchain.py:189-196 | on an aligned table both means are defined exactly when there are time steps or neither variable is present; a mean is None exactly when its variable is absent |
| ClusterModelChains.SumWithin | windpowerlib/turbine_cluster_modelchain.py:190-194 | n values in [lo, hi] sum to within [n × lo, n × hi] |
| ClusterModelChains.AllValuesMembers | windpowerlib/turbine_cluster_modelchain.py:190-194 | bounds on every column's values carry over to the flattened values |
| ClusterModelChains.ColumnMeanWithin | windpowerlib/turbine_cluster_modelchain.py:189-196 | the mean of values within [lo, hi] lies within [lo, hi] |
| ClusterModelChains.ColumnMeanConstant | windpowerlib/turbine_cluster_modelchain.py:189-196 | a variable measured as c everywhere has the mean c |
| ClusterModelChains.AggregatedPlant | windpowerlib/turbine_cluster_modelchain.py:270-272 | a farm or cluster plant has the given hub height and power curve and no power coefficient curve |
| ClusterModelChains.TurbineClusterModelChain.constructor | windpowerlib/turbine_cluster_modelchain.py:145-159 | the plant, model names, wake losses model and smoothing arguments are stored; there is no power curve and no power output |
| ClusterModelChains.TurbineClusterModelChain.AssignPowerCurve | windpowerlib/turbine_cluster_modelchain.py:161-224 | passes exactly when the plant's `assign_power_curve` with the weather means and the forwarded wake model succeeds, storing its curve; a cluster's farms get their hub heights; a farm's hub height is untouched; a farm curve forwards the mean turbulence intensity, as intended (see Left out) |
| ClusterModelChains.TurbineClusterModelChain.RunModel | windpowerlib/turbine_cluster_modelchain.py:226-284 | passes exactly when the prepared plant, hub values, reduction and power output succeed, storing the power output; a failure carries the first error and keeps the old output; the plant curve and the power output step are the intended ones (see Left out) |
| ClusterModelChains.TurbineClusterModelChain.PlantOutput | windpowerlib/turbine_cluster_modelchain.py:270-283 | the computed output is `PlantRun` of the plant state before the call, with the intended power output call (see Left out) |
| ClusterModelChains.TurbineClusterModelChain.PreparePlant | windpowerlib/turbine_cluster_modelchain.py:270-271 | the plant's power curve and then its mean hub height give the plant `ExpectedPlant` names |
| ClusterModelChains.FarmAtHub | windpowerlib/turbine_cluster_modelchain.py:271 | a farm of zero nominal power fails with a non-finite hub height; otherwise the plant has the mean hub height and the farm curve |
| ClusterModelChains.ClusterAtHub | windpowerlib/turbine_cluster_modelchain.py:271 | the plant has the cluster's mean hub height and curve, or that height's error |
| ClusterModelChains.NoCoefficientCurve | windpowerlib/turbine_cluster_modelchain.py:282-283 | the power coefficient model on a farm or cluster raises AttributeError once the earlier steps succeed |
| ClusterModelChains.ClusterCurveSetsEveryHub | windpowerlib/wind_turbine_cluster.py:176-179 | after a successful cluster curve every farm has a hub height |
| ClusterModelChains.SingleFarmCluster | windpowerlib/turbine_cluster_modelchain.py:270-271 | a cluster of one farm hands on the same plant as the farm alone: same curve and same hub height |
| ClusterModelChains.SingleFarmHub | windpowerlib/wind_turbine_cluster.py:116-118 | the mean hub height of a cluster of one farm is the farm's hub height |
| BasicModel.NewSimpleWindTurbine | windpowerlib/basicmodel.py:53-66 | fails exactly when the curve or the nominal power is missing and the fetch fails, with the fetch's error; the given values are kept and only missing ones come from the fetch |
| BasicModel.GivenDataNeedNoFetch | windpowerlib/basicmodel.py:61-62 | with both the curve and the nominal power given, the turbine does not depend on the fetch |
| BasicModel.RhoHub | windpowerlib/basicmodel.py:113-120 | KeyError for a missing 'temp_air', then 'pressure' height, TypeError without hub height, a non-finite quotient for a zero hub temperature, otherwise ρ × 2.8706 × T_hub equals p/100 − (h_hub − h_p)/8 at every step |
| BasicModel.RhoAtIsIdealGas | windpowerlib/basicmodel.py:115-120 | the density is the ideal gas density with the gas constant 287.06 in place of 287.058 |
| BasicModel.VWindHub | windpowerlib/basicmodel.py:164-165 | TypeError without hub height, KeyError without the 'v_wind' height, a non-finite quotient where z0 or ln(h_data/z0) is 0; otherwise v_hub × ln(h_data/z0) = v × ln(h_hub/z0) at every step |
| BasicModel.VWindHubIsLogarithmicProfile | windpowerlib/basicmodel.py:164-165 | the hub wind speed is the logarithmic profile without obstacle height |
| BasicModel.MaxSpeed | windpowerlib/basicmodel.py:229 | the largest wind speed of the curve: an upper bound attained by some row |
| BasicModel.MaxSpeedIsLast | windpowerlib/basicmodel.py:229 | for an increasing curve it is the last speed |
| BasicModel.Clamped | windpowerlib/basicmodel.py:230 | same length, no value above the bound, values at or below it kept and values above it replaced by it |
| BasicModel.ClampedIdempotent | windpowerlib/basicmodel.py:230 | clamping twice is clamping once |
| BasicModel.Interpolated | windpowerlib/basicmodel.py:231 | one power coefficient per wind speed |
| BasicModel.CpSeries | windpowerlib/basicmodel.py:228-231 | an empty curve raises ValueError and leaves the array alone; otherwise the array is clamped in place to the largest speed and the result is the curve interpolated at the clamped speeds |
| BasicModel.ClampKeepsCp | windpowerlib/basicmodel.py:229-231 | for an increasing curve clamping does not change the interpolated coefficients |
| BasicModel.ClampKeepsCpAt | windpowerlib/basicmodel.py:229-231 | the same for one wind speed |
| BasicModel.CpAtRowsAndBelow | windpowerlib/basicmodel.py:222-231 | at a row's speed the row's coefficient applies, and at or below the first speed the first coefficient |
| BasicModel.PowerOutputOf | windpowerlib/basicmodel.py:272-289 | SystemExit without hub height, then without rotor diameter; on success one value per time step, none above the nominal power |
| BasicModel.TurbinePowerOutput | windpowerlib/basicmodel.py:272-289 | the method, with the coefficient lookup clamping a fresh array, computes `PowerOutputOf` |
| BasicModel.PowerOutputAt | windpowerlib/basicmodel.py:278-289 | each value is min(ρ/2 · (d/2)²π · v³ · cp(clamped v), nominal power) |
| BasicModel.PowerOutputIsClippedRotorPower | windpowerlib/basicmodel.py:278-289 | for an increasing curve each value is the rotor power of the power coefficient equation at the hub values, clipped at the nominal power |
| BasicModel.PowerAtIsRotorPower | windpowerlib/basicmodel.py:278-282 | the basic formula is the rotor power of the power coefficient equation |
| BasicModel.PowerOutputWithin | windpowerlib/basicmodel.py:278-289 | with coefficients in [0, 1] and non-negative density, wind speed and nominal power every value lies in [0, nominal power] |
| BasicModel.PowerAtNonNegative | windpowerlib/basicmodel.py:278-282 | non-negative density, wind speed and coefficient give a non-negative rotor power |
| BasicModel.PowerAboveLastSpeed | windpowerlib/basicmodel.py:229-231 | above the last speed of an increasing curve its last coefficient applies, with the unclamped wind speed cubed (also lines 278-289) |

## Left out

- PowerCurves.SmoothPowerCurve: the loop method takes the turbulence intensity as a value or `None` (not passed or NaN). An explicit `None` keyword, which no caller in the package passes, is modelled by the function `PowerCurves.SmoothedPowerCurveOfKeyword` only.
- ModelChains.RunOutput: the power output step is the intended call `ModelChains.CalculatePowerOutput`. As written (modelchain.py:375-392) `run_model` raises TypeError for every plant whose selected curve is set; `ModelChains.CalculatePowerOutputAsWritten` and `ModelChains.PowerCurveCallAsWritten` state that behaviour.
- ModelChains.ModelChain.RunModel: built on `RunOutput`, so it stores the output of the intended power output call, not the TypeError the source raises.
- ModelChains.RunModelWithPowerCurve: states the intended call's output; the call as written at modelchain.py:375-379 raises TypeError.
- Farm.WindFarm.AssignPowerCurve: forwards a given turbulence intensity to smoothing (`Farm.ForwardedTurbulenceIntensity`, `Farm.FarmPowerCurve`). As written (wind_farm.py:340-363) it drops it, and smoothing by turbulence intensity then raises ValueError; `Farm.FarmPowerCurveAsWritten` and `Farm.TurbulenceIntensityDroppedAsWritten` state that behaviour.
- ClusterModelChains.TurbineClusterModelChain.AssignPowerCurve: the weather's mean turbulence intensity (turbine_cluster_modelchain.py:189-196) reaches a farm plant's curve as a given turbulence intensity, which the model forwards to smoothing. As written a farm plant then raises ValueError when smoothing by turbulence intensity.
- ClusterModelChains.TurbineClusterModelChain.RunModel: prepares the plant with the intended farm curve and computes the output with the intended power output call; as written both of the failures above apply.
- ClusterModelChains.TurbineClusterModelChain.PlantOutput: the same intended calls as `RunModel`.
- Reading files and databases. This covers turbine data from the package's CSV files or the oedb database (`get_turbine_data_from_file`, the file branch of `WindTurbine.__init__`, `get_turbine_types`) and the wind efficiency curve CSV files. The model receives their contents as parameters: the turbine's curves, and `read` for the efficiency tables.
- `fetch_wpp_data`, `read_wpp_data` and `get_wind_pp_types` in basicmodel.py, and all of data.py: downloads and file handling.
- wind_farm_modelchain.py and `__init__.py` use functions the library does not define (`power_output.summarized_power_curve`, `power_curves.create_power_curve`). turbine_cluster.py holds only a Gaussian over `exp` and commented-out code. The old scripts in `windpowerlib/tests` import functions that no longer exist. None of them, and none of the examples, are modelled.
- Floating point. Numbers are reals, so the test values that are rounded floats are stated as exact rationals.
- The logarithm, real powers, `exp` and the Gaussian density are abstract (`Math`). This affects `tools.gauss_distribution`, `estimate_turbulence_intensity`, `logarithmic_interpolation_extrapolation`, the Gaussian sum of the smoothing and `(1.225/ρ)^p`. The model only states where they are applied and with which arguments.
- IEEE infinities and NaN. A division by zero that numpy would turn into inf or NaN is a `NonFinite` failure, and the smoothing loop that would never end (a non-positive grid step) is `Diverges`. The source would carry such values on or hang.
- ClusterModelChains.ColumnMean: the mean of a weather column with no values is a `NonFinite` failure, where numpy returns NaN and the source forwards it.
- pandas index alignment. Series of one computation are assumed to share their time index (the `Aligned` preconditions, equal lengths); pandas would align labels and fill gaps with NaN.
- Weather columns with a repeated height. The first column of that height is used; pandas would return a table of all of them.
- The aggregation assumes each curve's speeds strictly increasing. pandas' union of unsorted indexes, and a curve with repeated speeds, are not modelled.
- PowerCurves.ReduceByEfficiencyCurve: assumes the efficiency curve's speeds increase, like the aggregation. Its values use `InterpClamped`, which is `np.interp` for increasing sample points, and the rows it drops are those below the first efficiency speed, which is the smallest only on a sorted curve; numpy's result on unsorted points is not modelled.
- Farm.PadBack: appends (last speed + 0.5, 0). With a one-row curve whose speed is not 0 and whose value is not 0, the source's `.loc` finds the index label 0 twice after the front padding and returns two speeds instead of one. The model does not follow that case.
- Farm.WindFarm.CheckAndCompleteWindTurbineFleet: after a failure the model leaves the table as it was. The source may already have written some cells before raising, but the constructor then raises and the partly updated farm is never used. The source also stores the caller's DataFrame without copying it (wind_farm.py:118) and adds the `number_of_turbines` and `total_capacity` columns and the completed cells to that same object (lines 154-205). A caller who reuses the table, for a second farm say, sees it completed and gets no second warning. The model keeps its own copy of the rows as a sequence, so this aliasing and in-place update of the caller's table are not modelled; a fleet given as a list is converted to a new table (lines 139-140) and is not affected.
- PowerCurves.SmoothedPowerCurveNonNegative: stated only for non-negative wind speeds and turbulence intensity. With a negative intensity σ is negative (`PowerCurves.StandardDeviationRule`), `gauss_distribution` is then negative and the source can produce negative smoothed values; the model does not state their sign.
- Output types and labels: Series versus arrays, series names such as `feedin_wind_turbine`, column names, and the index of the results.
- Logging and warnings. The only warnings kept are the `warned` result of the fleet check and the missing-curve flag of `WindTurbine`.
- `is 'Staffell_Pfenninger'` in `smooth_power_curve` compares object identity. It is modelled as string equality, which a CPython interned literal gives.
- `__repr__` of turbines, farms and clusters: text for display only.
- BasicModel: missing weather attributes (an `AttributeError` while reading `weather.p`, `weather.v_wind` and so on) are not modelled. The weather is a record with every field present.
- BasicModel.CpSeries: numpy's comparison with NaN is not modelled, and wind speeds are finite reals.
- Cluster.WindTurbineCluster.AssignPowerCurve: states each farm's new mean hub height and the cluster curve. It does not state each farm's stored power curve, which the cluster curve is computed from. Each farm curve forwards the turbulence intensity, as `Farm.WindFarm.AssignPowerCurve` does.
- The cluster and cluster-model-chain methods take the farms' expected states as ghost parameters (`states`). The state before the call must match them (`Holds`, `PlantIn`).

## Findings

| source | as written | input that shows it | evidently intended | confidence | as-written member | corrected member |
|---|---|---|---|---|---|---|
| windpowerlib/wind_farm.py:340-363 | the smoothing call passes only `**kwargs`, and a `turbulence_intensity` given as an argument is never put into them, so `smooth_power_curve` sees None and raises ValueError | `assign_power_curve(smoothing=True, standard_deviation_method='turbulence_intensity', turbulence_intensity=0.1)` on a farm whose turbines have power curves | a given turbulence intensity reaches the smoothing, as the estimated one does | not executed | Farm.TurbulenceIntensityDroppedAsWritten | Farm.TurbulenceIntensityForwarded |
| windpowerlib/modelchain.py:375-392 | `power_curve` is called with five positional arguments but takes four (power_output.py:95), and `power_coefficient_curve` receives the density as its `density_correction` argument (power_output.py:14), so both raise TypeError | `run_model` with the defaults on a turbine that has a power curve (tests/test_modelchain.py:185-199) | the selected curve's values are passed as the curve argument, with the density and the density correction in their places | not executed | ModelChains.PowerCurveCallAsWritten | ModelChains.CalculatePowerOutput |
