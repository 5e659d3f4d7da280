/**
 * Air temperature at hub height from a temperature measured at another
 * height, with the standard-atmosphere gradient of -6.5 K per km.
 */
module Temperature {

  /** Temperature gradient in K per metre of height. */
  const Gradient: real := 0.0065

  /** `linear_gradient(temperature, temperature_height, hub_height)` for one time step. */
  function LinearGradient(temperature: real, temperatureHeight: real, hubHeight: real): real {
    temperature - Gradient * (hubHeight - temperatureHeight)
  }

  /** The same, time step by time step. */
  function LinearGradientSeries(temperature: seq<real>, temperatureHeight: real, hubHeight: real): (r: seq<real>)
    ensures |r| == |temperature|
    ensures forall i :: 0 <= i < |r| ==> r[i] == LinearGradient(temperature[i], temperatureHeight, hubHeight)
  {
    seq(|temperature|, i requires 0 <= i < |temperature| => LinearGradient(temperature[i], temperatureHeight, hubHeight))
  }

  /**
   * At the measurement height the temperature is returned unchanged, every
   * metre higher is 0.0065 K colder, and going up and back down again
   * returns the original temperature.
   */
  lemma LinearGradientProperties(temperature: real, temperatureHeight: real, hubHeight: real)
    ensures LinearGradient(temperature, temperatureHeight, temperatureHeight) == temperature
    ensures LinearGradient(temperature, temperatureHeight, hubHeight + 1.0)
         == LinearGradient(temperature, temperatureHeight, hubHeight) - Gradient
    ensures LinearGradient(LinearGradient(temperature, temperatureHeight, hubHeight), hubHeight, temperatureHeight)
         == temperature
    ensures hubHeight > temperatureHeight ==> LinearGradient(temperature, temperatureHeight, hubHeight) < temperature
  {
  }

  /** 267 K and 268 K measured at 2 m are 266.363 K and 267.363 K at 100 m. */
  lemma LinearGradientExample()
    ensures LinearGradientSeries([267.0, 268.0], 2.0, 100.0) == [266.363, 267.363]
  {
  }
}
