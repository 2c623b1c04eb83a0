/** The forecast records the screen works on, as the weather API delivers
    them once the screen has picked out the three fields it uses. */
module Forecast {

  /** One 3-hour forecast sample: `dt` is the validity time in seconds since
      the epoch, `tempKelvin` the air temperature (`main.temp`) and
      `description` the first weather condition's text. */
  datatype Sample = Sample(dt: int, tempKelvin: real, description: string)

  /** The whole-degree Celsius figure shown for a sample: the Kelvin value
      less 273.15, rounded to the nearest integer with halves going up, as
      `Math.round` does. Idealised on exact reals: the binary floating-point
      representation of 273.15 is not modelled. */
  function DisplayCelsius(kelvin: real): (c: int)
    ensures c as real - 0.5 <= kelvin - 273.15 < c as real + 0.5
  {
    (kelvin - 273.15 + 0.5).Floor
  }

  /** 295.15 K is shown as 22 degrees Celsius; 273.65 K, a half-degree above
      freezing, is rounded up to 1. */
  lemma DisplayCelsiusExamples()
    ensures DisplayCelsius(295.15) == 22
    ensures DisplayCelsius(273.65) == 1
    ensures DisplayCelsius(272.65) == 0
  {
  }
}
