/**
 * Unit conversion and the temperature read-out of the weather page
 * (js/app.js, `celsiusToFahrenheit`, `celsiusToKelvin` and the switch in
 * `updateTemperatureDisplay`). Temperatures are stored in Celsius; the
 * selected unit only changes what is shown. Arithmetic is over `real`:
 * IEEE-754 effects are not modelled.
 */
module Temperature {

  /** The three values the unit buttons can store in `currentUnit`. */
  datatype Unit = Celsius | Fahrenheit | Kelvin

  /** The degree sign followed by `C`, the label of Celsius values. */
  const CelsiusSymbol: string := "\U{00B0}C"

  function CelsiusToFahrenheit(celsius: real): real
  {
    celsius * 9.0 / 5.0 + 32.0
  }

  function CelsiusToKelvin(celsius: real): real
  {
    celsius + 273.15
  }

  /** The unit label appended to a shown value. */
  function Symbol(unit: Unit): string
  {
    match unit
    case Celsius => CelsiusSymbol
    case Fahrenheit => "\U{00B0}F"
    case Kelvin => "K"
  }

  /** The value shown for a stored Celsius value under `unit`, before rounding. */
  function Convert(unit: Unit, celsius: real): real
  {
    match unit
    case Celsius => celsius
    case Fahrenheit => CelsiusToFahrenheit(celsius)
    case Kelvin => CelsiusToKelvin(celsius)
  }

  /**
   * `Math.round`: the nearest integer, halves rounded towards positive
   * infinity. The result is the one integer within half a unit below and
   * strictly less than half a unit above `x`.
   */
  function Round(x: real): (n: int)
    ensures n as real - 0.5 <= x < n as real + 0.5
  {
    (x + 0.5).Floor
  }

  /** What the temperature and feels-like elements show: two rounded values and a unit label. */
  datatype TemperatureReadout = TemperatureReadout(temperature: int, feelsLike: int, symbol: string)

  /**
   * The read-out for stored Celsius values `temp` and `feelsLike` under
   * `unit`: each shown number is the nearest integer to the converted
   * value, and the label names the unit.
   */
  function ReadoutFor(unit: Unit, temp: real, feelsLike: real): (r: TemperatureReadout)
    ensures r.symbol == Symbol(unit)
    ensures r.temperature as real - 0.5 <= Convert(unit, temp) < r.temperature as real + 0.5
    ensures r.feelsLike as real - 0.5 <= Convert(unit, feelsLike) < r.feelsLike as real + 0.5
  {
    TemperatureReadout(Round(Convert(unit, temp)), Round(Convert(unit, feelsLike)), Symbol(unit))
  }

  /** Kelvin is Celsius shifted by exactly 273.15. */
  lemma KelvinOffset(celsius: real)
    ensures CelsiusToKelvin(celsius) - celsius == 273.15
  {
  }

  /** The Fahrenheit conversion is strictly increasing. */
  lemma FahrenheitStrictlyIncreasing(a: real, b: real)
    requires a < b
    ensures CelsiusToFahrenheit(a) < CelsiusToFahrenheit(b)
  {
  }

  /** Freezing point, boiling point, and the point where the two scales meet. */
  lemma FahrenheitLandmarks()
    ensures CelsiusToFahrenheit(0.0) == 32.0
    ensures CelsiusToFahrenheit(100.0) == 212.0
    ensures CelsiusToFahrenheit(-40.0) == -40.0
  {
  }

  /** Rounding is determined by its contract: any integer within the half-open band is the result. */
  lemma RoundUnique(x: real, n: int)
    requires n as real - 0.5 <= x < n as real + 0.5
    ensures Round(x) == n
  {
  }

  /** Halves go up, also for negative values: 2.5 shows as 3 and -2.5 as -2. */
  lemma RoundHalfUp(n: int)
    ensures Round(n as real + 0.5) == n + 1
    ensures Round(n as real - 0.5) == n
  {
    RoundUnique(n as real + 0.5, n + 1);
    RoundUnique(n as real - 0.5, n);
  }

  /** The label identifies the unit: different units never share a label. */
  lemma SymbolIdentifiesUnit(u: Unit, v: Unit)
    requires Symbol(u) == Symbol(v)
    ensures u == v
  {
  }

  /** Under Celsius the shown numbers are the stored values rounded, nothing converted. */
  lemma CelsiusReadoutIsRoundedStored(temp: real, feelsLike: real)
    ensures ReadoutFor(Celsius, temp, feelsLike) == TemperatureReadout(Round(temp), Round(feelsLike), CelsiusSymbol)
  {
  }
}
