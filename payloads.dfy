/**
 * Normalisation of the provider's current-conditions payload into the record the dashboard
 * displays, and the rounding it uses.
 */
module Payloads {
  import opened Wrappers

  /** One entry of a payload's `weather` array. */
  datatype Descriptor = Descriptor(main: string, description: string, icon: string)

  /** The fields of the current-conditions payload that the dashboard reads. */
  datatype RawCurrent = RawCurrent(
    name: string, country: string,
    temp: real, feelsLike: real, humidity: real, windSpeed: real,
    pressure: real, visibility: real,
    weather: seq<Descriptor>)

  /** The displayed current conditions (`WeatherData`). */
  datatype WeatherData = WeatherData(
    name: string, country: string,
    temp: int, feelsLike: int, description: string, humidity: real, windSpeed: int,
    pressure: int, visibility: int, icon: string, main: string)

  /** Hectopascals to inches of mercury. */
  const InHgPerHpa: real := 0.02953
  /** Metres in a mile. */
  const MetresPerMile: real := 1609.34

  /** `Math.round`: the nearest integer, a half rounded up. */
  function Round(x: real): (n: int)
    ensures x - 0.5 < n as real <= x + 0.5
  {
    (x + 0.5).Floor
  }

  /** `Round` is the only integer within half a unit (half-way cases resolved upward). */
  lemma RoundUnique(x: real, n: int)
    requires x - 0.5 < n as real <= x + 0.5
    ensures n == Round(x)
  {
  }

  /** Pressure in hPa shown as whole inches of mercury. */
  function PressureInHg(hpa: real): (n: int)
    ensures hpa * InHgPerHpa - 0.5 < n as real <= hpa * InHgPerHpa + 0.5
  {
    Round(hpa * InHgPerHpa)
  }

  /** Visibility in metres shown as whole miles. */
  function VisibilityMiles(metres: real): (n: int)
    ensures metres / MetresPerMile - 0.5 < n as real <= metres / MetresPerMile + 0.5
  {
    Round(metres / MetresPerMile)
  }

  /** 1013 hPa displays as 30 inHg and 10000 m as 6 miles. */
  lemma ConversionExamples()
    ensures PressureInHg(1013.0) == 30
    ensures VisibilityMiles(10000.0) == 6
  {
  }

  /**
   * The displayed record, or None when the payload has no weather descriptor (the source
   * reads `weather[0]`, which throws then).
   */
  function NormalizeCurrent(raw: RawCurrent): (r: Option<WeatherData>)
    ensures r.Some? <==> |raw.weather| > 0
    ensures r.Some? ==>
      && r.value.name == raw.name && r.value.country == raw.country
      && r.value.humidity == raw.humidity
      && r.value.description == raw.weather[0].description
      && r.value.icon == raw.weather[0].icon
      && r.value.main == raw.weather[0].main
    ensures r.Some? ==>
      && raw.temp - 0.5 < r.value.temp as real <= raw.temp + 0.5
      && raw.feelsLike - 0.5 < r.value.feelsLike as real <= raw.feelsLike + 0.5
      && raw.windSpeed - 0.5 < r.value.windSpeed as real <= raw.windSpeed + 0.5
      && raw.pressure * InHgPerHpa - 0.5 < r.value.pressure as real <= raw.pressure * InHgPerHpa + 0.5
      && raw.visibility / MetresPerMile - 0.5 < r.value.visibility as real <= raw.visibility / MetresPerMile + 0.5
  {
    if |raw.weather| == 0 then None
    else
      var w := raw.weather[0];
      Some(WeatherData(
        raw.name, raw.country,
        Round(raw.temp), Round(raw.feelsLike), w.description, raw.humidity, Round(raw.windSpeed),
        PressureInHg(raw.pressure), VisibilityMiles(raw.visibility), w.icon, w.main))
  }
}
