/** The weather snapshot every provider adapter produces. */
module WeatherTypes {
  import opened Js

  datatype Coordinates = Coordinates(lat: real, lon: real)

  /** One point of the 3-hourly village forecast; `dt` is in epoch seconds. */
  datatype TrendPoint3h = TrendPoint3h(
    dt: int,
    cloudCoverPct: Option<real>,
    windSpeedMs: Option<real>,
    precipitationProbabilityPct: Option<real>,
    temperatureC: Option<real>)

  /** One point of the ultra-short-term forecast; `dt` is in epoch seconds. */
  datatype TrendPointFine = TrendPointFine(
    dt: int,
    cloudCoverLevel: Option<real>,
    precipitationMm1h: Option<real>,
    temperatureC: Option<real>)

  datatype Source = Owm | Kma

  /** The four moon/sun fields every snapshot carries. */
  datatype AstroFields = AstroFields(
    moonIlluminationPct: Option<real>,
    moonAltitudeDeg: Option<real>,
    moonPhaseName: Option<string>,
    sunAltitudeDeg: Option<real>)

  const NoAstro := AstroFields(None, None, None, None)

  /** `conditionCode` is `Some("Precip")` or absent. */
  datatype WeatherSnapshot = WeatherSnapshot(
    coord: Coordinates,
    timestamp: int,
    source: Source,
    cloudCoverPct: real,
    cloudCoverLevel: Option<real>,
    windSpeedMs: real,
    windDirectionDeg: Option<real>,
    humidityPct: real,
    temperatureC: Option<real>,
    dewPointC: Option<real>,
    pressureHpa: Option<real>,
    precipitationProbabilityPct: Option<real>,
    precipitationMm1h: Option<real>,
    conditionCode: Option<string>,
    threeHourTrend: Option<seq<TrendPoint3h>>,
    fineTrend10m: Option<seq<TrendPointFine>>,
    astro: AstroFields)

  const Precip := "Precip"
}
