/** The record shapes of the stargazing domain (forecast and real-time). */
module ObservationTypes {
  import opened Js

  datatype LatLng = LatLng(lat: real, lng: real)

  /** A weather station of the real-time tab. */
  datatype StationMeta = StationMeta(id: string, name: string, location: LatLng, region: Option<string>)

  /** One station's latest reading; `None` is `null`. */
  datatype StationRealtimeData = StationRealtimeData(
    stationId: string,
    humidity: Option<real>,
    windSpeed: Option<real>,
    visibility: Option<real>,
    temperature: Option<real>,
    pressure: Option<real>,
    measuredAt: string)

  /** A station with its scores and distance from the user (metres). */
  datatype StationScore = StationScore(
    station: StationMeta,
    cloudScore: int,
    transparencyScore: int,
    combinedScore: int,
    distance: int,
    lastUpdate: string,
    temperature: Option<real>,
    humidity: Option<real>,
    windSpeed: Option<real>,
    visibility: Option<real>)

  /** The normalised forecast for one night. */
  datatype RawForecast = RawForecast(
    temperature: real,
    humidity: real,
    cloudCover: real,
    windSpeed: real,
    visibility: real,
    precipitation: real,
    moonPhase: real,
    moonAltitude: real,
    timestamp: string)

  /** The forecast tab's scores; `summary` is the one-line Korean verdict. */
  datatype ForecastScores = ForecastScores(
    cloudScore: real,
    transparencyScore: int,
    moonScore: int,
    lightPollutionScore: int,
    csi: int,
    ratingStars: real,
    summary: string,
    rawApiData: RawForecast)
}
