/**
 * The OpenWeatherMap adapter (lib/weather.ts): Kelvin to Celsius at one
 * decimal, and the snapshot built from the current-weather reply with its
 * defaults.  The request and the clock are parameters; a JSON field that is
 * not a number is `None`.
 */
module Weather {
  import opened Js
  import opened Text
  import opened WeatherTypes

  /** `toC`: nothing for a non-number, else the Celsius value rounded to one decimal. */
  function ToC(k: Option<real>): (c: Option<real>)
    ensures c.Some? <==> k.Some?
    ensures c.Some? ==> Abs(c.value - (k.value - 273.15)) <= 0.05
    ensures c.Some? ==> (c.value * 10.0).Floor as real == c.value * 10.0
  {
    if k.None? then None
    else
      OneDecimal(k.value - 273.15);
      Some(ToFixedValue(k.value - 273.15, 1))
  }

  /** `+x.toFixed(1)` is a whole number of tenths. */
  lemma OneDecimal(x: real)
    ensures (ToFixedValue(x, 1) * 10.0).Floor as real == ToFixedValue(x, 1) * 10.0
  {
    ToFixedValueUnits(x, 1);
    assert Pow10(1) == 10;
  }

  /** The fields of the reply the adapter reads (`clouds.all`, `wind.*`, `main.*`). */
  datatype OwmData = OwmData(
    cloudsAll: Option<real>,
    windSpeed: Option<real>,
    windDeg: Option<real>,
    humidity: Option<real>,
    temp: Option<real>,
    pressure: Option<real>)

  /** The request's outcome: the error of a request that threw, a failed status and its body, or the JSON. */
  datatype OwmReply = OwmThrown(message: string) | OwmHttpFailure(status: int, text: string) | OwmJson(data: OwmData)

  /**
   * `fetchOWMCurrent` once the reply is in: a thrown request passes its
   * error on, a failed status is an error carrying the status and the body;
   * otherwise cloud cover, wind speed and humidity default to 0, wind
   * direction and pressure to null, and the astronomical fields are all null.
   */
  function FetchOwmCurrent(coord: Coordinates, reply: OwmReply, nowMs: int): (r: Result<WeatherSnapshot>)
    ensures reply.OwmThrown? ==> r == Err(reply.message)
    ensures reply.OwmHttpFailure? ==> r == Err("OWM error " + IntToString(reply.status) + ": " + reply.text)
    ensures reply.OwmJson? ==> r.Ok?
    ensures r.Ok? ==>
      var d, s := reply.data, r.value;
      s.source == Owm && s.coord == coord && s.timestamp == nowMs / 1000
      && s.cloudCoverPct == d.cloudsAll.OrElse(0.0) && s.windSpeedMs == d.windSpeed.OrElse(0.0)
      && s.humidityPct == d.humidity.OrElse(0.0)
      && s.windDirectionDeg == d.windDeg && s.pressureHpa == d.pressure
      && s.temperatureC == ToC(d.temp)
      && s.astro == NoAstro && s.conditionCode.None? && s.dewPointC.None? && s.precipitationMm1h.None?
      && s.threeHourTrend.None? && s.fineTrend10m.None?
  {
    match reply
    case OwmThrown(message) => Err(message)
    case OwmHttpFailure(status, text) => Err("OWM error " + IntToString(status) + ": " + text)
    case OwmJson(d) =>
      Ok(WeatherSnapshot(
        coord, nowMs / 1000, Owm, d.cloudsAll.OrElse(0.0), None,
        d.windSpeed.OrElse(0.0), d.windDeg, d.humidity.OrElse(0.0), ToC(d.temp), None, d.pressure,
        None, None, None, None, None, NoAstro))
  }

  /** Unlike the `||` defaults elsewhere, a reported zero is kept: a clear sky reads 0, not a default. */
  lemma ZeroCloudKept(coord: Coordinates, nowMs: int)
    ensures var d := OwmData(Some(0.0), Some(0.0), Some(0.0), Some(0.0), Some(273.15), Some(0.0));
      var s := FetchOwmCurrent(coord, OwmJson(d), nowMs).value;
      s.cloudCoverPct == 0.0 && s.windDirectionDeg == Some(0.0) && s.temperatureC == Some(0.0)
  {
    assert ToFixedValue(0.0, 1) == 0.0 by { assert FixedUnits(0.0, 1) == 0; }
  }
}
