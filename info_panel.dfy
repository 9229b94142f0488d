/**
 * The map's information panel (components/InfoPanel.tsx): the sky-code
 * texts and cloud amounts, the observing verdict from cloud and humidity,
 * and which parts of the panel are shown.  Markup and styles are not
 * modelled; the panel is the list of things it shows.
 */
module InfoPanel {
  import opened Js
  import Astronomy

  /** `getSkyText`: clear, mostly cloudy and overcast for codes 1, 3 and 4; every other code, 2 included, is unknown. */
  function SkyText(sky: real): (t: string)
    ensures sky == 1.0 ==> t == "☀️ 맑음"
    ensures sky == 3.0 ==> t == "⛅ 구름많음"
    ensures sky == 4.0 ==> t == "☁️ 흐림"
    ensures sky !in {1.0, 3.0, 4.0} ==> t == UnknownSky
  {
    if sky == 1.0 then "☀️ 맑음"
    else if sky == 3.0 then "⛅ 구름많음"
    else if sky == 4.0 then "☁️ 흐림"
    else UnknownSky
  }

  const UnknownSky := "❓ 알 수 없음"

  /** `getCloudAmount`: 20, 60 and 90 percent for codes 1, 3 and 4, and 50 for anything else. */
  function CloudAmount(sky: real): (pct: int)
    ensures pct in {20, 50, 60, 90}
    ensures sky == 1.0 ==> pct == 20
    ensures sky == 3.0 ==> pct == 60
    ensures sky == 4.0 ==> pct == 90
    ensures sky !in {1.0, 3.0, 4.0} ==> pct == 50
  {
    if sky == 1.0 then 20 else if sky == 3.0 then 60 else if sky == 4.0 then 90 else 50
  }

  /** A code the text does not know still gets an amount: the unknown text goes with 50 percent. */
  lemma UnknownSkyIsHalfCloudy(sky: real)
    requires SkyText(sky) == UnknownSky
    ensures CloudAmount(sky) == 50
  {
  }

  datatype Condition = Condition(text: string, color: string)

  const Optimal := Condition("🌟 관측 최적", "#4ade80")
  const Possible := Condition("👍 관측 가능", "#facc15")
  const Unsuitable := Condition("⚠️ 관측 부적합", "#fb923c")

  /**
   * `getWeatherCondition`: optimal with at most 30 percent cloud and at
   * most 70 percent humidity, else possible with at most 50 and 80, else
   * unsuitable.
   */
  function WeatherCondition(sky: real, humidity: real): (c: Condition)
    ensures c in {Optimal, Possible, Unsuitable}
    ensures c == Optimal <==> CloudAmount(sky) <= 30 && humidity <= 70.0
    ensures c == Possible <==> !(CloudAmount(sky) <= 30 && humidity <= 70.0) && CloudAmount(sky) <= 50 && humidity <= 80.0
  {
    var cloudAmount := CloudAmount(sky);
    if cloudAmount <= 30 && humidity <= 70.0 then Optimal
    else if cloudAmount <= 50 && humidity <= 80.0 then Possible
    else Unsuitable
  }

  /** Read by sky code: only a clear sky can be optimal, overcast and mostly cloudy skies never pass. */
  lemma ConditionBySky(sky: real, humidity: real)
    ensures WeatherCondition(sky, humidity) == Optimal <==> sky == 1.0 && humidity <= 70.0
    ensures sky == 3.0 || sky == 4.0 ==> WeatherCondition(sky, humidity) == Unsuitable
    ensures sky !in {1.0, 3.0, 4.0} ==>
      (WeatherCondition(sky, humidity) == Possible <==> humidity <= 80.0)
  {
  }

  datatype WeatherInfo = WeatherInfo(sky: real, temperature: real, humidity: real)

  /**
   * The celestial part: the moon's phase name, illumination and altitude,
   * the Milky Way centre's altitude and azimuth (`None` shows as NaN), the
   * score with its colour (green from 50), the progress bar's width and
   * colour, and the verdict line.
   */
  datatype CelestialView = CelestialView(
    moonPhase: string,
    moonIllumination: real,
    moonAltitude: real,
    milkyWayAltitude: real,
    milkyWayAzimuth: Option<real>,
    score: real,
    scoreColor: string,
    barWidth: real,
    barColor: string,
    verdict: string)

  /** The weather part: sky text, cloud amount, temperature, humidity and the condition. */
  datatype WeatherView = WeatherView(skyText: string, cloudAmount: int, temperature: real, humidity: real, condition: Condition)

  datatype View =
    | Hint(text: string)
    | Panel(lat: string, lng: string, loading: bool, celestial: Option<CelestialView>, weather: Option<WeatherView>)

  const HintText := "지도를 클릭하여 관측 장소를 선택하세요"

  function CelestialViewOf(info: Astronomy.CelestialInfo): (v: CelestialView)
    ensures v.moonPhase == info.moonPhase && v.moonIllumination == info.moonIllumination
    ensures v.moonAltitude == info.moonAltitude
    ensures v.milkyWayAltitude == info.milkyWayCenterAltitude && v.milkyWayAzimuth == info.milkyWayCenterAzimuth
    ensures v.score == info.observationScore && v.barWidth == info.observationScore
    ensures v.scoreColor == (if info.observationScore >= 50.0 then "#4ade80" else "#fb923c")
    ensures v.barColor == (if info.observationScore >= 50.0 then "#22c55e" else "#f97316")
    ensures v.verdict == (if info.isGoodForObservation then "✅ 은하수 관측에 적합합니다" else "⚠️ 은하수 관측에 부적합합니다")
  {
    var good := info.observationScore >= 50.0;
    CelestialView(
      info.moonPhase, info.moonIllumination, info.moonAltitude,
      info.milkyWayCenterAltitude, info.milkyWayCenterAzimuth,
      info.observationScore,
      if good then "#4ade80" else "#fb923c",
      info.observationScore,
      if good then "#22c55e" else "#f97316",
      if info.isGoodForObservation then "✅ 은하수 관측에 적합합니다" else "⚠️ 은하수 관측에 부적합합니다")
  }

  /**
   * `InfoPanel`: with no selected location only the hint; otherwise the
   * coordinates at five decimals, the celestial part when there is
   * celestial information and the weather part when there is weather,
   * each on its own.
   */
  function Render(selected: Option<(real, real)>, celestial: Option<Astronomy.CelestialInfo>,
                  weather: Option<WeatherInfo>, loading: bool): (v: View)
    ensures selected.None? ==> v == Hint(HintText)
    ensures selected.Some? ==>
      v.Panel? && v.lat == ToFixed(selected.value.0, 5) && v.lng == ToFixed(selected.value.1, 5) && v.loading == loading
      && (v.celestial.Some? <==> celestial.Some?) && (v.weather.Some? <==> weather.Some?)
      && (celestial.Some? ==> v.celestial.value == CelestialViewOf(celestial.value))
      && (weather.Some? ==>
            var w := weather.value;
            v.weather.value == WeatherView(SkyText(w.sky), CloudAmount(w.sky), w.temperature, w.humidity,
                                           WeatherCondition(w.sky, w.humidity)))
  {
    match selected
    case None => Hint(HintText)
    case Some(p) =>
      Panel(ToFixed(p.0, 5), ToFixed(p.1, 5), loading,
            if celestial.Some? then Some(CelestialViewOf(celestial.value)) else None,
            if weather.Some? then
              var w := weather.value;
              Some(WeatherView(SkyText(w.sky), CloudAmount(w.sky), w.temperature, w.humidity, WeatherCondition(w.sky, w.humidity)))
            else None)
  }

  /**
   * Since `calculateCelestialInfo` always reports a score of 0 and "not
   * good", the panel always paints the score orange and calls the site
   * unsuitable for the Milky Way.
   */
  lemma CelestialAlwaysUnsuitable(lat: real, lng: real, dateMs: int, eph: Astronomy.Ephemeris, trig: Astronomy.Trig)
    ensures var v := CelestialViewOf(Astronomy.CalculateCelestialInfo(lat, lng, dateMs, eph, trig));
      v.scoreColor == "#fb923c" && v.verdict == "⚠️ 은하수 관측에 부적합합니다"
  {
  }

  /**
   * The moon's and the Milky Way centre's altitudes the panel shows are
   * whole tenths of a degree, and the illumination a whole percentage.
   */
  lemma CelestialViewShowsTenths(lat: real, lng: real, dateMs: int, eph: Astronomy.Ephemeris, trig: Astronomy.Trig)
    ensures var v := CelestialViewOf(Astronomy.CalculateCelestialInfo(lat, lng, dateMs, eph, trig));
      (v.moonAltitude * 10.0).Floor as real == v.moonAltitude * 10.0
      && (v.milkyWayAltitude * 10.0).Floor as real == v.milkyWayAltitude * 10.0
      && v.moonIllumination.Floor as real == v.moonIllumination
  {
    var info := Astronomy.CalculateCelestialInfo(lat, lng, dateMs, eph, trig);
    var w := Astronomy.WindowOf(eph, dateMs);
    var t := Astronomy.ObservationInstant(w, dateMs);
    if eph.moonHorizon(t).Some? && eph.moonFraction(t).Some? && eph.moonPhase(t).Some? {
      var gc := Astronomy.EquatorialToHorizontal(Astronomy.GalacticCentreRa, Astronomy.GalacticCentreDec, t, lat, lng, trig);
      assert info.moonAltitude == Astronomy.RoundTenth(eph.moonHorizon(t).value.0);
      assert info.milkyWayCenterAltitude == Astronomy.RoundTenth(gc.altitude);
    }
  }
}
