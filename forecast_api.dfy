/**
 * The forecast tab's scoring (lib/forecastApi.ts): a night's forecast is
 * turned into a cloud, transparency, moon and light-pollution subscore,
 * blended into the composite CSI, shown as half-star ratings and a one-line
 * summary.  Also the moon-phase approximation, the visibility estimate, the
 * field defaulting of a fetched forecast and the date picker's options.
 */
module ForecastApi {
  import opened Js
  import opened Text
  import opened KmaTime
  import opened ObservationTypes

  // ------------------------------------------------------------- moon helpers

  /** Length of a synodic month in days, as the app approximates it. */
  const LunarCycle: real := 29.53059

  /**
   * `calculateMoonPhase`: days since the new moon of 6 January 2000 (local
   * midnight), modulo the lunar cycle, as a fraction of the cycle.  JS `%`
   * keeps the dividend's sign, so instants before that date give a
   * non-positive phase.
   */
  function MoonPhase(elapsedMs: int): (phase: real)
    ensures -1.0 < phase < 1.0
    ensures elapsedMs >= 0 ==> phase >= 0.0
    ensures elapsedMs < 0 ==> phase <= 0.0
  {
    RealRem(elapsedMs as real / DayMs as real, LunarCycle) / LunarCycle
  }

  function AbsInt(x: int): nat { if x < 0 then -x else x }

  /**
   * `estimateMoonAltitude`: a rough altitude in degrees from the local hour
   * and the phase, highest for a near-full moon at 21 h, below the horizon
   * for a near-new moon.
   */
  function EstimateMoonAltitude(hour: int, phase: real): (alt: real)
    ensures alt <= 60.0
    ensures 0.4 < phase < 0.6 ==> alt == 60.0 - 5.0 * AbsInt(hour - 21) as real
    ensures !(0.4 < phase < 0.6) && (phase < 0.1 || phase > 0.9) ==> alt == -20.0
  {
    var hourDiff := AbsInt(hour - 21) as real;
    if 0.4 < phase < 0.6 then 60.0 - hourDiff * 5.0
    else if phase < 0.1 || phase > 0.9 then -20.0
    else (30.0 - Abs(0.5 - phase) * 100.0) - hourDiff * 3.0
  }

  /** For a fixed phase, no hour gives a higher estimate than 21 h. */
  lemma MoonAltitudePeaksAt21(hour: int, phase: real)
    ensures EstimateMoonAltitude(hour, phase) <= EstimateMoonAltitude(21, phase)
  {
  }

  // --------------------------------------------------------- fetched forecast

  /** The numeric fields of the forecast route's JSON; `None` is missing or NaN. */
  datatype ForecastPayload = ForecastPayload(
    temperature: Option<real>,
    humidity: Option<real>,
    cloudCover: Option<real>,
    windSpeed: Option<real>,
    precipitation: Option<real>)

  /**
   * The visibility estimate of `fetchForecast`: 15 km, cut to 5 km above 80 %
   * humidity or 10 km above 60 %, and to 3 km when the precipitation chance
   * exceeds 50 %.  A missing value fails every comparison.
   */
  function EstimateVisibility(humidity: Option<real>, precipitation: Option<real>): (v: real)
    ensures v == 15000.0 || v == 10000.0 || v == 5000.0 || v == 3000.0
    ensures precipitation.Some? && precipitation.value > 50.0 ==> v == 3000.0
    ensures !(precipitation.Some? && precipitation.value > 50.0) ==>
      (v == 5000.0 <==> humidity.Some? && humidity.value > 80.0)
      && (v == 10000.0 <==> humidity.Some? && 60.0 < humidity.value <= 80.0)
      && (v == 15000.0 <==> !(humidity.Some? && humidity.value > 60.0))
  {
    var byHumidity :=
      if humidity.Some? && humidity.value > 80.0 then 5000.0
      else if humidity.Some? && humidity.value > 60.0 then 10000.0
      else 15000.0;
    if precipitation.Some? && precipitation.value > 50.0 then Min(byHumidity, 3000.0) else byHumidity
  }

  /** More humidity never gives a longer visibility estimate. */
  lemma EstimateVisibilityMonotone(h1: real, h2: real, p: Option<real>)
    requires h1 <= h2
    ensures EstimateVisibility(Some(h2), p) <= EstimateVisibility(Some(h1), p)
  {
  }

  /**
   * The record `fetchForecast` returns on success: each field `x || default`
   * (temperature 10, humidity 50, cloud cover 50, wind 2, precipitation 0),
   * the estimated visibility, and the moon phase and altitude of 21 h on the
   * requested date.
   */
  function NormaliseForecast(data: ForecastPayload, moonPhase: real, moonAltitude: real, timestamp: string): (raw: RawForecast)
    ensures raw.temperature != 0.0 && raw.humidity != 0.0 && raw.cloudCover != 0.0 && raw.windSpeed != 0.0
    ensures data.temperature.Some? && data.temperature.value != 0.0 ==> raw.temperature == data.temperature.value
    ensures data.temperature.None? || data.temperature.value == 0.0 ==> raw.temperature == 10.0
    ensures data.humidity.Some? && data.humidity.value != 0.0 ==> raw.humidity == data.humidity.value
    ensures data.humidity.None? || data.humidity.value == 0.0 ==> raw.humidity == 50.0
    ensures data.cloudCover.Some? && data.cloudCover.value != 0.0 ==> raw.cloudCover == data.cloudCover.value
    ensures data.cloudCover.None? || data.cloudCover.value == 0.0 ==> raw.cloudCover == 50.0
    ensures data.windSpeed.Some? && data.windSpeed.value != 0.0 ==> raw.windSpeed == data.windSpeed.value
    ensures data.windSpeed.None? || data.windSpeed.value == 0.0 ==> raw.windSpeed == 2.0
    ensures data.precipitation.Some? ==> raw.precipitation == data.precipitation.value
    ensures data.precipitation.None? ==> raw.precipitation == 0.0
    ensures raw.visibility == EstimateVisibility(data.humidity, data.precipitation)
    ensures raw.moonPhase == moonPhase && raw.moonAltitude == moonAltitude && raw.timestamp == timestamp
  {
    RawForecast(
      OrNum(data.temperature, 10.0),
      OrNum(data.humidity, 50.0),
      OrNum(data.cloudCover, 50.0),
      OrNum(data.windSpeed, 2.0),
      EstimateVisibility(data.humidity, data.precipitation),
      OrNum(data.precipitation, 0.0),
      moonPhase,
      moonAltitude,
      timestamp)
  }

  /** The sum `reduce((a, b) => a + parseInt(b), 0)` of the date's numeric parts. */
  function SumParts(parts: seq<int>): int
  {
    if |parts| == 0 then 0 else SumParts(parts[..|parts| - 1]) + parts[|parts| - 1]
  }

  /**
   * The seed of the fallback forecast: the date hash plus
   * `floor(lat·10 + lng·10)`, under JavaScript's sign-keeping `% 100`.
   */
  function MockSeed(dateParts: seq<int>, lat: real, lng: real): (seed: int)
    ensures -100 < seed < 100
    ensures SumParts(dateParts) + (lat * 10.0 + lng * 10.0).Floor >= 0 ==> seed >= 0
  {
    IntRem(SumParts(dateParts) + (lat * 10.0 + lng * 10.0).Floor, 100)
  }

  /**
   * The fallback record `fetchForecast` returns when the request or its
   * JSON fails: every weather field spread from the seed, the moon fields
   * computed as on success.
   */
  function MockForecast(seed: int, moonPhase: real, moonAltitude: real, timestamp: string): (raw: RawForecast)
    requires -100 < seed < 100
    ensures raw.cloudCover == seed as real
    ensures seed >= 0 ==>
      10.0 <= raw.temperature < 30.0 && 30.0 <= raw.humidity < 80.0
      && 0.0 <= raw.windSpeed <= 7.0 && 5000.0 <= raw.visibility <= 14000.0
    ensures seed <= 70 ==> raw.precipitation == 0.0
    ensures seed > 70 ==> 0.0 <= raw.precipitation < 1.0
    ensures raw.moonPhase == moonPhase && raw.moonAltitude == moonAltitude
  {
    var r20, r50, r15, r10 := IntRem(seed, 20), IntRem(seed, 50), IntRem(seed, 15), IntRem(seed, 10);
    assert IntRem(seed, 100) == seed;
    assert seed >= 0 ==> 0 <= r10 <= 9 && 0 <= r15 <= 14;
    RawForecast(
      (10 + r20) as real,
      (30 + r50) as real,
      IntRem(seed, 100) as real,
      r15 as real / 2.0,
      (5000 + r10 * 1000) as real,
      if seed > 70 then r10 as real / 10.0 else 0.0,
      moonPhase,
      moonAltitude,
      timestamp)
  }

  /** What the forecast route's request came to: its JSON, or a thrown error. */
  datatype ForecastFetch = Payload(data: ForecastPayload) | Failed

  /** The hour `new Date(date + "T21:00:00")` reads in local time. */
  const TargetHour: int := 21

  /**
   * `fetchForecast`: the normalised payload, or on any failure the mock
   * record seeded from the date and position; it never throws.  Either way
   * the moon fields are those of 21 h local time on the requested date,
   * whose distance in milliseconds from the reference new moon is
   * `targetElapsedMs`.
   */
  function FetchForecast(fetched: ForecastFetch, dateParts: seq<int>, lat: real, lng: real,
                         targetElapsedMs: int, timestamp: string): (raw: RawForecast)
    ensures raw.moonPhase == MoonPhase(targetElapsedMs)
    ensures raw.moonAltitude == EstimateMoonAltitude(TargetHour, MoonPhase(targetElapsedMs))
    ensures fetched.Payload? ==> raw == NormaliseForecast(fetched.data, raw.moonPhase, raw.moonAltitude, timestamp)
    ensures fetched.Failed? ==> raw == MockForecast(MockSeed(dateParts, lat, lng), raw.moonPhase, raw.moonAltitude, timestamp)
  {
    var moonPhase := MoonPhase(targetElapsedMs);
    var moonAltitude := EstimateMoonAltitude(TargetHour, moonPhase);
    match fetched
    case Payload(data) => NormaliseForecast(data, moonPhase, moonAltitude, timestamp)
    case Failed => MockForecast(MockSeed(dateParts, lat, lng), moonPhase, moonAltitude, timestamp)
  }

  /** At 21 h a near-full moon stands at 60 degrees and a near-new one below the horizon. */
  lemma FetchedMoonAt21(fetched: ForecastFetch, dateParts: seq<int>, lat: real, lng: real,
                        targetElapsedMs: int, timestamp: string)
    ensures var raw := FetchForecast(fetched, dateParts, lat, lng, targetElapsedMs, timestamp);
      (0.4 < raw.moonPhase < 0.6 ==> raw.moonAltitude == 60.0)
      && (raw.moonPhase < 0.1 ==> raw.moonAltitude == -20.0)
      && (targetElapsedMs < 0 ==> raw.moonAltitude == -20.0)
  {
  }

  /**
   * In Korea (both coordinates positive) with a real date the fallback is a
   * plausible night: its cloud cover is a percentage and its other fields
   * lie in the mock's ranges.
   */
  lemma MockForecastInKorea(dateParts: seq<int>, lat: real, lng: real, targetElapsedMs: int, timestamp: string)
    requires forall k :: 0 <= k < |dateParts| ==> dateParts[k] >= 0
    requires lat >= 0.0 && lng >= 0.0
    ensures var raw := FetchForecast(Failed, dateParts, lat, lng, targetElapsedMs, timestamp);
      0.0 <= raw.cloudCover < 100.0 && 10.0 <= raw.temperature < 30.0 && 5000.0 <= raw.visibility <= 14000.0
  {
    SumPartsNonNegative(dateParts);
  }

  lemma {:induction false} SumPartsNonNegative(parts: seq<int>)
    requires forall k :: 0 <= k < |parts| ==> parts[k] >= 0
    ensures SumParts(parts) >= 0
  {
    if |parts| > 0 {
      SumPartsNonNegative(parts[..|parts| - 1]);
    }
  }

  // ---------------------------------------------------------------- subscores

  /** `calculateCloudScore`: the clear-sky percentage, clamped to [0, 100]. */
  function CloudScore(cloudCover: real): (s: real)
    ensures 0.0 <= s <= 100.0
    ensures 0.0 <= cloudCover <= 100.0 ==> s == 100.0 - cloudCover
    ensures cloudCover <= 0.0 ==> s == 100.0
    ensures cloudCover >= 100.0 ==> s == 0.0
  {
    Max(0.0, Min(100.0, 100.0 - cloudCover))
  }

  /** More cloud never raises the cloud score. */
  lemma CloudScoreMonotone(c1: real, c2: real)
    requires c1 <= c2
    ensures CloudScore(c2) <= CloudScore(c1)
  {
  }

  /** The humidity term of the transparency score. */
  function HumidityTerm(humidity: real): (h: real)
    ensures h == 100.0 || h == 80.0 || h == 50.0 || h == 20.0
    ensures h == 20.0 <==> humidity > 80.0
    ensures h == 100.0 <==> humidity <= 40.0
  {
    if humidity > 80.0 then 20.0
    else if humidity > 60.0 then 50.0
    else if humidity > 40.0 then 80.0
    else 100.0
  }

  /** The visibility term of the transparency score. */
  function VisibilityTerm(visibility: real): (v: real)
    ensures v == 100.0 || v == 80.0 || v == 40.0 || v == 10.0
    ensures v == 10.0 <==> visibility < 1000.0
    ensures v == 100.0 <==> visibility >= 10000.0
  {
    if visibility < 1000.0 then 10.0
    else if visibility < 5000.0 then 40.0
    else if visibility < 10000.0 then 80.0
    else 100.0
  }

  /** `calculateTransparencyScore`: 30 % humidity term, 70 % visibility term, rounded. */
  function TransparencyScore(humidity: real, visibility: real): (t: int)
    ensures 13 <= t <= 100
    ensures t as real - 0.5 <= 0.3 * HumidityTerm(humidity) + 0.7 * VisibilityTerm(visibility) < t as real + 0.5
  {
    Round(HumidityTerm(humidity) * 0.3 + VisibilityTerm(visibility) * 0.7)
  }

  /** Transparency never improves with more humidity or with less visibility. */
  lemma TransparencyMonotone(h1: real, h2: real, v1: real, v2: real)
    requires h1 <= h2 && v2 <= v1
    ensures TransparencyScore(h2, v2) <= TransparencyScore(h1, v1)
  {
    RoundMonotone(HumidityTerm(h2) * 0.3 + VisibilityTerm(v2) * 0.7, HumidityTerm(h1) * 0.3 + VisibilityTerm(v1) * 0.7);
  }

  /** The altitude term of the moon score: 100 on or below the horizon. */
  function AltitudeTerm(moonAltitude: real): (a: real)
    ensures 0.0 <= a <= 100.0
    ensures moonAltitude <= 0.0 ==> a == 100.0
    ensures moonAltitude >= 50.0 ==> a == 0.0
  {
    if moonAltitude > 0.0 then Max(0.0, 100.0 - moonAltitude * 2.0) else 100.0
  }

  /**
   * `calculateMoonScore`: 100 for a moon below the horizon; otherwise the
   * rounded mean of a phase term `100 - 200·|phase|` and the altitude term.
   */
  function MoonScore(moonPhase: real, moonAltitude: real): (m: int)
    ensures moonAltitude < 0.0 ==> m == 100
    ensures moonAltitude >= 0.0 ==>
      m as real - 0.5 <= (100.0 - Abs(moonPhase) * 200.0 + AltitudeTerm(moonAltitude)) / 2.0 < m as real + 0.5
  {
    var phaseScore := 100.0 - Abs(moonPhase - 0.0) * 200.0;
    var altitudeScore := AltitudeTerm(moonAltitude);
    if moonAltitude < 0.0 then 100
    else Round((phaseScore + altitudeScore) / 2.0)
  }

  /** For a phase between new and full the moon score is a percentage. */
  lemma MoonScoreInRange(moonPhase: real, moonAltitude: real)
    requires 0.0 <= moonPhase <= 0.5
    ensures 0 <= MoonScore(moonPhase, moonAltitude) <= 100
  {
  }

  /** Past full moon the phase term goes negative, and so can the score. */
  lemma MoonScoreNegativeWhenWaning(moonPhase: real, moonAltitude: real)
    requires moonPhase >= 0.75 && moonAltitude >= 50.0
    ensures MoonScore(moonPhase, moonAltitude) <= -25
  {
  }

  /** A concrete case: a phase of 1.0 with the moon at 50 degrees scores -50. */
  lemma MoonScoreExample()
    ensures MoonScore(1.0, 50.0) == -50
  {
  }

  /** The capital-region box (Seoul, Incheon, Gyeonggi). */
  predicate InCapitalBox(p: LatLng)
  {
    37.0 <= p.lat <= 37.8 && 126.5 <= p.lng <= 127.5
  }

  /** The Busan, Daegu and Gwangju boxes. */
  predicate InMetroBox(p: LatLng)
  {
    (35.0 <= p.lat <= 35.3 && 129.0 <= p.lng <= 129.3)
    || (35.8 <= p.lat <= 36.0 && 128.5 <= p.lng <= 128.7)
    || (35.1 <= p.lat <= 35.2 && 126.8 <= p.lng <= 126.9)
  }

  /** The band of mid-sized cities, 36-38 N and 126-130 E. */
  predicate InMidCityBand(p: LatLng)
  {
    36.0 <= p.lat <= 38.0 && 126.0 <= p.lng <= 130.0
  }

  /** `calculateLightPollutionScore`: the first matching region decides. */
  function LightPollutionScore(p: LatLng): (s: int)
    ensures s == 20 <==> InCapitalBox(p)
    ensures s == 30 <==> !InCapitalBox(p) && InMetroBox(p)
    ensures s == 60 <==> !InCapitalBox(p) && !InMetroBox(p) && InMidCityBand(p)
    ensures s == 90 <==> !InCapitalBox(p) && !InMetroBox(p) && !InMidCityBand(p)
  {
    if InCapitalBox(p) then 20
    else if InMetroBox(p) then 30
    else if InMidCityBand(p) then 60
    else 90
  }

  // ------------------------------------------------------------ the composite

  /** `calculateCSI`: 40 % cloud, 25 % moon, 20 % light pollution, 15 % transparency. */
  function Csi(cloud: real, transparency: int, moon: int, lightPollution: int): (c: int)
    ensures c as real - 0.5 <= cloud * 0.4 + moon as real * 0.25 + lightPollution as real * 0.2 + transparency as real * 0.15 < c as real + 0.5
    ensures 0.0 <= cloud <= 100.0 && 0 <= transparency <= 100 && 0 <= moon <= 100 && 0 <= lightPollution <= 100 ==> 0 <= c <= 100
  {
    Round(cloud * 0.4 + moon as real * 0.25 + lightPollution as real * 0.2 + transparency as real * 0.15)
  }

  /** The weights sum to one: four equal subscores give that score back. */
  lemma CsiOfEqualScores(x: int)
    ensures Csi(x as real, x, x, x) == x
  {
  }

  /** The CSI never falls when one subscore rises. */
  lemma CsiMonotone(c1: real, t1: int, m1: int, l1: int, c2: real, t2: int, m2: int, l2: int)
    requires c1 <= c2 && t1 <= t2 && m1 <= m2 && l1 <= l2
    ensures Csi(c1, t1, m1, l1) <= Csi(c2, t2, m2, l2)
  {
    RoundMonotone(c1 * 0.4 + m1 as real * 0.25 + l1 as real * 0.2 + t1 as real * 0.15,
                  c2 * 0.4 + m2 as real * 0.25 + l2 as real * 0.2 + t2 as real * 0.15);
  }

  /** `csiToStars`: five stars for 100, rounded to the nearest half star. */
  function CsiToStars(csi: int): (stars: real)
    ensures (stars * 2.0).Floor as real == stars * 2.0
    ensures stars * 2.0 - 0.5 <= csi as real / 10.0 < stars * 2.0 + 0.5
    ensures 0 <= csi <= 100 ==> 0.0 <= stars <= 5.0
  {
    var s := (csi as real / 100.0) * 5.0;
    Round(s * 2.0) as real / 2.0
  }

  /** The one-line verdicts of `csiToSummary`. */
  datatype Summary = Optimal | Good | TooCloudy | TooBright | Average | Poor | Unsuitable

  function SummaryText(s: Summary): string
  {
    match s
    case Optimal => "🌟 최적의 관측 조건! 은하수를 선명하게 볼 수 있습니다."
    case Good => "👍 좋은 관측 조건입니다. 밝은 별과 은하수 일부가 보입니다."
    case TooCloudy => "☁️ 구름이 많아 관측이 어려울 수 있습니다."
    case TooBright => "🌙 달빛이 밝아 은하수 관측이 어렵습니다."
    case Average => "😐 보통 수준의 관측 조건입니다."
    case Poor => "⚠️ 관측 조건이 좋지 않습니다. 다른 날을 추천드립니다."
    case Unsuitable => "❌ 관측에 부적합합니다. 맑은 날을 기다려주세요."
  }

  /** `csiToSummary`: CSI bands at 80/60/40/20; clouds are blamed before the moon. */
  function CsiToSummary(csi: int, cloudScore: real, moonScore: int): Summary
  {
    if csi >= 80 then Optimal
    else if csi >= 60 then Good
    else if csi >= 40 then
      if cloudScore < 50.0 then TooCloudy
      else if moonScore < 50 then TooBright
      else Average
    else if csi >= 20 then Poor
    else Unsuitable
  }

  /** Each verdict holds exactly on its band; in the 40-59 band the cloud test comes first. */
  lemma SummaryBands(csi: int, cloudScore: real, moonScore: int)
    ensures var s := CsiToSummary(csi, cloudScore, moonScore);
      (s == Optimal <==> csi >= 80)
      && (s == Good <==> 60 <= csi < 80)
      && (s == TooCloudy <==> 40 <= csi < 60 && cloudScore < 50.0)
      && (s == TooBright <==> 40 <= csi < 60 && cloudScore >= 50.0 && moonScore < 50)
      && (s == Average <==> 40 <= csi < 60 && cloudScore >= 50.0 && moonScore >= 50)
      && (s == Poor <==> 20 <= csi < 40)
      && (s == Unsuitable <==> csi < 20)
  {
  }

  /**
   * `computeForecastScores`: every subscore, the CSI built from them, the
   * stars and the summary built from the CSI, and the raw record itself.
   */
  function ComputeForecastScores(raw: RawForecast, location: LatLng): (r: ForecastScores)
    ensures r.rawApiData == raw
    ensures r.cloudScore == CloudScore(raw.cloudCover)
    ensures r.moonScore == MoonScore(raw.moonPhase, raw.moonAltitude)
    ensures r.csi == Csi(r.cloudScore, r.transparencyScore, r.moonScore, r.lightPollutionScore)
    ensures r.ratingStars == CsiToStars(r.csi)
    ensures r.summary == SummaryText(CsiToSummary(r.csi, r.cloudScore, r.moonScore))
    ensures r.transparencyScore == TransparencyScore(raw.humidity, raw.visibility)
    ensures r.lightPollutionScore == LightPollutionScore(location)
    ensures 0.0 <= r.cloudScore <= 100.0 && 13 <= r.transparencyScore <= 100
    ensures r.lightPollutionScore in {20, 30, 60, 90}
    ensures raw.moonAltitude < 0.0 ==> r.moonScore == 100
    ensures raw.moonAltitude < 0.0 || 0.0 <= raw.moonPhase <= 0.5 ==>
      0 <= r.csi <= 100 && 0.0 <= r.ratingStars <= 5.0
  {
    var cloudScore := CloudScore(raw.cloudCover);
    var transparencyScore := TransparencyScore(raw.humidity, raw.visibility);
    var moonScore := MoonScore(raw.moonPhase, raw.moonAltitude);
    assert 0.0 <= raw.moonPhase <= 0.5 ==> 0 <= moonScore <= 100 by {
      if 0.0 <= raw.moonPhase <= 0.5 {
        MoonScoreInRange(raw.moonPhase, raw.moonAltitude);
      }
    }
    var lightPollutionScore := LightPollutionScore(location);
    var csi := Csi(cloudScore, transparencyScore, moonScore, lightPollutionScore);
    ForecastScores(
      cloudScore, transparencyScore, moonScore, lightPollutionScore, csi,
      CsiToStars(csi), SummaryText(CsiToSummary(csi, cloudScore, moonScore)), raw)
  }

  /** A forecast with the moon past full and high can yield a negative CSI. */
  lemma NegativeCsiExample()
    ensures Csi(0.0, 13, MoonScore(1.0, 50.0), 20) == -7
  {
    MoonScoreExample();
  }

  // ------------------------------------------------------------------- dates

  /** `formatDate`: `yyyy-MM-dd` in local time. */
  function FormatDate(c: Clock): (s: string)
    ensures |s| >= 7
    ensures c.month < 100 && c.day < 100 ==> s[|s| - 3] == '-' && s[|s| - 6] == '-'
  {
    NatToString(c.year) + "-" + Pad2(c.month) + "-" + Pad2(c.day)
  }

  /** A formatted valid date is ten characters with every field readable at its position. */
  lemma {:induction false} FormatDateFields(c: Clock)
    requires c.Valid()
    ensures var s := FormatDate(c);
      |s| == 10 && s[4] == '-' && s[7] == '-'
      && (forall k :: 0 <= k < 4 ==> IsDigit(s[k]))
      && (forall k :: 5 <= k < 7 ==> IsDigit(s[k]))
      && (forall k :: 8 <= k < 10 ==> IsDigit(s[k]))
      && DigitsValue(s[0..4]) == c.year
      && DigitsValue(s[5..7]) == c.month
      && DigitsValue(s[8..10]) == c.day
  {
    var y, m, d := NatToString(c.year), Pad2(c.month), Pad2(c.day);
    assert |y| == 4 && DigitsValue(y) == c.year by {
      NatToStringFourDigits(c.year);
      DigitsValueOfNatToString(c.year);
    }
    assert DigitsValue(m) == c.month by { Pad2Value(c.month); }
    assert DigitsValue(d) == c.day by { Pad2Value(c.day); }
    var s := FormatDate(c);
    assert s == y + "-" + m + "-" + d;
    assert s[0..4] == y && s[5..7] == m && s[8..10] == d;
  }

  /** The local date `i` days after today, with its weekday (0 = Sunday). */
  datatype CalendarDay = CalendarDay(clock: Clock, weekday: WeekdayIndex)

  /** `Date.getDay()`: 0 (Sunday) to 6 (Saturday). */
  type WeekdayIndex = w: nat | w < 7

  datatype DateOption = DateOption(value: string, dateLabel: string)

  const Weekdays: seq<string> := ["일", "월", "화", "수", "목", "금", "토"]

  /** The option `getDateOptions` pushes for day offset `i`. */
  function DateOptionFor(i: nat, day: CalendarDay): (o: DateOption)
    ensures o.value == FormatDate(day.clock)
    ensures i == 0 ==> o.dateLabel == "오늘"
    ensures i == 1 ==> o.dateLabel == "내일"
  {
    var caption :=
      if i == 0 then "오늘"
      else if i == 1 then "내일"
      else NatToString(day.clock.month) + "/" + NatToString(day.clock.day) + " (" + Weekdays[day.weekday] + ")";
    DateOption(FormatDate(day.clock), caption)
  }

  /** `f(0)`, ..., `f(n - 1)`, in order. */
  function Tabulate<T>(n: nat, f: nat -> T): (r: seq<T>)
    ensures |r| == n
  {
    if n == 0 then [] else Tabulate(n - 1, f) + [f(n - 1)]
  }

  /** Element `i` of a tabulation is `f(i)`. */
  lemma {:induction false} TabulateAt<T>(n: nat, f: nat -> T, i: nat)
    requires i < n
    ensures Tabulate(n, f)[i] == f(i)
  {
    if i < n - 1 {
      TabulateAt(n - 1, f, i);
    }
  }

  /**
   * `getDateOptions`: one option per day from today on; `dayAt(i)` is the
   * local calendar day `i` days after today (the `setDate` arithmetic).
   */
  method GetDateOptions(days: int, dayAt: nat -> CalendarDay) returns (options: seq<DateOption>)
    ensures |options| == if days < 0 then 0 else days
    ensures forall i :: 0 <= i < |options| ==> options[i] == DateOptionFor(i, dayAt(i))
    ensures forall i :: 0 <= i < |options| ==> options[i].value == FormatDate(dayAt(i).clock)
    ensures |options| > 0 ==> options[0].dateLabel == "오늘"
    ensures |options| > 1 ==> options[1].dateLabel == "내일"
  {
    options := [];
    ghost var optionAt := (k: nat) => DateOptionFor(k, dayAt(k));
    var i := 0;
    while i < days
      invariant 0 <= i <= (if days < 0 then 0 else days)
      invariant options == Tabulate(i, optionAt)
    {
      options := options + [DateOptionFor(i, dayAt(i))];
      i := i + 1;
    }
    forall k | 0 <= k < |options|
      ensures options[k] == DateOptionFor(k, dayAt(k))
    {
      TabulateAt(i, optionAt, k);
    }
    DateOptionsDescribeDays(options, dayAt);
  }

  /** Options built by `DateOptionFor` carry each day's date and start with today and tomorrow. */
  lemma DateOptionsDescribeDays(options: seq<DateOption>, dayAt: nat -> CalendarDay)
    requires forall i :: 0 <= i < |options| ==> options[i] == DateOptionFor(i, dayAt(i))
    ensures forall i :: 0 <= i < |options| ==> options[i].value == FormatDate(dayAt(i).clock)
    ensures |options| > 0 ==> options[0].dateLabel == "오늘"
    ensures |options| > 1 ==> options[1].dateLabel == "내일"
  {
  }
}
