/**
 * Client-side astronomy (lib/astronomy.ts): the moon-phase name by phase
 * angle, the observation window around twilight, the representative
 * instant, the hour angle and azimuth of the galactic centre, and the
 * record `calculateCelestialInfo` returns, with its fallback.
 *
 * The ephemeris library (rise/set searches, the moon's position,
 * illumination and phase) and the trigonometric functions are parameters;
 * instants are milliseconds since the epoch.
 */
module Astronomy {
  import opened Js

  // ------------------------------------------------------------ phase names

  /** The eight names, indexed by the nearest multiple of 45 degrees. */
  const PhaseNames: seq<string> :=
    ["🌑 삭", "🌒 초승달", "🌓 상현달", "🌔 상현망", "🌕 보름달", "🌖 하현망", "🌗 하현달", "🌘 그믐달"]

  /**
   * `getMoonPhaseName`: 45-degree bins centred on the multiples of 45, so
   * an angle in [0, 360) is named after its nearest multiple of 45, and the
   * two ends of the circle are both the new moon.
   */
  function MoonPhaseName(phase: real): (name: string)
    ensures name in PhaseNames
    ensures 0.0 <= phase < 360.0 ==> name == PhaseNames[Round(phase / 45.0) % 8]
    ensures phase < 22.5 || phase >= 337.5 ==> name == PhaseNames[0]
  {
    if phase < 22.5 then PhaseNames[0]
    else if phase < 67.5 then PhaseNames[1]
    else if phase < 112.5 then PhaseNames[2]
    else if phase < 157.5 then PhaseNames[3]
    else if phase < 202.5 then PhaseNames[4]
    else if phase < 247.5 then PhaseNames[5]
    else if phase < 292.5 then PhaseNames[6]
    else if phase < 337.5 then PhaseNames[7]
    else PhaseNames[0]
  }

  // ----------------------------------------------------- observation window

  /** How a `SearchRiseSet` call ended: an event, `null`, or an exception. */
  datatype Search = Found(t: int) | NoEvent | Throws

  /** The ninety minutes between sunset or sunrise and astronomical twilight. */
  const TwilightMs := 5400000

  datatype Window = Window(start: Option<int>, end: Option<int>)

  /**
   * `calculateObservationTime`: start is ninety minutes after the sunset
   * found from the date, end ninety minutes before the sunrise found from
   * the next day; a search that finds nothing leaves its bound null.  Both
   * searches sit in one `try`, so a throw in the sunset search skips the
   * sunrise search and leaves both null, while a throw in the sunrise
   * search keeps the start already found.
   */
  function ObservationTime(sunset: Search, sunrise: Search): (w: Window)
    ensures sunset.Throws? ==> w == Window(None, None)
    ensures !sunset.Throws? ==> (w.start.Some? <==> sunset.Found?)
    ensures sunset.Found? ==> w.start == Some(sunset.t + TwilightMs)
    ensures !sunset.Throws? ==> (w.end.Some? <==> sunrise.Found?)
    ensures !sunset.Throws? && sunrise.Found? ==> w.end == Some(sunrise.t - TwilightMs)
  {
    if sunset.Throws? then Window(None, None)
    else
      var start := if sunset.Found? then Some(sunset.t + TwilightMs) else None;
      if sunrise.Throws? then Window(start, None)
      else Window(start, if sunrise.Found? then Some(sunrise.t - TwilightMs) else None)
  }

  /**
   * The window read against the sun: when both events are found, it starts
   * ninety minutes after sunset and ends ninety minutes before sunrise, so
   * it is three hours shorter than the night and empty when the night is
   * shorter than three hours.
   */
  lemma WindowSpan(sunsetMs: int, sunriseMs: int)
    ensures var w := ObservationTime(Found(sunsetMs), Found(sunriseMs));
      w.end.value - w.start.value == (sunriseMs - sunsetMs) - 2 * TwilightMs
  {
  }

  /** The hour the representative instant lies after the start of the window. */
  const HourMs := 3600000
  const HalfDayMs := 43200000

  /**
   * The representative instant of `calculateCelestialInfo`: an hour after
   * the window opens, or twelve hours after the given date when it has no
   * start.
   */
  function ObservationInstant(w: Window, dateMs: int): (t: int)
    ensures w.start.Some? ==> t == w.start.value + HourMs
    ensures w.start.None? ==> t == dateMs + HalfDayMs
  {
    match w.start
    case Some(s) => s + HourMs
    case None => dateMs + HalfDayMs
  }

  /** With a sunset found, the instant is two and a half hours after it, whatever the sunrise search did. */
  lemma InstantAfterSunset(sunsetMs: int, sunrise: Search, dateMs: int)
    ensures ObservationInstant(ObservationTime(Found(sunsetMs), sunrise), dateMs) == sunsetMs + TwilightMs + HourMs
  {
  }

  // ------------------------------------------------- horizontal coordinates

  /** Greenwich mean sidereal time in degrees, as the source writes it (not yet reduced). */
  function Gmst(ms: int): real
  {
    var jd := ms as real / 86400000.0 + 2440587.5;
    var t := (jd - 2451545.0) / 36525.0;
    280.46061837 + 360.98564736629 * (jd - 2451545.0) + t * t * (0.000387933 - t / 38710000.0)
  }

  /**
   * The local sidereal time `(GMST + lng) % 360`: the JavaScript remainder
   * keeps the sign of the dividend, so west of a negative GMST it is
   * negative.
   */
  function Lst(ms: int, lng: real): (lst: real)
    ensures -360.0 < lst < 360.0
    ensures Gmst(ms) + lng >= 0.0 ==> lst >= 0.0
    ensures Gmst(ms) + lng < 0.0 ==> lst <= 0.0
  {
    RealRem(Gmst(ms) + lng, 360.0)
  }

  /** `(LST − 15·ra + 360) % 360`, with `ra` in hours. */
  function HourAngle(lst: real, ra: real): (ha: real)
    ensures -360.0 < ha < 360.0
    ensures lst - ra * 15.0 + 360.0 >= 0.0 ==> 0.0 <= ha
  {
    RealRem(lst - ra * 15.0 + 360.0, 360.0)
  }

  /**
   * The hour angle differs from its dividend by a whole number of turns, so
   * a negative result names the same direction as the angle in [0, 360)
   * that a floored remainder would have given: the sine and cosine the
   * source takes of it are unaffected.
   */
  lemma HourAngleWholeTurns(lst: real, ra: real)
    ensures var d := lst - ra * 15.0 + 360.0;
      d - HourAngle(lst, ra) == 360.0 * Trunc(d / 360.0) as real
  {
    var d := lst - ra * 15.0 + 360.0;
    assert (d - RealRem(d, 360.0)) / 360.0 == Trunc(d / 360.0) as real;
  }

  /** A negative LST with the galactic centre's right ascension gives a negative hour angle. */
  lemma NegativeHourAngle()
    ensures HourAngle(-350.0, GalacticCentreRa) < 0.0
  {
    assert -350.0 - GalacticCentreRa * 15.0 + 360.0 < 0.0;
  }

  /** Sagittarius A*: right ascension 17h 45m 40s, declination −29° 0′ 28″. */
  const GalacticCentreRa: real := 17.0 + 45.0 / 60.0 + 40.0 / 3600.0
  const GalacticCentreDec: real := -(29.0 + 0.0 / 60.0 + 28.0 / 3600.0)

  /**
   * The trigonometric functions in degrees: the source converts to radians
   * and back around `Math.sin`, `Math.cos`, `Math.asin` and `Math.acos`.
   */
  datatype Trig = Trig(sin: real -> real, cos: real -> real, asin: real -> real, acos: real -> real)

  /**
   * `Math.max(-1, Math.min(1, num / den))`, with `None` for NaN: a zero
   * denominator gives ±Infinity, which the clamp turns into ±1, unless the
   * numerator is zero too.
   */
  function ClampedCosine(num: real, den: real): (c: Option<real>)
    ensures c.None? <==> num == 0.0 && den == 0.0
    ensures c.Some? ==> -1.0 <= c.value <= 1.0
    ensures den != 0.0 ==> c == Some(Clamp(num / den, -1.0, 1.0))
    ensures den == 0.0 && num > 0.0 ==> c == Some(1.0)
    ensures den == 0.0 && num < 0.0 ==> c == Some(-1.0)
  {
    if den != 0.0 then Some(Clamp(num / den, -1.0, 1.0))
    else if num > 0.0 then Some(1.0)
    else if num < 0.0 then Some(-1.0)
    else None
  }

  /**
   * The azimuth: `acos` of the clamped cosine, reflected to `360 − az` when
   * the sine of the hour angle is positive.  NaN stays NaN.  Whenever `acos`
   * yields an angle in [0, 180], the azimuth lies in [0, 360].
   */
  function Azimuth(cosAz: Option<real>, sinHa: real, acos: real -> real): (az: Option<real>)
    ensures az.Some? <==> cosAz.Some?
    ensures az.Some? && sinHa > 0.0 ==> az.value == 360.0 - acos(cosAz.value)
    ensures az.Some? && sinHa <= 0.0 ==> az.value == acos(cosAz.value)
    ensures az.Some? && 0.0 <= acos(cosAz.value) <= 180.0 ==> 0.0 <= az.value <= 360.0
  {
    match cosAz
    case None => None
    case Some(c) => if sinHa > 0.0 then Some(360.0 - acos(c)) else Some(acos(c))
  }

  datatype Horizontal = Horizontal(altitude: real, azimuth: Option<real>)

  /**
   * `equatorialToHorizontal`: the altitude from the spherical-triangle
   * sine, and the azimuth from the clamped cosine and the side of the
   * meridian the hour angle puts the body on.
   */
  function EquatorialToHorizontal(ra: real, dec: real, ms: int, lat: real, lng: real, trig: Trig): Horizontal
  {
    var ha := HourAngle(Lst(ms, lng), ra);
    var sinAlt := trig.sin(dec) * trig.sin(lat) + trig.cos(dec) * trig.cos(lat) * trig.cos(ha);
    var altitude := trig.asin(sinAlt);
    var cosAz := ClampedCosine(trig.sin(dec) - trig.sin(lat) * sinAlt, trig.cos(lat) * trig.cos(altitude));
    Horizontal(altitude, Azimuth(cosAz, trig.sin(ha), trig.acos))
  }

  // --------------------------------------------------------- celestial info

  /** `Math.round(x * 10) / 10`. */
  function RoundTenth(x: real): (r: real)
    ensures Abs(r - x) <= 0.05
    ensures (r * 10.0).Floor as real == r * 10.0
  {
    Round(x * 10.0) as real / 10.0
  }

  /** The record `calculateCelestialInfo` returns; instants are epoch milliseconds. */
  datatype CelestialInfo = CelestialInfo(
    moonAltitude: real,
    moonAzimuth: real,
    moonIllumination: real,
    moonPhase: string,
    moonRise: Option<int>,
    moonSet: Option<int>,
    milkyWayCenterAltitude: real,
    milkyWayCenterAzimuth: Option<real>,
    isGoodForObservation: bool,
    observationScore: real,
    observationStartTime: Option<int>,
    observationEndTime: Option<int>)

  /** The record returned when the computation throws. */
  const DefaultInfo := CelestialInfo(0.0, 0.0, 0.0, "—", None, None, 0.0, Some(0.0), false, 0.0, None, None)

  /**
   * The ephemeris library: the rise/set search from an instant (direction
   * +1 for a rise, −1 for a set), the moon's apparent altitude and azimuth,
   * its illuminated fraction and its phase angle at an instant, `None`
   * where the library throws, and the calendar's next day of an instant.
   */
  datatype Ephemeris = Ephemeris(
    sunSearch: (int, int) -> Search,
    moonSearch: (int, int) -> Search,
    moonHorizon: int -> Option<(real, real)>,
    moonFraction: int -> Option<real>,
    moonPhase: int -> Option<real>,
    nextDay: int -> int)

  /** The inner `try` around the moon's rise and set, shaped like the window's. */
  function MoonTimes(rise: Search, setting: Search): (rs: (Option<int>, Option<int>))
    ensures rise.Throws? ==> rs == (None, None)
    ensures !rise.Throws? ==> (rs.0.Some? <==> rise.Found?) && (rise.Found? ==> rs.0 == Some(rise.t))
    ensures !rise.Throws? ==> (rs.1.Some? <==> setting.Found?) && (setting.Found? ==> rs.1 == Some(setting.t))
  {
    if rise.Throws? then (None, None)
    else
      var r := if rise.Found? then Some(rise.t) else None;
      (r, if setting.Found? then Some(setting.t) else None)
  }

  /** The window of a date, searching sunset from it and sunrise from the next day. */
  function WindowOf(eph: Ephemeris, dateMs: int): Window
  {
    var sunset := eph.sunSearch(-1, dateMs);
    ObservationTime(sunset, if sunset.Throws? then NoEvent else eph.sunSearch(1, eph.nextDay(dateMs)))
  }

  /**
   * `calculateCelestialInfo`: the default record when the moon's position,
   * illumination or phase throws; otherwise the moon at the representative
   * instant, rounded to tenths (illumination to a whole percent), the
   * galactic centre's position, the window, and an observation score of 0
   * with "not good": the score is computed elsewhere.
   */
  function CalculateCelestialInfo(lat: real, lng: real, dateMs: int, eph: Ephemeris, trig: Trig): (info: CelestialInfo)
    ensures var t := ObservationInstant(WindowOf(eph, dateMs), dateMs);
      eph.moonHorizon(t).None? || eph.moonFraction(t).None? || eph.moonPhase(t).None? ==> info == DefaultInfo
    ensures var w := WindowOf(eph, dateMs);
      var t := ObservationInstant(w, dateMs);
      eph.moonHorizon(t).Some? && eph.moonFraction(t).Some? && eph.moonPhase(t).Some? ==>
        (info.observationScore == 0.0 && !info.isGoodForObservation
         && info.observationStartTime == w.start && info.observationEndTime == w.end
         && info.moonAltitude == RoundTenth(eph.moonHorizon(t).value.0)
         && info.moonAzimuth == RoundTenth(eph.moonHorizon(t).value.1)
         && Abs(info.moonAltitude - eph.moonHorizon(t).value.0) <= 0.05
         && Abs(info.moonAzimuth - eph.moonHorizon(t).value.1) <= 0.05
         && info.moonIllumination == Round(eph.moonFraction(t).value * 100.0) as real
         && info.moonPhase == MoonPhaseName(eph.moonPhase(t).value)
         && (info.moonRise, info.moonSet) == MoonTimes(eph.moonSearch(1, t), eph.moonSearch(-1, t)))
    ensures var t := ObservationInstant(WindowOf(eph, dateMs), dateMs);
      var gc := EquatorialToHorizontal(GalacticCentreRa, GalacticCentreDec, t, lat, lng, trig);
      eph.moonHorizon(t).Some? && eph.moonFraction(t).Some? && eph.moonPhase(t).Some? ==>
        (info.milkyWayCenterAltitude == RoundTenth(gc.altitude)
         && Abs(info.milkyWayCenterAltitude - gc.altitude) <= 0.05
         && (info.milkyWayCenterAzimuth.Some? <==> gc.azimuth.Some?)
         && (gc.azimuth.Some? ==> info.milkyWayCenterAzimuth == Some(RoundTenth(gc.azimuth.value))))
    ensures !info.isGoodForObservation && info.observationScore == 0.0
  {
    var w := WindowOf(eph, dateMs);
    var t := ObservationInstant(w, dateMs);
    var hor, fraction, phase := eph.moonHorizon(t), eph.moonFraction(t), eph.moonPhase(t);
    if hor.None? || fraction.None? || phase.None? then DefaultInfo
    else
      var rise := eph.moonSearch(1, t);
      var moon := MoonTimes(rise, if rise.Throws? then NoEvent else eph.moonSearch(-1, t));
      var gc := EquatorialToHorizontal(GalacticCentreRa, GalacticCentreDec, t, lat, lng, trig);
      CelestialInfo(
        RoundTenth(hor.value.0), RoundTenth(hor.value.1), Round(fraction.value * 100.0) as real,
        MoonPhaseName(phase.value), moon.0, moon.1,
        RoundTenth(gc.altitude), if gc.azimuth.Some? then Some(RoundTenth(gc.azimuth.value)) else None,
        false, 0.0, w.start, w.end)
  }
}
