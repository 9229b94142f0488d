/**
 * The moon fields of a snapshot (lib/astro.ts): the phase name binned from
 * the illuminated fraction and the phase angle, and the fallback when the
 * ephemeris throws.  The ephemeris values are inputs.
 */
module Astro {
  import opened Js
  import opened Text
  import opened WeatherTypes

  /** The fractions where the name ignores the angle. */
  predicate QuarterBin(fraction: real)
  {
    fraction < 0.03 || 0.23 <= fraction < 0.27 || 0.48 <= fraction < 0.52 || 0.73 <= fraction < 0.77
  }

  /** The name of a quarter bin. */
  function QuarterName(fraction: real): string
  {
    if fraction < 0.03 then "New Moon"
    else if fraction < 0.27 then "First Quarter"
    else if fraction < 0.52 then "Full Moon"
    else "Last Quarter"
  }

  predicate IsWaxing(name: string) { name == "Waxing Crescent" || name == "Waxing Gibbous" }
  predicate IsCrescent(name: string) { name == "Waxing Crescent" || name == "Waning Crescent" }

  /**
   * `phaseName`.  Outside the quarter bins the name is a crescent below
   * 0.23 and from 0.77 on, a gibbous between, and it says "Waxing" exactly
   * when a negative angle goes with a fraction below one half: the bins
   * above 0.5 read the angle the other way round from their mirrors below.
   */
  function PhaseName(fraction: real, angle: real): (name: string)
    ensures QuarterBin(fraction) ==> name == QuarterName(fraction)
    ensures !QuarterBin(fraction) ==>
      name in {"Waxing Crescent", "Waning Crescent", "Waxing Gibbous", "Waning Gibbous"}
      && (IsWaxing(name) <==> ((angle < 0.0) <==> (fraction < 0.5)))
      && (IsCrescent(name) <==> (fraction < 0.23 || fraction >= 0.77))
  {
    if fraction < 0.03 then "New Moon"
    else if fraction < 0.23 then (if angle < 0.0 then "Waxing Crescent" else "Waning Crescent")
    else if fraction < 0.27 then "First Quarter"
    else if fraction < 0.48 then (if angle < 0.0 then "Waxing Gibbous" else "Waning Gibbous")
    else if fraction < 0.52 then "Full Moon"
    else if fraction < 0.73 then (if angle < 0.0 then "Waning Gibbous" else "Waxing Gibbous")
    else if fraction < 0.77 then "Last Quarter"
    else (if angle < 0.0 then "Waning Crescent" else "Waxing Crescent")
  }

  /** A fraction of exactly one half is "Full Moon", whatever the angle. */
  lemma HalfIsFull(angle: real)
    ensures PhaseName(0.5, angle) == "Full Moon"
  {
  }

  /** The three values `computeAstro` returns. */
  datatype Astro = Astro(moonAltitudeDeg: Option<real>, moonIlluminationPct: Option<real>, moonPhaseName: Option<string>)

  /** What the ephemeris reports: the moon's altitude (already converted from radians to degrees), the illuminated fraction and the phase angle. */
  datatype Ephemeris = Ephemeris(altitudeDeg: real, fraction: real, angle: real)

  /**
   * `computeAstro`: all three fields null when the ephemeris throws;
   * otherwise the altitude in degrees, the illuminated percentage at one
   * decimal, and the phase name.
   */
  function ComputeAstro(ephemeris: Option<Ephemeris>): (a: Astro)
    ensures ephemeris.None? ==> a == Astro(None, None, None)
    ensures ephemeris.Some? ==> a.moonAltitudeDeg == Some(ephemeris.value.altitudeDeg)
    ensures ephemeris.Some? ==> a.moonIlluminationPct.Some? && Abs(a.moonIlluminationPct.value - ephemeris.value.fraction * 100.0) <= 0.05
    ensures ephemeris.Some? ==> a.moonPhaseName == Some(PhaseName(ephemeris.value.fraction, ephemeris.value.angle))
  {
    if ephemeris.None? then Astro(None, None, None)
    else
      var e := ephemeris.value;
      assert Pow10(1) == 10;
      Astro(Some(e.altitudeDeg), Some(ToFixedValue(e.fraction * 100.0, 1)), Some(PhaseName(e.fraction, e.angle)))
  }

  /** The snapshot's astronomical fields: `computeAstro` has no sun altitude. */
  function AstroFieldsOf(a: Astro): (f: AstroFields)
    ensures f.moonAltitudeDeg == a.moonAltitudeDeg && f.moonIlluminationPct == a.moonIlluminationPct
    ensures f.moonPhaseName == a.moonPhaseName && f.sunAltitudeDeg.None?
  {
    AstroFields(a.moonIlluminationPct, a.moonAltitudeDeg, a.moonPhaseName, None)
  }
}
