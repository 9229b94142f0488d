/**
 * The moon calendar page (app/moon-calendar/page.tsx): the moon's phase by
 * days since a known new moon, the lunar-age names, the month grid and the
 * month navigation.  The cosine of the illumination formula and the
 * calendar's month length and first weekday, which come from `Date`, are
 * parameters.
 */
module MoonCalendar {
  import opened Js

  // ------------------------------------------------------------ moon phase

  /** The synodic month in days, as the page writes it. */
  const LunarCycle: real := 29.53059

  const MsPerDay: real := 86400000.0

  /** The names by lunar age, from the new moon round to the waning crescent. */
  const AgeNames: seq<string> := ["신월", "초승달", "상현달", "상현망", "보름달", "하현망", "하현달", "그믐달"]
  const AgeEmoji: seq<string> := ["🌑", "🌒", "🌓", "🌔", "🌕", "🌖", "🌗", "🌘"]

  /** The upper ends of the bins: an age below `AgeBounds[k]` and not below the one before is bin `k`. */
  const AgeBounds: seq<real> := [1.85, 5.53, 9.22, 12.91, 16.61, 20.30, 23.99, 27.68]

  /**
   * The bin of a lunar age: the first bound above it, and the new moon
   * again from the last bound on.
   */
  function AgeBin(age: real): (k: nat)
    ensures k < 8
    ensures age < AgeBounds[0] || age >= AgeBounds[7] ==> k == 0
    ensures AgeBounds[0] <= age < AgeBounds[7] ==> 1 <= k && AgeBounds[k - 1] <= age < AgeBounds[k]
  {
    if age < 1.85 then 0
    else if age < 5.53 then 1
    else if age < 9.22 then 2
    else if age < 12.91 then 3
    else if age < 16.61 then 4
    else if age < 20.30 then 5
    else if age < 23.99 then 6
    else if age < 27.68 then 7
    else 0
  }

  datatype MoonPhase = MoonPhase(phase: real, name: string, emoji: string, illumination: int, isGoodForStars: bool)

  /**
   * `getMoonPhase` as written: the lunar age is the day count modulo the
   * cycle with JavaScript's `%`, which keeps the sign of the day count;
   * `cosTurn(p)` is `Math.cos(p * 2 * Math.PI)`.  The name and emoji come
   * from the same bin; the night is good for stars exactly when fewer than
   * 30 percent of the disc is lit.
   */
  function MoonPhaseAsWritten(dateMs: int, knownNewMoonMs: int, cosTurn: real -> real): (m: MoonPhase)
    ensures var days := (dateMs - knownNewMoonMs) as real / MsPerDay;
      var age := RealRem(days, LunarCycle);
      m.phase == age / LunarCycle && m.name == AgeNames[AgeBin(age)] && m.emoji == AgeEmoji[AgeBin(age)]
      && (days >= 0.0 ==> 0.0 <= m.phase < 1.0)
      && (days < 0.0 ==> -1.0 < m.phase <= 0.0)
    ensures m.illumination == Round((1.0 - cosTurn(m.phase)) / 2.0 * 100.0)
    ensures m.isGoodForStars <==> m.illumination < 30
  {
    var days := (dateMs - knownNewMoonMs) as real / MsPerDay;
    var age := RealRem(days, LunarCycle);
    PhaseOfAge(age);
    var illumination := Round((1.0 - cosTurn(age / LunarCycle)) / 2.0 * 100.0);
    MoonPhase(age / LunarCycle, AgeNames[AgeBin(age)], AgeEmoji[AgeBin(age)], illumination, illumination < 30)
  }

  lemma PhaseOfAge(age: real)
    ensures 0.0 <= age < LunarCycle ==> 0.0 <= age / LunarCycle < 1.0
    ensures -LunarCycle < age <= 0.0 ==> -1.0 < age / LunarCycle <= 0.0
  {
  }

  /**
   * Five days before the known new moon the day count is negative, the
   * remainder keeps its sign, and the page names the moon new although it
   * is five days before new: a waning crescent.
   */
  lemma NegativeAgeIsNamedNew(cosTurn: real -> real)
    ensures MoonPhaseAsWritten(-5 * 86400000, 0, cosTurn).name == "신월"
    ensures MoonPhaseCorrected(-5 * 86400000, 0, cosTurn).name == "그믐달"
  {
    var days := (-5 * 86400000) as real / MsPerDay;
    assert days == -5.0;
    assert Trunc(days / LunarCycle) == 0;
    assert RealRem(days, LunarCycle) == -5.0;
    assert FlooredAge(days) == LunarCycle - 5.0;
  }

  /** The age in [0, cycle): the remainder moved up by one cycle when it is negative. */
  function FlooredAge(days: real): (age: real)
    ensures 0.0 <= age < LunarCycle
    ensures age == RealRem(days, LunarCycle) || age == RealRem(days, LunarCycle) + LunarCycle
  {
    var r := RealRem(days, LunarCycle);
    if r < 0.0 then r + LunarCycle else r
  }

  /**
   * The evident intent of `getMoonPhase`: the age counted forward from the
   * last new moon, so that every date, before the reference new moon or
   * after it, gets a phase in [0, 1) and the name of its true age.
   */
  function MoonPhaseCorrected(dateMs: int, knownNewMoonMs: int, cosTurn: real -> real): (m: MoonPhase)
    ensures 0.0 <= m.phase < 1.0
    ensures var days := (dateMs - knownNewMoonMs) as real / MsPerDay;
      m.name == AgeNames[AgeBin(FlooredAge(days))] && m.emoji == AgeEmoji[AgeBin(FlooredAge(days))]
    ensures m.illumination == Round((1.0 - cosTurn(m.phase)) / 2.0 * 100.0)
    ensures m.isGoodForStars <==> m.illumination < 30
  {
    var age := FlooredAge((dateMs - knownNewMoonMs) as real / MsPerDay);
    PhaseOfAge(age);
    var illumination := Round((1.0 - cosTurn(age / LunarCycle)) / 2.0 * 100.0);
    MoonPhase(age / LunarCycle, AgeNames[AgeBin(age)], AgeEmoji[AgeBin(age)], illumination, illumination < 30)
  }

  /** On and after the reference new moon the two agree. */
  lemma CorrectedAgreesAfterReference(dateMs: int, knownNewMoonMs: int, cosTurn: real -> real)
    requires dateMs >= knownNewMoonMs
    ensures MoonPhaseCorrected(dateMs, knownNewMoonMs, cosTurn) == MoonPhaseAsWritten(dateMs, knownNewMoonMs, cosTurn)
  {
    var days := (dateMs - knownNewMoonMs) as real / MsPerDay;
    assert days >= 0.0;
    assert FlooredAge(days) == RealRem(days, LunarCycle);
  }

  // --------------------------------------------------------------- the grid

  predicate IsLeapYear(year: int)
  {
    (year % 4 == 0 && year % 100 != 0) || year % 400 == 0
  }

  /** `new Date(year, month + 1, 0).getDate()` for a month index 0..11 of the Gregorian calendar. */
  function DaysInMonth(year: int, month: int): (n: nat)
    requires 0 <= month < 12
    ensures 28 <= n <= 31
    ensures month == 1 ==> (n == 29 <==> IsLeapYear(year))
    ensures month != 1 ==> (n == 30 <==> month in {3, 5, 8, 10})
  {
    if month == 1 then (if IsLeapYear(year) then 29 else 28)
    else if month in {3, 5, 8, 10} then 30
    else 31
  }

  /**
   * `getCalendarDays`: `startDayOfWeek` blanks for the days of the previous
   * month in the first week, then the days 1..`daysInMonth` in order (each
   * standing for the date of that day in the month shown), so day `d` sits
   * in column `(startDayOfWeek + d − 1) % 7` of the seven-column grid.
   */
  method GetCalendarDays(startDayOfWeek: nat, daysInMonth: nat) returns (days: seq<Option<nat>>)
    ensures |days| == startDayOfWeek + daysInMonth
    ensures forall i :: 0 <= i < startDayOfWeek ==> days[i].None?
    ensures forall d :: 1 <= d <= daysInMonth ==> days[startDayOfWeek + d - 1] == Some(d)
  {
    days := [];
    var i := 0;
    while i < startDayOfWeek
      invariant 0 <= i <= startDayOfWeek
      invariant |days| == i
      invariant forall k :: 0 <= k < i ==> days[k].None?
    {
      days := days + [None];
      i := i + 1;
    }
    var d := 1;
    while d <= daysInMonth
      invariant 1 <= d <= daysInMonth + 1
      invariant |days| == startDayOfWeek + d - 1
      invariant forall k :: 0 <= k < startDayOfWeek ==> days[k].None?
      invariant forall e :: 1 <= e < d ==> days[startDayOfWeek + e - 1] == Some(e)
    {
      days := days + [Some(d)];
      d := d + 1;
    }
  }

  // ------------------------------------------------------------- navigation

  /** The month before: January steps back to December of the year before. */
  function PrevMonth(year: int, month: int): (ym: (int, int))
    requires 0 <= month < 12
    ensures 0 <= ym.1 < 12
    ensures ym.0 * 12 + ym.1 == year * 12 + month - 1
  {
    if month == 0 then (year - 1, 11) else (year, month - 1)
  }

  /** The month after: December steps on to January of the year after. */
  function NextMonth(year: int, month: int): (ym: (int, int))
    requires 0 <= month < 12
    ensures 0 <= ym.1 < 12
    ensures ym.0 * 12 + ym.1 == year * 12 + month + 1
  {
    if month == 11 then (year + 1, 0) else (year, month + 1)
  }

  /** Forward and back are inverses. */
  lemma PrevNextInverse(year: int, month: int)
    requires 0 <= month < 12
    ensures var n := NextMonth(year, month); PrevMonth(n.0, n.1) == (year, month)
    ensures var p := PrevMonth(year, month); NextMonth(p.0, p.1) == (year, month)
  {
  }

  /** The page's state: the month shown and the selected date (a day count from the epoch). */
  class MoonCalendarState {
    var currentYear: int
    var currentMonth: int
    var selectedDate: Option<int>

    predicate Valid()
      reads this
    {
      0 <= currentMonth < 12
    }

    /** The page opens on today's month, with nothing selected. */
    constructor(todayYear: int, todayMonth: int)
      requires 0 <= todayMonth < 12
      ensures Valid() && currentYear == todayYear && currentMonth == todayMonth && selectedDate.None?
    {
      currentYear := todayYear;
      currentMonth := todayMonth;
      selectedDate := None;
    }

    /** `goToPrevMonth`. */
    method GoToPrevMonth()
      requires Valid()
      modifies this
      ensures Valid() && (currentYear, currentMonth) == PrevMonth(old(currentYear), old(currentMonth))
      ensures selectedDate == old(selectedDate)
    {
      if currentMonth == 0 {
        currentYear := currentYear - 1;
        currentMonth := 11;
      } else {
        currentMonth := currentMonth - 1;
      }
    }

    /** `goToNextMonth`. */
    method GoToNextMonth()
      requires Valid()
      modifies this
      ensures Valid() && (currentYear, currentMonth) == NextMonth(old(currentYear), old(currentMonth))
      ensures selectedDate == old(selectedDate)
    {
      if currentMonth == 11 {
        currentYear := currentYear + 1;
        currentMonth := 0;
      } else {
        currentMonth := currentMonth + 1;
      }
    }

    /** `goToToday`: back to today's month; the selection stays. */
    method GoToToday(todayYear: int, todayMonth: int)
      requires 0 <= todayMonth < 12
      modifies this
      ensures Valid() && currentYear == todayYear && currentMonth == todayMonth
      ensures selectedDate == old(selectedDate)
    {
      currentYear := todayYear;
      currentMonth := todayMonth;
    }

    /** A click on a day cell selects that date. */
    method SelectDate(date: int)
      modifies this
      ensures selectedDate == Some(date)
      ensures currentYear == old(currentYear) && currentMonth == old(currentMonth)
    {
      selectedDate := Some(date);
    }
  }
}
