/**
 * Calendar fields and the compact time stamps the KMA services expect
 * (`yyyyMMdd`, `yyyyMMddHHmm`).  Breaking an epoch instant into calendar
 * fields is the job of the JavaScript `Date` library; here it is a
 * parameter `zone: int -> Clock` (local time or UTC, as each caller uses).
 */
module KmaTime {
  import opened Text

  /** The calendar fields of one instant in one time zone; `month` counts from 1. */
  datatype Clock = Clock(year: nat, month: nat, day: nat, hour: nat, minute: nat)
  {
    predicate Valid()
    {
      1000 <= year <= 9999 && 1 <= month <= 12 && 1 <= day <= 31 && hour < 24 && minute < 60
    }
  }

  const MinuteMs: int := 60 * 1000
  const HourMs: int := 60 * MinuteMs
  const DayMs: int := 24 * HourMs

  /** `${year}${MM}${dd}` */
  function DateStamp(c: Clock): (s: string)
    ensures forall k :: 0 <= k < |s| ==> IsDigit(s[k])
  {
    NatToString(c.year) + Pad2(c.month) + Pad2(c.day)
  }

  /** `${year}${MM}${dd}${HH}${mm}` with the minute floored to a multiple of `step`. */
  function Stamp(c: Clock, step: nat): (s: string)
    requires step > 0
    ensures forall k :: 0 <= k < |s| ==> IsDigit(s[k])
  {
    DateStamp(c) + Pad2(c.hour) + Pad2((c.minute / step) * step)
  }

  /** Every field of a stamp can be read back from its fixed position. */
  lemma {:induction false} StampFields(c: Clock, step: nat)
    requires c.Valid() && 0 < step <= 60
    ensures var s := Stamp(c, step);
      |s| == 12
      && DigitsValue(s[0..4]) == c.year
      && DigitsValue(s[4..6]) == c.month
      && DigitsValue(s[6..8]) == c.day
      && DigitsValue(s[8..10]) == c.hour
      && DigitsValue(s[10..12]) == (c.minute / step) * step
  {
    StampMinuteFloored(c, step);
    var m: nat := (c.minute / step) * step;
    var y, mo, d, h, mi := NatToString(c.year), Pad2(c.month), Pad2(c.day), Pad2(c.hour), Pad2(m);
    assert |y| == 4 && DigitsValue(y) == c.year by {
      NatToStringFourDigits(c.year);
      DigitsValueOfNatToString(c.year);
    }
    assert DigitsValue(mo) == c.month by { Pad2Value(c.month); }
    assert DigitsValue(d) == c.day by { Pad2Value(c.day); }
    assert DigitsValue(h) == c.hour by { Pad2Value(c.hour); }
    assert DigitsValue(mi) == m by { Pad2Value(m); }
    var s := Stamp(c, step);
    assert s == y + mo + d + h + mi;
    FiveFields(y, mo, d, h, mi);
    assert s[0..4] == y && s[4..6] == mo && s[6..8] == d && s[8..10] == h && s[10..12] == mi;
  }

  lemma FiveFields(a: string, b: string, c: string, d: string, e: string)
    requires |a| == 4 && |b| == 2 && |c| == 2 && |d| == 2 && |e| == 2
    ensures var s := a + b + c + d + e;
      |s| == 12 && s[0..4] == a && s[4..6] == b && s[6..8] == c && s[8..10] == d && s[10..12] == e
  {
  }

  /** The stamped minute is the latest multiple of `step` not after the clock's minute. */
  lemma StampMinuteFloored(c: Clock, step: nat)
    requires 0 < step
    ensures var m := (c.minute / step) * step;
      0 <= m <= c.minute < m + step && m % step == 0
  {
  }
}
