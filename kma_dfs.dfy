/**
 * The second adapter for the KMA point service (lib/kmaDfs.ts): one
 * five-minute slot ten minutes back, the last comma-separated data line of
 * the reply, and the snapshot read from its columns by position.
 */
module KmaDfs {
  import opened Js
  import opened Text
  import opened KmaTime
  import opened WeatherTypes
  import KmaHighRes

  /** The variables requested, in the column order the parser assumes after `tm`. */
  const DfsObs := "ta,hm,ws_10m,wd_10m,pa,rn_60m"

  /** The slot asked for: ten minutes before now (local time), minutes floored to five. */
  function DfsSlot(now: int, local: int -> Clock): (tm: string)
    ensures forall k :: 0 <= k < |tm| ==> IsDigit(tm[k])
  {
    Stamp(local(now - 10 * MinuteMs), 5)
  }

  /** The query: `tm1` and `tm2` are the same slot. */
  function DfsQuery(coord: Coordinates, authKey: string, now: int, local: int -> Clock,
                    numStr: real -> string): (q: seq<(string, string)>)
    ensures |q| == 8 && q[0].1 == q[1].1 == DfsSlot(now, local)
    ensures q[4] == ("obs", DfsObs) && q[7] == ("authKey", authKey)
  {
    var tm := DfsSlot(now, local);
    [("tm1", tm), ("tm2", tm), ("lat", numStr(coord.lat)), ("lon", numStr(coord.lon)),
     ("obs", DfsObs), ("itv", "5"), ("help", "1"), ("authKey", authKey)]
  }

  /** The slot reads back as the clock ten minutes ago, its minute floored to five. */
  lemma DfsSlotFields(now: int, local: int -> Clock)
    requires local(now - 10 * MinuteMs).Valid()
    ensures var c, tm := local(now - 10 * MinuteMs), DfsSlot(now, local);
      |tm| == 12 && DigitsValue(tm[0..4]) == c.year && DigitsValue(tm[4..6]) == c.month
      && DigitsValue(tm[6..8]) == c.day && DigitsValue(tm[8..10]) == c.hour
      && DigitsValue(tm[10..12]) == (c.minute / 5) * 5
  {
    StampFields(local(now - 10 * MinuteMs), 5);
  }

  /** A data line: not empty, not a `#` line, and holding a comma. */
  predicate IsDfsDataLine(line: string)
  {
    line != "" && !StartsWith(line, "#") && ',' in line
  }

  /** The line the parser reads: the last data line, or the error for a reply without one. */
  function LastDataLine<T>(lines: seq<T>, isData: T -> bool): Result<T>
  {
    var rows := Filter(lines, isData);
    if |rows| == 0 then Err("No data in response") else Ok(rows[|rows| - 1])
  }

  /** A reply without data lines is rejected; otherwise the last data line of the reply is read. */
  lemma LastDataLineSpec<T>(lines: seq<T>, isData: T -> bool)
    ensures var last := FindLastIndex(lines, isData);
      (last == -1 ==> LastDataLine(lines, isData) == Err("No data in response"))
      && (last >= 0 ==> LastDataLine(lines, isData) == Ok(lines[last]))
  {
    FilterLast(lines, isData);
  }

  /** `lastLine.split(",").map(s => s.trim())`. */
  function Parts(line: string): (parts: seq<string>)
    ensures |parts| == |Split(line, ',')| >= 1
    ensures forall i :: 0 <= i < |parts| ==> parts[i] == Trim(Split(line, ',')[i])
  {
    var pieces := Split(line, ',');
    seq(|pieces|, i requires 0 <= i < |pieces| => Trim(pieces[i]))
  }

  /** `parseFloat(parts[i]) || null`: a missing column, NaN and zero are all null. */
  function ColumnAsWritten(parts: seq<string>, i: int, parseFloat: string -> Option<real>): (v: Option<real>)
    ensures v.Some? <==> 0 <= i < |parts| && parseFloat(parts[i]).Some? && parseFloat(parts[i]).value != 0.0
    ensures v.Some? ==> v == parseFloat(parts[i])
  {
    if 0 <= i < |parts| then NonZero(parseFloat(parts[i])) else None
  }

  /** The column as evidently intended: null only when missing or not a number. */
  function Column(parts: seq<string>, i: int, parseFloat: string -> Option<real>): (v: Option<real>)
    ensures 0 <= i < |parts| ==> v == parseFloat(parts[i])
    ensures !(0 <= i < |parts|) ==> v.None?
  {
    if 0 <= i < |parts| then parseFloat(parts[i]) else None
  }

  /** The snapshot built from the readings of columns 0–6, with the defaults of the source. */
  function SnapshotFrom(read: seq<Option<real>>, coord: Coordinates, nowMs: int, astro: AstroFields): (s: WeatherSnapshot)
    requires |read| == 7
    ensures s.source == Kma && s.coord == coord && s.cloudCoverPct == 0.0 && s.cloudCoverLevel.None?
    ensures s.timestamp * 1000 <= nowMs < s.timestamp * 1000 + 1000
    ensures s.temperatureC == read[1] && s.windDirectionDeg == read[4]
    ensures s.pressureHpa == read[5] && s.precipitationMm1h == read[6]
    ensures s.humidityPct == read[2].OrElse(0.0) && s.windSpeedMs == read[3].OrElse(0.0)
    ensures s.conditionCode == Some(Precip) <==> read[6].Some? && read[6].value > 0.0
    ensures s.conditionCode.None? <==> !(read[6].Some? && read[6].value > 0.0)
    ensures s.dewPointC.None? && s.threeHourTrend.None? && s.fineTrend10m.None? && s.astro == astro
  {
    var precip := read[6];
    WeatherSnapshot(
      coord, nowMs / 1000, Kma, 0.0, None,
      read[3].OrElse(0.0), read[4], read[2].OrElse(0.0), read[1], None, read[5], None,
      precip,
      if precip.Some? && precip.value > 0.0 then Some(Precip) else None,
      None, None, astro)
  }

  /** The snapshot as the source builds it, with `|| null` on every column. */
  function DfsSnapshotAsWritten(parts: seq<string>, parseFloat: string -> Option<real>, coord: Coordinates,
                                nowMs: int, astro: AstroFields): (s: WeatherSnapshot)
    ensures s.temperatureC.Some? ==> s.temperatureC.value != 0.0
    ensures s.pressureHpa.Some? ==> s.pressureHpa.value != 0.0
    ensures s.precipitationMm1h.Some? ==> s.precipitationMm1h.value != 0.0
  {
    SnapshotFrom(seq(7, i => ColumnAsWritten(parts, i, parseFloat)), coord, nowMs, astro)
  }

  /** A reading of exactly 0 °C is dropped by the source: the snapshot has no temperature. */
  lemma ZeroTemperatureDropped(parseFloat: string -> Option<real>, coord: Coordinates, nowMs: int, astro: AstroFields)
    requires parseFloat("0") == Some(0.0)
    ensures DfsSnapshotAsWritten(["202601150000", "0", "40"], parseFloat, coord, nowMs, astro).temperatureC.None?
  {
    assert ["202601150000", "0", "40"][1] == "0";
  }

  /** The snapshot as evidently intended: only a missing or non-numeric column is null. */
  function DfsSnapshot(parts: seq<string>, parseFloat: string -> Option<real>, coord: Coordinates,
                       nowMs: int, astro: AstroFields): (s: WeatherSnapshot)
    ensures 1 < |parts| ==> s.temperatureC == parseFloat(parts[1])
    ensures |parts| <= 1 ==> s.temperatureC.None?
  {
    SnapshotFrom(seq(7, i => Column(parts, i, parseFloat)), coord, nowMs, astro)
  }

  /** Every parsed reading, zero included, reaches the snapshot. */
  lemma DfsSnapshotKeepsReadings(parts: seq<string>, parseFloat: string -> Option<real>, coord: Coordinates,
                                 nowMs: int, astro: AstroFields)
    requires |parts| >= 7
    ensures var s := DfsSnapshot(parts, parseFloat, coord, nowMs, astro);
      s.temperatureC == parseFloat(parts[1]) && s.windDirectionDeg == parseFloat(parts[4])
      && s.pressureHpa == parseFloat(parts[5]) && s.precipitationMm1h == parseFloat(parts[6])
      && s.humidityPct == parseFloat(parts[2]).OrElse(0.0) && s.windSpeedMs == parseFloat(parts[3]).OrElse(0.0)
  {
  }

  /** No column of the line parses to exactly zero. */
  predicate NoZeroReading(parts: seq<string>, parseFloat: string -> Option<real>)
  {
    forall i :: 0 <= i < |parts| && parseFloat(parts[i]).Some? ==> parseFloat(parts[i]).value != 0.0
  }

  /** Both readings agree whenever no column holds a zero. */
  lemma DfsSnapshotsAgreeWithoutZeros(parts: seq<string>, parseFloat: string -> Option<real>, coord: Coordinates,
                                      nowMs: int, astro: AstroFields)
    requires NoZeroReading(parts, parseFloat)
    ensures DfsSnapshot(parts, parseFloat, coord, nowMs, astro) == DfsSnapshotAsWritten(parts, parseFloat, coord, nowMs, astro)
  {
    assert seq(7, i => Column(parts, i, parseFloat)) == seq(7, i => ColumnAsWritten(parts, i, parseFloat));
  }

  /**
   * The data line a reply yields: a thrown request, a failed status or a
   * reply without data lines is an error.
   */
  function DfsLine(reply: KmaHighRes.HttpText): (r: Result<string>)
    ensures reply.HttpThrown? ==> r == Err(reply.message)
    ensures reply.HttpText? && !reply.ok ==> r == Err("HighRes " + IntToString(reply.status) + ": " + reply.body)
    ensures reply.HttpText? && reply.ok ==>
      var lines := KmaHighRes.ReplyLines(reply.body);
      var last := FindLastIndex(lines, IsDfsDataLine);
      (last == -1 ==> r == Err("No data in response"))
      && (last >= 0 ==> r == Ok(lines[last]))
  {
    if reply.HttpThrown? then Err(reply.message)
    else if !reply.ok then Err("HighRes " + IntToString(reply.status) + ": " + reply.body)
    else
      var lines := KmaHighRes.ReplyLines(reply.body);
      LastDataLineSpec(lines, IsDfsDataLine);
      LastDataLine(lines, IsDfsDataLine)
  }

  /**
   * `fetchKmaDfsSnapshot` once the reply is in, as written: a thrown
   * request, a failed status or a reply without data lines is an error;
   * otherwise the snapshot of the last data line, read with the truthiness
   * test that drops zero readings.
   */
  function FetchKmaDfsSnapshot(coord: Coordinates, reply: KmaHighRes.HttpText, parseFloat: string -> Option<real>,
                               nowMs: int, astro: AstroFields): (r: Result<WeatherSnapshot>)
    ensures reply.HttpThrown? ==> r == Err(reply.message)
    ensures reply.HttpText? && !reply.ok ==> r == Err("HighRes " + IntToString(reply.status) + ": " + reply.body)
    ensures reply.HttpText? && reply.ok ==>
      var lines := KmaHighRes.ReplyLines(reply.body);
      var last := FindLastIndex(lines, IsDfsDataLine);
      (last == -1 ==> r == Err("No data in response"))
      && (last >= 0 ==> r == Ok(DfsSnapshotAsWritten(Parts(lines[last]), parseFloat, coord, nowMs, astro)))
  {
    match DfsLine(reply) {
      case Err(e) => Err(e)
      case Ok(line) => Ok(DfsSnapshotAsWritten(Parts(line), parseFloat, coord, nowMs, astro))
    }
  }

  /** The same fetch with the corrected column reading, which keeps zero readings. */
  function FetchKmaDfsSnapshotCorrected(coord: Coordinates, reply: KmaHighRes.HttpText, parseFloat: string -> Option<real>,
                                        nowMs: int, astro: AstroFields): (r: Result<WeatherSnapshot>)
    ensures reply.HttpThrown? ==> r == Err(reply.message)
    ensures reply.HttpText? && !reply.ok ==> r == Err("HighRes " + IntToString(reply.status) + ": " + reply.body)
    ensures reply.HttpText? && reply.ok ==>
      var lines := KmaHighRes.ReplyLines(reply.body);
      var last := FindLastIndex(lines, IsDfsDataLine);
      (last == -1 ==> r == Err("No data in response"))
      && (last >= 0 ==> r == Ok(DfsSnapshot(Parts(lines[last]), parseFloat, coord, nowMs, astro)))
  {
    match DfsLine(reply) {
      case Err(e) => Err(e)
      case Ok(line) => Ok(DfsSnapshot(Parts(line), parseFloat, coord, nowMs, astro))
    }
  }

  /**
   * The two fetches fail alike, and succeed with the same snapshot unless
   * the line read holds a zero reading.
   */
  lemma FetchKmaDfsSnapshotsAgree(coord: Coordinates, reply: KmaHighRes.HttpText, parseFloat: string -> Option<real>,
                                  nowMs: int, astro: AstroFields)
    ensures var asWritten := FetchKmaDfsSnapshot(coord, reply, parseFloat, nowMs, astro);
      var corrected := FetchKmaDfsSnapshotCorrected(coord, reply, parseFloat, nowMs, astro);
      (asWritten.Err? <==> corrected.Err?) && (asWritten.Err? ==> asWritten == corrected)
    ensures DfsLine(reply).Ok? && NoZeroReading(Parts(DfsLine(reply).value), parseFloat) ==>
      FetchKmaDfsSnapshot(coord, reply, parseFloat, nowMs, astro)
      == FetchKmaDfsSnapshotCorrected(coord, reply, parseFloat, nowMs, astro)
  {
    if DfsLine(reply).Ok? && NoZeroReading(Parts(DfsLine(reply).value), parseFloat) {
      DfsSnapshotsAgreeWithoutZeros(Parts(DfsLine(reply).value), parseFloat, coord, nowMs, astro);
    }
  }
}
