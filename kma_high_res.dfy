/**
 * The KMA high-resolution point service (lib/kmaHighRes.ts): the request
 * window, the parse of its text reply (a `# tm …` header line, then data
 * lines, the last of which is used) and the snapshot built from it.  The
 * HTTP exchange, the clock, `parseFloat`, `String(number)` and the
 * astronomy fields are parameters.
 */
module KmaHighRes {
  import opened Js
  import opened Text
  import opened KmaTime
  import opened WeatherTypes

  /** The text reply and its status, or the error of a request that threw (no connection). */
  datatype HttpText = HttpThrown(message: string) | HttpText(ok: bool, status: int, body: string)

  /** The variables the snapshot asks for. */
  const SnapshotObs := "ta,hm,ws_10m,wd_10m,pa,rn_60m,rn_ox"

  /**
   * The query of the request: `tm1` is half an hour before now and `tm2`
   * is now (local time, minutes floored to five), `itv` defaults to 5.
   */
  function HighResQuery(coord: Coordinates, authKey: string, now: int, local: int -> Clock,
                        numStr: real -> string): (q: seq<(string, string)>)
    ensures |q| == 8
    ensures forall i :: 0 <= i < |q| ==> q[i].0 in {"tm1", "tm2", "lat", "lon", "obs", "itv", "help", "authKey"}
    ensures q[4] == ("obs", SnapshotObs) && q[7] == ("authKey", authKey)
  {
    [("tm1", Stamp(local(now - 30 * MinuteMs), 5)),
     ("tm2", Stamp(local(now), 5)),
     ("lat", numStr(coord.lat)),
     ("lon", numStr(coord.lon)),
     ("obs", SnapshotObs),
     ("itv", "5"),
     ("help", "1"),
     ("authKey", authKey)]
  }

  /** Both ends of the window read back as their clock's fields, minutes floored to five. */
  lemma HighResWindow(coord: Coordinates, authKey: string, now: int, local: int -> Clock, numStr: real -> string)
    requires local(now - 30 * MinuteMs).Valid() && local(now).Valid()
    ensures var q, start, end := HighResQuery(coord, authKey, now, local, numStr), local(now - 30 * MinuteMs), local(now);
      |q[0].1| == 12 && |q[1].1| == 12
      && DigitsValue(q[0].1[8..10]) == start.hour && DigitsValue(q[0].1[10..12]) == (start.minute / 5) * 5
      && DigitsValue(q[1].1[8..10]) == end.hour && DigitsValue(q[1].1[10..12]) == (end.minute / 5) * 5
      && DigitsValue(q[0].1[0..4]) == start.year && DigitsValue(q[0].1[4..6]) == start.month
      && DigitsValue(q[0].1[6..8]) == start.day
      && DigitsValue(q[1].1[0..4]) == end.year && DigitsValue(q[1].1[4..6]) == end.month
      && DigitsValue(q[1].1[6..8]) == end.day
  {
    StampFields(local(now - 30 * MinuteMs), 5);
    StampFields(local(now), 5);
  }

  // ------------------------------------------------------------------ parsing

  /** The header line: its trimmed text starts with `# tm`. */
  predicate IsHeader(line: string)
  {
    StartsWith(Trim(line), "# tm")
  }

  /** The header names: the header line without its first character, split on commas and white space. */
  function HeaderNames(line: string): (names: seq<string>)
    ensures forall n :: n in names ==> |n| > 0
  {
    Tokens(Trim(if |line| > 0 then line[1..] else line))
  }

  /** A data line: not empty, not a `#` line, not only white space. */
  predicate IsDataRow(line: string)
  {
    line != "" && !StartsWith(line, "#") && |Trim(line)| > 0
  }

  /** One value: the cell's number, with NaN (a missing or non-numeric cell) and −99 read as null. */
  function Reading(row: seq<string>, idx: int, parseFloat: string -> Option<real>): (v: Option<real>)
    ensures v.Some? ==> 0 <= idx < |row| && parseFloat(row[idx]) == v && v.value != -99.0
    ensures 0 <= idx < |row| && parseFloat(row[idx]).Some? && parseFloat(row[idx]).value != -99.0 ==>
      v == parseFloat(row[idx])
  {
    if 0 <= idx < |row| then
      match parseFloat(row[idx]) {
        case None => None
        case Some(x) => if x == -99.0 then None else Some(x)
      }
    else None
  }

  /** The record the `forEach` over the header builds: each name set in turn. */
  function FieldsOf(header: seq<string>, row: seq<string>, parseFloat: string -> Option<real>): map<string, Option<real>>
  {
    if |header| == 0 then map[]
    else
      var n := |header| - 1;
      FieldsOf(header[..n], row, parseFloat)[header[n] := Reading(row, n, parseFloat)]
  }

  /** `header[i]` is not repeated later in `header`. */
  predicate LastOccurrence(header: seq<string>, i: int)
    requires 0 <= i < |header|
  {
    forall j :: i < j < |header| ==> header[j] != header[i]
  }

  /** The record has exactly the header's names, and a repeated name keeps its last column's value. */
  lemma {:induction false} FieldsOfLastWins(header: seq<string>, row: seq<string>, parseFloat: string -> Option<real>)
    ensures forall k :: k in FieldsOf(header, row, parseFloat) <==> k in header
    ensures forall i :: 0 <= i < |header| && LastOccurrence(header, i) ==>
      FieldsOf(header, row, parseFloat)[header[i]] == Reading(row, i, parseFloat)
  {
    if |header| > 0 {
      var n := |header| - 1;
      var front := header[..n];
      FieldsOfLastWins(front, row, parseFloat);
      assert header == front + [header[n]];
      forall i | 0 <= i < |header| && LastOccurrence(header, i)
        ensures FieldsOf(header, row, parseFloat)[header[i]] == Reading(row, i, parseFloat)
      {
        if i < n {
          assert header[i] == front[i];
          assert LastOccurrence(front, i);
        }
      }
    }
  }

  /** The `forEach` loop over the header that fills the record. */
  method ParseFields(header: seq<string>, row: seq<string>, parseFloat: string -> Option<real>)
    returns (data: map<string, Option<real>>)
    ensures data == FieldsOf(header, row, parseFloat)
  {
    data := map[];
    var idx := 0;
    while idx < |header|
      invariant 0 <= idx <= |header|
      invariant data == FieldsOf(header[..idx], row, parseFloat)
    {
      assert header[..idx + 1][..idx] == header[..idx];
      data := data[header[idx] := Reading(row, idx, parseFloat)];
      idx := idx + 1;
    }
    assert header[..idx] == header;
  }

  /** The lines of the reply: trimmed, then split at line feeds. */
  function ReplyLines(text: string): seq<string>
  {
    SplitLines(Trim(text))
  }

  /**
   * The selection of lines in the reply: no header line and no data line
   * after the first header line are errors; otherwise the header line and
   * the last of the data lines after it.
   */
  function SelectLines<T>(lines: seq<T>, isHeader: T -> bool, isData: T -> bool): Result<(T, T)>
  {
    var h := FindIndex(lines, isHeader);
    if h == -1 then Err("No header line found")
    else
      var rows := Filter(lines[h + 1..], isData);
      if |rows| == 0 then Err("No data rows")
      else Ok((lines[h], rows[|rows| - 1]))
  }

  /**
   * The selection succeeds exactly when the last data line comes after the
   * first header line, and then it picks those two lines.
   */
  lemma SelectLinesSpec<T>(lines: seq<T>, isHeader: T -> bool, isData: T -> bool)
    ensures var h, last := FindIndex(lines, isHeader), FindLastIndex(lines, isData);
      var r := SelectLines(lines, isHeader, isData);
      (h == -1 ==> r == Err("No header line found"))
      && (0 <= h && last <= h ==> r == Err("No data rows"))
      && (0 <= h < last ==> r == Ok((lines[h], lines[last])))
  {
    var h := FindIndex(lines, isHeader);
    if h >= 0 {
      var rows := Filter(lines[h + 1..], isData);
      assert SelectLines(lines, isHeader, isData)
        == if |rows| == 0 then Err("No data rows") else Ok((lines[h], rows[|rows| - 1]));
      FilterSuffixLastIndex(lines, isData, h);
    }
  }

  /** The selection in the reply's lines: the `# tm` header line and the data line used. */
  function ParseLines(lines: seq<string>): Result<(string, string)>
  {
    SelectLines(lines, IsHeader, IsDataRow)
  }

  /**
   * The reply is rejected when it has no header line or no data line after
   * its first header line; otherwise the first header line and the last
   * data line of the reply are the ones read.
   */
  lemma ParseLinesSpec(lines: seq<string>)
    ensures var h, last := FindIndex(lines, IsHeader), FindLastIndex(lines, IsDataRow);
      var r := ParseLines(lines);
      (h == -1 ==> r == Err("No header line found"))
      && (0 <= h && last <= h ==> r == Err("No data rows"))
      && (0 <= h < last ==> r == Ok((lines[h], lines[last])))
  {
    SelectLinesSpec(lines, IsHeader, IsDataRow);
  }

  /**
   * `fetchHighResData`'s reading of a reply: a thrown request, a failed
   * status and a parse error are errors, otherwise the record of names to
   * values.
   */
  function ParseReply(reply: HttpText, parseFloat: string -> Option<real>): Result<map<string, Option<real>>>
  {
    if reply.HttpThrown? then Err(reply.message)
    else if !reply.ok then Err("HighRes " + IntToString(reply.status) + ": " + reply.body)
    else match ParseLines(ReplyLines(reply.body)) {
      case Err(e) => Err(e)
      case Ok((header, row)) => Ok(FieldsOf(HeaderNames(header), Tokens(row), parseFloat))
    }
  }

  /** `fetchHighResData` once the reply is in. */
  method FetchHighResData(reply: HttpText, parseFloat: string -> Option<real>)
    returns (r: Result<map<string, Option<real>>>)
    ensures r == ParseReply(reply, parseFloat)
  {
    if reply.HttpThrown? {
      return Err(reply.message);
    }
    if !reply.ok {
      return Err("HighRes " + IntToString(reply.status) + ": " + reply.body);
    }
    var parsed := ParseLines(ReplyLines(reply.body));
    if parsed.Err? {
      return Err(parsed.message);
    }
    var (header, row) := parsed.value;
    var data := ParseFields(HeaderNames(header), Tokens(row), parseFloat);
    return Ok(data);
  }

  // ----------------------------------------------------------------- snapshot

  /** `data[key] ?? null`: an absent name reads as null. */
  function Field(data: map<string, Option<real>>, key: string): (v: Option<real>)
    ensures key !in data ==> v.None?
    ensures key in data ==> v == data[key]
  {
    if key in data then data[key] else None
  }

  /**
   * The snapshot: no cloud cover from this service (0), wind and humidity
   * default to 0, the rest stay null when missing, and rain is flagged
   * when `rn_ox` is positive.
   */
  function SnapshotOf(data: map<string, Option<real>>, coord: Coordinates, nowMs: int, astro: AstroFields): (s: WeatherSnapshot)
    ensures s.source == Kma && s.coord == coord && s.cloudCoverPct == 0.0 && s.cloudCoverLevel.None?
    ensures s.timestamp * 1000 <= nowMs < s.timestamp * 1000 + 1000
    ensures s.windSpeedMs == OrElseNum(Field(data, "ws_10m")) && s.humidityPct == OrElseNum(Field(data, "hm"))
    ensures s.temperatureC == Field(data, "ta") && s.pressureHpa == Field(data, "pa")
    ensures s.windDirectionDeg == Field(data, "wd_10m") && s.precipitationMm1h == Field(data, "rn_60m")
    ensures s.dewPointC.None? && s.precipitationProbabilityPct.None?
    ensures s.threeHourTrend.None? && s.fineTrend10m.None? && s.astro == astro
    ensures s.conditionCode == Some(Precip) <==> Field(data, "rn_ox").Some? && Field(data, "rn_ox").value > 0.0
    ensures s.conditionCode.None? <==> !(Field(data, "rn_ox").Some? && Field(data, "rn_ox").value > 0.0)
  {
    var hasRain := OrElseNum(Field(data, "rn_ox"));
    WeatherSnapshot(
      coord, nowMs / 1000, Kma, 0.0, None,
      OrElseNum(Field(data, "ws_10m")), Field(data, "wd_10m"),
      OrElseNum(Field(data, "hm")), Field(data, "ta"), None, Field(data, "pa"), None,
      Field(data, "rn_60m"),
      if hasRain > 0.0 then Some(Precip) else None,
      None, None, astro)
  }

  /** `x ?? 0` for a nullable number. */
  function OrElseNum(x: Option<real>): (r: real)
    ensures x.Some? ==> r == x.value
    ensures x.None? ==> r == 0.0
  {
    x.OrElse(0.0)
  }

  /**
   * `fetchKmaHighResSnapshot` once the reply is in: a thrown request, a
   * failed status and a parse error propagate, otherwise the snapshot.
   */
  method FetchKmaHighResSnapshot(coord: Coordinates, reply: HttpText, parseFloat: string -> Option<real>,
                                 nowMs: int, astro: AstroFields) returns (r: Result<WeatherSnapshot>)
    ensures reply.HttpThrown? ==> r == Err(reply.message)
    ensures reply.HttpText? && !reply.ok ==> r == Err("HighRes " + IntToString(reply.status) + ": " + reply.body)
    ensures ParseReply(reply, parseFloat).Err? ==> r == Err(ParseReply(reply, parseFloat).message)
    ensures ParseReply(reply, parseFloat).Ok? ==> r == Ok(SnapshotOf(ParseReply(reply, parseFloat).value, coord, nowMs, astro))
  {
    var data := FetchHighResData(reply, parseFloat);
    if data.Err? {
      return Err(data.message);
    }
    return Ok(SnapshotOf(data.value, coord, nowMs, astro));
  }
}
