/**
 * The short-term forecast route (app/api/forecast/route.ts): the issue time
 * in Korean time, the night-slot extraction of one day's forecast with its
 * sentinel-driven fallback, and the mock forecast every failure falls back
 * to.  The request, the clock (`utc` breaks an epoch instant into UTC
 * fields), `parseFloat`, `parseInt` and the form encoding of
 * `URLSearchParams` are parameters.
 */
module ForecastRoute {
  import opened Js
  import opened Text
  import opened KmaTime
  import opened KmaVilage

  const BaseUrl := "http://apis.data.go.kr/1360000/VilageFcstInfoService_2.0/getVilageFcst"

  /** Korea Standard Time is nine hours ahead of UTC. */
  const KstOffsetMs: int := 9 * HourMs

  // --------------------------------------------------------- getBaseDateTime

  /** The issue hour used at KST hour `h`: the latest one not after `h`, or 23 (of the day before) before 02. */
  function BaseHour(h: int): (b: int)
    ensures b in Issue
    ensures h < 2 ==> b == 23
    ensures h >= 2 ==> b <= h && forall i :: 0 <= i < |Issue| && Issue[i] <= h ==> Issue[i] <= b
  {
    if h < 2 then 23 else LatestIssue(h)
  }

  /**
   * `getBaseDateTime`: the KST date and the issue time; before 02 KST the
   * 23 o'clock issue of the previous KST day.
   */
  method GetBaseDateTime(nowMs: int, utc: int -> Clock) returns (baseDate: string, baseTime: string)
    ensures var h := utc(nowMs + KstOffsetMs).hour;
      baseTime == Pad2(BaseHour(h)) + "00"
      && baseDate == DateStamp(utc(nowMs + KstOffsetMs - (if h < 2 then DayMs else 0)))
  {
    var kst := nowMs + KstOffsetMs;
    var currentHour := utc(kst).hour;
    var baseHour := Issue[0];
    for i := 0 to |Issue|
      invariant i == 0 ==> baseHour == 2
      invariant i > 0 ==> baseHour == LatestIssue(if currentHour < Issue[i - 1] then currentHour else Issue[i - 1])
    {
      if Issue[i] <= currentHour {
        baseHour := Issue[i];
      }
    }
    if currentHour < 2 {
      baseHour := 23;
      kst := kst - DayMs;
    }
    baseDate := DateStamp(utc(kst));
    baseTime := Pad2(baseHour) + "00";
  }

  // ---------------------------------------------------------- result record

  /** The forecast the route answers with; a NaN from parsing is `None`. */
  datatype ForecastResult = ForecastResult(
    temperature: Option<real>,
    humidity: Option<real>,
    cloudCover: Option<real>,
    windSpeed: Option<real>,
    precipitation: Option<real>,
    sky: Option<real>,
    baseDate: string,
    baseTime: string,
    targetDate: string,
    isMock: bool)

  /** `parseFloat(item.fcstValue)`: an absent value is NaN. */
  function FloatOf(v: Option<string>, parseFloat: string -> Option<real>): Option<real>
  {
    if v.None? then None else parseFloat(v.value)
  }

  /** `parseInt(item.fcstValue, 10)`: an absent value is NaN. */
  function IntOf(v: Option<string>, parseInt: string -> Option<int>): Option<real>
  {
    if v.None? then None else AsReal(parseInt(v.value))
  }

  /** The cloud cover of a sky code: 10 for clear (1), 50 for mostly cloudy (3), 80 for anything else. */
  function SkyCloud(sky: Option<real>): (c: real)
    ensures c == 10.0 <==> sky == Some(1.0)
    ensures c == 50.0 <==> sky == Some(3.0)
    ensures c == 80.0 <==> sky != Some(1.0) && sky != Some(3.0)
  {
    if sky == Some(1.0) then 10.0 else if sky == Some(3.0) then 50.0 else 80.0
  }

  /** The record before any item is read: zeros, and sky 1 with cloud cover 0. */
  function Initial(baseDate: string, baseTime: string, targetDate: string): ForecastResult
  {
    ForecastResult(Some(0.0), Some(0.0), Some(0.0), Some(0.0), Some(0.0), Some(1.0), baseDate, baseTime, targetDate, false)
  }

  /** The cloud cover follows the sky code, except in the initial pairing of sky 1 with cover 0. */
  predicate Consistent(r: ForecastResult)
  {
    r.cloudCover == Some(SkyCloud(r.sky)) || (r.sky == Some(1.0) && r.cloudCover == Some(0.0))
  }

  // ------------------------------------------------------------- night slots

  /** The slots tried, in order: 21:00, then 00:00, 03:00 and 18:00. */
  const NightHours: seq<string> := ["2100", "0000", "0300", "1800"]

  predicate Matches(it: KmaItem, date: string, time: string)
  {
    it.fcstDate == Some(date) && it.fcstTime == Some(time)
  }

  /** The `switch` of the night scan: each category overwrites its field. */
  function Night(r: ForecastResult, it: KmaItem, parseFloat: string -> Option<real>, parseInt: string -> Option<int>): (r': ForecastResult)
    ensures Consistent(r) ==> Consistent(r')
  {
    match it.category
    case "TMP" => r.(temperature := FloatOf(it.fcstValue, parseFloat))
    case "REH" => r.(humidity := IntOf(it.fcstValue, parseInt))
    case "SKY" =>
      var sky := IntOf(it.fcstValue, parseInt);
      r.(sky := sky, cloudCover := Some(SkyCloud(sky)))
    case "WSD" => r.(windSpeed := FloatOf(it.fcstValue, parseFloat))
    case "POP" => r.(precipitation := IntOf(it.fcstValue, parseInt))
    case _ => r
  }

  /** One pass of the inner loop: the items of `date` at `time`, read in order. */
  function FoldSlot(r: ForecastResult, items: seq<KmaItem>, date: string, time: string,
                    parseFloat: string -> Option<real>, parseInt: string -> Option<int>): ForecastResult
  {
    if |items| == 0 then r
    else
      var prev := FoldSlot(r, items[..|items| - 1], date, time, parseFloat, parseInt);
      var it := items[|items| - 1];
      if Matches(it, date, time) then Night(prev, it, parseFloat, parseInt) else prev
  }

  /** Whether the slot holds a temperature item, the only thing that sets `foundData`. */
  function HasTmp(items: seq<KmaItem>, date: string, time: string): (b: bool)
    ensures b <==> exists k :: 0 <= k < |items| && Matches(items[k], date, time) && items[k].category == "TMP"
  {
    if |items| == 0 then false
    else
      var it := items[|items| - 1];
      assert forall k :: 0 <= k < |items| - 1 ==> items[..|items| - 1][k] == items[k];
      HasTmp(items[..|items| - 1], date, time) || (Matches(it, date, time) && it.category == "TMP")
  }

  /** The outer loop: slot after slot until one held a temperature. */
  function NightScan(r: ForecastResult, items: seq<KmaItem>, date: string, slots: seq<string>,
                     parseFloat: string -> Option<real>, parseInt: string -> Option<int>): (ForecastResult, bool)
    decreases |slots|
  {
    if |slots| == 0 then (r, false)
    else
      var r1 := FoldSlot(r, items, date, slots[0], parseFloat, parseInt);
      if HasTmp(items, date, slots[0]) then (r1, true)
      else NightScan(r1, items, date, slots[1..], parseFloat, parseInt)
  }

  /** Every slot read in full, in order. */
  function FoldSlots(r: ForecastResult, items: seq<KmaItem>, date: string, slots: seq<string>,
                     parseFloat: string -> Option<real>, parseInt: string -> Option<int>): ForecastResult
    decreases |slots|
  {
    if |slots| == 0 then r
    else FoldSlots(FoldSlot(r, items, date, slots[0], parseFloat, parseInt), items, date, slots[1..], parseFloat, parseInt)
  }

  /** Position of the first slot holding a temperature item, or `|slots|`. */
  function FirstTmpSlot(items: seq<KmaItem>, date: string, slots: seq<string>): (m: nat)
    ensures m <= |slots|
    ensures m < |slots| ==> HasTmp(items, date, slots[m])
    ensures forall i :: 0 <= i < m ==> !HasTmp(items, date, slots[i])
  {
    if |slots| == 0 then 0
    else if HasTmp(items, date, slots[0]) then 0
    else 1 + FirstTmpSlot(items, date, slots[1..])
  }

  /**
   * The scan reads exactly the slots up to and including the first one that
   * held a temperature item (all of them when none did), and reports whether
   * such a slot was found.
   */
  lemma {:induction false} NightScanStops(r: ForecastResult, items: seq<KmaItem>, date: string, slots: seq<string>,
                                          parseFloat: string -> Option<real>, parseInt: string -> Option<int>)
    ensures var m := FirstTmpSlot(items, date, slots);
      NightScan(r, items, date, slots, parseFloat, parseInt)
        == (FoldSlots(r, items, date, slots[..if m < |slots| then m + 1 else m], parseFloat, parseInt), m < |slots|)
    decreases |slots|
  {
    if |slots| > 0 {
      var r1 := FoldSlot(r, items, date, slots[0], parseFloat, parseInt);
      var m := FirstTmpSlot(items, date, slots);
      if HasTmp(items, date, slots[0]) {
        assert slots[..1][1..] == [];
      } else {
        NightScanStops(r1, items, date, slots[1..], parseFloat, parseInt);
        var n := if m < |slots| then m + 1 else m;
        assert slots[..n][0] == slots[0];
        assert slots[..n][1..] == slots[1..][..n - 1];
      }
    }
  }

  /** Reading slots keeps the cloud cover in step with the sky code. */
  lemma {:induction false} FoldSlotConsistent(r: ForecastResult, items: seq<KmaItem>, date: string, time: string,
                                              parseFloat: string -> Option<real>, parseInt: string -> Option<int>)
    requires Consistent(r)
    ensures Consistent(FoldSlot(r, items, date, time, parseFloat, parseInt))
  {
    if |items| > 0 {
      FoldSlotConsistent(r, items[..|items| - 1], date, time, parseFloat, parseInt);
    }
  }

  lemma {:induction false} NightScanConsistent(r: ForecastResult, items: seq<KmaItem>, date: string, slots: seq<string>,
                                               parseFloat: string -> Option<real>, parseInt: string -> Option<int>)
    requires Consistent(r)
    ensures Consistent(NightScan(r, items, date, slots, parseFloat, parseInt).0)
    decreases |slots|
  {
    if |slots| > 0 {
      FoldSlotConsistent(r, items, date, slots[0], parseFloat, parseInt);
      NightScanConsistent(FoldSlot(r, items, date, slots[0], parseFloat, parseInt), items, date, slots[1..], parseFloat, parseInt);
    }
  }

  // ---------------------------------------------------------------- fallback

  /** `item.fcstDate === target || item.fcstDate >= target` (string order; an absent date never passes). */
  predicate Eligible(it: KmaItem, target: string)
  {
    it.fcstDate.Some? && (it.fcstDate.value == target || StrGe(it.fcstDate.value, target))
  }

  const FallbackCategories: seq<string> := ["TMP", "REH", "SKY", "WSD", "POP"]

  /** The field a category fills. */
  function Field(r: ForecastResult, category: string): Option<real>
  {
    match category
    case "TMP" => r.temperature
    case "REH" => r.humidity
    case "SKY" => r.sky
    case "WSD" => r.windSpeed
    case "POP" => r.precipitation
    case _ => None
  }

  /** The value that marks a field as still unfilled: 1 for the sky code, 0 for the rest. */
  function Sentinel(category: string): real
  {
    if category == "SKY" then 1.0 else 0.0
  }

  /** The value an item of the category would write. */
  function Parsed(category: string, v: Option<string>, parseFloat: string -> Option<real>, parseInt: string -> Option<int>): Option<real>
  {
    if category == "TMP" || category == "WSD" then FloatOf(v, parseFloat) else IntOf(v, parseInt)
  }

  /** The `switch` of the fallback: a field is written only while it still holds its sentinel. */
  function Fill(r: ForecastResult, it: KmaItem, target: string, parseFloat: string -> Option<real>,
                parseInt: string -> Option<int>): (r': ForecastResult)
    ensures Consistent(r) ==> Consistent(r')
    ensures forall c :: c in FallbackCategories ==>
      Field(r', c) == if Eligible(it, target) && it.category == c && Field(r, c) == Some(Sentinel(c))
                      then Parsed(c, it.fcstValue, parseFloat, parseInt) else Field(r, c)
  {
    if !Eligible(it, target) then r
    else match it.category
      case "TMP" => if r.temperature == Some(0.0) then r.(temperature := FloatOf(it.fcstValue, parseFloat)) else r
      case "REH" => if r.humidity == Some(0.0) then r.(humidity := IntOf(it.fcstValue, parseInt)) else r
      case "SKY" =>
        if r.sky == Some(1.0) then
          var sky := IntOf(it.fcstValue, parseInt);
          r.(sky := sky, cloudCover := Some(SkyCloud(sky)))
        else r
      case "WSD" => if r.windSpeed == Some(0.0) then r.(windSpeed := FloatOf(it.fcstValue, parseFloat)) else r
      case "POP" => if r.precipitation == Some(0.0) then r.(precipitation := IntOf(it.fcstValue, parseInt)) else r
      case _ => r
  }

  /** The fallback loop over every item. */
  function Fallback(r: ForecastResult, items: seq<KmaItem>, target: string, parseFloat: string -> Option<real>,
                    parseInt: string -> Option<int>): ForecastResult
  {
    if |items| == 0 then r
    else Fill(Fallback(r, items[..|items| - 1], target, parseFloat, parseInt), items[|items| - 1], target, parseFloat, parseInt)
  }

  /** Whether an item would replace the sentinel of category `c` with something else. */
  predicate Fills(it: KmaItem, target: string, c: string, parseFloat: string -> Option<real>, parseInt: string -> Option<int>)
  {
    Eligible(it, target) && it.category == c && Parsed(c, it.fcstValue, parseFloat, parseInt) != Some(Sentinel(c))
  }

  /** Position of the first item that fills category `c`, or −1. */
  function FirstFill(items: seq<KmaItem>, target: string, c: string, parseFloat: string -> Option<real>,
                     parseInt: string -> Option<int>): (k: int)
    ensures -1 <= k < |items|
    ensures k >= 0 ==> Fills(items[k], target, c, parseFloat, parseInt)
    ensures k >= 0 ==> forall j :: 0 <= j < k ==> !Fills(items[j], target, c, parseFloat, parseInt)
    ensures k == -1 ==> forall j :: 0 <= j < |items| ==> !Fills(items[j], target, c, parseFloat, parseInt)
  {
    if |items| == 0 then -1
    else
      var k := FirstFill(items[..|items| - 1], target, c, parseFloat, parseInt);
      assert forall j :: 0 <= j < |items| - 1 ==> items[..|items| - 1][j] == items[j];
      if k != -1 then k
      else if Fills(items[|items| - 1], target, c, parseFloat, parseInt) then |items| - 1
      else -1
  }

  /**
   * The fallback leaves a filled field alone; a field still at its sentinel
   * takes the value of the first eligible item of its category that parses
   * to something else (NaN included), and keeps the sentinel when there is none.
   */
  lemma {:induction false} FallbackFirstFill(r: ForecastResult, items: seq<KmaItem>, target: string,
                                             parseFloat: string -> Option<real>, parseInt: string -> Option<int>, c: string)
    requires c in FallbackCategories
    ensures var f, k := Fallback(r, items, target, parseFloat, parseInt), FirstFill(items, target, c, parseFloat, parseInt);
      (Field(r, c) != Some(Sentinel(c)) ==> Field(f, c) == Field(r, c))
      && (Field(r, c) == Some(Sentinel(c)) ==>
            Field(f, c) == if k == -1 then Some(Sentinel(c)) else Parsed(c, items[k].fcstValue, parseFloat, parseInt))
  {
    if |items| > 0 {
      var init := items[..|items| - 1];
      FallbackFirstFill(r, init, target, parseFloat, parseInt, c);
      assert forall j :: 0 <= j < |init| ==> init[j] == items[j];
    }
  }

  lemma {:induction false} FallbackConsistent(r: ForecastResult, items: seq<KmaItem>, target: string,
                                              parseFloat: string -> Option<real>, parseInt: string -> Option<int>)
    requires Consistent(r)
    ensures Consistent(Fallback(r, items, target, parseFloat, parseInt))
  {
    if |items| > 0 {
      FallbackConsistent(r, items[..|items| - 1], target, parseFloat, parseInt);
    }
  }

  // -------------------------------------------------------------- extraction

  /** Night slots first; the fallback only when no slot held a temperature. */
  function Extract(r0: ForecastResult, items: seq<KmaItem>, target: string, parseFloat: string -> Option<real>,
                   parseInt: string -> Option<int>): ForecastResult
  {
    var (r, found) := NightScan(r0, items, target, NightHours, parseFloat, parseInt);
    if found then r else Fallback(r, items, target, parseFloat, parseInt)
  }

  /** The extracted record always pairs the cloud cover with its sky code (or the initial 1/0). */
  lemma ExtractConsistent(r0: ForecastResult, items: seq<KmaItem>, target: string, parseFloat: string -> Option<real>,
                          parseInt: string -> Option<int>)
    requires Consistent(r0)
    ensures Consistent(Extract(r0, items, target, parseFloat, parseInt))
  {
    NightScanConsistent(r0, items, target, NightHours, parseFloat, parseInt);
    var (r, found) := NightScan(r0, items, target, NightHours, parseFloat, parseInt);
    FallbackConsistent(r, items, target, parseFloat, parseInt);
  }

  /** The nested loops of the night scan followed by the fallback loop. */
  method ExtractForecast(r0: ForecastResult, items: seq<KmaItem>, target: string, parseFloat: string -> Option<real>,
                         parseInt: string -> Option<int>) returns (result: ForecastResult)
    ensures result == Extract(r0, items, target, parseFloat, parseInt)
  {
    result := r0;
    var foundData := false;
    var i := 0;
    while i < |NightHours|
      invariant 0 <= i <= |NightHours|
      invariant !foundData ==> NightScan(result, items, target, NightHours[i..], parseFloat, parseInt)
                               == NightScan(r0, items, target, NightHours, parseFloat, parseInt)
      invariant foundData ==> (result, true) == NightScan(r0, items, target, NightHours, parseFloat, parseInt)
    {
      if foundData {
        break;
      }
      var targetTime := NightHours[i];
      var before := result;
      for j := 0 to |items|
        invariant result == FoldSlot(before, items[..j], target, targetTime, parseFloat, parseInt)
        invariant foundData == HasTmp(items[..j], target, targetTime)
      {
        assert items[..j + 1][..j] == items[..j];
        var item := items[j];
        if Matches(item, target, targetTime) {
          result := Night(result, item, parseFloat, parseInt);
          if item.category == "TMP" {
            foundData := true;
          }
        }
      }
      assert items[..|items|] == items;
      assert NightHours[i..][1..] == NightHours[i + 1..];
      i := i + 1;
    }
    if !foundData {
      var afterNight := result;
      for j := 0 to |items|
        invariant result == Fallback(afterNight, items[..j], target, parseFloat, parseInt)
      {
        assert items[..j + 1][..j] == items[..j];
        result := Fill(result, items[j], target, parseFloat, parseInt);
      }
      assert items[..|items|] == items;
    }
  }

  // -------------------------------------------------------------------- mock

  /** `targetDate.split("-").reduce((a, b) => a + parseInt(b), 0)`; a NaN piece makes the sum NaN. */
  function SumParts(parts: seq<string>, parseInt: string -> Option<int>): Option<int>
  {
    if |parts| == 0 then Some(0)
    else
      var prev := SumParts(parts[..|parts| - 1], parseInt);
      var last := parseInt(parts[|parts| - 1]);
      if prev.Some? && last.Some? then Some(prev.value + last.value) else None
  }

  function Seed(date: string, parseInt: string -> Option<int>): Option<int>
  {
    SumParts(Split(date, '-'), parseInt)
  }

  /** `yyyy-MM-dd` of an instant's UTC fields (`toISOString().split("T")[0]`). */
  function IsoDate(c: Clock): string
  {
    NatToString(c.year) + "-" + Pad2(c.month) + "-" + Pad2(c.day)
  }

  /** `generateMockForecast`: every number derived from the seed with JavaScript's `%`. */
  function MockForecast(date: string, nowMs: int, utc: int -> Clock, parseInt: string -> Option<int>): (r: ForecastResult)
    ensures r.isMock && r.targetDate == date && r.baseTime == "0500" && r.baseDate == DateStamp(utc(nowMs))
    ensures Seed(date, parseInt).None? ==>
      r.temperature.None? && r.humidity.None? && r.cloudCover.None? && r.windSpeed.None? && r.precipitation.None? && r.sky.None?
  {
    var seed := Seed(date, parseInt);
    var baseDate := DateStamp(utc(nowMs));
    if seed.None? then ForecastResult(None, None, None, None, None, None, baseDate, "0500", date, true)
    else
      var n := seed.value;
      ForecastResult(
        Some((5 + IntRem(n, 15)) as real), Some((40 + IntRem(n, 40)) as real), Some((IntRem(n, 80) + 10) as real),
        Some(IntRem(n, 10) as real / 2.0), Some(IntRem(n, 30) as real), Some((IntRem(n, 4) + 1) as real),
        baseDate, "0500", date, true)
  }

  /** For a date whose pieces add up to a non-negative number, every mock value lies in its band. */
  lemma MockRanges(date: string, nowMs: int, utc: int -> Clock, parseInt: string -> Option<int>)
    requires Seed(date, parseInt).Some? && Seed(date, parseInt).value >= 0
    ensures var r := MockForecast(date, nowMs, utc, parseInt);
      r.sky.Some? && 1.0 <= r.sky.value <= 4.0
      && r.cloudCover.Some? && 10.0 <= r.cloudCover.value <= 89.0
      && r.humidity.Some? && 40.0 <= r.humidity.value <= 79.0
      && r.temperature.Some? && 5.0 <= r.temperature.value <= 19.0
      && r.windSpeed.Some? && 0.0 <= r.windSpeed.value <= 4.5
      && r.precipitation.Some? && 0.0 <= r.precipitation.value <= 29.0
  {
  }

  // ------------------------------------------------------------------- route

  /** What the upstream request came to: it threw, or it answered with a content type and a body. */
  datatype ForecastReply = Threw | Reply(contentType: Option<string>, resultCode: Option<string>, items: ItemsField)

  /** A 400 with its message, or a 200 with a forecast (real or mock). */
  datatype ForecastResponse = BadRequest(error: string) | Success(body: ForecastResult)

  const MissingGrid := "nx, ny 파라미터가 필요합니다"

  function Status(r: ForecastResponse): (code: int)
    ensures code == 400 || code == 200
    ensures code == 200 <==> r.Success?
  {
    if r.BadRequest? then 400 else 200
  }

  /** `!x` for a query parameter: absent or empty. */
  predicate Missing(s: Option<string>)
  {
    s.None? || s.value == ""
  }

  /** Whether the reply can be read: a JSON content type, result code "00", and an item list (or none). */
  predicate Readable(reply: ForecastReply)
  {
    reply.Reply? && reply.contentType.Some? && Contains(reply.contentType.value, "application/json")
    && reply.resultCode == Some("00") && !reply.items.OneItem?
  }

  /** The items of a readable reply (`item || []`). */
  function ReplyItems(reply: ForecastReply): seq<KmaItem>
    requires Readable(reply)
  {
    if reply.items.ItemArray? then reply.items.items else []
  }

  /** The request parameters after the service key, in order. */
  function QueryParams(baseDate: string, baseTime: string, nx: string, ny: string): seq<(string, string)>
  {
    [("numOfRows", "300"), ("pageNo", "1"), ("dataType", "JSON"), ("base_date", baseDate),
     ("base_time", baseTime), ("nx", nx), ("ny", ny)]
  }

  /**
   * `GET /api/forecast`: missing `nx`/`ny` is a 400; a missing key, a
   * failed request, a reply that is not JSON, a result code other than "00"
   * or an item that cannot be iterated all give the mock forecast; otherwise
   * the night-slot extraction for the requested day (the base date when no
   * day is given).
   */
  method Get(nx: Option<string>, ny: Option<string>, date: Option<string>, key: Option<string>, nowMs: int,
             utc: int -> Clock, fetch: string -> ForecastReply, formEncode: seq<(string, string)> -> string,
             parseFloat: string -> Option<real>, parseInt: string -> Option<int>)
    returns (response: ForecastResponse)
    ensures (Missing(nx) || Missing(ny)) <==> response == BadRequest(MissingGrid)
    ensures var today := IsoDate(utc(nowMs));
      var shown := if Missing(date) then today else date.value;
      !Missing(nx) && !Missing(ny) && Missing(key) ==> response == Success(MockForecast(shown, nowMs, utc, parseInt))
    ensures !Missing(nx) && !Missing(ny) && !Missing(key) ==>
      var today := IsoDate(utc(nowMs));
      var shown := if Missing(date) then today else date.value;
      var h := utc(nowMs + KstOffsetMs).hour;
      var baseDate := DateStamp(utc(nowMs + KstOffsetMs - (if h < 2 then DayMs else 0)));
      var baseTime := Pad2(BaseHour(h)) + "00";
      var url := BaseUrl + "?serviceKey=" + EncodeURIComponent(key.value) + "&"
                 + formEncode(QueryParams(baseDate, baseTime, nx.value, ny.value));
      var reply := fetch(url);
      var target := if date.None? || Without(date.value, '-') == "" then baseDate else Without(date.value, '-');
      (!Readable(reply) ==> response == Success(MockForecast(shown, nowMs, utc, parseInt)))
      && (Readable(reply) ==>
            response == Success(Extract(Initial(baseDate, baseTime, shown), ReplyItems(reply), target, parseFloat, parseInt)))
  {
    if Missing(nx) || Missing(ny) {
      return BadRequest(MissingGrid);
    }
    var shown := if Missing(date) then IsoDate(utc(nowMs)) else date.value;
    if Missing(key) {
      return Success(MockForecast(shown, nowMs, utc, parseInt));
    }
    var baseDate, baseTime := GetBaseDateTime(nowMs, utc);
    var url := BaseUrl + "?serviceKey=" + EncodeURIComponent(key.value) + "&"
               + formEncode(QueryParams(baseDate, baseTime, nx.value, ny.value));
    var reply := fetch(url);
    if !Readable(reply) {
      return Success(MockForecast(shown, nowMs, utc, parseInt));
    }
    var target := if date.None? || Without(date.value, '-') == "" then baseDate else Without(date.value, '-');
    var result := ExtractForecast(Initial(baseDate, baseTime, shown), ReplyItems(reply), target, parseFloat, parseInt);
    return Success(result);
  }
}
