/**
 * The current-conditions route (app/api/weather/route.ts): the half-hour
 * issue of the ultra-short-term forecast in Korean time, the status code of
 * every failure, and the sky, temperature and humidity read from the items.
 * The clock, the request, `parseFloat`, `parseInt` and the form encoding of
 * `URLSearchParams` are parameters.
 */
module WeatherRoute {
  import opened Js
  import opened Text
  import opened KmaTime
  import opened KmaVilage
  import ForecastRoute

  const BaseUrl := "http://apis.data.go.kr/1360000/VilageFcstInfoService_2.0/getUltraSrtFcst"

  // ------------------------------------------------------- getBaseDateTime

  /**
   * The issue used at KST clock `c`: the latest `HH:30` not after it, which
   * lies less than an hour back, counting across midnight when it falls on
   * the previous day.
   */
  function BaseHourFor(c: Clock): (hour: int)
    ensures c.Valid() ==> 0 <= hour < 24
    ensures c.Valid() ==> var now, base := c.hour * 60 + c.minute, hour * 60 + 30;
      (PreviousDay(c) ==> 0 <= now + 24 * 60 - base < 60)
      && (!PreviousDay(c) ==> 0 <= now - base < 60)
  {
    if c.minute >= 30 then c.hour else if c.hour >= 1 then c.hour - 1 else 23
  }

  /** Whether the issue falls on the previous KST day. */
  predicate PreviousDay(c: Clock)
  {
    c.minute < 30 && c.hour < 1
  }

  /** `getBaseDateTime`: the KST date of the issue and `HH30`. */
  function GetBaseDateTime(nowMs: int, utc: int -> Clock): (base: (string, string))
    ensures var c := utc(nowMs + ForecastRoute.KstOffsetMs);
      base.1 == Pad2(BaseHourFor(c)) + "30"
      && base.0 == DateStamp(utc(nowMs + ForecastRoute.KstOffsetMs - (if PreviousDay(c) then DayMs else 0)))
  {
    var kst := nowMs + ForecastRoute.KstOffsetMs;
    var c := utc(kst);
    var hour := if c.minute < 30 then c.hour - 1 else c.hour;
    if hour < 0 then (DateStamp(utc(kst - DayMs)), Pad2(23) + "30")
    else (DateStamp(c), Pad2(hour) + "30")
  }

  // ------------------------------------------------------------ extraction

  /** The three values the route reads, with their defaults; a NaN from parsing is `None`. */
  datatype Current = Current(sky: Option<real>, temperature: Option<real>, humidity: Option<real>)

  const Defaults := Current(Some(1.0), Some(0.0), Some(0.0))

  /** The `switch` over one item. */
  function Read(cur: Current, it: KmaItem, parseFloat: string -> Option<real>, parseInt: string -> Option<int>): Current
  {
    match it.category
    case "SKY" => cur.(sky := ForecastRoute.IntOf(it.fcstValue, parseInt))
    case "T1H" => cur.(temperature := ForecastRoute.FloatOf(it.fcstValue, parseFloat))
    case "REH" => cur.(humidity := ForecastRoute.IntOf(it.fcstValue, parseInt))
    case _ => cur
  }

  function ReadAll(items: seq<KmaItem>, parseFloat: string -> Option<real>, parseInt: string -> Option<int>): Current
  {
    if |items| == 0 then Defaults
    else Read(ReadAll(items[..|items| - 1], parseFloat, parseInt), items[|items| - 1], parseFloat, parseInt)
  }

  /** The loop over the items. */
  method Extract(items: seq<KmaItem>, parseFloat: string -> Option<real>, parseInt: string -> Option<int>)
    returns (cur: Current)
    ensures cur == ReadAll(items, parseFloat, parseInt)
  {
    cur := Defaults;
    for i := 0 to |items|
      invariant cur == ReadAll(items[..i], parseFloat, parseInt)
    {
      assert items[..i + 1][..i] == items[..i];
      cur := Read(cur, items[i], parseFloat, parseInt);
    }
    assert items[..|items|] == items;
  }

  /** Each value comes from the last item of its category; without one it keeps its default. */
  lemma {:induction false} ReadAllLastWins(items: seq<KmaItem>, parseFloat: string -> Option<real>, parseInt: string -> Option<int>)
    ensures var cur, s, t, h := ReadAll(items, parseFloat, parseInt), LastOfCategory(items, "SKY"),
                                LastOfCategory(items, "T1H"), LastOfCategory(items, "REH");
      cur.sky == (if s == -1 then Some(1.0) else ForecastRoute.IntOf(items[s].fcstValue, parseInt))
      && cur.temperature == (if t == -1 then Some(0.0) else ForecastRoute.FloatOf(items[t].fcstValue, parseFloat))
      && cur.humidity == (if h == -1 then Some(0.0) else ForecastRoute.IntOf(items[h].fcstValue, parseInt))
  {
    if |items| > 0 {
      ReadAllLastWins(items[..|items| - 1], parseFloat, parseInt);
    }
  }

  // ----------------------------------------------------------------- route

  /** What the upstream request came to. */
  datatype WeatherReply =
    | Threw
    | Reply(contentType: Option<string>, text: string, resultCode: Option<string>, resultMsg: Option<string>, items: ItemsField)

  datatype WeatherResponse =
    | Failure(status: int, error: string, detail: Option<string>)
    | Success(current: Current, baseDate: string, baseTime: string, nx: Option<int>, ny: Option<int>)

  const MissingGrid := "nx, ny 파라미터가 필요합니다"
  const MissingKey := "기상청 API 키가 설정되지 않았습니다"
  const AuthFailed := "기상청 API 인증 실패"
  const AuthDetail := "API 키가 유효하지 않거나 인증에 실패했습니다. KMA_SERVICE_KEY 환경 변수를 확인해주세요."
  const UpstreamError := "기상청 API 오류"
  const FetchFailed := "날씨 정보를 가져오는데 실패했습니다"

  function Status(r: WeatherResponse): int
  {
    if r.Failure? then r.status else 200
  }

  predicate IsJson(reply: WeatherReply)
  {
    reply.Reply? && reply.contentType.Some? && Contains(reply.contentType.value, "application/json")
  }

  /**
   * The answer once the reply is in: a body that is not JSON is a 401 (with
   * a fixed hint when it says "Unauthorized"), a result code other than "00"
   * a 502, a failed request or an item that cannot be iterated a 500.
   */
  function Answer(reply: WeatherReply, cur: Current, baseDate: string, baseTime: string, nx: string, ny: string,
                  parseInt: string -> Option<int>): (r: WeatherResponse)
    ensures reply.Threw? ==> r == Failure(500, FetchFailed, None)
    ensures reply.Reply? && !IsJson(reply) ==>
      r == Failure(401, AuthFailed, Some(if Contains(reply.text, "Unauthorized") then AuthDetail else reply.text))
    ensures IsJson(reply) && reply.resultCode != Some("00") ==> r == Failure(502, UpstreamError, reply.resultMsg)
    ensures IsJson(reply) && reply.resultCode == Some("00") && reply.items.OneItem? ==> r == Failure(500, FetchFailed, None)
    ensures r.Success? <==> IsJson(reply) && reply.resultCode == Some("00") && !reply.items.OneItem?
    ensures r.Success? ==> r == Success(cur, baseDate, baseTime, parseInt(nx), parseInt(ny))
  {
    if reply.Threw? then Failure(500, FetchFailed, None)
    else if !IsJson(reply) then
      Failure(401, AuthFailed, Some(if Contains(reply.text, "Unauthorized") then AuthDetail else reply.text))
    else if reply.resultCode != Some("00") then Failure(502, UpstreamError, reply.resultMsg)
    else if reply.items.OneItem? then Failure(500, FetchFailed, None)
    else Success(cur, baseDate, baseTime, parseInt(nx), parseInt(ny))
  }

  /** The items of a reply (`item || []`). */
  function ReplyItems(reply: WeatherReply): seq<KmaItem>
  {
    if reply.Reply? && reply.items.ItemArray? then reply.items.items else []
  }

  /** `GET /api/weather`: 400 without `nx`/`ny`, 500 without a key, then the upstream answer. */
  method Get(nx: Option<string>, ny: Option<string>, key: Option<string>, nowMs: int, utc: int -> Clock,
             fetch: string -> WeatherReply, formEncode: seq<(string, string)> -> string,
             parseFloat: string -> Option<real>, parseInt: string -> Option<int>)
    returns (response: WeatherResponse)
    ensures ForecastRoute.Missing(nx) || ForecastRoute.Missing(ny) ==> response == Failure(400, MissingGrid, None)
    ensures !ForecastRoute.Missing(nx) && !ForecastRoute.Missing(ny) && ForecastRoute.Missing(key) ==>
      response == Failure(500, MissingKey, None)
    ensures !ForecastRoute.Missing(nx) && !ForecastRoute.Missing(ny) && !ForecastRoute.Missing(key) ==>
      var base := GetBaseDateTime(nowMs, utc);
      var params := [("numOfRows", "60"), ("pageNo", "1"), ("dataType", "JSON"), ("base_date", base.0),
                     ("base_time", base.1), ("nx", nx.value), ("ny", ny.value)];
      var reply := fetch(BaseUrl + "?serviceKey=" + EncodeURIComponent(key.value) + "&" + formEncode(params));
      response == Answer(reply, ReadAll(ReplyItems(reply), parseFloat, parseInt), base.0, base.1, nx.value, ny.value, parseInt)
  {
    if ForecastRoute.Missing(nx) || ForecastRoute.Missing(ny) {
      return Failure(400, MissingGrid, None);
    }
    if ForecastRoute.Missing(key) {
      return Failure(500, MissingKey, None);
    }
    var (baseDate, baseTime) := GetBaseDateTime(nowMs, utc);
    var params := [("numOfRows", "60"), ("pageNo", "1"), ("dataType", "JSON"), ("base_date", baseDate),
                   ("base_time", baseTime), ("nx", nx.value), ("ny", ny.value)];
    var reply := fetch(BaseUrl + "?serviceKey=" + EncodeURIComponent(key.value) + "&" + formEncode(params));
    var cur := Extract(ReplyItems(reply), parseFloat, parseInt);
    response := Answer(reply, cur, baseDate, baseTime, nx.value, ny.value, parseInt);
  }
}
