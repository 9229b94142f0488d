/**
 * The satellite cloud-grid route (app/api/satellite/cloud-grid/route.ts):
 * the same GK2A request the cache makes, answered directly, with a status
 * code for every way the reply can fall short.  The clock, the request, the
 * number parsers and the query encoding of `URL.searchParams` are parameters.
 */
module CloudGridRoute {
  import opened Js
  import opened Text
  import opened KmaTime
  import opened CloudGrid
  import WeatherCache

  const Endpoint := "https://apihub.kma.go.kr/api/typ02/openApi/CloudSatlitInfoService/getGk2acldAll"

  /** How the request ended; `body` is `response.body`, absent or holding `items.item`. */
  datatype GridReply =
    | HttpFailure(status: int)
    | Threw(message: string)
    | Reply(resultCode: Option<string>, resultMsg: Option<string>, body: Option<WeatherCache.ItemField>)

  /** The grid answered: the first item's metadata, its rows and the number of values read. */
  datatype GridInfo = GridInfo(
    dateTime: Option<string>,
    gridKm: Option<real>,
    xdim: Option<int>,
    ydim: Option<int>,
    x0: Option<real>,
    y0: Option<real>,
    grid: seq<seq<real>>,
    totalPoints: nat)

  datatype GridResponse =
    | Failure(status: int, error: string, code: Option<string>, message: Option<string>, dateTime: Option<string>)
    | Success(info: GridInfo)

  const NoKey := "KMA_SERVICE_KEY env not set"
  const CallFailed := "API 호출 실패"
  const NoBody := "응답 데이터 없음"
  const NoData := "데이터 없음"
  const UnknownError := "Unknown error"
  /** The `TypeError` raised when `items` is a lone object, so `items[0]` is undefined. */
  const FirstItemMissing := "Cannot read properties of undefined (reading 'dateTime')"

  function Status(r: GridResponse): int
  {
    if r.Failure? then r.status else 200
  }

  /** The query, in the order the parameters are set. */
  function GridQuery(dateTime: string, serviceKey: string): (q: seq<(string, string)>)
    ensures |q| == 6 && q[3] == ("dateTime", dateTime) && q[5] == ("authKey", serviceKey)
  {
    [("pageNo", "1"), ("numOfRows", "999999"), ("dataType", "JSON"),
     ("dateTime", dateTime), ("resultType", "cld"), ("authKey", serviceKey)]
  }

  /** The body of a successful answer, before its rows are filled in. */
  predicate DescribesItem(info: GridInfo, item: WeatherCache.GridItem, p: WeatherCache.Parsers)
  {
    var values := WeatherCache.ItemValues(item, p);
    info.dateTime == item.dateTime
    && info.gridKm == p.parseFloat(OrStr(item.gridKm, "2"))
    && info.xdim == p.parseInt(OrStr(item.xdim, "0"))
    && info.ydim == p.parseInt(OrStr(item.ydim, "0"))
    && info.x0 == p.parseFloat(OrStr(item.x0, "0"))
    && info.y0 == p.parseFloat(OrStr(item.y0, "0"))
    && WeatherCache.IsReshape(info.grid, values, info.xdim, info.ydim)
    && info.totalPoints == |values|
  }

  /** The item list the route goes on with (`body.items?.item || []`). */
  predicate HasItems(reply: GridReply)
  {
    reply.Reply? && reply.resultCode == Some("00") && reply.body.Some?
    && reply.body.value.ItemList? && |reply.body.value.items| > 0
  }

  /**
   * `GET`: 500 without a key; the upstream status on an HTTP failure; 500
   * for a result code other than "00", a missing body, a lone item object or
   * a thrown error; 404 for an empty item list; otherwise the first item's
   * grid.
   */
  method Get(serviceKey: Option<string>, nowMs: int, utc: int -> Clock, fetch: string -> GridReply,
             formEncode: seq<(string, string)> -> string, p: WeatherCache.Parsers)
    returns (response: GridResponse)
    ensures OrStr(serviceKey, "") == "" ==> response == Failure(500, NoKey, None, None, None)
    ensures OrStr(serviceKey, "") != "" ==>
      var dateTime := WeatherCache.CloudDateTime(nowMs, utc);
      var reply := fetch(Endpoint + "?" + formEncode(GridQuery(dateTime, serviceKey.value)));
      (reply.HttpFailure? ==> response == Failure(reply.status, "API error: " + IntToString(reply.status), None, None, None))
      && (reply.Threw? ==> response == Failure(500, OrStr(Some(reply.message), UnknownError), None, None, None))
      && (reply.Reply? && reply.resultCode != Some("00") ==>
            response == Failure(500, CallFailed, reply.resultCode, reply.resultMsg, None))
      && (reply.Reply? && reply.resultCode == Some("00") && reply.body.None? ==>
            response == Failure(500, NoBody, None, None, None))
      && (reply.Reply? && reply.resultCode == Some("00") && reply.body.Some? && reply.body.value.LoneItem? ==>
            response == Failure(500, FirstItemMissing, None, None, None))
      && ((reply.Reply? && reply.resultCode == Some("00") && reply.body.Some? && !reply.body.value.LoneItem?
           && !HasItems(reply)) ==> response == Failure(404, NoData, None, None, Some(dateTime)))
      && (response.Success? <==> HasItems(reply))
      && (HasItems(reply) ==> DescribesItem(response.info, reply.body.value.items[0], p))
  {
    if OrStr(serviceKey, "") == "" {
      return Failure(500, NoKey, None, None, None);
    }
    var dateTime := WeatherCache.CloudDateTime(nowMs, utc);
    var reply := fetch(Endpoint + "?" + formEncode(GridQuery(dateTime, serviceKey.value)));
    match reply {
      case HttpFailure(status) =>
        response := Failure(status, "API error: " + IntToString(status), None, None, None);
      case Threw(message) =>
        response := Failure(500, OrStr(Some(message), UnknownError), None, None, None);
      case Reply(resultCode, resultMsg, body) =>
        if resultCode != Some("00") {
          response := Failure(500, CallFailed, resultCode, resultMsg, None);
        } else if body.None? {
          response := Failure(500, NoBody, None, None, None);
        } else if body.value.LoneItem? {
          response := Failure(500, FirstItemMissing, None, None, None);
        } else if body.value.NoItem? || |body.value.items| == 0 {
          response := Failure(404, NoData, None, None, Some(dateTime));
        } else {
          var item := body.value.items[0];
          var xdim, ydim := p.parseInt(OrStr(item.xdim, "0")), p.parseInt(OrStr(item.ydim, "0"));
          var values := WeatherCache.ItemValues(item, p);
          var grid := Reshape(values, xdim, ydim);
          response := Success(GridInfo(
            item.dateTime,
            p.parseFloat(OrStr(item.gridKm, "2")),
            xdim,
            ydim,
            p.parseFloat(OrStr(item.x0, "0")),
            p.parseFloat(OrStr(item.y0, "0")),
            grid,
            |values|));
        }
    }
  }

  /**
   * `totalPoints` counts the comma-separated pieces of the value text, not
   * `xdim × ydim`: a single value with declared dimensions 2 × 2 still
   * reports one point, and the three cells it does not cover read as 0.
   */
  lemma TotalPointsIgnoresDims(p: WeatherCache.Parsers)
    requires p.parseInt("2") == Some(2) && p.parseFloat("0.5") == Some(0.5)
    ensures var item := WeatherCache.GridItem(None, None, Some("2"), Some("2"), None, None, Some("0.5"));
      forall info: GridInfo :: DescribesItem(info, item, p) ==>
        info.totalPoints == 1 && |info.grid| == 2 && info.grid[0][0] == 0.5 && info.grid[1][1] == 0.0
  {
    var item := WeatherCache.GridItem(None, None, Some("2"), Some("2"), None, None, Some("0.5"));
    var values := WeatherCache.ItemValues(item, p);
    assert Split("0.5", ',') == ["0.5"] by { assert IndexOf("0.5", ',') == 3; }
    assert Trim("0.5") == "0.5" by { TrimSpec("0.5"); }
    assert values == [Some(0.5)];
  }
}
