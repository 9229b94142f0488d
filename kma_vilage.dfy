/**
 * The KMA village-forecast adapter (lib/kmaVilage.ts): the query string of
 * `kmaFetch` and the normalisation of its `items`, the issue time of the
 * latest village forecast, the folding of the ultra-short-term nowcast, the
 * grouping of forecast items into 3-hourly and fine trend points, and the
 * snapshot assembled from all three requests.  The network is a parameter
 * (`fetch` maps a URL to its reply), as are the clock, `parseInt` and the
 * conversion of a forecast date and time into epoch seconds.
 */
module KmaVilage {
  import opened Js
  import opened Text
  import opened KmaTime
  import opened WeatherTypes
  import Sorting

  const Base := "https://apihub.kma.go.kr/api/typ02/openApi/VilageFcstInfoService_2.0"

  /** One item of a reply: forecasts carry `fcstDate`/`fcstTime`/`fcstValue`, observations `obsrValue`. */
  datatype KmaItem = KmaItem(
    baseDate: Option<string>,
    baseTime: Option<string>,
    category: string,
    fcstDate: Option<string>,
    fcstTime: Option<string>,
    fcstValue: Option<string>,
    obsrValue: Option<string>)

  // -------------------------------------------------------------- kmaFetch

  /** One `key=value` piece of the query; the service key travels as `authKey`, unencoded. */
  function QueryPiece(param: (string, string)): string
  {
    if param.0 == "serviceKey" then "authKey=" + param.1
    else param.0 + "=" + EncodeURIComponent(param.1)
  }

  /** The pieces of the query, one per parameter, in the order of the parameters. */
  function QueryPieces(params: seq<(string, string)>): (pieces: seq<string>)
    ensures |pieces| == |params|
  {
    seq(|params|, i requires 0 <= i < |params| => QueryPiece(params[i]))
  }

  /** The URL `kmaFetch` requests for `path` with `params`. */
  method KmaUrl(path: string, params: seq<(string, string)>) returns (url: string)
    ensures url == Url(path, params)
  {
    var pairs: seq<string> := [];
    for i := 0 to |params|
      invariant |pairs| == i
      invariant forall k :: 0 <= k < i ==> pairs[k] == QueryPiece(params[k])
    {
      var (k, v) := params[i];
      if k == "serviceKey" {
        pairs := pairs + ["authKey=" + v];
      } else {
        pairs := pairs + [k + "=" + EncodeURIComponent(v)];
      }
    }
    assert pairs == QueryPieces(params);
    url := Base + "/" + path + "?" + Join(pairs, '&');
  }

  lemma EncodedHasNoAmpersand(v: string)
    ensures '&' !in EncodeURIComponent(v)
  {
    var r := EncodeURIComponent(v);
    assert forall k :: 0 <= k < |r| ==> IsUriSafe(r[k]);
  }

  /**
   * The query splits back at `&` into one piece per parameter: the service
   * key as `authKey=` and its raw value, every other parameter as its name,
   * `=` and its encoded value (which holds no `&`).
   */
  lemma QueryRoundTrip(params: seq<(string, string)>)
    requires |params| >= 1
    requires forall i :: 0 <= i < |params| ==> '&' !in params[i].0
    requires forall i :: 0 <= i < |params| && params[i].0 == "serviceKey" ==> '&' !in params[i].1
    ensures var pieces := Split(Join(QueryPieces(params), '&'), '&');
      |pieces| == |params|
      && forall i :: 0 <= i < |params| ==>
        (params[i].0 == "serviceKey" ==> pieces[i] == "authKey=" + params[i].1)
        && (params[i].0 != "serviceKey" ==> pieces[i] == params[i].0 + "=" + EncodeURIComponent(params[i].1))
  {
    var pieces := QueryPieces(params);
    forall i | 0 <= i < |params|
      ensures '&' !in pieces[i]
    {
      EncodedHasNoAmpersand(params[i].1);
    }
    SplitJoin(pieces, '&');
  }

  /** `json?.response?.body?.items?.item`: a list, a single item, or nothing usable. */
  datatype ItemsField = ItemArray(items: seq<KmaItem>) | OneItem(item: KmaItem) | NoItems

  /**
   * What a request comes back with: the error of a request that threw (no
   * connection, a body that is not JSON), a failed status and its text, or
   * the parsed reply.
   */
  datatype FetchReply = Thrown(message: string) | HttpError(status: int, text: string) | Json(field: ItemsField)

  /**
   * `kmaFetch` once the reply is in: a thrown request passes its error on, a
   * failed status is an error, a single item is wrapped.
   */
  function KmaItems(path: string, reply: FetchReply): (r: Result<seq<KmaItem>>)
    ensures !reply.Json? <==> r.Err?
    ensures reply.Thrown? ==> r == Err(reply.message)
    ensures reply.HttpError? ==>
      r.message == "KMA " + path + " error " + IntToString(reply.status) + ": " + reply.text
    ensures reply.Json? && reply.field.ItemArray? ==> r == Ok(reply.field.items)
    ensures reply.Json? && reply.field.OneItem? ==> r == Ok([reply.field.item])
    ensures reply.Json? && reply.field.NoItems? ==> r == Ok([])
  {
    match reply
    case Thrown(message) => Err(message)
    case HttpError(status, text) => Err("KMA " + path + " error " + IntToString(status) + ": " + text)
    case Json(field) =>
      match field
      case ItemArray(items) => Ok(items)
      case OneItem(item) => Ok([item])
      case NoItems => Ok([])
  }

  // ------------------------------------------------------- recentVillageBase

  /** The hours at which the village forecast is issued. */
  const Issue: seq<int> := [2, 5, 8, 11, 14, 17, 20, 23]

  /** The latest issue hour not after `h`; before 02 the first issue, 02, is used. */
  function LatestIssue(h: int): (sel: int)
    ensures sel in Issue
    ensures h < 2 ==> sel == 2
    ensures h >= 2 ==> sel <= h && forall i :: 0 <= i < |Issue| && Issue[i] <= h ==> Issue[i] <= sel
  {
    if h < 2 then 2 else if h >= 23 then 23 else 2 + ((h - 2) / 3) * 3
  }

  /** `recentVillageBase`: the local date and the latest issue time as `HH00`. */
  method RecentVillageBase(c: Clock) returns (baseDate: string, baseTime: string)
    ensures baseDate == DateStamp(c)
    ensures baseTime == Pad2(LatestIssue(c.hour)) + "00" && |baseTime| == 4
  {
    var h := c.hour;
    var sel := Issue[0];
    for i := 0 to |Issue|
      invariant i == 0 ==> sel == 2
      invariant i > 0 ==> sel == LatestIssue(if h < Issue[i - 1] then h else Issue[i - 1])
    {
      if h >= Issue[i] {
        sel := Issue[i];
      }
    }
    baseDate := DateStamp(c);
    baseTime := Pad2(sel) + "00";
  }

  // ------------------------------------------------------- values and codes

  /** `toInt`: an absent value is null, otherwise `parseInt` (None for NaN). */
  function ToInt(v: Option<string>, parseInt: string -> Option<int>): (n: Option<int>)
    ensures v.None? ==> n.None?
  {
    if v.None? then None else parseInt(v.value)
  }

  /** `skyToCloudPct`: sky codes 1–4 (clear … overcast) as a cloud percentage, anything else 0. */
  function SkyToCloudPct(sky: Option<int>): (pct: int)
    ensures 0 <= pct <= 95
    ensures pct == 0 <==> !(sky.Some? && 1 <= sky.value <= 4)
    ensures sky == Some(1) ==> pct == 5
    ensures sky == Some(4) ==> pct == 95
  {
    if sky.None? then 0
    else match sky.value
      case 1 => 5
      case 2 => 30
      case 3 => 70
      case 4 => 95
      case _ => 0
  }

  /** A cloudier sky code never gives a smaller percentage. */
  lemma SkyToCloudMonotone(a: int, b: int)
    requires 1 <= a <= b <= 4
    ensures SkyToCloudPct(Some(a)) < SkyToCloudPct(Some(b)) || a == b
  {
  }

  function AsReal(v: Option<int>): (r: Option<real>)
    ensures r.Some? <==> v.Some?
    ensures v.Some? ==> r.value == v.value as real
  {
    if v.None? then None else Some(v.value as real)
  }

  // --------------------------------------------------------------- nowcast

  /** The seven nowcast values the adapter keeps; each starts as null. */
  datatype Nowcast = Nowcast(sky: Option<int>, pty: Option<int>, temp: Option<int>, humidity: Option<int>,
                             windSpeed: Option<int>, windDir: Option<int>, rn1: Option<int>)

  const NowcastCategories: seq<string> := ["SKY", "PTY", "T1H", "REH", "WSD", "VEC", "RN1"]

  /** The value a category feeds, read back from a nowcast; other categories feed nothing. */
  function Slot(n: Nowcast, category: string): Option<int>
  {
    match category
    case "SKY" => n.sky
    case "PTY" => n.pty
    case "T1H" => n.temp
    case "REH" => n.humidity
    case "WSD" => n.windSpeed
    case "VEC" => n.windDir
    case "RN1" => n.rn1
    case _ => None
  }

  /** One turn of the `switch`: the item's category takes the item's value. */
  function Observe(n: Nowcast, category: string, v: Option<int>): (m: Nowcast)
    ensures forall c :: c in NowcastCategories ==> Slot(m, c) == if c == category then v else Slot(n, c)
  {
    match category
    case "SKY" => n.(sky := v)
    case "PTY" => n.(pty := v)
    case "T1H" => n.(temp := v)
    case "REH" => n.(humidity := v)
    case "WSD" => n.(windSpeed := v)
    case "VEC" => n.(windDir := v)
    case "RN1" => n.(rn1 := v)
    case _ => n
  }

  const NoNowcast := Nowcast(None, None, None, None, None, None, None)

  /** The nowcast after reading `items` in order. */
  function FoldNowcast(items: seq<KmaItem>, parseInt: string -> Option<int>): Nowcast
  {
    if |items| == 0 then NoNowcast
    else
      var it := items[|items| - 1];
      Observe(FoldNowcast(items[..|items| - 1], parseInt), it.category, ToInt(it.obsrValue, parseInt))
  }

  /** The loop over the nowcast items. */
  method ReadNowcast(items: seq<KmaItem>, parseInt: string -> Option<int>) returns (n: Nowcast)
    ensures n == FoldNowcast(items, parseInt)
  {
    n := NoNowcast;
    for i := 0 to |items|
      invariant n == FoldNowcast(items[..i], parseInt)
    {
      assert items[..i + 1][..i] == items[..i];
      n := Observe(n, items[i].category, ToInt(items[i].obsrValue, parseInt));
    }
    assert items[..|items|] == items;
  }

  /** Position of the last item of category `c`, or −1. */
  function LastOfCategory(items: seq<KmaItem>, c: string): (k: int)
    ensures -1 <= k < |items|
    ensures k >= 0 ==> items[k].category == c && forall j :: k < j < |items| ==> items[j].category != c
    ensures k == -1 ==> forall j :: 0 <= j < |items| ==> items[j].category != c
  {
    if |items| == 0 then -1
    else if items[|items| - 1].category == c then |items| - 1
    else LastOfCategory(items[..|items| - 1], c)
  }

  /** For each category the last item of it wins, even when its value does not parse; none leaves null. */
  lemma {:induction false} NowcastLastWins(items: seq<KmaItem>, parseInt: string -> Option<int>, c: string)
    requires c in NowcastCategories
    ensures var k := LastOfCategory(items, c);
      Slot(FoldNowcast(items, parseInt), c) == if k == -1 then None else ToInt(items[k].obsrValue, parseInt)
  {
    if |items| > 0 {
      NowcastLastWins(items[..|items| - 1], parseInt, c);
    }
  }

  // -------------------------------------------------------- trend grouping

  /** `!it.fcstDate || !it.fcstTime`: such items are skipped. */
  predicate Dated(it: KmaItem)
  {
    OrStr(it.fcstDate, "") != "" && OrStr(it.fcstTime, "") != ""
  }

  /** The epoch second of an item's forecast date and time (`Date.UTC` of its fields). */
  function Epoch(it: KmaItem, epochOf: (string, string) -> int): int
  {
    epochOf(OrStr(it.fcstDate, ""), OrStr(it.fcstTime, ""))
  }

  /** `points.find(p => p.dt === e)` as a position: the first point of epoch `e`, or −1. */
  function PointAt<P>(points: seq<P>, dtOf: P -> int, e: int): (k: int)
    ensures -1 <= k < |points|
    ensures k >= 0 ==> dtOf(points[k]) == e && forall j :: 0 <= j < k ==> dtOf(points[j]) != e
    ensures k == -1 ==> forall j :: 0 <= j < |points| ==> dtOf(points[j]) != e
  {
    if |points| == 0 then -1
    else if dtOf(points[0]) == e then 0
    else
      var k := PointAt(points[1..], dtOf, e);
      if k == -1 then -1 else k + 1
  }

  /** One item placed: its point is found or appended, then the item's category is applied. */
  function Place<P>(points: seq<P>, it: KmaItem, epochOf: (string, string) -> int, parseInt: string -> Option<int>,
                    dtOf: P -> int, blank: int -> P, apply: (P, string, Option<int>) -> P): seq<P>
  {
    if !Dated(it) then points
    else
      var e := Epoch(it, epochOf);
      var v := ToInt(it.fcstValue, parseInt);
      var k := PointAt(points, dtOf, e);
      if k == -1 then points + [apply(blank(e), it.category, v)]
      else points[k := apply(points[k], it.category, v)]
  }

  /** The points after placing `items` in order: the grouping loop of both trends. */
  function Group<P>(items: seq<KmaItem>, epochOf: (string, string) -> int, parseInt: string -> Option<int>,
                    dtOf: P -> int, blank: int -> P, apply: (P, string, Option<int>) -> P): seq<P>
  {
    if |items| == 0 then []
    else Place(Group(items[..|items| - 1], epochOf, parseInt, dtOf, blank, apply), items[|items| - 1],
               epochOf, parseInt, dtOf, blank, apply)
  }

  /** A blank point has the epoch it was made for, and applying a value keeps the epoch. */
  ghost predicate KeepsDt<P(!new)>(dtOf: P -> int, blank: int -> P, apply: (P, string, Option<int>) -> P)
  {
    (forall e :: dtOf(blank(e)) == e) && (forall p, c, v :: dtOf(apply(p, c, v)) == dtOf(p))
  }

  /** Whether the dated item `it` falls on epoch `e`. */
  predicate OnEpoch(it: KmaItem, epochOf: (string, string) -> int, e: int)
  {
    Dated(it) && Epoch(it, epochOf) == e
  }

  /** What placing one item does to the epochs of the points. */
  lemma PlaceDts<P(!new)>(prev: seq<P>, it: KmaItem, epochOf: (string, string) -> int, parseInt: string -> Option<int>,
                          dtOf: P -> int, blank: int -> P, apply: (P, string, Option<int>) -> P)
    requires KeepsDt(dtOf, blank, apply)
    ensures var g := Place(prev, it, epochOf, parseInt, dtOf, blank, apply);
      |prev| <= |g| <= |prev| + 1
      && (forall i :: 0 <= i < |prev| ==> dtOf(g[i]) == dtOf(prev[i]))
      && (!Dated(it) ==> g == prev)
      && (Dated(it) ==> PointAt(g, dtOf, Epoch(it, epochOf)) >= 0)
      && (|g| == |prev| + 1 ==> Dated(it) && dtOf(g[|prev|]) == Epoch(it, epochOf)
                                && PointAt(prev, dtOf, Epoch(it, epochOf)) == -1)
  {
    var g := Place(prev, it, epochOf, parseInt, dtOf, blank, apply);
    if Dated(it) {
      var e := Epoch(it, epochOf);
      var k := PointAt(prev, dtOf, e);
      assert dtOf(g[if k == -1 then |prev| else k]) == e;
    }
  }

  /** No two points share an epoch. */
  predicate DistinctDts<P>(points: seq<P>, dtOf: P -> int)
  {
    forall i, j :: 0 <= i < j < |points| ==> dtOf(points[i]) != dtOf(points[j])
  }

  /** One point per epoch: no two points share `dt`. */
  lemma {:induction false} GroupDistinct<P(!new)>(items: seq<KmaItem>, epochOf: (string, string) -> int,
                                                  parseInt: string -> Option<int>, dtOf: P -> int, blank: int -> P,
                                                  apply: (P, string, Option<int>) -> P)
    requires KeepsDt(dtOf, blank, apply)
    ensures DistinctDts(Group(items, epochOf, parseInt, dtOf, blank, apply), dtOf)
  {
    if |items| > 0 {
      var init, it := items[..|items| - 1], items[|items| - 1];
      var prev := Group(init, epochOf, parseInt, dtOf, blank, apply);
      GroupDistinct(init, epochOf, parseInt, dtOf, blank, apply);
      var g := Place(prev, it, epochOf, parseInt, dtOf, blank, apply);
      assert g == Group(items, epochOf, parseInt, dtOf, blank, apply);
      PlaceDts(prev, it, epochOf, parseInt, dtOf, blank, apply);
      forall i, j | 0 <= i < j < |g|
        ensures dtOf(g[i]) != dtOf(g[j])
      {
        if j >= |prev| {
          assert PointAt(prev, dtOf, dtOf(g[j])) == -1;
        }
      }
    }
  }

  /** Every dated item's epoch has its point. */
  lemma {:induction false} GroupCovers<P(!new)>(items: seq<KmaItem>, epochOf: (string, string) -> int,
                                                parseInt: string -> Option<int>, dtOf: P -> int, blank: int -> P,
                                                apply: (P, string, Option<int>) -> P)
    requires KeepsDt(dtOf, blank, apply)
    ensures var g := Group(items, epochOf, parseInt, dtOf, blank, apply);
      forall m :: 0 <= m < |items| && Dated(items[m]) ==> PointAt(g, dtOf, Epoch(items[m], epochOf)) >= 0
  {
    if |items| > 0 {
      var init, it := items[..|items| - 1], items[|items| - 1];
      GroupCovers(init, epochOf, parseInt, dtOf, blank, apply);
      var prev := Group(init, epochOf, parseInt, dtOf, blank, apply);
      var g := Place(prev, it, epochOf, parseInt, dtOf, blank, apply);
      PlaceDts(prev, it, epochOf, parseInt, dtOf, blank, apply);
      forall m | 0 <= m < |init| && Dated(items[m])
        ensures PointAt(g, dtOf, Epoch(items[m], epochOf)) >= 0
      {
        assert items[m] == init[m];
        var j := PointAt(prev, dtOf, Epoch(items[m], epochOf));
        assert dtOf(g[j]) == Epoch(items[m], epochOf);
      }
    }
  }

  /** Every point stands for the epoch of some dated item. */
  predicate FromItems<P>(points: seq<P>, items: seq<KmaItem>, epochOf: (string, string) -> int, dtOf: P -> int)
  {
    forall i :: 0 <= i < |points| ==> exists m :: 0 <= m < |items| && OnEpoch(items[m], epochOf, dtOf(points[i]))
  }

  /** Grouping invents no epoch: each point's comes from a dated item. */
  lemma {:induction false} GroupFromItems<P(!new)>(items: seq<KmaItem>, epochOf: (string, string) -> int,
                                                   parseInt: string -> Option<int>, dtOf: P -> int, blank: int -> P,
                                                   apply: (P, string, Option<int>) -> P)
    requires KeepsDt(dtOf, blank, apply)
    ensures FromItems(Group(items, epochOf, parseInt, dtOf, blank, apply), items, epochOf, dtOf)
  {
    if |items| > 0 {
      var init, it := items[..|items| - 1], items[|items| - 1];
      GroupFromItems(init, epochOf, parseInt, dtOf, blank, apply);
      var prev := Group(init, epochOf, parseInt, dtOf, blank, apply);
      var g := Place(prev, it, epochOf, parseInt, dtOf, blank, apply);
      assert g == Group(items, epochOf, parseInt, dtOf, blank, apply);
      PlaceDts(prev, it, epochOf, parseInt, dtOf, blank, apply);
      forall i | 0 <= i < |g|
        ensures exists m :: 0 <= m < |items| && OnEpoch(items[m], epochOf, dtOf(g[i]))
      {
        if i < |prev| {
          var m :| 0 <= m < |init| && OnEpoch(init[m], epochOf, dtOf(prev[i]));
          assert OnEpoch(items[m], epochOf, dtOf(g[i]));
        } else {
          assert OnEpoch(items[|items| - 1], epochOf, dtOf(g[i]));
        }
      }
    }
  }
  /** Position of the last dated item on epoch `e` that writes slot `s`, or −1. */
  function LastWrite(items: seq<KmaItem>, epochOf: (string, string) -> int, e: int,
                     writes: (string, string) -> bool, s: string): (k: int)
    ensures -1 <= k < |items|
    ensures k >= 0 ==> OnEpoch(items[k], epochOf, e) && writes(items[k].category, s)
    ensures k >= 0 ==> forall j :: k < j < |items| ==> !(OnEpoch(items[j], epochOf, e) && writes(items[j].category, s))
    ensures k == -1 ==> forall j :: 0 <= j < |items| ==> !(OnEpoch(items[j], epochOf, e) && writes(items[j].category, s))
  {
    if |items| == 0 then -1
    else if OnEpoch(items[|items| - 1], epochOf, e) && writes(items[|items| - 1].category, s) then |items| - 1
    else LastWrite(items[..|items| - 1], epochOf, e, writes, s)
  }

  /**
   * How a point type stores item values: `get(p, s)` reads slot `s`, a blank
   * point has every slot empty, and applying category `c` with value `v`
   * sets exactly the slots `c` writes, to `val(c, v)`.
   */
  ghost predicate SlotsWork<P(!new)>(blank: int -> P, apply: (P, string, Option<int>) -> P, get: (P, string) -> Option<real>,
                         writes: (string, string) -> bool, val: (string, Option<int>) -> Option<real>)
  {
    (forall e, s :: get(blank(e), s).None?)
    && (forall p, c, v, s :: get(apply(p, c, v), s) == if writes(c, s) then val(c, v) else get(p, s))
  }

  /** In every point, every slot holds the value of the last item of that epoch writing it, or nothing. */
  ghost predicate LastWins<P>(points: seq<P>, items: seq<KmaItem>, epochOf: (string, string) -> int,
                        parseInt: string -> Option<int>, dtOf: P -> int, get: (P, string) -> Option<real>,
                        writes: (string, string) -> bool, val: (string, Option<int>) -> Option<real>)
  {
    forall i, s :: 0 <= i < |points| ==>
      var k := LastWrite(items, epochOf, dtOf(points[i]), writes, s);
      get(points[i], s) == if k == -1 then None else val(items[k].category, ToInt(items[k].fcstValue, parseInt))
  }

  /** Grouping lets the last item of an epoch win each slot. */
  lemma {:induction false} GroupLastWins<P(!new)>(items: seq<KmaItem>, epochOf: (string, string) -> int,
                                            parseInt: string -> Option<int>, dtOf: P -> int, blank: int -> P,
                                            apply: (P, string, Option<int>) -> P, get: (P, string) -> Option<real>,
                                            writes: (string, string) -> bool, val: (string, Option<int>) -> Option<real>)
    requires KeepsDt(dtOf, blank, apply) && SlotsWork(blank, apply, get, writes, val)
    ensures LastWins(Group(items, epochOf, parseInt, dtOf, blank, apply), items, epochOf, parseInt, dtOf, get, writes, val)
  {
    if |items| > 0 {
      var init := items[..|items| - 1];
      var it := items[|items| - 1];
      GroupLastWins(init, epochOf, parseInt, dtOf, blank, apply, get, writes, val);
      GroupDistinct(init, epochOf, parseInt, dtOf, blank, apply);
      assert DistinctDts(Group(init, epochOf, parseInt, dtOf, blank, apply), dtOf);
      GroupCovers(init, epochOf, parseInt, dtOf, blank, apply);
      var prev := Group(init, epochOf, parseInt, dtOf, blank, apply);
      var g := Group(items, epochOf, parseInt, dtOf, blank, apply);
      assert g == Place(prev, it, epochOf, parseInt, dtOf, blank, apply);
      forall i, s | 0 <= i < |g|
        ensures var k := LastWrite(items, epochOf, dtOf(g[i]), writes, s);
          get(g[i], s) == if k == -1 then None else val(items[k].category, ToInt(items[k].fcstValue, parseInt))
      {
        var e := dtOf(g[i]);
        if !Dated(it) {
          assert LastWrite(items, epochOf, e, writes, s) == LastWrite(init, epochOf, e, writes, s);
        } else {
          var ei := Epoch(it, epochOf);
          var v := ToInt(it.fcstValue, parseInt);
          var k := PointAt(prev, dtOf, ei);
          if i < |prev| && i != k {
            assert g[i] == prev[i];
            assert e != ei;
            assert LastWrite(items, epochOf, e, writes, s) == LastWrite(init, epochOf, e, writes, s);
          } else if i == k {
            assert g[i] == apply(prev[k], it.category, v);
            assert e == ei;
            if !writes(it.category, s) {
              assert LastWrite(items, epochOf, e, writes, s) == LastWrite(init, epochOf, e, writes, s);
            }
          } else {
            assert k == -1 && i == |prev|;
            assert g[i] == apply(blank(ei), it.category, v);
            assert e == ei;
            if !writes(it.category, s) {
              assert LastWrite(items, epochOf, e, writes, s) == LastWrite(init, epochOf, e, writes, s);
              assert forall m :: 0 <= m < |init| ==> !OnEpoch(init[m], epochOf, ei);
            }
          }
        }
      }
    }
  }

  // ----------------------------------------------------------- 3-hour trend

  function Dt3h(p: TrendPoint3h): int { p.dt }

  function Blank3h(e: int): TrendPoint3h { TrendPoint3h(e, None, None, None, None) }

  /** The `switch` of the 3-hour loop: SKY as a cloud percentage; WSD, POP and TMP as read. */
  function Apply3h(p: TrendPoint3h, category: string, v: Option<int>): TrendPoint3h
  {
    match category
    case "SKY" => p.(cloudCoverPct := Some(SkyToCloudPct(v) as real))
    case "WSD" => p.(windSpeedMs := AsReal(v))
    case "POP" => p.(precipitationProbabilityPct := AsReal(v))
    case "TMP" => p.(temperatureC := AsReal(v))
    case _ => p
  }

  /** A 3-hour point's slots, each named by the one category that writes it. */
  function Get3h(p: TrendPoint3h, slot: string): Option<real>
  {
    match slot
    case "SKY" => p.cloudCoverPct
    case "WSD" => p.windSpeedMs
    case "POP" => p.precipitationProbabilityPct
    case "TMP" => p.temperatureC
    case _ => None
  }

  predicate Writes3h(category: string, slot: string)
  {
    category == slot && slot in ["SKY", "WSD", "POP", "TMP"]
  }

  function Val3h(category: string, v: Option<int>): Option<real>
  {
    if category == "SKY" then Some(SkyToCloudPct(v) as real) else AsReal(v)
  }

  /** The 3-hour points in the order the loop creates them. */
  function Points3h(items: seq<KmaItem>, epochOf: (string, string) -> int, parseInt: string -> Option<int>): seq<TrendPoint3h>
  {
    Group(items, epochOf, parseInt, Dt3h, Blank3h, Apply3h)
  }

  /** The loop over the village items. */
  method GroupTrend3h(items: seq<KmaItem>, epochOf: (string, string) -> int, parseInt: string -> Option<int>)
    returns (trend: seq<TrendPoint3h>)
    ensures trend == Points3h(items, epochOf, parseInt)
  {
    trend := [];
    for i := 0 to |items|
      invariant trend == Points3h(items[..i], epochOf, parseInt)
    {
      assert items[..i + 1][..i] == items[..i];
      var it := items[i];
      if Dated(it) {
        var epoch := Epoch(it, epochOf);
        var k := PointAt(trend, Dt3h, epoch);
        var v := ToInt(it.fcstValue, parseInt);
        if k == -1 {
          trend := trend + [Apply3h(Blank3h(epoch), it.category, v)];
        } else {
          trend := trend[k := Apply3h(trend[k], it.category, v)];
        }
      }
    }
    assert items[..|items|] == items;
  }

  /**
   * The 3-hour points: one per epoch of the dated items and no other, and in
   * each the last item of that epoch for SKY, WSD, POP and TMP wins.
   */
  lemma Points3hSpec(items: seq<KmaItem>, epochOf: (string, string) -> int, parseInt: string -> Option<int>)
    ensures DistinctDts(Points3h(items, epochOf, parseInt), Dt3h)
    ensures FromItems(Points3h(items, epochOf, parseInt), items, epochOf, Dt3h)
    ensures forall m :: 0 <= m < |items| && Dated(items[m]) ==>
      PointAt(Points3h(items, epochOf, parseInt), Dt3h, Epoch(items[m], epochOf)) >= 0
    ensures LastWins(Points3h(items, epochOf, parseInt), items, epochOf, parseInt, Dt3h, Get3h, Writes3h, Val3h)
  {
    GroupDistinct(items, epochOf, parseInt, Dt3h, Blank3h, Apply3h);
    GroupFromItems(items, epochOf, parseInt, Dt3h, Blank3h, Apply3h);
    GroupCovers(items, epochOf, parseInt, Dt3h, Blank3h, Apply3h);
    GroupLastWins(items, epochOf, parseInt, Dt3h, Blank3h, Apply3h, Get3h, Writes3h, Val3h);
  }

  /** `p => p.dt <= cutoff` */
  function NotAfter(cutoff: int): TrendPoint3h -> bool
  {
    (p: TrendPoint3h) => p.dt <= cutoff
  }

  /** Sorted by time, cut at 24 hours after now (in whole seconds), at most ten points. */
  function Trend3h(points: seq<TrendPoint3h>, nowMs: int): seq<TrendPoint3h>
  {
    SliceTo(Filter(Sorting.SortBy(points, Dt3h), NotAfter(nowMs / 1000 + 24 * 3600)), 10)
  }

  /** Filtering keeps a sorted sequence sorted. */
  lemma {:induction false} FilterSorted<T>(xs: seq<T>, p: T -> bool, key: T -> int)
    requires Sorting.SortedBy(xs, key)
    ensures Sorting.SortedBy(Filter(xs, p), key)
  {
    if |xs| > 0 {
      var init := xs[..|xs| - 1];
      assert Sorting.SortedBy(init, key);
      FilterSorted(init, p, key);
      FilterMembers(init, p);
      var f := Filter(init, p);
      forall k | 0 <= k < |f|
        ensures key(f[k]) <= key(xs[|xs| - 1])
      {
        var m :| 0 <= m < |init| && init[m] == f[k];
      }
    }
  }

  /**
   * Sorting, filtering and taking the first `n`: the result is sorted, no
   * longer than `n`, made of elements of `xs` that pass `p`; when shorter than
   * `n` it holds every element of `xs` that passes.
   */
  lemma SortFilterTake<T>(xs: seq<T>, key: T -> int, p: T -> bool, n: nat)
    ensures var r := SliceTo(Filter(Sorting.SortBy(xs, key), p), n);
      |r| <= n && Sorting.SortedBy(r, key)
      && (forall i :: 0 <= i < |r| ==> p(r[i]) && r[i] in multiset(xs))
      && (|r| < n ==> forall x :: x in multiset(xs) && p(x) ==> x in r)
  {
    var sorted := Sorting.SortBy(xs, key);
    Sorting.SortBySortedPermutation(xs, key);
    var f := Filter(sorted, p);
    FilterSorted(sorted, p, key);
    FilterMembers(sorted, p);
    var r := SliceTo(f, n);
    forall i | 0 <= i < |r|
      ensures p(r[i]) && r[i] in multiset(xs)
    {
      assert r[i] == f[i];
    }
    if |r| < n {
      assert r == f;
      forall x | x in multiset(xs) && p(x)
        ensures x in r
      {
        var m :| 0 <= m < |sorted| && sorted[m] == x;
      }
    }
  }

  /**
   * The 3-hour trend is sorted by time, holds at most ten points, none later
   * than the cutoff, all taken from the grouped points; with fewer than ten
   * it holds every grouped point up to the cutoff.
   */
  lemma Trend3hSpec(points: seq<TrendPoint3h>, nowMs: int)
    ensures var r, cutoff := Trend3h(points, nowMs), nowMs / 1000 + 24 * 3600;
      |r| <= 10 && Sorting.SortedBy(r, Dt3h)
      && (forall i :: 0 <= i < |r| ==> r[i].dt <= cutoff && r[i] in points)
      && (|r| < 10 ==> forall p :: p in points && p.dt <= cutoff ==> p in r)
  {
    var cutoff := nowMs / 1000 + 24 * 3600;
    SortFilterTake(points, Dt3h, NotAfter(cutoff), 10);
  }

  // ------------------------------------------------------------- fine trend

  function DtFine(p: TrendPointFine): int { p.dt }

  function BlankFine(e: int): TrendPointFine { TrendPointFine(e, None, None, None) }

  /** The `switch` of the fine loop: SKY as the sky code, T1H, and both RN1 and PTY into the rain field. */
  function ApplyFine(p: TrendPointFine, category: string, v: Option<int>): TrendPointFine
  {
    match category
    case "SKY" => p.(cloudCoverLevel := AsReal(v))
    case "T1H" => p.(temperatureC := AsReal(v))
    case "RN1" => p.(precipitationMm1h := AsReal(v))
    case "PTY" => p.(precipitationMm1h := AsReal(v))
    case _ => p
  }

  /** A fine point's slots: SKY, T1H, and RN1 for the rain field. */
  function GetFine(p: TrendPointFine, slot: string): Option<real>
  {
    match slot
    case "SKY" => p.cloudCoverLevel
    case "T1H" => p.temperatureC
    case "RN1" => p.precipitationMm1h
    case _ => None
  }

  /** RN1 and PTY both write the rain field. */
  predicate WritesFine(category: string, slot: string)
  {
    (category == slot && slot in ["SKY", "T1H", "RN1"]) || (category == "PTY" && slot == "RN1")
  }

  function ValFine(category: string, v: Option<int>): Option<real>
  {
    AsReal(v)
  }

  function PointsFine(items: seq<KmaItem>, epochOf: (string, string) -> int, parseInt: string -> Option<int>): seq<TrendPointFine>
  {
    Group(items, epochOf, parseInt, DtFine, BlankFine, ApplyFine)
  }

  /** The loop over the ultra-short-term forecast items. */
  method GroupTrendFine(items: seq<KmaItem>, epochOf: (string, string) -> int, parseInt: string -> Option<int>)
    returns (trend: seq<TrendPointFine>)
    ensures trend == PointsFine(items, epochOf, parseInt)
  {
    trend := [];
    for i := 0 to |items|
      invariant trend == PointsFine(items[..i], epochOf, parseInt)
    {
      assert items[..i + 1][..i] == items[..i];
      var it := items[i];
      if Dated(it) {
        var epoch := Epoch(it, epochOf);
        var k := PointAt(trend, DtFine, epoch);
        var v := ToInt(it.fcstValue, parseInt);
        if k == -1 {
          trend := trend + [ApplyFine(BlankFine(epoch), it.category, v)];
        } else {
          trend := trend[k := ApplyFine(trend[k], it.category, v)];
        }
      }
    }
    assert items[..|items|] == items;
  }

  /**
   * The fine points: one per epoch of the dated items and no other; SKY and
   * T1H keep their epoch's last item, and the rain field the last RN1 or PTY
   * item, whichever came later.
   */
  lemma PointsFineSpec(items: seq<KmaItem>, epochOf: (string, string) -> int, parseInt: string -> Option<int>)
    ensures DistinctDts(PointsFine(items, epochOf, parseInt), DtFine)
    ensures FromItems(PointsFine(items, epochOf, parseInt), items, epochOf, DtFine)
    ensures forall m :: 0 <= m < |items| && Dated(items[m]) ==>
      PointAt(PointsFine(items, epochOf, parseInt), DtFine, Epoch(items[m], epochOf)) >= 0
    ensures LastWins(PointsFine(items, epochOf, parseInt), items, epochOf, parseInt, DtFine, GetFine, WritesFine, ValFine)
  {
    GroupDistinct(items, epochOf, parseInt, DtFine, BlankFine, ApplyFine);
    GroupFromItems(items, epochOf, parseInt, DtFine, BlankFine, ApplyFine);
    GroupCovers(items, epochOf, parseInt, DtFine, BlankFine, ApplyFine);
    GroupLastWins(items, epochOf, parseInt, DtFine, BlankFine, ApplyFine, GetFine, WritesFine, ValFine);
  }

  /** Sorted by time, at most twelve points. */
  function TrendFine(points: seq<TrendPointFine>): seq<TrendPointFine>
  {
    SliceTo(Sorting.SortBy(points, DtFine), 12)
  }

  /** The fine trend is sorted, at most twelve points long, and with at most twelve points loses none. */
  lemma TrendFineSpec(points: seq<TrendPointFine>)
    ensures var r := TrendFine(points);
      |r| <= 12 && Sorting.SortedBy(r, DtFine)
      && (forall i :: 0 <= i < |r| ==> r[i] in points)
      && (|points| <= 12 ==> multiset(r) == multiset(points))
  {
    var sorted := Sorting.SortBy(points, DtFine);
    Sorting.SortBySortedPermutation(points, DtFine);
    var r := TrendFine(points);
    forall i | 0 <= i < |r|
      ensures r[i] in points
    {
      assert r[i] == sorted[i];
      assert r[i] in multiset(sorted);
    }
  }

  // ----------------------------------------------------------------- snapshot

  /** The parameters shared by the three requests, in the order the source lists them. */
  function CommonParams(serviceKey: string, baseDate: string, baseTime: string, grid: (int, int)): (q: seq<(string, string)>)
    ensures |q| == 8 && q[0] == ("serviceKey", serviceKey) && q[5] == ("base_time", baseTime)
  {
    [("serviceKey", serviceKey), ("numOfRows", "1000"), ("pageNo", "1"), ("dataType", "JSON"),
     ("base_date", baseDate), ("base_time", baseTime), ("nx", IntToString(grid.0)), ("ny", IntToString(grid.1))]
  }

  /** The URL `kmaFetch` requests. */
  function Url(path: string, params: seq<(string, string)>): string
  {
    Base + "/" + path + "?" + Join(QueryPieces(params), '&')
  }

  /** An ultra-short-term request that fails is skipped: its items are empty. */
  function ItemsOrEmpty(r: Result<seq<KmaItem>>): (items: seq<KmaItem>)
    ensures r.Ok? ==> items == r.value
    ensures r.Err? ==> items == []
  {
    if r.Ok? then r.value else []
  }

  /**
   * `magnusDewPoint`: no temperature or a zero humidity gives null, else the
   * Magnus formula (a parameter) rounded to one decimal.
   */
  function MagnusDewPoint(temp: Option<int>, humidity: int, magnus: (real, real) -> real): (d: Option<real>)
    ensures d.Some? <==> temp.Some? && humidity != 0
    ensures d.Some? ==> d.value == ToFixedValue(magnus(temp.value as real, humidity as real), 1)
  {
    if temp.None? then None
    else if humidity == 0 then None
    else Some(ToFixedValue(magnus(temp.value as real, humidity as real), 1))
  }

  /** The snapshot assembled from the nowcast and the two trends. */
  function VilageSnapshot(coord: Coordinates, nowMs: int, n: Nowcast, trend3h: seq<TrendPoint3h>,
                          fine: seq<TrendPointFine>, magnus: (real, real) -> real, astro: AstroFields): (s: WeatherSnapshot)
    ensures s.source == Kma && s.coord == coord && s.astro == astro
    ensures s.timestamp * 1000 <= nowMs < s.timestamp * 1000 + 1000
    ensures s.cloudCoverPct == SkyToCloudPct(n.sky) as real && s.cloudCoverLevel == AsReal(n.sky)
    ensures s.windSpeedMs == (if n.windSpeed.Some? then n.windSpeed.value as real else 0.0)
    ensures s.humidityPct == (if n.humidity.Some? then n.humidity.value as real else 0.0)
    ensures s.windDirectionDeg == AsReal(n.windDir) && s.temperatureC == AsReal(n.temp)
    ensures s.precipitationMm1h == AsReal(n.rn1) && s.pressureHpa.None?
    ensures s.dewPointC.Some? <==> n.temp.Some? && n.humidity.Some? && n.humidity.value != 0
    ensures s.conditionCode == Some(Precip) <==> n.pty.Some? && n.pty.value > 0
    ensures s.conditionCode.None? <==> !(n.pty.Some? && n.pty.value > 0)
    ensures s.precipitationProbabilityPct == if |trend3h| == 0 then None else trend3h[0].precipitationProbabilityPct
    ensures s.threeHourTrend == Some(trend3h) && s.fineTrend10m == Some(fine)
  {
    var humidity := if n.humidity.Some? then n.humidity.value else 0;
    WeatherSnapshot(
      coord, nowMs / 1000, Kma,
      SkyToCloudPct(n.sky) as real, AsReal(n.sky),
      if n.windSpeed.Some? then n.windSpeed.value as real else 0.0,
      AsReal(n.windDir), humidity as real, AsReal(n.temp),
      MagnusDewPoint(n.temp, humidity, magnus), None,
      if |trend3h| == 0 then None else trend3h[0].precipitationProbabilityPct,
      AsReal(n.rn1),
      if n.pty.Some? && n.pty.value > 0 then Some(Precip) else None,
      Some(trend3h), Some(fine), astro)
  }

  /**
   * `fetchKmaVilageSnapshot`: the grid cell (looked up beforehand by
   * `KmaGrid.GridMemo.LatLonToGridServer`, which always yields a cell), the
   * village forecast of the latest issue, then the nowcast and the
   * ultra-short-term forecast of the current hour, either of which may fail
   * without failing the snapshot.
   */
  method FetchKmaVilageSnapshot(coord: Coordinates, serviceKey: string, grid: (int, int), nowMs: int,
                                local: int -> Clock, fetch: string -> FetchReply,
                                epochOf3h: (string, string) -> int, epochOfFine: (string, string) -> int,
                                parseInt: string -> Option<int>, magnus: (real, real) -> real, astro: AstroFields)
    returns (r: Result<WeatherSnapshot>)
    ensures
      var c := local(nowMs);
      var base := CommonParams(serviceKey, DateStamp(c), Pad2(LatestIssue(c.hour)) + "00", grid);
      var hourly := CommonParams(serviceKey, DateStamp(c), Pad2(c.hour) + "00", grid);
      var village := KmaItems("getVilageFcst", fetch(Url("getVilageFcst", base)));
      var ncst := ItemsOrEmpty(KmaItems("getUltraSrtNcst", fetch(Url("getUltraSrtNcst", hourly))));
      var fcst := ItemsOrEmpty(KmaItems("getUltraSrtFcst", fetch(Url("getUltraSrtFcst", hourly))));
      (village.Err? ==> r == Err(village.message))
      && (village.Ok? ==> r == Ok(VilageSnapshot(coord, nowMs, FoldNowcast(ncst, parseInt),
                                                 Trend3h(Points3h(village.value, epochOf3h, parseInt), nowMs),
                                                 TrendFine(PointsFine(fcst, epochOfFine, parseInt)), magnus, astro)))
  {
    var c := local(nowMs);
    var baseDate, baseTime := RecentVillageBase(c);
    var common := CommonParams(serviceKey, baseDate, baseTime, grid);
    var villageUrl := KmaUrl("getVilageFcst", common);
    var village := KmaItems("getVilageFcst", fetch(villageUrl));
    if village.Err? {
      return Err(village.message);
    }
    var hourly := CommonParams(serviceKey, baseDate, Pad2(c.hour) + "00", grid);
    var ncstUrl := KmaUrl("getUltraSrtNcst", hourly);
    var ncstItems := ItemsOrEmpty(KmaItems("getUltraSrtNcst", fetch(ncstUrl)));
    var fcstUrl := KmaUrl("getUltraSrtFcst", hourly);
    var fcstItems := ItemsOrEmpty(KmaItems("getUltraSrtFcst", fetch(fcstUrl)));
    var nowcast := ReadNowcast(ncstItems, parseInt);
    var trend3h := GroupTrend3h(village.value, epochOf3h, parseInt);
    var fine := GroupTrendFine(fcstItems, epochOfFine, parseInt);
    r := Ok(VilageSnapshot(coord, nowMs, nowcast, Trend3h(trend3h, nowMs), TrendFine(fine), magnus, astro));
  }
}
