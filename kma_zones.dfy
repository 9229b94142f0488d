/**
 * The forecast-zone adapter (lib/kmaZones.ts): the zone list and its
 * twelve-hour cache, the zone nearest to a point, the CSV text of the zone
 * forecast and the snapshot read from its columns by name.  The requests,
 * the clock, the number parsers, the query encoding and the great-circle
 * distance are parameters.
 */
module KmaZones {
  import opened Js
  import opened Text
  import opened WeatherTypes
  import KmaVilage
  import KmaDfs

  const HourMs: int := 60 * 60 * 1000
  /** How long a fetched zone list is reused. */
  const ZoneTtlMs: int := 12 * HourMs

  datatype ZoneInfo = ZoneInfo(regId: string, regName: string, lat: real, lon: real)

  // ------------------------------------------------------------- zone list

  /**
   * One raw item of the zone list, with every spelling the adapter tries;
   * an absent field is `None`, a present one is its text.
   */
  datatype RawZone = RawZone(
    regId: Option<string>, regIdUpper: Option<string>, regIdSnake: Option<string>,
    regName: Option<string>, regNameUpper: Option<string>, regNameSnake: Option<string>,
    lat: Option<string>, latUpper: Option<string>, latitude: Option<string>,
    lon: Option<string>, lonUpper: Option<string>, longitude: Option<string>)

  /** `response.body.items.item`: a list, one object, or nothing usable. */
  datatype ItemValue = ItemList(list: seq<RawZone>) | OneItem(one: RawZone) | NoItem

  /** `response.body.items`: a list itself, an object holding `item`, or nothing usable. */
  datatype ItemsValue = ItemsList(list: seq<RawZone>) | ItemsObject(item: ItemValue) | NoItems

  /** The parsed reply: `items` at the top when it is a list, and `response.body.items`. */
  datatype ZonePayload = ZonePayload(topItems: Option<seq<RawZone>>, bodyItems: ItemsValue)

  datatype ZoneReply = ZoneThrown(message: string) | ZoneHttpFailure(status: int) | ZoneJson(payload: ZonePayload)

  /** The item list, from the first shape present: top-level list, body list, body item list, body single item. */
  function ZoneItems(p: ZonePayload): (items: seq<RawZone>)
    ensures p.topItems.Some? ==> items == p.topItems.value
    ensures p.topItems.None? && p.bodyItems.ItemsList? ==> items == p.bodyItems.list
    ensures p.topItems.None? && p.bodyItems.ItemsObject? && p.bodyItems.item.OneItem? ==> items == [p.bodyItems.item.one]
    ensures p.topItems.None? && (p.bodyItems.NoItems? || (p.bodyItems.ItemsObject? && p.bodyItems.item.NoItem?)) ==> items == []
  {
    if p.topItems.Some? then p.topItems.value
    else match p.bodyItems
      case ItemsList(list) => list
      case ItemsObject(ItemList(list)) => list
      case ItemsObject(OneItem(one)) => [one]
      case _ => []
  }

  /** `a ?? b ?? c ?? d`: the first present text. */
  function Nullish(a: Option<string>, b: Option<string>, c: Option<string>, d: string): (r: string)
    ensures a.Some? ==> r == a.value
    ensures a.None? && b.Some? ==> r == b.value
    ensures a.None? && b.None? && c.Some? ==> r == c.value
    ensures a.None? && b.None? && c.None? ==> r == d
  {
    if a.Some? then a.value else if b.Some? then b.value else if c.Some? then c.value else d
  }

  /** `a || b || c` on text, with an absent or empty last spelling read as "". */
  function FirstTruthy(a: Option<string>, b: Option<string>, c: Option<string>): (r: string)
    ensures OrStr(a, "") != "" ==> r == a.value
    ensures OrStr(a, "") == "" && OrStr(b, "") != "" ==> r == b.value
    ensures OrStr(a, "") == "" && OrStr(b, "") == "" ==> r == OrStr(c, "")
  {
    OrStr(a, OrStr(b, OrStr(c, "")))
  }

  /**
   * The zone an item gives: it needs an identifier that is not empty and a
   * latitude and longitude that parse to finite numbers; the name defaults
   * to "".
   */
  function ToZone(it: RawZone, parseFloat: string -> Option<real>): (z: Option<ZoneInfo>)
    ensures z.Some? <==> (FirstTruthy(it.regId, it.regIdUpper, it.regIdSnake) != ""
                          && parseFloat(Nullish(it.lat, it.latUpper, it.latitude, "NaN")).Some?
                          && parseFloat(Nullish(it.lon, it.lonUpper, it.longitude, "NaN")).Some?)
    ensures z.Some? ==> z.value.regId != "" && z.value.regId == FirstTruthy(it.regId, it.regIdUpper, it.regIdSnake)
    ensures z.Some? ==> z.value.regName == FirstTruthy(it.regName, it.regNameUpper, it.regNameSnake)
    ensures z.Some? ==> (Some(z.value.lat) == parseFloat(Nullish(it.lat, it.latUpper, it.latitude, "NaN"))
                         && Some(z.value.lon) == parseFloat(Nullish(it.lon, it.lonUpper, it.longitude, "NaN")))
  {
    var regId := FirstTruthy(it.regId, it.regIdUpper, it.regIdSnake);
    var regName := FirstTruthy(it.regName, it.regNameUpper, it.regNameSnake);
    var lat := parseFloat(Nullish(it.lat, it.latUpper, it.latitude, "NaN"));
    var lon := parseFloat(Nullish(it.lon, it.lonUpper, it.longitude, "NaN"));
    if regId != "" && lat.Some? && lon.Some? then Some(ZoneInfo(regId, regName, lat.value, lon.value)) else None
  }

  /** The zones the loop collects, in item order. */
  function ZonesOf(items: seq<RawZone>, parseFloat: string -> Option<real>): seq<ZoneInfo>
  {
    if |items| == 0 then []
    else
      var z := ToZone(items[|items| - 1], parseFloat);
      ZonesOf(items[..|items| - 1], parseFloat) + (if z.Some? then [z.value] else [])
  }

  /** Every zone comes from an item, and every usable item gives its zone. */
  lemma {:induction false} ZonesOfSpec(items: seq<RawZone>, parseFloat: string -> Option<real>)
    ensures |ZonesOf(items, parseFloat)| <= |items|
    ensures forall z :: z in ZonesOf(items, parseFloat) ==>
      z.regId != "" && exists i :: 0 <= i < |items| && ToZone(items[i], parseFloat) == Some(z)
    ensures forall i :: 0 <= i < |items| && ToZone(items[i], parseFloat).Some? ==>
      ToZone(items[i], parseFloat).value in ZonesOf(items, parseFloat)
  {
    if |items| > 0 {
      var init := items[..|items| - 1];
      ZonesOfSpec(init, parseFloat);
      forall z | z in ZonesOf(items, parseFloat)
        ensures exists i :: 0 <= i < |items| && ToZone(items[i], parseFloat) == Some(z)
      {
        if z in ZonesOf(init, parseFloat) {
          var i :| 0 <= i < |init| && ToZone(init[i], parseFloat) == Some(z);
          assert items[i] == init[i];
        } else {
          assert ToZone(items[|items| - 1], parseFloat) == Some(z);
        }
      }
      forall i | 0 <= i < |items| && ToZone(items[i], parseFloat).Some?
        ensures ToZone(items[i], parseFloat).value in ZonesOf(items, parseFloat)
      {
        if i < |init| {
          assert items[i] == init[i];
        }
      }
    }
  }

  /** `fetchZoneList` once the reply is in. */
  function ZoneListOf(reply: ZoneReply, parseFloat: string -> Option<real>): Result<seq<ZoneInfo>>
  {
    match reply
    case ZoneThrown(message) => Err(message)
    case ZoneHttpFailure(status) => Err("Zone list " + IntToString(status))
    case ZoneJson(payload) => Ok(ZonesOf(ZoneItems(payload), parseFloat))
  }

  /**
   * The loop of `fetchZoneList`: a thrown request passes its error on, an
   * HTTP failure is an error, otherwise the usable items' zones.
   */
  method FetchZoneList(reply: ZoneReply, parseFloat: string -> Option<real>) returns (r: Result<seq<ZoneInfo>>)
    ensures r == ZoneListOf(reply, parseFloat)
    ensures !reply.ZoneJson? <==> r.Err?
    ensures reply.ZoneThrown? ==> r == Err(reply.message)
    ensures reply.ZoneHttpFailure? ==> r == Err("Zone list " + IntToString(reply.status))
  {
    if reply.ZoneThrown? {
      return Err(reply.message);
    }
    if reply.ZoneHttpFailure? {
      return Err("Zone list " + IntToString(reply.status));
    }
    var items := ZoneItems(reply.payload);
    var out: seq<ZoneInfo> := [];
    for i := 0 to |items|
      invariant out == ZonesOf(items[..i], parseFloat)
    {
      assert items[..i + 1][..i] == items[..i];
      var z := ToZone(items[i], parseFloat);
      if z.Some? {
        out := out + [z.value];
      }
    }
    assert items[..|items|] == items;
    r := Ok(out);
  }

  function ZoneListUrl(authKey: string, formEncode: seq<(string, string)> -> string): string
  {
    "https://apihub.kma.go.kr/api/typ02/openApi/FcstZoneInfoService/getFcstZoneCd?"
    + formEncode([("pageNo", "1"), ("numOfRows", "5000"), ("dataType", "JSON"), ("authKey", authKey)])
  }

  /** What `ensureZones` answers: the cached list while it is younger than twelve hours, else a fresh fetch. */
  function CachedOrFetched(cached: Option<seq<ZoneInfo>>, lastFetchMs: int, now: int,
                           fetched: Result<seq<ZoneInfo>>): Result<seq<ZoneInfo>>
  {
    if cached.Some? && now - lastFetchMs < ZoneTtlMs then Ok(cached.value) else fetched
  }

  /** The module-level `zoneCache` and `lastFetchMs`. */
  class ZoneCache {
    var zones: Option<seq<ZoneInfo>>
    var lastFetchMs: int

    constructor()
      ensures zones.None? && lastFetchMs == 0
    {
      zones := None;
      lastFetchMs := 0;
    }

    /** The cached list is used without a request. */
    predicate Fresh(now: int)
      reads this
    {
      zones.Some? && now - lastFetchMs < ZoneTtlMs
    }

    /**
     * `ensureZones`: a fresh cache is answered as is (an empty list
     * included) and left alone; otherwise the list is fetched, and a
     * successful fetch replaces the list and its time together, while a
     * failed one changes nothing.
     */
    method EnsureZones(now: int, authKey: string, fetchList: string -> ZoneReply,
                       formEncode: seq<(string, string)> -> string, parseFloat: string -> Option<real>)
      returns (r: Result<seq<ZoneInfo>>)
      modifies this
      ensures r == CachedOrFetched(old(zones), old(lastFetchMs), now,
                                   ZoneListOf(fetchList(ZoneListUrl(authKey, formEncode)), parseFloat))
      ensures old(Fresh(now)) || r.Err? ==> zones == old(zones) && lastFetchMs == old(lastFetchMs)
      ensures !old(Fresh(now)) && r.Ok? ==> zones == Some(r.value) && lastFetchMs == now
      ensures r.Ok? ==> zones == Some(r.value)
    {
      if zones.Some? && now - lastFetchMs < ZoneTtlMs {
        return Ok(zones.value);
      }
      r := FetchZoneList(fetchList(ZoneListUrl(authKey, formEncode)), parseFloat);
      if r.Ok? {
        zones := Some(r.value);
        lastFetchMs := now;
      }
    }
  }

  /** A second call within twelve hours of a successful one is answered from the cache. */
  lemma CacheServesWithinTtl(zones: seq<ZoneInfo>, fetchedAt: int, now: int, fetched: Result<seq<ZoneInfo>>)
    requires fetchedAt <= now < fetchedAt + ZoneTtlMs
    ensures CachedOrFetched(Some(zones), fetchedAt, now, fetched) == Ok(zones)
  {
  }

  // ---------------------------------------------------------- nearest zone

  /** The position of the first strictly smallest distance, or −1 for none. */
  function Nearest(ds: seq<real>): (k: int)
    ensures -1 <= k < |ds|
    ensures k == -1 <==> |ds| == 0
    ensures k >= 0 ==> forall j :: 0 <= j < |ds| ==> ds[k] <= ds[j]
    ensures k >= 0 ==> forall j :: 0 <= j < k ==> ds[j] > ds[k]
  {
    if |ds| == 0 then -1
    else
      var k := Nearest(ds[..|ds| - 1]);
      if k == -1 || ds[|ds| - 1] < ds[k] then |ds| - 1 else k
  }

  function Distances(zones: seq<ZoneInfo>, coord: Coordinates, distance: (real, real, real, real) -> real): (ds: seq<real>)
    ensures |ds| == |zones|
    ensures forall i :: 0 <= i < |zones| ==> ds[i] == distance(coord.lat, coord.lon, zones[i].lat, zones[i].lon)
  {
    seq(|zones|, i requires 0 <= i < |zones| => distance(coord.lat, coord.lon, zones[i].lat, zones[i].lon))
  }

  /** `findNearestZone`'s loop over the zones: nothing for an empty list, else the first nearest. */
  method FindNearestZone(zones: seq<ZoneInfo>, coord: Coordinates, distance: (real, real, real, real) -> real)
    returns (best: Option<ZoneInfo>)
    ensures best.None? <==> |zones| == 0
    ensures best.Some? ==> best.value == zones[Nearest(Distances(zones, coord, distance))]
  {
    ghost var ds := Distances(zones, coord, distance);
    best := None;
    var bestD: real := 0.0;
    for i := 0 to |zones|
      invariant i == 0 <==> best.None?
      invariant i > 0 ==> best == Some(zones[Nearest(ds[..i])]) && bestD == ds[Nearest(ds[..i])]
    {
      assert ds[..i + 1][..i] == ds[..i];
      var d := distance(coord.lat, coord.lon, zones[i].lat, zones[i].lon);
      if best.None? || d < bestD {
        bestD := d;
        best := Some(zones[i]);
      }
    }
    assert ds[..|zones|] == ds;
  }

  // ------------------------------------------------------------------- CSV

  datatype Csv = Csv(header: seq<string>, rows: seq<seq<string>>)

  /** `parseCsv`: the trimmed text split into lines; the first is the header; every cell is trimmed. */
  function ParseCsv(text: string): (csv: Csv)
    ensures var lines := SplitLines(Trim(text));
      csv.header == KmaDfs.Parts(lines[0]) && |csv.rows| == |lines| - 1
      && forall i :: 0 <= i < |csv.rows| ==> csv.rows[i] == KmaDfs.Parts(lines[i + 1])
  {
    var lines := SplitLines(Trim(text));
    Csv(KmaDfs.Parts(lines[0]),
        seq(|lines| - 1, i requires 0 <= i < |lines| - 1 => KmaDfs.Parts(lines[i + 1])))
  }

  predicate IsRegIdHeader(h: string) { ToUpper(h) == "REG_ID" }

  /** The header test of `get(name)`: equal after upper-casing both sides. */
  function HeaderIs(name: string): string -> bool
  {
    (h: string) => ToUpper(h) == ToUpper(name)
  }

  /** `r[idx] === regId`: a row too short for the column never matches. */
  function CellIs(idx: int, regId: string): seq<string> -> bool
  {
    (r: seq<string>) => 0 <= idx < |r| && r[idx] == regId
  }

  /**
   * `pickRowForRegId` as a row position: −1 without a `REG_ID` column
   * (any case) or without a matching row, else the first row whose cell in
   * the first such column is `regId`.
   */
  function PickRowIndex(csv: Csv, regId: string): (k: int)
    ensures -1 <= k < |csv.rows|
    ensures (forall j :: 0 <= j < |csv.header| ==> !IsRegIdHeader(csv.header[j])) ==> k == -1
    ensures var col := FindIndex(csv.header, IsRegIdHeader);
      col >= 0 ==>
        (k >= 0 ==> col < |csv.rows[k]| && csv.rows[k][col] == regId
                    && forall j :: 0 <= j < k ==> !CellIs(col, regId)(csv.rows[j]))
        && (k == -1 ==> forall j :: 0 <= j < |csv.rows| ==> !CellIs(col, regId)(csv.rows[j]))
  {
    var col := FindIndex(csv.header, IsRegIdHeader);
    if col < 0 then -1 else FindIndex(csv.rows, CellIs(col, regId))
  }

  /** The row read: the matching one, else the first row, else none at all. */
  function ChosenRow(csv: Csv, regId: string): (row: Option<seq<string>>)
    ensures PickRowIndex(csv, regId) >= 0 ==> row == Some(csv.rows[PickRowIndex(csv, regId)])
    ensures PickRowIndex(csv, regId) == -1 ==> row == (if |csv.rows| > 0 then Some(csv.rows[0]) else None)
  {
    var k := PickRowIndex(csv, regId);
    if k >= 0 then Some(csv.rows[k]) else if |csv.rows| > 0 then Some(csv.rows[0]) else None
  }

  /**
   * `get(name)`: no value without such a column; a column with no row to
   * read throws, as indexing `undefined` does; otherwise the cell, absent
   * when the row is short.
   */
  function Get(csv: Csv, row: Option<seq<string>>, name: string): (r: Result<Option<string>>)
    ensures var idx := FindIndex(csv.header, HeaderIs(name));
      (idx < 0 ==> r == Ok(None))
      && (idx >= 0 && row.None? ==> r.Err?)
      && (idx >= 0 && row.Some? ==> r == Ok(if idx < |row.value| then Some(row.value[idx]) else None))
  {
    var idx := FindIndex(csv.header, HeaderIs(name));
    if idx < 0 then Ok(None)
    else if row.None? then Err("Cannot read properties of undefined (reading '" + IntToString(idx) + "')")
    else Ok(if idx < |row.value| then Some(row.value[idx]) else None)
  }

  /**
   * The snapshot read from the zone forecast: temperature from `TA` (null
   * unless finite), cloud cover from the `SKY` code, precipitation from
   * `PREP`; the reads happen in that order and the first that throws is
   * the error.
   */
  function ZoneSnapshot(csv: Csv, regId: string, coord: Coordinates, nowMs: int,
                        parseFloat: string -> Option<real>, parseInt: string -> Option<int>,
                        astro: AstroFields): (r: Result<WeatherSnapshot>)
    ensures var row := ChosenRow(csv, regId);
      r.Ok? <==> Get(csv, row, "TA").Ok? && Get(csv, row, "SKY").Ok? && Get(csv, row, "PREP").Ok?
    ensures r.Ok? ==>
      var row := ChosenRow(csv, regId);
      var sky := parseInt(Get(csv, row, "SKY").value.OrElse("0"));
      var prep := parseInt(Get(csv, row, "PREP").value.OrElse("0"));
      var s := r.value;
      s.coord == coord && s.source == Kma && s.timestamp == nowMs / 1000
      && s.temperatureC == parseFloat(Get(csv, row, "TA").value.OrElse("NaN"))
      && s.cloudCoverPct == KmaVilage.SkyToCloudPct(sky) as real
      && (s.conditionCode == Some(Precip) <==> prep.Some? && prep.value > 0)
      && (s.conditionCode.None? <==> !(prep.Some? && prep.value > 0))
      && s.windSpeedMs == 0.0 && s.humidityPct == 0.0 && s.windDirectionDeg.None?
      && s.pressureHpa.None? && s.precipitationMm1h.None? && s.dewPointC.None?
      && s.astro == astro
  {
    var row := ChosenRow(csv, regId);
    var ta := Get(csv, row, "TA");
    if ta.Err? then Err(ta.message)
    else
      var skyCell := Get(csv, row, "SKY");
      if skyCell.Err? then Err(skyCell.message)
      else
        var prepCell := Get(csv, row, "PREP");
        if prepCell.Err? then Err(prepCell.message)
        else
          var sky := parseInt(skyCell.value.OrElse("0"));
          var prep := parseInt(prepCell.value.OrElse("0"));
          Ok(WeatherSnapshot(
            coord, nowMs / 1000, Kma, KmaVilage.SkyToCloudPct(sky) as real, None,
            0.0, None, 0.0, parseFloat(ta.value.OrElse("NaN")), None, None, None, None,
            if prep.Some? && prep.value > 0 then Some(Precip) else None,
            None, None, astro))
  }

  /** A forecast whose rows are all missing throws as soon as a column it names is read. */
  lemma NoRowsThrows(csv: Csv, regId: string, coord: Coordinates, nowMs: int,
                     parseFloat: string -> Option<real>, parseInt: string -> Option<int>, astro: AstroFields)
    requires |csv.rows| == 0 && exists j :: 0 <= j < |csv.header| && ToUpper(csv.header[j]) == "TA"
    ensures ZoneSnapshot(csv, regId, coord, nowMs, parseFloat, parseInt, astro).Err?
  {
    var j :| 0 <= j < |csv.header| && ToUpper(csv.header[j]) == "TA";
    assert HeaderIs("TA")(csv.header[j]) by { assert ToUpper("TA") == "TA"; }
  }

  // -------------------------------------------------------------- snapshot

  /** The forecast request's outcome: the error of a throw, a failed status, or the text. */
  datatype TextReply = TextThrown(message: string) | TextHttpFailure(status: int) | TextBody(text: string)

  function ForecastUrl(regId: string, authKey: string, formEncode: seq<(string, string)> -> string): string
  {
    "https://apihub.kma.go.kr/api/typ01/url/fct_shrt_reg.php?"
    + formEncode([("tmfc", "0"), ("disp", "1"), ("authKey", authKey)])
  }

  /** Everything after the zone list: the nearest zone, its forecast text and the snapshot. */
  function SnapshotFromZones(zones: Result<seq<ZoneInfo>>, coord: Coordinates, nowMs: int, authKey: string,
                             fetchForecast: string -> TextReply, formEncode: seq<(string, string)> -> string,
                             parseFloat: string -> Option<real>, parseInt: string -> Option<int>,
                             distance: (real, real, real, real) -> real, astro: AstroFields): (r: Result<WeatherSnapshot>)
    ensures zones.Err? ==> r == Err(zones.message)
    ensures zones.Ok? && |zones.value| == 0 ==> r == Err("No zone matched")
    ensures zones.Ok? && |zones.value| > 0 ==>
      var zone := zones.value[Nearest(Distances(zones.value, coord, distance))];
      match fetchForecast(ForecastUrl(zone.regId, authKey, formEncode))
      case TextThrown(message) => r == Err(message)
      case TextHttpFailure(status) => r == Err("Zone forecast " + IntToString(status))
      case TextBody(text) => r == ZoneSnapshot(ParseCsv(text), zone.regId, coord, nowMs, parseFloat, parseInt, astro)
  {
    if zones.Err? then Err(zones.message)
    else if |zones.value| == 0 then Err("No zone matched")
    else
      var zone := zones.value[Nearest(Distances(zones.value, coord, distance))];
      match fetchForecast(ForecastUrl(zone.regId, authKey, formEncode))
      case TextThrown(message) => Err(message)
      case TextHttpFailure(status) => Err("Zone forecast " + IntToString(status))
      case TextBody(text) => ZoneSnapshot(ParseCsv(text), zone.regId, coord, nowMs, parseFloat, parseInt, astro)
  }

  /** `fetchKmaZoneSnapshot`: the zone list through the cache, then the nearest zone's forecast. */
  method FetchKmaZoneSnapshot(cache: ZoneCache, coord: Coordinates, nowMs: int, authKey: string,
                              fetchList: string -> ZoneReply, fetchForecast: string -> TextReply,
                              formEncode: seq<(string, string)> -> string,
                              parseFloat: string -> Option<real>, parseInt: string -> Option<int>,
                              distance: (real, real, real, real) -> real, astro: AstroFields)
    returns (r: Result<WeatherSnapshot>)
    modifies cache
    ensures var zones := CachedOrFetched(old(cache.zones), old(cache.lastFetchMs), nowMs,
                                         ZoneListOf(fetchList(ZoneListUrl(authKey, formEncode)), parseFloat));
      r == SnapshotFromZones(zones, coord, nowMs, authKey, fetchForecast, formEncode, parseFloat, parseInt, distance, astro)
    ensures var zones := CachedOrFetched(old(cache.zones), old(cache.lastFetchMs), nowMs,
                                         ZoneListOf(fetchList(ZoneListUrl(authKey, formEncode)), parseFloat));
      (old(cache.Fresh(nowMs)) || zones.Err? ==> cache.zones == old(cache.zones) && cache.lastFetchMs == old(cache.lastFetchMs))
      && (!old(cache.Fresh(nowMs)) && zones.Ok? ==> cache.zones == Some(zones.value) && cache.lastFetchMs == nowMs)
  {
    var zones := cache.EnsureZones(nowMs, authKey, fetchList, formEncode, parseFloat);
    if zones.Err? {
      return Err(zones.message);
    }
    var zone := FindNearestZone(zones.value, coord, distance);
    if zone.None? {
      return Err("No zone matched");
    }
    match fetchForecast(ForecastUrl(zone.value.regId, authKey, formEncode)) {
      case TextThrown(message) =>
        r := Err(message);
      case TextHttpFailure(status) =>
        r := Err("Zone forecast " + IntToString(status));
      case TextBody(text) =>
        r := ZoneSnapshot(ParseCsv(text), zone.value.regId, coord, nowMs, parseFloat, parseInt, astro);
    }
  }
}
