/**
 * The server-side weather cache (lib/weatherCache.ts): one high-resolution
 * snapshot and one satellite cloud grid, each with its last-update time and
 * an in-flight flag.  A refresh is split at its first `await`: `Begin…`
 * (flag check, key check, flag set) runs without interruption, and
 * `Finish…` applies the outcome and clears the flag.  Outcomes, the clock
 * and the UTC calendar breakdown are parameters.
 */
module WeatherCache {
  import opened Js
  import opened Text
  import opened KmaTime
  import opened CloudGrid
  import opened WeatherTypes

  /** The refresh periods of the scheduler, in milliseconds. */
  const HighResIntervalMs: int := 5 * MinuteMs
  const CloudGridIntervalMs: int := 10 * MinuteMs

  /** One item of the cloud-grid reply; absent fields are `None`. */
  datatype GridItem = GridItem(
    dateTime: Option<string>,
    gridKm: Option<string>,
    xdim: Option<string>,
    ydim: Option<string>,
    x0: Option<string>,
    y0: Option<string>,
    value: Option<string>)

  /** `response.body.items.item`: a list, a lone object, or absent. */
  datatype ItemField = ItemList(items: seq<GridItem>) | LoneItem(item: GridItem) | NoItem

  /** How the cloud-grid request ended. */
  datatype CloudGridReply =
    | HttpFailure(status: int)
    | Unreachable
    | Reply(resultCode: Option<string>, item: ItemField)

  /** The number parsers the refresh uses (`parseFloat`, `parseInt`); `None` is NaN. */
  datatype Parsers = Parsers(parseFloat: string -> Option<real>, parseInt: string -> Option<int>)

  /**
   * The `dateTime` requested: thirty minutes before now, in UTC, minutes
   * floored to a multiple of ten.
   */
  function CloudDateTime(now: int, utc: int -> Clock): (s: string)
    ensures forall k :: 0 <= k < |s| ==> IsDigit(s[k])
  {
    Stamp(utc(now - 30 * MinuteMs), 10)
  }

  /** The requested stamp reads back as the UTC fields of now − 30 min, minute floored to ten. */
  lemma CloudDateTimeFields(now: int, utc: int -> Clock)
    requires utc(now - 30 * MinuteMs).Valid()
    ensures var c, s := utc(now - 30 * MinuteMs), CloudDateTime(now, utc);
      |s| == 12 && DigitsValue(s[0..4]) == c.year && DigitsValue(s[4..6]) == c.month
      && DigitsValue(s[6..8]) == c.day && DigitsValue(s[8..10]) == c.hour
      && DigitsValue(s[10..12]) == (c.minute / 10) * 10 && (c.minute / 10) * 10 <= c.minute
  {
    StampFields(utc(now - 30 * MinuteMs), 10);
  }

  /** The reply the refresh accepts: HTTP OK, result code "00" and a non-empty item list. */
  predicate Accepted(reply: CloudGridReply)
  {
    reply.Reply? && reply.resultCode == Some("00") && reply.item.ItemList? && |reply.item.items| > 0
  }

  /** The grid's numbers from its first item: the value text split on commas, each trimmed and parsed. */
  function ItemValues(item: GridItem, p: Parsers): seq<Option<real>>
  {
    ParseValues(OrStr(item.value, ""), p.parseFloat)
  }

  /** `grid` is what the reshape loop builds from `values` for these dimensions. */
  predicate IsReshape(grid: seq<seq<real>>, values: seq<Option<real>>, xdim: Option<int>, ydim: Option<int>)
  {
    |grid| == Dim(ydim)
    && (forall y :: 0 <= y < |grid| ==> |grid[y]| == Dim(xdim))
    && (forall y, x :: 0 <= y < |grid| && 0 <= x < |grid[y]| ==> grid[y][x] == FlatCell(values, y * Dim(xdim) + x))
  }

  /** The stored record for an accepted first item (before its grid is filled in). */
  predicate DescribesItem(g: CloudGridData, item: GridItem, p: Parsers, fetchedAt: int)
  {
    var values := ItemValues(item, p);
    g.dateTime == item.dateTime
    && g.gridKm == p.parseFloat(OrStr(item.gridKm, "2"))
    && g.xdim == p.parseInt(OrStr(item.xdim, "0"))
    && g.ydim == p.parseInt(OrStr(item.ydim, "0"))
    && g.x0 == p.parseFloat(OrStr(item.x0, "0"))
    && g.y0 == p.parseFloat(OrStr(item.y0, "0"))
    && IsReshape(g.grid, values, g.xdim, g.ydim)
    && g.totalPoints == |values|
    && g.fetchedAt == fetchedAt
  }

  /** `WeatherCacheData` together with the scheduler's flag. */
  class Cache {
    var highRes: Option<WeatherSnapshot>
    var cloudGrid: Option<CloudGridData>
    var highResUpdatedAt: Option<int>
    var cloudGridUpdatedAt: Option<int>
    var refreshingHighRes: bool
    var refreshingCloudGrid: bool
    var schedulerRunning: bool

    /** The empty cache created on first load. */
    constructor()
      ensures highRes.None? && cloudGrid.None? && highResUpdatedAt.None? && cloudGridUpdatedAt.None?
      ensures !refreshingHighRes && !refreshingCloudGrid && !schedulerRunning
    {
      highRes := None;
      cloudGrid := None;
      highResUpdatedAt := None;
      cloudGridUpdatedAt := None;
      refreshingHighRes := false;
      refreshingCloudGrid := false;
      schedulerRunning := false;
    }

    /** A value and its update time are present together. */
    predicate Valid()
      reads this
    {
      (highRes.Some? <==> highResUpdatedAt.Some?) && (cloudGrid.Some? <==> cloudGridUpdatedAt.Some?)
    }

    /**
     * The status of the current-weather route: 503 while neither slot has
     * ever been filled, 200 with whatever the cache holds otherwise.
     */
    function CurrentStatus(): (status: int)
      reads this
      ensures status == 503 || status == 200
      ensures status == 503 <==> highRes.None? && cloudGrid.None?
      ensures Valid() && status == 503 ==> highResUpdatedAt.None? && cloudGridUpdatedAt.None?
    {
      if highRes.None? && cloudGrid.None? then 503 else 200
    }

    /**
     * The synchronous start of `refreshHighRes`: skip when a refresh is in
     * flight or there is no service key, otherwise raise the flag.
     */
    method BeginHighRes(serviceKey: string) returns (started: bool)
      modifies this
      ensures started <==> !old(refreshingHighRes) && serviceKey != ""
      ensures refreshingHighRes == (old(refreshingHighRes) || started)
      ensures highRes == old(highRes) && highResUpdatedAt == old(highResUpdatedAt)
      ensures cloudGrid == old(cloudGrid) && cloudGridUpdatedAt == old(cloudGridUpdatedAt)
      ensures refreshingCloudGrid == old(refreshingCloudGrid) && schedulerRunning == old(schedulerRunning)
    {
      if refreshingHighRes || serviceKey == "" {
        return false;
      }
      refreshingHighRes := true;
      return true;
    }

    /**
     * The rest of `refreshHighRes`: a snapshot replaces the value and stamps
     * the time; a failure keeps both; the flag is cleared either way.
     */
    method FinishHighRes(outcome: Result<WeatherSnapshot>, now: int)
      requires refreshingHighRes
      modifies this
      ensures !refreshingHighRes
      ensures outcome.Ok? ==> highRes == Some(outcome.value) && highResUpdatedAt == Some(now)
      ensures outcome.Err? ==> highRes == old(highRes) && highResUpdatedAt == old(highResUpdatedAt)
      ensures cloudGrid == old(cloudGrid) && cloudGridUpdatedAt == old(cloudGridUpdatedAt)
      ensures refreshingCloudGrid == old(refreshingCloudGrid) && schedulerRunning == old(schedulerRunning)
      ensures old(Valid()) ==> Valid()
    {
      if outcome.Ok? {
        highRes := Some(outcome.value);
        highResUpdatedAt := Some(now);
      }
      refreshingHighRes := false;
    }

    /** `refreshHighRes` run to completion. */
    method RefreshHighRes(serviceKey: string, outcome: Result<WeatherSnapshot>, now: int)
      modifies this
      ensures old(refreshingHighRes) || serviceKey == "" ==>
        highRes == old(highRes) && highResUpdatedAt == old(highResUpdatedAt) && refreshingHighRes == old(refreshingHighRes)
      ensures !old(refreshingHighRes) && serviceKey != "" ==>
        !refreshingHighRes
        && (outcome.Ok? ==> highRes == Some(outcome.value) && highResUpdatedAt == Some(now))
        && (outcome.Err? ==> highRes == old(highRes) && highResUpdatedAt == old(highResUpdatedAt))
      ensures cloudGrid == old(cloudGrid) && cloudGridUpdatedAt == old(cloudGridUpdatedAt)
      ensures refreshingCloudGrid == old(refreshingCloudGrid) && schedulerRunning == old(schedulerRunning)
      ensures old(Valid()) ==> Valid()
    {
      var started := BeginHighRes(serviceKey);
      if started {
        FinishHighRes(outcome, now);
      }
    }

    /** The synchronous start of `refreshCloudGrid`. */
    method BeginCloudGrid(serviceKey: string) returns (started: bool)
      modifies this
      ensures started <==> !old(refreshingCloudGrid) && serviceKey != ""
      ensures refreshingCloudGrid == (old(refreshingCloudGrid) || started)
      ensures highRes == old(highRes) && highResUpdatedAt == old(highResUpdatedAt)
      ensures cloudGrid == old(cloudGrid) && cloudGridUpdatedAt == old(cloudGridUpdatedAt)
      ensures refreshingHighRes == old(refreshingHighRes) && schedulerRunning == old(schedulerRunning)
    {
      if refreshingCloudGrid || serviceKey == "" {
        return false;
      }
      refreshingCloudGrid := true;
      return true;
    }

    /**
     * The rest of `refreshCloudGrid`: an accepted reply's first item becomes
     * the stored grid, stamped with `finishedAt`; anything else (HTTP error,
     * result code other than "00", no items, a lone item object, a thrown
     * error) keeps the old grid and time.  The flag is cleared either way.
     */
    method FinishCloudGrid(reply: CloudGridReply, p: Parsers, finishedAt: int)
      requires refreshingCloudGrid
      modifies this
      ensures !refreshingCloudGrid
      ensures Accepted(reply) ==>
        cloudGrid.Some? && DescribesItem(cloudGrid.value, reply.item.items[0], p, finishedAt)
        && cloudGridUpdatedAt == Some(finishedAt)
      ensures !Accepted(reply) ==> cloudGrid == old(cloudGrid) && cloudGridUpdatedAt == old(cloudGridUpdatedAt)
      ensures highRes == old(highRes) && highResUpdatedAt == old(highResUpdatedAt)
      ensures refreshingHighRes == old(refreshingHighRes) && schedulerRunning == old(schedulerRunning)
      ensures old(Valid()) ==> Valid()
    {
      if Accepted(reply) {
        var item := reply.item.items[0];
        var xdim, ydim := p.parseInt(OrStr(item.xdim, "0")), p.parseInt(OrStr(item.ydim, "0"));
        var values := ItemValues(item, p);
        var grid := Reshape(values, xdim, ydim);
        cloudGrid := Some(CloudGridData(
          item.dateTime,
          p.parseFloat(OrStr(item.gridKm, "2")),
          xdim,
          ydim,
          p.parseFloat(OrStr(item.x0, "0")),
          p.parseFloat(OrStr(item.y0, "0")),
          grid,
          |values|,
          finishedAt));
        cloudGridUpdatedAt := Some(finishedAt);
      }
      refreshingCloudGrid := false;
    }

    /**
     * `refreshCloudGrid` run to completion; `fetchGrid` answers the request
     * for a given `dateTime`.
     */
    method RefreshCloudGrid(serviceKey: string, fetchGrid: string -> CloudGridReply, p: Parsers,
                            startedAt: int, finishedAt: int, utc: int -> Clock)
      modifies this
      ensures old(refreshingCloudGrid) || serviceKey == "" ==>
        cloudGrid == old(cloudGrid) && cloudGridUpdatedAt == old(cloudGridUpdatedAt) && refreshingCloudGrid == old(refreshingCloudGrid)
      ensures !old(refreshingCloudGrid) && serviceKey != "" ==>
        var reply := fetchGrid(CloudDateTime(startedAt, utc));
        !refreshingCloudGrid
        && (Accepted(reply) ==>
              cloudGrid.Some? && DescribesItem(cloudGrid.value, reply.item.items[0], p, finishedAt)
              && cloudGridUpdatedAt == Some(finishedAt))
        && (!Accepted(reply) ==> cloudGrid == old(cloudGrid) && cloudGridUpdatedAt == old(cloudGridUpdatedAt))
      ensures highRes == old(highRes) && highResUpdatedAt == old(highResUpdatedAt)
      ensures refreshingHighRes == old(refreshingHighRes) && schedulerRunning == old(schedulerRunning)
      ensures old(Valid()) ==> Valid()
    {
      var started := BeginCloudGrid(serviceKey);
      if started {
        FinishCloudGrid(fetchGrid(CloudDateTime(startedAt, utc)), p, finishedAt);
      }
    }

    /**
     * `startCacheScheduler`: the first call marks the scheduler running and
     * starts both refreshes (their synchronous parts); a later call changes
     * nothing.  The interval timers themselves are not modelled.
     */
    method StartScheduler(serviceKey: string)
      modifies this
      ensures old(schedulerRunning) ==>
        schedulerRunning && highRes == old(highRes) && cloudGrid == old(cloudGrid)
        && highResUpdatedAt == old(highResUpdatedAt) && cloudGridUpdatedAt == old(cloudGridUpdatedAt)
        && refreshingHighRes == old(refreshingHighRes) && refreshingCloudGrid == old(refreshingCloudGrid)
      ensures !old(schedulerRunning) ==>
        schedulerRunning
        && refreshingHighRes == (old(refreshingHighRes) || serviceKey != "")
        && refreshingCloudGrid == (old(refreshingCloudGrid) || serviceKey != "")
        && highRes == old(highRes) && cloudGrid == old(cloudGrid)
        && highResUpdatedAt == old(highResUpdatedAt) && cloudGridUpdatedAt == old(cloudGridUpdatedAt)
    {
      if schedulerRunning {
        return;
      }
      schedulerRunning := true;
      var _ := BeginHighRes(serviceKey);
      var _ := BeginCloudGrid(serviceKey);
    }

    /**
     * `forceRefreshAll`: both refreshes start, then both finish; they touch
     * disjoint parts of the cache, so the order of completion is immaterial.
     */
    method ForceRefreshAll(serviceKey: string, highResOutcome: Result<WeatherSnapshot>,
                           fetchGrid: string -> CloudGridReply, p: Parsers,
                           startedAt: int, finishedAt: int, utc: int -> Clock)
      modifies this
      ensures !old(refreshingHighRes) && serviceKey != "" ==>
        !refreshingHighRes
        && (highResOutcome.Ok? ==> highRes == Some(highResOutcome.value) && highResUpdatedAt == Some(finishedAt))
        && (highResOutcome.Err? ==> highRes == old(highRes) && highResUpdatedAt == old(highResUpdatedAt))
      ensures !old(refreshingCloudGrid) && serviceKey != "" ==>
        var reply := fetchGrid(CloudDateTime(startedAt, utc));
        !refreshingCloudGrid
        && (Accepted(reply) ==>
              cloudGrid.Some? && DescribesItem(cloudGrid.value, reply.item.items[0], p, finishedAt)
              && cloudGridUpdatedAt == Some(finishedAt))
        && (!Accepted(reply) ==> cloudGrid == old(cloudGrid) && cloudGridUpdatedAt == old(cloudGridUpdatedAt))
      ensures old(refreshingHighRes) || serviceKey == "" ==>
        highRes == old(highRes) && highResUpdatedAt == old(highResUpdatedAt)
      ensures old(refreshingCloudGrid) || serviceKey == "" ==>
        cloudGrid == old(cloudGrid) && cloudGridUpdatedAt == old(cloudGridUpdatedAt)
      ensures schedulerRunning == old(schedulerRunning)
      ensures old(Valid()) ==> Valid()
    {
      var startedHighRes := BeginHighRes(serviceKey);
      var startedCloud := BeginCloudGrid(serviceKey);
      if startedHighRes {
        FinishHighRes(highResOutcome, finishedAt);
      }
      if startedCloud {
        FinishCloudGrid(fetchGrid(CloudDateTime(startedAt, utc)), p, finishedAt);
      }
    }
  }
}
