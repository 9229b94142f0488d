/**
 * The server-side grid conversion (lib/kmaGrid.ts, `latLonToGridServer`):
 * a memo keyed by the coordinates at four decimals, the first data line of
 * the conversion service's reply, and the fallback to the local projection.
 * The projection itself, the request, `parseInt` and the number formatting
 * of the URL are parameters.
 */
module KmaGrid {
  import opened Js
  import opened Text
  import KmaDfs

  /** The memo key: latitude and longitude each written with four decimals. */
  function CacheKey(lat: real, lon: real): string
  {
    ToFixed(lat, 4) + "," + ToFixed(lon, 4)
  }

  /** `toFixed` writes a sign, digits and a point, never a comma. */
  lemma NoCommaInFixed(x: real, d: nat)
    ensures ',' !in ToFixed(x, d)
  {
    var n := FixedUnits(x, d);
    var body := FixedBody(n, d);
    if d > 0 {
      DivModBounds(n, Pow10(d));
      var whole, frac := NatToString(n / Pow10(d)), ZeroPad(n % Pow10(d), d);
      assert body == whole + "." + frac;
      assert forall k :: 0 <= k < |whole| ==> whole[k] != ',';
      assert forall k :: 0 <= k < |frac| ==> frac[k] != ',';
    }
    assert ',' !in body;
  }

  /** Two points share a memo entry exactly when both coordinates agree at four decimals. */
  lemma CacheKeySame(lat1: real, lon1: real, lat2: real, lon2: real)
    ensures CacheKey(lat1, lon1) == CacheKey(lat2, lon2) <==>
      ToFixed(lat1, 4) == ToFixed(lat2, 4) && ToFixed(lon1, 4) == ToFixed(lon2, 4)
  {
    NoCommaInFixed(lat1, 4);
    NoCommaInFixed(lon1, 4);
    NoCommaInFixed(lat2, 4);
    NoCommaInFixed(lon2, 4);
    var p1, p2 := [ToFixed(lat1, 4), ToFixed(lon1, 4)], [ToFixed(lat2, 4), ToFixed(lon2, 4)];
    assert Join(p1, ',') == CacheKey(lat1, lon1) by { assert p1[1..] == [p1[1]]; }
    assert Join(p2, ',') == CacheKey(lat2, lon2) by { assert p2[1..] == [p2[1]]; }
    SplitJoin(p1, ',');
    SplitJoin(p2, ',');
  }

  /** A data line of the reply: not a `#` line, and holding a comma. */
  predicate IsGridDataLine(line: string)
  {
    !StartsWith(line, "#") && Contains(line, ",")
  }

  /** `parseInt(parts[i], 10)`: a missing column is NaN. */
  function IntColumn(parts: seq<string>, i: nat, parseInt: string -> Option<int>): (v: Option<int>)
    ensures i < |parts| ==> v == parseInt(parts[i])
    ensures i >= |parts| ==> v.None?
  {
    if i < |parts| then parseInt(parts[i]) else None
  }

  /**
   * The reply text read as a grid point: the first data line, split on
   * commas and trimmed, with columns 2 and 3 as `nx` and `ny`; no data line
   * or a column that is not a number is an error.
   */
  function ParseGridReply(text: string, parseInt: string -> Option<int>): (r: Result<(int, int)>)
    ensures var lines := SplitLines(Trim(text));
      var k := FindIndex(lines, IsGridDataLine);
      (k == -1 ==> r == Err("Invalid grid response"))
      && (k >= 0 ==>
            var parts := KmaDfs.Parts(lines[k]);
            (r.Ok? <==> IntColumn(parts, 2, parseInt).Some? && IntColumn(parts, 3, parseInt).Some?)
            && (r.Ok? ==> r.value == (IntColumn(parts, 2, parseInt).value, IntColumn(parts, 3, parseInt).value))
            && (r.Err? ==> r == Err("Invalid grid numbers")))
  {
    var lines := SplitLines(Trim(text));
    var k := FindIndex(lines, IsGridDataLine);
    if k < 0 then Err("Invalid grid response")
    else
      var parts := KmaDfs.Parts(lines[k]);
      var x, y := IntColumn(parts, 2, parseInt), IntColumn(parts, 3, parseInt);
      if x.None? || y.None? then Err("Invalid grid numbers") else Ok((x.value, y.value))
  }

  /** How the conversion request ended. */
  datatype GridReply = Threw(message: string) | Answered(ok: bool, status: int, body: string)

  /** The server's answer: a thrown request or a failed status is an error, else the parsed reply. */
  function ServerGrid(reply: GridReply, parseInt: string -> Option<int>): (r: Result<(int, int)>)
    ensures reply.Threw? ==> r == Err(reply.message)
    ensures reply.Answered? && !reply.ok ==> r == Err("Grid conversion " + IntToString(reply.status))
    ensures reply.Answered? && reply.ok ==> r == ParseGridReply(reply.body, parseInt)
  {
    match reply
    case Threw(message) => Err(message)
    case Answered(ok, status, body) =>
      if !ok then Err("Grid conversion " + IntToString(status)) else ParseGridReply(body, parseInt)
  }

  function ConversionUrl(lat: real, lon: real, authKey: string, numStr: real -> string): string
  {
    "https://apihub.kma.go.kr/api/typ01/cgi-bin/url/nph-dfs_xy_lonlat?lon=" + numStr(lon) + "&lat=" + numStr(lat)
    + "&help=0&authKey=" + authKey
  }

  /** The module-level `gridCache`. */
  class GridMemo {
    var cache: map<string, (int, int)>

    constructor()
      ensures cache == map[]
    {
      cache := map[];
    }

    /**
     * `latLonToGridServer`: a memo hit is answered without a request; a
     * server answer is stored and returned; any failure falls back to the
     * local projection and stores nothing.
     */
    method LatLonToGridServer(lat: real, lon: real, authKey: string, numStr: real -> string,
                              fetch: string -> GridReply, parseInt: string -> Option<int>,
                              localGrid: (real, real) -> (int, int))
      returns (g: (int, int))
      modifies this
      ensures CacheKey(lat, lon) in old(cache) ==> g == old(cache)[CacheKey(lat, lon)] && cache == old(cache)
      ensures CacheKey(lat, lon) !in old(cache) ==>
        var server := ServerGrid(fetch(ConversionUrl(lat, lon, authKey, numStr)), parseInt);
        (server.Ok? ==> g == server.value && cache == old(cache)[CacheKey(lat, lon) := server.value])
        && (server.Err? ==> g == localGrid(lat, lon) && cache == old(cache))
      ensures CacheKey(lat, lon) in cache ==> cache[CacheKey(lat, lon)] == g
      ensures forall k :: k in old(cache) ==> k in cache && cache[k] == old(cache)[k]
    {
      var key := CacheKey(lat, lon);
      if key in cache {
        return cache[key];
      }
      var server := ServerGrid(fetch(ConversionUrl(lat, lon, authKey, numStr)), parseInt);
      if server.Ok? {
        cache := cache[key := server.value];
        g := server.value;
      } else {
        g := localGrid(lat, lon);
      }
    }
  }
}
