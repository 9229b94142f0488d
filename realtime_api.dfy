/**
 * The real-time tab's data and scoring (lib/realtimeApi.ts): the station
 * list, one reading per station (fetched, or a deterministic mock), the
 * humidity-based cloud score, the wind/visibility transparency score, their
 * 60:40 blend, and the nearest-station choice.  The Haversine distance is a
 * parameter `distanceTo` (metres from the user, already rounded).
 */
module RealtimeApi {
  import opened Js
  import opened Text
  import opened Sorting
  import opened ObservationTypes

  // -------------------------------------------------------------- station list

  function Station(id: string, name: string, lat: real, lng: real, region: string): StationMeta
  {
    StationMeta(id, name, LatLng(lat, lng), Some(region))
  }

  /** `STATION_LIST`: the 25 ASOS stations the tab can pick from. */
  const StationList: seq<StationMeta> := [
    Station("108", "서울", 37.5714, 126.9658, "서울"),
    Station("119", "수원", 37.2634, 126.9881, "경기"),
    Station("202", "양평", 37.4887, 127.4944, "경기"),
    Station("203", "이천", 37.2638, 127.4844, "경기"),
    Station("101", "춘천", 37.9025, 127.7356, "강원"),
    Station("105", "강릉", 37.7514, 128.8908, "강원"),
    Station("114", "원주", 37.3376, 127.9453, "강원"),
    Station("216", "태백", 37.1697, 128.9856, "강원"),
    Station("217", "정선", 37.3808, 128.6609, "강원"),
    Station("131", "청주", 36.6394, 127.4403, "충북"),
    Station("133", "대전", 36.3722, 127.3725, "대전"),
    Station("232", "천안", 36.7639, 127.2906, "충남"),
    Station("140", "군산", 36.0017, 126.7628, "전북"),
    Station("146", "전주", 35.8414, 127.1192, "전북"),
    Station("156", "광주", 35.1728, 126.8914, "광주"),
    Station("165", "목포", 34.8172, 126.3814, "전남"),
    Station("143", "대구", 35.8852, 128.6186, "대구"),
    Station("152", "울산", 35.5597, 129.3200, "울산"),
    Station("159", "부산", 35.1044, 129.0319, "부산"),
    Station("192", "진주", 35.1642, 128.0414, "경남"),
    Station("271", "봉화", 36.9433, 128.9144, "경북"),
    Station("277", "영덕", 36.5328, 129.4092, "경북"),
    Station("184", "제주", 33.5142, 126.5297, "제주"),
    Station("185", "고산", 33.2939, 126.1628, "제주"),
    Station("188", "성산", 33.3869, 126.8803, "제주")
  ]

  /** `stations[i]` is the first station whose id is `id`. */
  predicate FirstWithId(stations: seq<StationMeta>, id: string, i: int)
  {
    0 <= i < |stations| && stations[i].id == id && forall j :: 0 <= j < i ==> stations[j].id != id
  }

  /** `STATION_LIST.find((s) => s.id === id)`: the first station with that id. */
  function FindStation(stations: seq<StationMeta>, id: string): (r: Option<StationMeta>)
    ensures r.None? <==> forall i :: 0 <= i < |stations| ==> stations[i].id != id
    ensures r.Some? ==> exists i :: FirstWithId(stations, id, i) && stations[i] == r.value
  {
    if |stations| == 0 then None
    else if stations[0].id == id then
      assert FirstWithId(stations, id, 0);
      Some(stations[0])
    else
      var r := FindStation(stations[1..], id);
      assert r.Some? ==> exists i :: FirstWithId(stations, id, i) && stations[i] == r.value by {
        if r.Some? {
          var i :| FirstWithId(stations[1..], id, i) && stations[1..][i] == r.value;
          assert FirstWithId(stations, id, i + 1);
        }
      }
      assert r.None? ==> forall i :: 0 <= i < |stations| ==> stations[i].id != id by {
        if r.None? {
          forall i | 0 <= i < |stations|
            ensures stations[i].id != id
          {
            if i > 0 { assert stations[i] == stations[1..][i - 1]; }
          }
        }
      }
      r
  }

  // ------------------------------------------------------------------ readings

  /** The fields of `/api/weather` that the tab reads; `None` is missing. */
  datatype WeatherReply = WeatherReply(humidity: Option<real>, windSpeed: Option<real>, temperature: Option<real>)

  /** How the per-station request ended. */
  datatype FetchOutcome = HttpError(status: int) | Thrown | Replied(reply: WeatherReply)

  /**
   * The visibility the tab assumes from the humidity as received (before the
   * `|| 50` default): 2, 5, 8 or 12 km above 90/80/70/60 %, else 15 km.
   */
  function VisibilityFromHumidity(humidity: Option<real>): (v: real)
    ensures v == 2000.0 <==> humidity.Some? && humidity.value > 90.0
    ensures v == 15000.0 <==> !(humidity.Some? && humidity.value > 60.0)
    ensures v in {2000.0, 5000.0, 8000.0, 12000.0, 15000.0}
  {
    if humidity.Some? && humidity.value > 90.0 then 2000.0
    else if humidity.Some? && humidity.value > 80.0 then 5000.0
    else if humidity.Some? && humidity.value > 70.0 then 8000.0
    else if humidity.Some? && humidity.value > 60.0 then 12000.0
    else 15000.0
  }

  /** Higher humidity never gives a longer visibility. */
  lemma VisibilityFromHumidityMonotone(h1: real, h2: real)
    requires h1 <= h2
    ensures VisibilityFromHumidity(Some(h2)) <= VisibilityFromHumidity(Some(h1))
  {
  }

  /** The reading built from a successful reply: `||` defaults, no pressure. */
  function ReadingFromReply(stationId: string, reply: WeatherReply, measuredAt: string): (d: StationRealtimeData)
    ensures d.stationId == stationId && d.measuredAt == measuredAt && d.pressure.None?
    ensures d.humidity.Some? && d.windSpeed.Some? && d.temperature.Some?
    ensures d.humidity.value == OrNum(reply.humidity, 50.0)
    ensures d.windSpeed.value == OrNum(reply.windSpeed, 2.0)
    ensures d.temperature.value == OrNum(reply.temperature, 10.0)
    ensures d.visibility == Some(VisibilityFromHumidity(reply.humidity))
  {
    StationRealtimeData(
      stationId,
      Some(OrNum(reply.humidity, 50.0)),
      Some(OrNum(reply.windSpeed, 2.0)),
      Some(VisibilityFromHumidity(reply.humidity)),
      Some(OrNum(reply.temperature, 10.0)),
      None,
      measuredAt)
  }

  /**
   * `generateMockData`: a deterministic reading from
   * `seed = parseInt(stationId) + minutes`, with the truncating `%` of JS.
   */
  function MockReading(stationId: string, idNumber: int, minutes: nat, measuredAt: string): (d: StationRealtimeData)
    ensures d.stationId == stationId && d.measuredAt == measuredAt
    ensures d.humidity.Some? && d.windSpeed.Some? && d.visibility.Some? && d.temperature.Some? && d.pressure.Some?
    ensures idNumber + minutes >= 0 ==>
      40.0 <= d.humidity.value <= 79.0
      && 0.0 <= d.windSpeed.value <= 9.5
      && 3000.0 <= d.visibility.value <= 14000.0
      && 5.0 <= d.temperature.value <= 24.0
      && 1010.0 <= d.pressure.value <= 1029.0
  {
    var seed := idNumber + minutes;
    StationRealtimeData(
      stationId,
      Some((40 + IntRem(seed, 40)) as real),
      Some(IntRem(seed, 20) as real / 2.0),
      Some((3000 + IntRem(seed, 12) * 1000) as real),
      Some((5 + IntRem(seed, 20)) as real),
      Some((1010 + IntRem(seed, 20)) as real),
      measuredAt)
  }

  /** One element of `fetchRealtimeData`: an unknown station, a failed request or a throw fall back to the mock. */
  function FetchOne(stationId: string, outcome: FetchOutcome, idNumber: int, minutes: nat, measuredAt: string): (d: StationRealtimeData)
    ensures d.stationId == stationId && d.measuredAt == measuredAt
    ensures FindStation(StationList, stationId).Some? && outcome.Replied? ==>
      d == ReadingFromReply(stationId, outcome.reply, measuredAt)
    ensures FindStation(StationList, stationId).None? || !outcome.Replied? ==>
      d == MockReading(stationId, idNumber, minutes, measuredAt)
  {
    if FindStation(StationList, stationId).None? then MockReading(stationId, idNumber, minutes, measuredAt)
    else match outcome
      case HttpError(_) => MockReading(stationId, idNumber, minutes, measuredAt)
      case Thrown => MockReading(stationId, idNumber, minutes, measuredAt)
      case Replied(reply) => ReadingFromReply(stationId, reply, measuredAt)
  }

  /**
   * `fetchRealtimeData`: one reading per requested id, in request order.
   * `outcomeOf`, `idNumberOf`, `minutes` and `measuredAt` stand for the
   * network, `parseInt`, `now.getMinutes()` and `now.toISOString()`.
   */
  function FetchRealtimeData(ids: seq<string>, outcomeOf: string -> FetchOutcome, idNumberOf: string -> int,
                             minutes: nat, measuredAt: string): (r: seq<StationRealtimeData>)
    ensures |r| == |ids|
    ensures forall i :: 0 <= i < |ids| ==> r[i].stationId == ids[i] && r[i].measuredAt == measuredAt
  {
    seq(|ids|, i requires 0 <= i < |ids| => FetchOne(ids[i], outcomeOf(ids[i]), idNumberOf(ids[i]), minutes, measuredAt))
  }

  // ------------------------------------------------------------------- scores

  /** `calculateCloudScore`: 50 without data, 100 up to 20 %, then 1.25 points off per percent. */
  function CloudScore(humidity: Option<real>): (s: int)
    ensures 0 <= s <= 100
    ensures humidity.None? ==> s == 50
    ensures humidity.Some? && humidity.value <= 20.0 ==> s == 100
    ensures humidity.Some? && humidity.value >= 100.0 ==> s == 0
  {
    if humidity.None? then 50
    else if humidity.value <= 20.0 then 100
    else
      var score := 100.0 - (humidity.value - 20.0) * 1.25;
      var r := Round(score);
      if 100 < r then 100 else if r < 0 then 0 else r
  }

  /** A more humid reading never scores better. */
  lemma CloudScoreMonotone(h1: real, h2: real)
    requires h1 <= h2
    ensures CloudScore(Some(h2)) <= CloudScore(Some(h1))
  {
    if h1 > 20.0 {
      RoundMonotone(100.0 - (h2 - 20.0) * 1.25, 100.0 - (h1 - 20.0) * 1.25);
    }
  }

  /** The wind term: 100 below 5 m/s, falling by 8 per m/s to 40 at 10 m/s; 100 without data. */
  function WindTerm(windSpeed: Option<real>): (w: real)
    ensures 40.0 <= w <= 100.0
    ensures windSpeed.None? || windSpeed.value < 5.0 ==> w == 100.0
    ensures windSpeed.Some? && windSpeed.value >= 10.0 ==> w == 40.0
  {
    if windSpeed.None? then 100.0
    else if windSpeed.value < 5.0 then 100.0
    else if windSpeed.value < 10.0 then 80.0 - (windSpeed.value - 5.0) * 8.0
    else 40.0
  }

  /** Stronger wind never raises the wind term. */
  lemma WindTermMonotone(w1: real, w2: real)
    requires w1 <= w2
    ensures WindTerm(Some(w2)) <= WindTerm(Some(w1))
  {
  }

  /** The visibility term: 100 from 10 km, 80 from 5 km, 40 from 1 km, else 10; 100 without data. */
  function VisibilityTerm(visibility: Option<real>): (v: real)
    ensures v in {100.0, 80.0, 40.0, 10.0}
    ensures v == 10.0 <==> visibility.Some? && visibility.value < 1000.0
    ensures v == 100.0 <==> visibility.None? || visibility.value >= 10000.0
  {
    if visibility.None? then 100.0
    else if visibility.value >= 10000.0 then 100.0
    else if visibility.value >= 5000.0 then 80.0
    else if visibility.value >= 1000.0 then 40.0
    else 10.0
  }

  /** `calculateTransparencyScore`: 30 % wind term, 70 % visibility term, rounded. */
  function TransparencyScore(windSpeed: Option<real>, visibility: Option<real>): (t: int)
    ensures 19 <= t <= 100
    ensures t as real - 0.5 <= 0.3 * WindTerm(windSpeed) + 0.7 * VisibilityTerm(visibility) < t as real + 0.5
    ensures windSpeed.None? && visibility.None? ==> t == 100
  {
    Round(WindTerm(windSpeed) * 0.3 + VisibilityTerm(visibility) * 0.7)
  }

  /** `calculateCombinedScore`: 60 % cloud, 40 % transparency, rounded. */
  function CombinedScore(cloudScore: int, transparencyScore: int): (c: int)
    ensures c as real - 0.5 <= 0.6 * cloudScore as real + 0.4 * transparencyScore as real < c as real + 0.5
    ensures cloudScore <= transparencyScore ==> cloudScore <= c <= transparencyScore
    ensures transparencyScore <= cloudScore ==> transparencyScore <= c <= cloudScore
  {
    Round(cloudScore as real * 0.6 + transparencyScore as real * 0.4)
  }

  /** A station's scores from its reading. */
  function ScoreStation(station: StationMeta, data: StationRealtimeData, distance: int): (s: StationScore)
    ensures s.station == station && s.distance == distance && s.lastUpdate == data.measuredAt
    ensures s.cloudScore == CloudScore(data.humidity)
    ensures s.transparencyScore == TransparencyScore(data.windSpeed, data.visibility)
    ensures s.combinedScore == CombinedScore(s.cloudScore, s.transparencyScore)
    ensures 0 <= s.combinedScore <= 100
    ensures s.temperature == data.temperature && s.humidity == data.humidity
      && s.windSpeed == data.windSpeed && s.visibility == data.visibility
  {
    var cloudScore := CloudScore(data.humidity);
    var transparencyScore := TransparencyScore(data.windSpeed, data.visibility);
    StationScore(
      station, cloudScore, transparencyScore, CombinedScore(cloudScore, transparencyScore),
      distance, data.measuredAt, data.temperature, data.humidity, data.windSpeed, data.visibility)
  }

  /** `new Map(dataList.map((d) => [d.stationId, d]))`: a later record replaces an earlier one. */
  function DataMap(dataList: seq<StationRealtimeData>): map<string, StationRealtimeData>
  {
    if |dataList| == 0 then map[]
    else
      var last := dataList[|dataList| - 1];
      DataMap(dataList[..|dataList| - 1])[last.stationId := last]
  }

  /** `dataList[i]` is the last record for its station. */
  predicate IsLastFor(dataList: seq<StationRealtimeData>, i: int)
  {
    0 <= i < |dataList| && forall j :: i < j < |dataList| ==> dataList[j].stationId != dataList[i].stationId
  }

  /** The map holds exactly the ids of the list, each with its last record. */
  lemma DataMapLastWins(dataList: seq<StationRealtimeData>, id: string)
    ensures id in DataMap(dataList) <==> exists i :: 0 <= i < |dataList| && dataList[i].stationId == id
    ensures id in DataMap(dataList) ==>
      exists i :: IsLastFor(dataList, i) && dataList[i].stationId == id && DataMap(dataList)[id] == dataList[i]
  {
    DataMapKeys(dataList, id);
    if id in DataMap(dataList) {
      var i := DataMapLast(dataList, id);
    }
  }

  lemma {:induction false} DataMapKeys(dataList: seq<StationRealtimeData>, id: string)
    ensures id in DataMap(dataList) <==> exists i :: 0 <= i < |dataList| && dataList[i].stationId == id
  {
    if |dataList| > 0 {
      var init, last := dataList[..|dataList| - 1], dataList[|dataList| - 1];
      assert DataMap(dataList) == DataMap(init)[last.stationId := last];
      DataMapKeys(init, id);
      if id in DataMap(init) {
        var i :| 0 <= i < |init| && init[i].stationId == id;
        assert dataList[i] == init[i];
      }
      if exists i :: 0 <= i < |dataList| && dataList[i].stationId == id {
        var i :| 0 <= i < |dataList| && dataList[i].stationId == id;
        if i < |init| {
          assert init[i].stationId == id;
        }
      }
    }
  }

  /** The record the map keeps for a present id is the last one for it. */
  lemma {:induction false} DataMapLast(dataList: seq<StationRealtimeData>, id: string) returns (i: int)
    requires id in DataMap(dataList)
    ensures IsLastFor(dataList, i) && dataList[i].stationId == id && DataMap(dataList)[id] == dataList[i]
  {
    var init, last := dataList[..|dataList| - 1], dataList[|dataList| - 1];
    assert DataMap(dataList) == DataMap(init)[last.stationId := last];
    if last.stationId == id {
      i := |dataList| - 1;
    } else {
      i := DataMapLast(init, id);
      assert dataList[i] == init[i];
    }
  }

  /** The stations of `metas` that have a record, in their order. */
  function WithData(metas: seq<StationMeta>, m: map<string, StationRealtimeData>): (r: seq<StationMeta>)
    ensures |r| <= |metas|
    ensures forall i :: 0 <= i < |r| ==> r[i].id in m && r[i] in metas
  {
    if |metas| == 0 then []
    else (if metas[0].id in m then [metas[0]] else []) + WithData(metas[1..], m)
  }

  /**
   * `computeStationScores`: the stations of `metaList` that have a reading,
   * in `metaList` order, each scored from the last reading for its id.
   */
  function ComputeStationScores(metaList: seq<StationMeta>, dataList: seq<StationRealtimeData>,
                                distanceTo: LatLng -> int): (r: seq<StationScore>)
    ensures |r| == |WithData(metaList, DataMap(dataList))| <= |metaList|
    ensures forall i :: 0 <= i < |r| ==>
      var st := WithData(metaList, DataMap(dataList))[i];
      r[i].station == st && st in metaList
      && r[i] == ScoreStation(st, DataMap(dataList)[st.id], distanceTo(st.location))
  {
    var m := DataMap(dataList);
    var kept := WithData(metaList, m);
    var r := seq(|kept|, i requires 0 <= i < |kept| => ScoreStation(kept[i], m[kept[i].id], distanceTo(kept[i].location)));
    assert forall i :: 0 <= i < |r| ==> r[i].station == kept[i] && kept[i] in metaList;
    r
  }

  /** A station keeps its place exactly when some reading carries its id. */
  lemma WithDataMembership(metaList: seq<StationMeta>, dataList: seq<StationRealtimeData>, st: StationMeta)
    requires st in metaList
    ensures st in WithData(metaList, DataMap(dataList)) <==>
      exists i :: 0 <= i < |dataList| && dataList[i].stationId == st.id
  {
    DataMapLastWins(dataList, st.id);
    WithDataContains(metaList, DataMap(dataList), st);
  }

  lemma {:induction false} WithDataContains(metas: seq<StationMeta>, m: map<string, StationRealtimeData>, st: StationMeta)
    requires st in metas
    ensures st in WithData(metas, m) <==> st.id in m
  {
    if metas[0] != st {
      WithDataContains(metas[1..], m, st);
    }
  }

  // -------------------------------------------------------- nearest stations

  /**
   * `getNearestStations`: the stations stably sorted by distance, cut with
   * `slice(0, count)`.
   */
  function GetNearestStations(stations: seq<StationMeta>, count: int, distanceTo: LatLng -> int): (r: seq<StationMeta>)
    ensures r <= SortBy(stations, (s: StationMeta) => distanceTo(s.location))
    ensures count >= 0 ==> |r| == if count < |stations| then count else |stations|
    ensures SortedBy(r, (s: StationMeta) => distanceTo(s.location))
    ensures multiset(r) <= multiset(stations)
  {
    var key := (s: StationMeta) => distanceTo(s.location);
    var sorted := SortBy(stations, key);
    SortBySortedPermutation(stations, key);
    var r := SliceTo(sorted, count);
    assert sorted == r + sorted[|r|..];
    assert multiset(sorted) == multiset(r) + multiset(sorted[|r|..]);
    r
  }

  /** Nothing left out is nearer than anything chosen. */
  lemma NearestAreNearest(stations: seq<StationMeta>, count: int, distanceTo: LatLng -> int, chosen: StationMeta, other: StationMeta)
    requires chosen in GetNearestStations(stations, count, distanceTo)
    requires other in multiset(stations) - multiset(GetNearestStations(stations, count, distanceTo))
    ensures distanceTo(chosen.location) <= distanceTo(other.location)
  {
    var key := (s: StationMeta) => distanceTo(s.location);
    var sorted := SortBy(stations, key);
    var r := GetNearestStations(stations, count, distanceTo);
    SortBySortedPermutation(stations, key);
    var rest := sorted[|r|..];
    assert sorted == r + rest;
    assert multiset(sorted) == multiset(r) + multiset(rest);
    assert other in multiset(rest);
    var j :| 0 <= j < |rest| && rest[j] == other;
    var i :| 0 <= i < |r| && r[i] == chosen;
    assert sorted[i] == chosen && sorted[|r| + j] == other;
  }

  /** Among stations at the same distance the input order is kept. */
  lemma NearestTiesKeepOrder(stations: seq<StationMeta>, distanceTo: LatLng -> int, d: int)
    ensures var key := (s: StationMeta) => distanceTo(s.location);
      WithKey(GetNearestStations(stations, |stations|, distanceTo), key, d) == WithKey(stations, key, d)
  {
    var key := (s: StationMeta) => distanceTo(s.location);
    SortBySortedPermutation(stations, key);
    SortByStable(stations, key, d);
  }

  // ------------------------------------------------------------- presentation

  /** `formatDistance`: kilometres with one decimal from 1000 m, else whole metres. */
  function FormatDistance(meters: int): (s: string)
    ensures meters >= 1000 ==> s == ToFixed(meters as real / 1000.0, 1) + "km"
    ensures meters < 1000 ==> s == IntToString(meters) + "m"
    ensures meters >= 1000 ==> |s| >= 5 && s[|s| - 4] == '.' && IsDigit(s[|s| - 3]) && s[|s| - 2..] == "km"
  {
    if meters >= 1000 then ToFixed(meters as real / 1000.0, 1) + "km" else IntToString(meters) + "m"
  }

  /** `getScoreColor`: green, lime, yellow, orange, red at 80/60/40/20. */
  function ScoreColor(score: int): (c: string)
    ensures c == "#22c55e" <==> score >= 80
    ensures c == "#84cc16" <==> 60 <= score < 80
    ensures c == "#facc15" <==> 40 <= score < 60
    ensures c == "#f97316" <==> 20 <= score < 40
    ensures c == "#ef4444" <==> score < 20
  {
    if score >= 80 then "#22c55e"
    else if score >= 60 then "#84cc16"
    else if score >= 40 then "#facc15"
    else if score >= 20 then "#f97316"
    else "#ef4444"
  }

  /** `getScoreGrade`: the grade words for the same five bands. */
  function ScoreGrade(score: int): (g: string)
    ensures g == "최적" <==> score >= 80
    ensures g == "좋음" <==> 60 <= score < 80
    ensures g == "보통" <==> 40 <= score < 60
    ensures g == "나쁨" <==> 20 <= score < 40
    ensures g == "매우 나쁨" <==> score < 20
  {
    if score >= 80 then "최적"
    else if score >= 60 then "좋음"
    else if score >= 40 then "보통"
    else if score >= 20 then "나쁨"
    else "매우 나쁨"
  }

  /** Colour and grade change at the same scores. */
  lemma ColorFollowsGrade(a: int, b: int)
    ensures ScoreGrade(a) == ScoreGrade(b) <==> ScoreColor(a) == ScoreColor(b)
  {
  }
}
