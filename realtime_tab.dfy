/**
 * The real-time tab (components/RealtimeTab.tsx): its grade card and bar
 * colour, its state, the map-click flow that scores the single nearest
 * station, and the observing tip.  The distance, the per-station request
 * and the clock are parameters of the click handler.
 */
module RealtimeTab {
  import opened Js
  import opened ObservationTypes
  import RealtimeApi

  /** The grade card; `title` holds the card's `label` (a reserved word in Dafny). */
  datatype Grade = Grade(level: int, title: string, emoji: string, message: string, tip: string, color: string, bgColor: string)

  /** `getGrade`: the same 80/60/40/20 bands as the forecast tab, worded for "now". */
  function GetGrade(score: real): (g: Grade)
    ensures 1 <= g.level <= 5
    ensures g.level == 5 <==> score >= 80.0
    ensures g.level == 4 <==> 60.0 <= score < 80.0
    ensures g.level == 3 <==> 40.0 <= score < 60.0
    ensures g.level == 2 <==> 20.0 <= score < 40.0
    ensures g.level == 1 <==> score < 20.0
  {
    if score >= 80.0 then
      Grade(5, "최고", "🌟", "지금 별 보기 딱 좋아요!", "바로 나가서 밤하늘을 즐기세요!", "#22c55e", "rgba(34, 197, 94, 0.15)")
    else if score >= 60.0 then
      Grade(4, "좋음", "✨", "지금 별 볼 수 있어요!", "밝은 별과 은하수가 보일 거예요.", "#84cc16", "rgba(132, 204, 22, 0.15)")
    else if score >= 40.0 then
      Grade(3, "보통", "🌙", "별이 어느 정도 보여요", "밝은 별 위주로 관측 가능해요.", "#facc15", "rgba(250, 204, 21, 0.15)")
    else if score >= 20.0 then
      Grade(2, "흐림", "☁️", "지금은 별 보기 어려워요", "날씨가 좋아지길 기다려요.", "#f97316", "rgba(249, 115, 22, 0.15)")
    else
      Grade(1, "불가", "🚫", "지금은 별을 볼 수 없어요", "맑은 날을 기다려주세요.", "#ef4444", "rgba(239, 68, 68, 0.15)")
  }

  /** `getScoreColor` of the tab. */
  function ScoreColor(score: real): (c: string)
    ensures c in {"#22c55e", "#84cc16", "#facc15", "#f97316", "#ef4444"}
  {
    if score >= 80.0 then "#22c55e"
    else if score >= 60.0 then "#84cc16"
    else if score >= 40.0 then "#facc15"
    else if score >= 20.0 then "#f97316"
    else "#ef4444"
  }

  /** The bar colour is the grade colour, and both agree with the library's colour for whole scores. */
  lemma ScoreColorAgrees(score: int)
    ensures ScoreColor(score as real) == GetGrade(score as real).color
    ensures ScoreColor(score as real) == RealtimeApi.ScoreColor(score)
  {
  }

  /** The observing tip: damp air first, then a good score, else the fallback. */
  function Tip(data: StationScore): (t: string)
    ensures data.humidity.Some? && data.humidity.value > 70.0 ==>
      t == "습도가 높아요. 렌즈에 이슬이 맺힐 수 있으니 제습제를 준비하세요."
    ensures !(data.humidity.Some? && data.humidity.value > 70.0) && data.combinedScore >= 60 ==>
      t == "좋은 조건이에요! 눈을 어둠에 적응시키면 더 많은 별이 보여요."
    ensures !(data.humidity.Some? && data.humidity.value > 70.0) && data.combinedScore < 60 ==>
      t == "날씨가 좋아지면 다시 확인해보세요. 달력 페이지에서 달이 없는 날도 확인하세요!"
  {
    if data.humidity.Some? && data.humidity.value > 70.0 then
      "습도가 높아요. 렌즈에 이슬이 맺힐 수 있으니 제습제를 준비하세요."
    else if data.combinedScore >= 60 then
      "좋은 조건이에요! 눈을 어둠에 적응시키면 더 많은 별이 보여요."
    else
      "날씨가 좋아지면 다시 확인해보세요. 달력 페이지에서 달이 없는 날도 확인하세요!"
  }

  const NoStationMessage := "근처에 관측소가 없어요."

  /** The tab's React state. */
  class RealtimeTabState {
    var selectedLocation: Option<LatLng>
    var weatherData: Option<StationScore>
    var nearestStationName: string
    var loading: bool
    var error: Option<string>
    var lastUpdateAt: Option<string>
    var showDetails: bool

    constructor()
      ensures selectedLocation.None? && weatherData.None? && nearestStationName == ""
      ensures !loading && error.None? && lastUpdateAt.None? && !showDetails
    {
      selectedLocation := None;
      weatherData := None;
      nearestStationName := "";
      loading := false;
      error := None;
      lastUpdateAt := None;
      showDetails := false;
    }

    /** `currentStep`: 2 with data, 1 with only a place, else 0. */
    function CurrentStep(): (step: int)
      reads this
      ensures 0 <= step <= 2
      ensures step == 2 <==> weatherData.Some?
      ensures step == 1 <==> weatherData.None? && selectedLocation.Some?
    {
      if weatherData.Some? then 2 else if selectedLocation.Some? then 1 else 0
    }

    /**
     * `handleMapClick`: find the nearest station of `stations` (the tab
     * passes the station list); none sets an error and stops without a
     * request; otherwise that one station's reading is fetched and scored.
     */
    method HandleMapClick(latlng: LatLng, stations: seq<StationMeta>, distanceTo: LatLng -> int,
                          outcomeOf: string -> RealtimeApi.FetchOutcome, idNumberOf: string -> int,
                          minutes: nat, measuredAt: string, now: string)
      modifies this
      ensures selectedLocation == Some(latlng) && !loading && !showDetails
      ensures |stations| == 0 ==>
        error == Some(NoStationMessage) && weatherData == old(weatherData)
        && nearestStationName == old(nearestStationName) && lastUpdateAt == old(lastUpdateAt)
      ensures |stations| > 0 ==>
        var nearest := RealtimeApi.GetNearestStations(stations, 1, distanceTo);
        error.None? && |nearest| == 1 && lastUpdateAt == Some(now)
        && var data := RealtimeApi.FetchRealtimeData([nearest[0].id], outcomeOf, idNumberOf, minutes, measuredAt);
        var scores := RealtimeApi.ComputeStationScores(nearest, data, distanceTo);
        |scores| == 1 && weatherData == Some(scores[0])
        && weatherData.value.station == nearest[0]
        && nearestStationName == nearest[0].name
    {
      selectedLocation := Some(latlng);
      loading := true;
      error := None;
      showDetails := false;
      var nearby := RealtimeApi.GetNearestStations(stations, 1, distanceTo);
      if |nearby| == 0 {
        error := Some(NoStationMessage);
        loading := false;
        return;
      }
      var stationIds := seq(|nearby|, i requires 0 <= i < |nearby| => nearby[i].id);
      assert stationIds == [nearby[0].id];
      var data := RealtimeApi.FetchRealtimeData(stationIds, outcomeOf, idNumberOf, minutes, measuredAt);
      var scores := RealtimeApi.ComputeStationScores(nearby, data, distanceTo);
      NearestStationIsScored(nearby, data, distanceTo);
      if |scores| > 0 {
        weatherData := Some(scores[0]);
        nearestStationName := scores[0].station.name;
        lastUpdateAt := Some(now);
      }
      loading := false;
    }
  }

  /** A single station whose id was requested keeps its place among the scores. */
  lemma NearestStationIsScored(nearby: seq<StationMeta>, data: seq<StationRealtimeData>, distanceTo: LatLng -> int)
    requires |nearby| == 1 && |data| == 1 && data[0].stationId == nearby[0].id
    ensures var scores := RealtimeApi.ComputeStationScores(nearby, data, distanceTo);
      |scores| == 1 && scores[0].station == nearby[0]
  {
    RealtimeApi.WithDataMembership(nearby, data, nearby[0]);
    assert nearby[0] in RealtimeApi.WithData(nearby, RealtimeApi.DataMap(data));
  }
}
