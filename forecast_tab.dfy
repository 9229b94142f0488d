/**
 * The forecast tab (components/ForecastTab.tsx): the five-level grade shown
 * for a CSI, the colour of the score bars, and the tab's state with its two
 * handlers (picking a place on the map, picking a date).  The forecast
 * request is a parameter of the date handler.
 */
module ForecastTab {
  import opened Js
  import opened ObservationTypes
  import ForecastApi

  /**
   * The grade card: level 5 (best) down to 1, with its wording and colours.
   * `title` holds the card's `label` (a reserved word in Dafny).
   */
  datatype Grade = Grade(level: int, title: string, emoji: string, message: string, tip: string, color: string, bgColor: string)

  /** `getGrade`: bands at 80, 60, 40 and 20. */
  function GetGrade(score: real): (g: Grade)
    ensures 1 <= g.level <= 5
    ensures g.level == 5 <==> score >= 80.0
    ensures g.level == 4 <==> 60.0 <= score < 80.0
    ensures g.level == 3 <==> 40.0 <= score < 60.0
    ensures g.level == 2 <==> 20.0 <= score < 40.0
    ensures g.level == 1 <==> score < 20.0
  {
    if score >= 80.0 then
      Grade(5, "최고", "🌟", "오늘 밤은 별 보기 딱 좋아요!", "은하수도 선명하게 보여요. 카메라 챙기세요!", "#22c55e", "rgba(34, 197, 94, 0.15)")
    else if score >= 60.0 then
      Grade(4, "좋음", "✨", "별 보기 좋은 날이에요!", "밝은 별과 은하수를 볼 수 있어요.", "#84cc16", "rgba(132, 204, 22, 0.15)")
    else if score >= 40.0 then
      Grade(3, "보통", "🌙", "별이 어느 정도 보여요", "밝은 별 위주로 관측 가능해요.", "#facc15", "rgba(250, 204, 21, 0.15)")
    else if score >= 20.0 then
      Grade(2, "흐림", "☁️", "오늘은 별 보기 어려워요", "다른 날을 추천드려요.", "#f97316", "rgba(249, 115, 22, 0.15)")
    else
      Grade(1, "불가", "🚫", "오늘은 별을 볼 수 없어요", "맑은 날을 기다려주세요.", "#ef4444", "rgba(239, 68, 68, 0.15)")
  }

  /** The thresholds belong to the upper band. */
  lemma GradeBoundaries()
    ensures GetGrade(80.0).level == 5 && GetGrade(79.0).level == 4
    ensures GetGrade(60.0).level == 4 && GetGrade(40.0).level == 3
    ensures GetGrade(20.0).level == 2 && GetGrade(19.0).level == 1
  {
  }

  /** A higher score never gets a lower grade. */
  lemma GradeMonotone(a: real, b: real)
    requires a <= b
    ensures GetGrade(a).level <= GetGrade(b).level
  {
  }

  /** `getScoreColor` of the detail bars. */
  function ScoreColor(score: real): (c: string)
    ensures c in {"#22c55e", "#84cc16", "#facc15", "#f97316", "#ef4444"}
  {
    if score >= 80.0 then "#22c55e"
    else if score >= 60.0 then "#84cc16"
    else if score >= 40.0 then "#facc15"
    else if score >= 20.0 then "#f97316"
    else "#ef4444"
  }

  /** A bar is coloured like the grade its score would get. */
  lemma ScoreColorIsGradeColor(score: real)
    ensures ScoreColor(score) == GetGrade(score).color
  {
  }

  /** The tab's React state. */
  class ForecastTabState {
    var selectedLocation: Option<LatLng>
    var selectedDate: Option<string>
    var loading: bool
    var error: Option<string>
    var result: Option<ForecastScores>
    var weatherData: Option<RawForecast>

    constructor()
      ensures selectedLocation.None? && selectedDate.None? && !loading
      ensures error.None? && result.None? && weatherData.None?
    {
      selectedLocation := None;
      selectedDate := None;
      loading := false;
      error := None;
      result := None;
      weatherData := None;
    }

    /** `currentStep`: 3 with a result, else 2 with a place, else 1. */
    function CurrentStep(): (step: int)
      reads this
      ensures 1 <= step <= 3
      ensures step == 3 <==> result.Some?
      ensures step == 2 <==> result.None? && selectedLocation.Some?
    {
      if result.Some? then 3 else if selectedLocation.Some? then 2 else 1
    }

    /** The `initialLocation` effect: a place handed over from the spots page is selected. */
    method ApplyInitialLocation(initialLocation: Option<LatLng>)
      modifies this
      ensures initialLocation.Some? ==> selectedLocation == initialLocation
      ensures initialLocation.None? ==> selectedLocation == old(selectedLocation)
      ensures selectedDate == old(selectedDate) && loading == old(loading) && error == old(error)
      ensures result == old(result) && weatherData == old(weatherData)
    {
      if initialLocation.Some? {
        selectedLocation := initialLocation;
      }
    }

    /** `handleMapClick`: a new place discards the date, the result, the data and the error. */
    method HandleMapClick(latlng: LatLng)
      modifies this
      ensures selectedLocation == Some(latlng)
      ensures result.None? && weatherData.None? && error.None? && selectedDate.None?
      ensures loading == old(loading)
      ensures CurrentStep() == 2
    {
      selectedLocation := Some(latlng);
      result := None;
      weatherData := None;
      error := None;
      selectedDate := None;
    }

    /**
     * `handleDateChange`: ignored without a date or a place; otherwise the
     * forecast for that place and date (`fetched`) is scored, or its failure
     * is reported, and loading ends either way.
     */
    method HandleDateChange(date: string, fetched: Result<RawForecast>)
      modifies this
      ensures date == "" || old(selectedLocation).None? ==>
        selectedLocation == old(selectedLocation) && selectedDate == old(selectedDate) && loading == old(loading)
        && error == old(error) && result == old(result) && weatherData == old(weatherData)
      ensures date != "" && old(selectedLocation).Some? ==>
        selectedLocation == old(selectedLocation) && selectedDate == Some(date) && !loading
        && (fetched.Ok? ==>
              weatherData == Some(fetched.value) && error.None?
              && result == Some(ForecastApi.ComputeForecastScores(fetched.value, old(selectedLocation).value))
              && CurrentStep() == 3)
        && (fetched.Err? ==>
              error == Some("날씨 정보를 가져오지 못했어요. 다시 시도해주세요.")
              && result == old(result) && weatherData == old(weatherData))
    {
      if date == "" || selectedLocation.None? {
        return;
      }
      selectedDate := Some(date);
      loading := true;
      error := None;
      match fetched {
        case Ok(raw) =>
          weatherData := Some(raw);
          result := Some(ForecastApi.ComputeForecastScores(raw, selectedLocation.value));
        case Err(_) =>
          error := Some("날씨 정보를 가져오지 못했어요. 다시 시도해주세요.");
      }
      loading := false;
    }
  }
}
