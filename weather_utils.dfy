/**
 * Weather helpers (lib/weatherUtils.ts): reading the cloud fraction at a
 * point of the satellite cloud grid, the region-based light-pollution
 * estimate, and the location-only 40/40/20 observation score.  The cosine
 * of the latitude is a parameter.
 */
module WeatherUtils {
  import opened Js
  import opened CloudGrid
  import ForecastApi
  import ObservationTypes

  // ----------------------------------------------------- cloud cover at a point

  /** The largest cell among `cols` columns of row `y`, and 0 (the loop starts from 0). */
  function RowMax(grid: seq<seq<real>>, y: int, cols: int): (m: real)
    ensures m >= 0.0
    decreases cols
  {
    if cols <= 0 then 0.0 else Max(RowMax(grid, y, cols - 1), CellAt(grid, y, cols - 1))
  }

  /** The largest cell of the first `rows` rows and `cols` columns, and 0. */
  function GridMax(grid: seq<seq<real>>, rows: int, cols: int): (m: real)
    ensures m >= 0.0
    decreases rows
  {
    if rows <= 0 then 0.0 else Max(GridMax(grid, rows - 1, cols), RowMax(grid, rows - 1, cols))
  }

  lemma {:induction false} RowMaxUpper(grid: seq<seq<real>>, y: int, cols: int, x: int)
    requires 0 <= x < cols
    ensures CellAt(grid, y, x) <= RowMax(grid, y, cols)
    decreases cols
  {
    if x < cols - 1 {
      RowMaxUpper(grid, y, cols - 1, x);
    }
  }

  /** Every cell inside the scanned rectangle is at most the grid maximum. */
  lemma {:induction false} GridMaxUpper(grid: seq<seq<real>>, rows: int, cols: int, y: int, x: int)
    requires 0 <= y < rows && 0 <= x < cols
    ensures CellAt(grid, y, x) <= GridMax(grid, rows, cols)
    decreases rows
  {
    if y < rows - 1 {
      GridMaxUpper(grid, rows - 1, cols, y, x);
    } else {
      RowMaxUpper(grid, y, cols, x);
    }
  }

  /** The row maximum is the loop's starting 0 or one of the scanned cells. */
  lemma {:induction false} RowMaxAttained(grid: seq<seq<real>>, y: int, cols: int)
    ensures RowMax(grid, y, cols) == 0.0 || exists x :: 0 <= x < cols && CellAt(grid, y, x) == RowMax(grid, y, cols)
    decreases cols
  {
    if cols > 0 && RowMax(grid, y, cols) != CellAt(grid, y, cols - 1) {
      RowMaxAttained(grid, y, cols - 1);
    }
  }

  /** The grid maximum is the loop's starting 0 or one of the scanned cells. */
  lemma {:induction false} GridMaxAttained(grid: seq<seq<real>>, rows: int, cols: int)
    ensures GridMax(grid, rows, cols) == 0.0
      || exists y, x :: 0 <= y < rows && 0 <= x < cols && CellAt(grid, y, x) == GridMax(grid, rows, cols)
    decreases rows
  {
    if rows > 0 {
      if GridMax(grid, rows, cols) == RowMax(grid, rows - 1, cols) {
        RowMaxAttained(grid, rows - 1, cols);
      } else {
        GridMaxAttained(grid, rows - 1, cols);
      }
    }
  }

  /** The metadata the index arithmetic needs is numeric, and the spacing is not zero. */
  predicate Locatable(g: CloudGridData)
  {
    g.gridKm.Some? && g.gridKm.value != 0.0 && g.x0.Some? && g.y0.Some?
  }

  /** The nearest column: kilometres east of `x0` over the grid spacing, rounded. */
  function ColumnOf(lng: real, cosLat: real, g: CloudGridData): int
    requires Locatable(g)
  {
    Round((lng - g.x0.value) * (111.0 * cosLat) / g.gridKm.value)
  }

  /** The nearest row: kilometres north of `y0` over the grid spacing, rounded. */
  function RowOf(lat: real, g: CloudGridData): int
    requires Locatable(g)
  {
    Round((lat - g.y0.value) * 111.0 / g.gridKm.value)
  }

  /** `i >= 0` and not `i >= dim`; a NaN dimension fails that comparison, so it passes. */
  predicate IndexOk(i: int, dim: Option<int>)
  {
    0 <= i && !(dim.Some? && i >= dim.value)
  }

  /** A value above 1 is divided by the grid maximum when that maximum exceeds 1. */
  function Normalize(v: real, gridMax: real): real
  {
    if v > 1.0 && gridMax > 1.0 then v / gridMax else v
  }

  /** `Math.round(Math.min(100, Math.max(0, v * 100)))` */
  function Percent(v: real): (p: int)
    ensures 0 <= p <= 100
    ensures 0.0 <= v <= 1.0 ==> p as real - 0.5 <= v * 100.0 < p as real + 0.5
  {
    Round(Min(100.0, Max(0.0, v * 100.0)))
  }

  /** What `getCloudCoverFromGrid` answers for a non-empty grid. */
  function CoverAt(lat: real, lng: real, cosLat: real, g: CloudGridData): (cover: Option<int>)
    requires Locatable(g)
    ensures cover.None? <==> !(IndexOk(ColumnOf(lng, cosLat, g), g.xdim) && IndexOk(RowOf(lat, g), g.ydim))
    ensures cover.Some? ==> 0 <= cover.value <= 100
  {
    var x, y := ColumnOf(lng, cosLat, g), RowOf(lat, g);
    if !(IndexOk(x, g.xdim) && IndexOk(y, g.ydim)) then None
    else
      var v := CellAt(g.grid, y, x);
      var mx := if v > 1.0 then GridMax(g.grid, Dim(g.ydim), Dim(g.xdim)) else 0.0;
      Some(Percent(Normalize(v, mx)))
  }

  /**
   * `getCloudCoverFromGrid`: no grid or an empty grid gives no answer; a
   * point off the grid gives none either; otherwise the nearest cell,
   * normalised by the grid maximum when above 1, as a whole percentage.
   */
  method GetCloudCoverFromGrid(lat: real, lng: real, cosLat: real, cloudGrid: Option<CloudGridData>) returns (cover: Option<int>)
    requires cloudGrid.Some? ==> Locatable(cloudGrid.value)
    ensures cloudGrid.None? || |cloudGrid.value.grid| == 0 ==> cover.None?
    ensures cloudGrid.Some? && |cloudGrid.value.grid| > 0 ==> cover == CoverAt(lat, lng, cosLat, cloudGrid.value)
  {
    if cloudGrid.None? || |cloudGrid.value.grid| == 0 {
      return None;
    }
    var g := cloudGrid.value;
    var x, y := ColumnOf(lng, cosLat, g), RowOf(lat, g);
    if x < 0 || (g.xdim.Some? && x >= g.xdim.value) || y < 0 || (g.ydim.Some? && y >= g.ydim.value) {
      return None;
    }
    var cloudValue := CellAt(g.grid, y, x);
    var normalized := cloudValue;
    if cloudValue > 1.0 {
      var rows, cols := Dim(g.ydim), Dim(g.xdim);
      var mx := 0.0;
      var i := 0;
      while i < rows
        invariant 0 <= i <= rows
        invariant mx == GridMax(g.grid, i, cols)
      {
        var j := 0;
        while j < cols
          invariant 0 <= j <= cols
          invariant mx == Max(GridMax(g.grid, i, cols), RowMax(g.grid, i, j))
        {
          var v := CellAt(g.grid, i, j);
          if v > mx {
            mx := v;
          }
          j := j + 1;
        }
        i := i + 1;
      }
      if mx > 1.0 && mx > 0.0 {
        normalized := cloudValue / mx;
      }
    }
    return Some(Percent(normalized));
  }

  /** Inside a well-formed grid a value above 1 normalises into (0, 1], so no clamping is needed. */
  lemma NormalizedCellAtMostOne(lat: real, lng: real, cosLat: real, g: CloudGridData)
    requires Locatable(g) && g.xdim.Some? && g.ydim.Some?
    requires IndexOk(ColumnOf(lng, cosLat, g), g.xdim) && IndexOk(RowOf(lat, g), g.ydim)
    requires CellAt(g.grid, RowOf(lat, g), ColumnOf(lng, cosLat, g)) > 1.0
    ensures var v := CellAt(g.grid, RowOf(lat, g), ColumnOf(lng, cosLat, g));
      var n := Normalize(v, GridMax(g.grid, Dim(g.ydim), Dim(g.xdim)));
      0.0 < n <= 1.0
  {
    var x, y := ColumnOf(lng, cosLat, g), RowOf(lat, g);
    GridMaxUpper(g.grid, Dim(g.ydim), Dim(g.xdim), y, x);
    var v, mx := CellAt(g.grid, y, x), GridMax(g.grid, Dim(g.ydim), Dim(g.xdim));
    QuotientAtMostOne(v, mx);
  }

  lemma QuotientAtMostOne(v: real, m: real)
    requires 0.0 < v <= m
    ensures 0.0 < v / m <= 1.0
  {
  }

  // ------------------------------------------------------- light pollution

  datatype LightPollution = LightPollution(level: int, description: string, color: string, score: int)

  /**
   * `estimateLightPollution`: Bortle-like levels 8/7/5/2 for the capital
   * box, the three metro boxes, the mid-city band and elsewhere; the score
   * maps level 1 to 100 and level 9 to 0, rounded.
   */
  function EstimateLightPollution(lat: real, lng: real): (lp: LightPollution)
    ensures lp.level in {8, 7, 5, 2}
    ensures lp.score as real - 0.5 <= 100.0 - ((lp.level - 1) as real / 8.0) * 100.0 < lp.score as real + 0.5
  {
    var p := ObservationTypes.LatLng(lat, lng);
    var level :=
      if ForecastApi.InCapitalBox(p) then 8
      else if ForecastApi.InMetroBox(p) then 7
      else if ForecastApi.InMidCityBand(p) then 5
      else 2;
    var description := if level == 8 then "매우 심각" else if level == 7 then "심각" else if level == 5 then "보통" else "양호";
    var color := if level == 8 then "#ef4444" else if level == 7 then "#f97316" else if level == 5 then "#fbbf24" else "#4ade80";
    LightPollution(level, description, color, Round(100.0 - ((level - 1) as real / 8.0) * 100.0))
  }

  /** The four levels score 13, 25, 50 and 88. */
  lemma LightPollutionScores(lat: real, lng: real)
    ensures var lp := EstimateLightPollution(lat, lng);
      (lp.level == 8 ==> lp.score == 13) && (lp.level == 7 ==> lp.score == 25)
      && (lp.level == 5 ==> lp.score == 50) && (lp.level == 2 ==> lp.score == 88)
  {
  }

  /** The estimate and the forecast tab's light-pollution score draw the same regions. */
  lemma LightPollutionAgreesWithForecast(lat: real, lng: real)
    ensures var level := EstimateLightPollution(lat, lng).level;
      var s := ForecastApi.LightPollutionScore(ObservationTypes.LatLng(lat, lng));
      (level == 8 <==> s == 20) && (level == 7 <==> s == 30) && (level == 5 <==> s == 60) && (level == 2 <==> s == 90)
  {
  }

  // ------------------------------------------------------- observation score

  datatype Breakdown = Breakdown(lightPollution: int, cloudCover: int, humidity: int)

  datatype ObservationScore = ObservationScore(score: int, isGood: bool, breakdown: Breakdown)

  /** Up to 40 points for dark skies: 40/30/20/10/0 at levels up to 2/4/6/8/above. */
  function LightTerm(level: real): (t: real)
    ensures t in {40.0, 30.0, 20.0, 10.0, 0.0}
    ensures t == 0.0 <==> level > 8.0
  {
    if level <= 2.0 then 40.0
    else if level <= 4.0 then 30.0
    else if level <= 6.0 then 20.0
    else if level <= 8.0 then 10.0
    else 0.0
  }

  /** Up to 40 points for a clear sky, linear in the cover and never negative. */
  function CloudTerm(cloudCoverPct: real): (t: real)
    ensures t >= 0.0
    ensures cloudCoverPct >= 0.0 ==> t <= 40.0
    ensures 0.0 <= cloudCoverPct <= 100.0 ==> t == 40.0 - 0.4 * cloudCoverPct
  {
    Max(0.0, 40.0 - (cloudCoverPct / 100.0) * 40.0)
  }

  /** Up to 20 points for dry air: 20/15/10/5/0 with steps above 5/10/15/20 g/m³. */
  function HumidityTerm(absoluteHumidity: real): (t: real)
    ensures t in {20.0, 15.0, 10.0, 5.0, 0.0}
    ensures t == 20.0 <==> absoluteHumidity <= 5.0
    ensures t == 0.0 <==> absoluteHumidity > 20.0
  {
    if absoluteHumidity > 20.0 then 0.0
    else if absoluteHumidity > 15.0 then 5.0
    else if absoluteHumidity > 10.0 then 10.0
    else if absoluteHumidity > 5.0 then 15.0
    else 20.0
  }

  /**
   * `calculateObservationScore`: the rounded sum of the three terms, good
   * from 50, with each term rounded in the breakdown.
   */
  function CalculateObservationScore(lightPollutionLevel: real, cloudCoverPct: real, absoluteHumidity: real): (r: ObservationScore)
    ensures r.score >= 0
    ensures cloudCoverPct >= 0.0 ==> r.score <= 100
    ensures r.isGood <==> r.score >= 50
    ensures r.score as real - 0.5
      <= LightTerm(lightPollutionLevel) + CloudTerm(cloudCoverPct) + HumidityTerm(absoluteHumidity)
      < r.score as real + 0.5
    ensures r.breakdown.lightPollution == Round(LightTerm(lightPollutionLevel))
    ensures r.breakdown.cloudCover == Round(CloudTerm(cloudCoverPct))
    ensures r.breakdown.humidity == Round(HumidityTerm(absoluteHumidity))
  {
    var lp, cloud, hum := LightTerm(lightPollutionLevel), CloudTerm(cloudCoverPct), HumidityTerm(absoluteHumidity);
    var total := Round(lp + cloud + hum);
    ObservationScore(total, total >= 50, Breakdown(Round(lp), Round(cloud), Round(hum)))
  }

  /** More light pollution, more cloud or more water vapour never raise the score. */
  lemma ObservationScoreMonotone(l1: real, c1: real, h1: real, l2: real, c2: real, h2: real)
    requires l1 <= l2 && c1 <= c2 && h1 <= h2
    ensures CalculateObservationScore(l2, c2, h2).score <= CalculateObservationScore(l1, c1, h1).score
  {
    RoundMonotone(LightTerm(l2) + CloudTerm(c2) + HumidityTerm(h2), LightTerm(l1) + CloudTerm(c1) + HumidityTerm(h1));
  }
}
