/**
 * The cloud heat map (lib/cloudHeatmap.ts): the three colour scales and the
 * cells `createCloudHeatmap` paints.  A colour is its four `rgba`
 * components; the CSS text they are written into and the canvas itself
 * are not modelled.
 */
module CloudHeatmap {
  import opened Js

  datatype Rgba = Rgba(r: real, g: real, b: real, a: real)

  // -------------------------------------------------------- default scale

  /**
   * `defaultCloudColorScale`: transparent white up to 0, a fixed grey-blue
   * from 1 on, and in between an opacity of 0.9·value with a brightness
   * falling from 255 towards 200 (the floor of 200 is never reached there)
   * and a blue 20 above it.
   */
  function DefaultCloudColor(value: real): (c: Rgba)
    ensures value <= 0.0 ==> c == Rgba(255.0, 255.0, 255.0, 0.0)
    ensures value >= 1.0 ==> c == Rgba(200.0, 200.0, 220.0, 0.9)
    ensures 0.0 < value < 1.0 ==>
      c.a == value * 0.9 && 0.0 < c.a < 0.9
      && c.r == c.g && c.b == c.r + 20.0 && 200.0 < c.r < 255.0
      && c.r == 255.0 - value * 55.0
  {
    if value <= 0.0 then Rgba(255.0, 255.0, 255.0, 0.0)
    else if value >= 1.0 then Rgba(200.0, 200.0, 220.0, 0.9)
    else
      var brightness := Max(200.0, 255.0 - value * 55.0);
      Rgba(brightness, brightness, brightness + 20.0, value * 0.9)
  }

  /** The brighter the value, the more opaque and the darker, up to the fixed colour at 1. */
  lemma DefaultDarkens(v: real, w: real)
    requires 0.0 < v <= w
    ensures DefaultCloudColor(v).a <= DefaultCloudColor(w).a
    ensures DefaultCloudColor(w).r <= DefaultCloudColor(v).r
  {
  }

  // --------------------------------------------------------- aurora scale

  /**
   * `auroraColorScale`: transparent up to 0; blue fading in below 0.3 (alpha
   * 0.7·value/0.3); from 0.3 a purple whose red rises from 100 and green
   * falls from 150 at alpha 0.8; from 0.7 a pink at alpha 0.9 whose red
   * rises from 200, green from 50 and blue falls from 255.  Above 1 the pink
   * keeps extrapolating: red passes 255.
   */
  function AuroraColor(value: real): (c: Rgba)
    ensures value <= 0.0 ==> c == Rgba(0.0, 0.0, 0.0, 0.0)
    ensures 0.0 < value < 0.3 ==> c.r == 100.0 && c.g == 150.0 && c.b == 255.0 && 0.0 < c.a < 0.7
    ensures 0.3 <= value < 0.7 ==> c.a == 0.8 && c.b == 255.0 && 100.0 <= c.r < 200.0 && 50.0 < c.g <= 150.0
    ensures 0.7 <= value <= 1.0 ==>
      c.a == 0.9 && 200.0 <= c.r <= 255.0 && 50.0 <= c.g <= 150.0 && 155.0 <= c.b <= 255.0
    ensures value > 1.0 ==> c.a == 0.9 && c.r > 255.0
  {
    if value <= 0.0 then Rgba(0.0, 0.0, 0.0, 0.0)
    else if value < 0.3 then
      var alpha := value / 0.3;
      Rgba(100.0, 150.0, 255.0, alpha * 0.7)
    else if value < 0.7 then
      var t := (value - 0.3) / 0.4;
      Rgba(100.0 + t * 100.0, 150.0 - t * 100.0, 255.0, 0.8)
    else
      var t := (value - 0.7) / 0.3;
      Rgba(200.0 + t * 55.0, 50.0 + t * 100.0, 255.0 - t * 100.0, 0.9)
  }

  // ---------------------------------------------------------- meteo scale

  datatype Stop = Stop(v: real, r: real, g: real, b: real, a: real)

  /** Sky blue, green, yellow, orange and red at 0.03, 0.2, 0.5, 0.8 and 1. */
  const Stops: seq<Stop> := [
    Stop(0.03, 80.0, 180.0, 255.0, 0.7), Stop(0.2, 0.0, 220.0, 100.0, 0.8), Stop(0.5, 255.0, 230.0, 0.0, 0.85),
    Stop(0.8, 255.0, 140.0, 0.0, 0.9), Stop(1.0, 255.0, 40.0, 40.0, 1.0)]

  const Transparent := Rgba(0.0, 0.0, 0.0, 0.0)

  /** The first stop interval holding the value, or −1 when none does. */
  function Interval(value: real): (k: int)
    ensures -1 <= k < |Stops| - 1
    ensures k >= 0 ==> Stops[k].v <= value <= Stops[k + 1].v
    ensures k >= 0 ==> forall i :: 0 <= i < k ==> !(Stops[i].v <= value <= Stops[i + 1].v)
    ensures k == -1 <==> value < Stops[0].v || value > Stops[|Stops| - 1].v
  {
    if 0.03 <= value <= 0.2 then 0
    else if 0.2 <= value <= 0.5 then 1
    else if 0.5 <= value <= 0.8 then 2
    else if 0.8 <= value <= 1.0 then 3
    else -1
  }

  /**
   * The colour between two stops: `t` is the value's position from the
   * lower stop, a zero span counting as 1, clamped to [0, 1]; the channels
   * are rounded, the alpha is not.
   */
  function Blend(lower: Stop, upper: Stop, value: real): (c: Rgba)
  {
    var t := Position(lower, upper, value);
    Rgba(Round(Lerp(lower.r, upper.r, t)) as real, Round(Lerp(lower.g, upper.g, t)) as real,
         Round(Lerp(lower.b, upper.b, t)) as real, Lerp(lower.a, upper.a, t))
  }

  /** `t`: the clamped position of the value from the lower stop, a zero span counting as 1. */
  function Position(lower: Stop, upper: Stop, value: real): (t: real)
    ensures 0.0 <= t <= 1.0
    ensures lower.v < upper.v && value >= upper.v ==> t == 1.0
  {
    var span := if upper.v - lower.v != 0.0 then upper.v - lower.v else 1.0;
    QuotientAtLeastOne(value - lower.v, span);
    Clamp((value - lower.v) / span, 0.0, 1.0)
  }

  lemma QuotientAtLeastOne(a: real, b: real)
    ensures 0.0 < b <= a ==> a / b >= 1.0
  {
    if 0.0 < b <= a {
      assert a / b * b == a;
    }
  }

  function Lerp(p: real, q: real, t: real): real
  {
    p + (q - p) * t
  }

  /** The meteorological scale: transparent up to 0.03, else the blend in the value's interval. */
  function MeteoColor(value: real): Rgba
  {
    if value <= 0.03 then Transparent
    else
      var k := Interval(value);
      if k >= 0 then Blend(Stops[k], Stops[k + 1], value) else Blend(Stops[0], Stops[|Stops| - 1], value)
  }

  /**
   * `meteoCloudColorScale`: the loop stops at the first interval holding
   * the value; when none does the pair is the first and last stop.
   */
  method MeteoCloudColorScale(value: real) returns (c: Rgba)
    ensures c == MeteoColor(value)
  {
    if value <= 0.03 {
      return Transparent;
    }
    var lower, upper := Stops[0], Stops[|Stops| - 1];
    var i := 0;
    while i < |Stops| - 1
      invariant 0 <= i <= |Stops| - 1
      invariant forall k :: 0 <= k < i ==> !(Stops[k].v <= value <= Stops[k + 1].v)
      invariant lower == Stops[0] && upper == Stops[|Stops| - 1]
    {
      if value >= Stops[i].v && value <= Stops[i + 1].v {
        lower, upper := Stops[i], Stops[i + 1];
        break;
      }
      i := i + 1;
    }
    c := Blend(lower, upper, value);
  }

  /** At each stop after the first the scale gives exactly that stop's colour. */
  lemma MeteoAtStop(k: nat)
    requires 1 <= k < |Stops|
    ensures MeteoColor(Stops[k].v) == Rgba(Stops[k].r, Stops[k].g, Stops[k].b, Stops[k].a)
  {
    assert Interval(Stops[k].v) == k - 1;
    var lower, upper := Stops[k - 1], Stops[k];
    assert Position(lower, upper, upper.v) == 1.0;
    assert upper.r.Floor as real == upper.r && upper.g.Floor as real == upper.g && upper.b.Floor as real == upper.b;
  }

  /** The first stop itself is cut off as noise. */
  lemma MeteoNoiseFloor()
    ensures MeteoColor(Stops[0].v) == Transparent
  {
  }

  /** Above 1 the pair falls back to the first and last stop, `t` clamps to 1, and the colour is the last stop's red. */
  lemma MeteoAboveOne(value: real)
    requires value > 1.0
    ensures MeteoColor(value) == Rgba(255.0, 40.0, 40.0, 1.0)
  {
    assert Interval(value) == -1;
    assert Position(Stops[0], Stops[4], value) == 1.0;
  }

  /** Inside an interval every channel lies between the two stops' channels. */
  lemma MeteoBetweenStops(value: real)
    requires 0.03 < value <= 1.0
    ensures var k := Interval(value);
      k >= 0
      && Between(MeteoColor(value).r, Stops[k].r, Stops[k + 1].r)
      && Between(MeteoColor(value).g, Stops[k].g, Stops[k + 1].g)
      && Between(MeteoColor(value).b, Stops[k].b, Stops[k + 1].b)
      && Between(MeteoColor(value).a, Stops[k].a, Stops[k + 1].a)
  {
    var k := Interval(value);
    var lower, upper := Stops[k], Stops[k + 1];
    var t := Position(lower, upper, value);
    assert lower.r.Floor as real == lower.r && lower.g.Floor as real == lower.g && lower.b.Floor as real == lower.b;
    assert upper.r.Floor as real == upper.r && upper.g.Floor as real == upper.g && upper.b.Floor as real == upper.b;
    RoundedLerpBetween(lower.r, upper.r, t);
    RoundedLerpBetween(lower.g, upper.g, t);
    RoundedLerpBetween(lower.b, upper.b, t);
    LerpBetween(lower.a, upper.a, t);
  }

  predicate Between(x: real, p: real, q: real)
  {
    Min(p, q) <= x <= Max(p, q)
  }

  lemma LerpBetween(p: real, q: real, t: real)
    requires 0.0 <= t <= 1.0
    ensures Between(Lerp(p, q, t), p, q)
  {
    if p <= q {
      ScaleDown(q - p, t);
      assert p <= Lerp(p, q, t) <= q;
    } else {
      ScaleDown(p - q, t);
      assert (q - p) * t == -((p - q) * t);
      assert q <= Lerp(p, q, t) <= p;
    }
  }

  lemma ScaleDown(d: real, t: real)
    requires d >= 0.0 && 0.0 <= t <= 1.0
    ensures 0.0 <= d * t <= d
  {
    assert d * (1.0 - t) >= 0.0;
  }

  /** Rounding a blend of two whole channels stays between them. */
  lemma RoundedLerpBetween(p: real, q: real, t: real)
    requires 0.0 <= t <= 1.0 && p.Floor as real == p && q.Floor as real == q
    ensures Between(Round(Lerp(p, q, t)) as real, p, q)
  {
    LerpBetween(p, q, t);
    RoundWithin(Lerp(p, q, t), Min(p, q).Floor, Max(p, q).Floor);
  }

  // -------------------------------------------------------------- drawing

  /**
   * `normalize`: the value's position between the grid's bounds, or 0 when
   * the bounds are less than 0.01 apart.
   */
  function Normalize(v: real, gridMin: real, gridMax: real): (n: real)
    ensures gridMax - gridMin < 0.01 ==> n == 0.0
    ensures gridMax - gridMin >= 0.01 && gridMin <= v <= gridMax ==> 0.0 <= n <= 1.0
  {
    if gridMax - gridMin < 0.01 then 0.0
    else
      assert (v - gridMin) <= (gridMax - gridMin) ==> (v - gridMin) / (gridMax - gridMin) <= 1.0;
      (v - gridMin) / (gridMax - gridMin)
  }

  /** `createCloudHeatmap` fixes the bounds at 1 and 0 before any cell is read, so every value normalises to 0. */
  lemma NormalizeAlwaysZero(v: real)
    ensures Normalize(v, HeatmapMin, HeatmapMax) == 0.0
  {
  }

  const HeatmapMin := 1.0
  const HeatmapMax := 0.0

  /** Widening the bounds `(min, max)` by a positive value; other values leave them alone. */
  function Widen(b: (real, real), v: real): (w: (real, real))
    ensures w.0 <= b.0 && b.1 <= w.1
    ensures v > 0.0 ==> w.0 <= v <= w.1
  {
    if v <= 0.0 then b else (Min(b.0, v), Max(b.1, v))
  }

  /** The bounds after the first `cols` cells of row `y`, starting from `b`. */
  function RowBounds(grid: seq<seq<real>>, y: nat, cols: nat, b: (real, real)): (w: (real, real))
    ensures w.0 <= b.0 && b.1 <= w.1
  {
    if cols == 0 then b else Widen(RowBounds(grid, y, cols - 1, b), Raw(grid, cols - 1, y))
  }

  /**
   * The bounds the statistics `min = 1, max = 0` were evidently meant to
   * collect before `normalize` reads them: the least and greatest positive
   * cell of the first `rows` rows and `cols` columns, widened from 1 and 0.
   */
  function GridBounds(grid: seq<seq<real>>, rows: nat, cols: nat): (b: (real, real))
    ensures b.0 <= HeatmapMin && HeatmapMax <= b.1
  {
    if rows == 0 then (HeatmapMin, HeatmapMax) else RowBounds(grid, rows - 1, cols, GridBounds(grid, rows - 1, cols))
  }

  /** Every positive cell of a row lies within the row's bounds. */
  lemma {:induction false} RowBoundsHold(grid: seq<seq<real>>, y: nat, cols: nat, b: (real, real), x: nat)
    requires x < cols && Raw(grid, x, y) > 0.0
    ensures var w := RowBounds(grid, y, cols, b); w.0 <= Raw(grid, x, y) <= w.1
  {
    if x < cols - 1 {
      RowBoundsHold(grid, y, cols - 1, b, x);
    }
  }

  /** Every positive scanned cell lies within the grid bounds. */
  lemma {:induction false} GridBoundsHold(grid: seq<seq<real>>, rows: nat, cols: nat, y: nat, x: nat)
    requires y < rows && x < cols && Raw(grid, x, y) > 0.0
    ensures var b := GridBounds(grid, rows, cols); b.0 <= Raw(grid, x, y) <= b.1
  {
    if y < rows - 1 {
      GridBoundsHold(grid, rows - 1, cols, y, x);
    } else {
      RowBoundsHold(grid, y, cols, GridBounds(grid, rows - 1, cols), x);
    }
  }

  /** With the collected bounds, every painted cell normalises into [0, 1]. */
  lemma NormalizeWithGridBounds(grid: seq<seq<real>>, rows: nat, cols: nat, y: nat, x: nat)
    requires y < rows && x < cols && Raw(grid, x, y) > 0.0
    ensures var b := GridBounds(grid, rows, cols); 0.0 <= Normalize(Raw(grid, x, y), b.0, b.1) <= 1.0
  {
    GridBoundsHold(grid, rows, cols, y, x);
  }

  /** On a grid of 1 and 2 the collected bounds spread the cells over [0, 1], where the fixed bounds give 0. */
  lemma NormalizeSpreadsCells()
    ensures GridBounds([[1.0, 2.0]], 1, 2) == (1.0, 2.0)
    ensures Normalize(2.0, 1.0, 2.0) == 1.0 && Normalize(2.0, HeatmapMin, HeatmapMax) == 0.0
  {
    assert Raw([[1.0, 2.0]], 0, 0) == 1.0;
    assert Raw([[1.0, 2.0]], 1, 0) == 2.0;
  }

  /** `data.grid[y]?.[x] || 0`: a missing row or cell reads as 0. */
  function Raw(grid: seq<seq<real>>, x: nat, y: nat): real
  {
    if y < |grid| && x < |grid[y]| then grid[y][x] else 0.0
  }

  datatype Fill = Fill(x: nat, y: nat, color: Rgba)

  /** Row-major order of cells. */
  predicate Before(p: Fill, q: Fill)
  {
    p.y < q.y || (p.y == q.y && p.x < q.x)
  }

  /**
   * The painting loop of `createCloudHeatmap`: row by row, the cells with
   * a positive value are filled, each with the colour of the normalised
   * value, which is always the colour of 0.  Every cell with a positive
   * value is painted, none other is, and each once, in row-major order.
   */
  method PaintCells(grid: seq<seq<real>>, xdim: nat, ydim: nat, colorScale: real -> Rgba) returns (fills: seq<Fill>)
    ensures forall f :: f in fills ==> f.x < xdim && f.y < ydim && Raw(grid, f.x, f.y) > 0.0 && f.color == colorScale(0.0)
    ensures forall x, y :: 0 <= x < xdim && 0 <= y < ydim && Raw(grid, x, y) > 0.0 ==> Fill(x, y, colorScale(0.0)) in fills
    ensures forall i, j :: 0 <= i < j < |fills| ==> Before(fills[i], fills[j])
  {
    fills := [];
    var y := 0;
    while y < ydim
      invariant 0 <= y <= ydim
      invariant forall f :: f in fills ==> f.x < xdim && f.y < y && Raw(grid, f.x, f.y) > 0.0 && f.color == colorScale(0.0)
      invariant forall x', y' :: 0 <= x' < xdim && 0 <= y' < y && Raw(grid, x', y') > 0.0 ==> Fill(x', y', colorScale(0.0)) in fills
      invariant forall i, j :: 0 <= i < j < |fills| ==> Before(fills[i], fills[j])
    {
      var x := 0;
      while x < xdim
        invariant 0 <= x <= xdim
        invariant forall f :: f in fills ==>
          (f.x < xdim && Raw(grid, f.x, f.y) > 0.0 && f.color == colorScale(0.0) && (f.y < y || (f.y == y && f.x < x)))
        invariant forall x', y' :: 0 <= x' < xdim && 0 <= y' < y && Raw(grid, x', y') > 0.0 ==> Fill(x', y', colorScale(0.0)) in fills
        invariant forall x' :: 0 <= x' < x && Raw(grid, x', y) > 0.0 ==> Fill(x', y, colorScale(0.0)) in fills
        invariant forall i, j :: 0 <= i < j < |fills| ==> Before(fills[i], fills[j])
      {
        var raw := Raw(grid, x, y);
        if raw > 0.0 {
          var value := Normalize(raw, HeatmapMin, HeatmapMax);
          fills := fills + [Fill(x, y, colorScale(value))];
        }
        x := x + 1;
      }
      y := y + 1;
    }
  }
}
