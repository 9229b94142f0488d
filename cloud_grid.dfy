/**
 * The GK2A cloud grid shared by the weather cache (lib/weatherCache.ts) and
 * the cloud-grid route (app/api/satellite/cloud-grid/route.ts): its record,
 * and the loop that folds the flat, comma-separated value list into rows.
 */
module CloudGrid {
  import opened Js
  import opened Text

  /**
   * `CloudGridData`.  The metadata comes from `parseFloat`/`parseInt`, so a
   * field is `None` when the text did not parse (NaN).
   */
  datatype CloudGridData = CloudGridData(
    dateTime: Option<string>,
    gridKm: Option<real>,
    xdim: Option<int>,
    ydim: Option<int>,
    x0: Option<real>,
    y0: Option<real>,
    grid: seq<seq<real>>,
    totalPoints: nat,
    fetchedAt: int)

  /** How many times `for (let i = 0; i < d; i++)` runs: none for NaN or d <= 0. */
  function Dim(d: Option<int>): (n: nat)
    ensures d.Some? && d.value > 0 ==> n == d.value
    ensures d.None? || d.value <= 0 ==> n == 0
  {
    if d.Some? && d.value > 0 then d.value else 0
  }

  /** `values[idx] || 0`: past the end, NaN and zero all read as 0. */
  function FlatCell(values: seq<Option<real>>, idx: int): (v: real)
    ensures 0 <= idx < |values| && values[idx].Some? ==> v == values[idx].value
    ensures !(0 <= idx < |values|) || values[idx].None? ==> v == 0.0
  {
    if 0 <= idx < |values| then OrNum(values[idx], 0.0) else 0.0
  }

  /** `parseFloat(v.trim())` for every comma-separated piece of the value text. */
  function ParseValues(valueText: string, parseFloat: string -> Option<real>): (values: seq<Option<real>>)
    ensures |values| == |Split(valueText, ',')| >= 1
  {
    var pieces := Split(valueText, ',');
    seq(|pieces|, i requires 0 <= i < |pieces| => parseFloat(Trim(pieces[i])))
  }

  /**
   * The reshape loop: `ydim` rows of `xdim` cells, row-major, cell
   * `(y, x)` taken from flat position `y * xdim + x`.
   */
  method Reshape(values: seq<Option<real>>, xdim: Option<int>, ydim: Option<int>) returns (grid: seq<seq<real>>)
    ensures |grid| == Dim(ydim)
    ensures forall y :: 0 <= y < |grid| ==> |grid[y]| == Dim(xdim)
    ensures forall y, x :: 0 <= y < |grid| && 0 <= x < |grid[y]| ==>
      grid[y][x] == FlatCell(values, y * Dim(xdim) + x)
  {
    var width, height := Dim(xdim), Dim(ydim);
    grid := [];
    var y := 0;
    while y < height
      invariant 0 <= y <= height && |grid| == y
      invariant forall i :: 0 <= i < y ==> |grid[i]| == width
      invariant forall i, j :: 0 <= i < y && 0 <= j < width ==> grid[i][j] == FlatCell(values, i * width + j)
    {
      var row: seq<real> := [];
      var x := 0;
      while x < width
        invariant 0 <= x <= width && |row| == x
        invariant forall j :: 0 <= j < x ==> row[j] == FlatCell(values, y * width + j)
      {
        row := row + [FlatCell(values, y * width + x)];
        x := x + 1;
      }
      grid := grid + [row];
      y := y + 1;
    }
  }

  /** The cell `grid[y]?.[x] ?? 0`: a missing row or column reads as 0. */
  function CellAt(grid: seq<seq<real>>, y: int, x: int): (v: real)
    ensures 0 <= y < |grid| && 0 <= x < |grid[y]| ==> v == grid[y][x]
    ensures !(0 <= y < |grid| && 0 <= x < |grid[y]|) ==> v == 0.0
  {
    if 0 <= y < |grid| && 0 <= x < |grid[y]| then grid[y][x] else 0.0
  }
}
