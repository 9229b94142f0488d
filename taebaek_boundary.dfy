/**
 * The Taebaek city outline (data/taebaekBoundary.ts): the boundary constant
 * and the ray-casting point-in-polygon test the map uses to decide whether
 * a click falls inside it.
 */
module TaebaekBoundary {

  datatype Vertex = Vertex(lat: real, lng: real)

  /** `TAEBEAK_BOUNDARY`: an approximate outline, clockwise, in WGS84 degrees. */
  const Boundary: seq<Vertex> := [
    Vertex(37.2545, 128.9042), Vertex(37.2413, 128.9507), Vertex(37.2302, 128.9901), Vertex(37.2174, 129.0278),
    Vertex(37.1982, 129.0604), Vertex(37.1763, 129.0832), Vertex(37.1504, 129.0919), Vertex(37.1218, 129.0796),
    Vertex(37.1039, 129.0512), Vertex(37.0911, 129.0127), Vertex(37.0817, 128.9684), Vertex(37.0792, 128.9208),
    Vertex(37.0859, 128.8746), Vertex(37.1017, 128.8341), Vertex(37.1269, 128.8076), Vertex(37.1563, 128.7943),
    Vertex(37.1865, 128.7962), Vertex(37.2144, 128.8119), Vertex(37.2362, 128.8384), Vertex(37.2507, 128.8748)]

  /** The outline has twenty vertices, all between 37.07 and 37.26 degrees north. */
  lemma BoundaryShape()
    ensures |Boundary| == 20
    ensures forall k :: 0 <= k < |Boundary| ==> 37.07 < Boundary[k].lat < 37.26
  {
  }

  /** The vertex paired with vertex `i`: its predecessor, the last one for the first. */
  function Pred(n: nat, i: nat): (j: nat)
    requires i < n
    ensures j < n
    ensures i > 0 ==> j == i - 1
    ensures i == 0 ==> j == n - 1
  {
    if i == 0 then n - 1 else i - 1
  }

  /**
   * `lng < num / den + x` in floating point, where a zero denominator makes
   * the quotient +Infinity, −Infinity or NaN by the sign of the numerator.
   */
  predicate WestOf(lng: real, num: real, den: real, x: real)
  {
    if den != 0.0 then lng < num / den + x else num > 0.0
  }

  /**
   * Whether the edge between vertex `i` and its predecessor `j` toggles the
   * answer: its ends lie strictly on opposite sides of the point's latitude
   * (so a horizontal edge never does), and the point lies west of where the
   * edge meets that latitude.  The source adds 1e-7 to the denominator.
   */
  predicate Crosses(a: Vertex, b: Vertex, lat: real, lng: real)
  {
    (a.lat > lat) != (b.lat > lat)
    && WestOf(lng, Numerator(a, b, lat), Denominator(a, b), a.lng)
  }

  /** The two halves of the crossing's offset from `a` along the parallel `lat`. */
  function Numerator(a: Vertex, b: Vertex, lat: real): real { (b.lng - a.lng) * (lat - a.lat) }
  function Denominator(a: Vertex, b: Vertex): real { b.lat - a.lat + 0.0000001 }

  /** The number of crossing edges among the edges of the first `k` vertices. */
  function CrossCount(poly: seq<Vertex>, lat: real, lng: real, k: nat): (c: nat)
    requires k <= |poly|
    ensures c <= k
  {
    if k == 0 then 0
    else CrossCount(poly, lat, lng, k - 1) + (if Crosses(poly[k - 1], poly[Pred(|poly|, k - 1)], lat, lng) then 1 else 0)
  }

  /**
   * `isPointInPolygon`: each vertex `i` is paired with its predecessor, the
   * first with the last, so the ring closes by itself; every crossing edge
   * flips the answer, and the point is inside when an odd number of edges
   * cross.  An empty polygon contains nothing.
   */
  method IsPointInPolygon(lat: real, lng: real, poly: seq<Vertex>) returns (inside: bool)
    ensures inside <==> CrossCount(poly, lat, lng, |poly|) % 2 == 1
    ensures |poly| == 0 ==> !inside
  {
    inside := false;
    var i := 0;
    var j := |poly| - 1;
    while i < |poly|
      invariant 0 <= i <= |poly|
      invariant i < |poly| ==> j == Pred(|poly|, i)
      invariant inside <==> CrossCount(poly, lat, lng, i) % 2 == 1
    {
      var xi, yi := poly[i].lng, poly[i].lat;
      var yj := poly[j].lat;
      var num, den := Numerator(poly[i], poly[j], lat), Denominator(poly[i], poly[j]);
      var intersect := (yi > lat) != (yj > lat) && (if den != 0.0 then lng < num / den + xi else num > 0.0);
      if intersect {
        inside := !inside;
      }
      j := i;
      i := i + 1;
    }
  }

  /** No edge crosses a latitude that every vertex lies below: such a point is outside. */
  lemma {:induction false} NorthOfAllIsOutside(poly: seq<Vertex>, lat: real, lng: real, k: nat)
    requires k <= |poly|
    requires forall v :: v in poly ==> v.lat <= lat
    ensures CrossCount(poly, lat, lng, k) == 0
  {
    if k > 0 {
      NorthOfAllIsOutside(poly, lat, lng, k - 1);
      assert poly[k - 1] in poly;
      assert poly[Pred(|poly|, k - 1)] in poly;
    }
  }

  /** A point north of the whole outline is outside Taebaek. */
  lemma NorthOfTaebaek(lat: real, lng: real)
    requires lat >= 37.26
    ensures CrossCount(Boundary, lat, lng, |Boundary|) % 2 == 0
  {
    BoundaryShape();
    NorthOfAllIsOutside(Boundary, lat, lng, |Boundary|);
  }

  /** An edge whose ends share a latitude never crosses. */
  lemma HorizontalEdgeNeverCrosses(a: Vertex, b: Vertex, lat: real, lng: real)
    requires a.lat == b.lat
    ensures !Crosses(a, b, lat, lng)
  {
  }
}
