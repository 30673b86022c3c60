/**
 * Piece geometry as stored in a piece's `geometria_json` dictionary, and the geometric
 * facts shared by the importer, the legacy commands and the requirement calculators:
 * the shoelace sum, extents, the bounding box, and the 90-degree rotation with
 * first-quadrant normalisation.
 */
module Geometry {
  import opened Wrappers

  datatype Point = Point(x: real, y: real)

  /**
   * The keys of a geometry dictionary the core reads; `None` means the key is absent,
   * so `geom.get('halfW', 0)` is `halfW.GetOr(0.0)` and `'halfW' in geom` is `halfW.Some?`.
   */
  datatype Geom = Geom(
    tipo: Option<string>,
    halfW: Option<real>,
    halfH: Option<real>,
    radius: Option<real>,
    pts: Option<seq<Point>>,
    w: Option<real>,
    h: Option<real>)

  /** `{}`: what `p_data.get('geom', {})` gives for a piece without geometry. */
  const EmptyGeom: Geom := Geom(None, None, None, None, None, None, None)

  /** The decimal form of Python's `math.pi`; arithmetic on it is exact real arithmetic here. */
  const Pi: real := 3.141592653589793

  function Abs(r: real): (a: real)
    ensures a >= 0.0 && (a == r || a == -r)
  {
    if r < 0.0 then -r else r
  }

  function Xs(pts: seq<Point>): (s: seq<real>)
    ensures |s| == |pts| && forall i :: 0 <= i < |pts| ==> s[i] == pts[i].x
  {
    seq(|pts|, i requires 0 <= i < |pts| => pts[i].x)
  }

  function Ys(pts: seq<Point>): (s: seq<real>)
    ensures |s| == |pts| && forall i :: 0 <= i < |pts| ==> s[i] == pts[i].y
  {
    seq(|pts|, i requires 0 <= i < |pts| => pts[i].y)
  }

  /** The running minimum, last element compared last (as the importer's loop does it). */
  function Min(s: seq<real>): (m: real)
    requires |s| > 0
    ensures forall i :: 0 <= i < |s| ==> m <= s[i]
    ensures m in s
  {
    if |s| == 1 then s[0]
    else
      var rest := Min(s[..|s| - 1]);
      assert forall i :: 0 <= i < |s| - 1 ==> s[..|s| - 1][i] == s[i];
      if s[|s| - 1] < rest then s[|s| - 1] else rest
  }

  /** Python's `max(xs)`. */
  function Max(s: seq<real>): (m: real)
    requires |s| > 0
    ensures forall i :: 0 <= i < |s| ==> s[i] <= m
    ensures m in s
  {
    if |s| == 1 then s[0]
    else
      var rest := Max(s[..|s| - 1]);
      assert forall i :: 0 <= i < |s| - 1 ==> s[..|s| - 1][i] == s[i];
      if s[|s| - 1] > rest then s[|s| - 1] else rest
  }

  /** An element not greater than any other is the minimum. */
  lemma MinAt(s: seq<real>, k: nat)
    requires k < |s| && forall i :: 0 <= i < |s| ==> s[k] <= s[i]
    ensures Min(s) == s[k]
  {
    var j :| 0 <= j < |s| && s[j] == Min(s);
    assert s[k] <= s[j];
  }

  /** An element not less than any other is the maximum. */
  lemma MaxAt(s: seq<real>, k: nat)
    requires k < |s| && forall i :: 0 <= i < |s| ==> s[i] <= s[k]
    ensures Max(s) == s[k]
  {
    var j :| 0 <= j < |s| && s[j] == Max(s);
    assert s[j] <= s[k];
  }

  /** `max(xs) - min(xs)` */
  function Extent(s: seq<real>): (e: real)
    requires |s| > 0
    ensures e >= 0.0
  {
    Max(s) - Min(s)
  }

  /** One term of the shoelace sum: the edge from vertex i to vertex (i + 1) mod n. */
  function Cross(pts: seq<Point>, i: nat): real
    requires i < |pts|
  {
    var j := (i + 1) % |pts|;
    pts[i].x * pts[j].y - pts[j].x * pts[i].y
  }

  /** The sum of the first k edge terms; `CrossSum(pts, |pts|)` is twice the signed area. */
  function CrossSum(pts: seq<Point>, k: nat): real
    requires k <= |pts|
  {
    if k == 0 then 0.0 else CrossSum(pts, k - 1) + Cross(pts, k - 1)
  }

  /** The shoelace area |Σ (x_i y_j − x_j y_i)| / 2 over the closed vertex cycle. */
  function ShoelaceArea(pts: seq<Point>): (a: real)
    ensures a >= 0.0
  {
    Abs(CrossSum(pts, |pts|)) / 2.0
  }

  /** A polygon with one or two vertices has zero area: its edge terms cancel. */
  lemma DegenerateShoelace(pts: seq<Point>)
    requires |pts| <= 2
    ensures ShoelaceArea(pts) == 0.0
  {
    if |pts| == 1 {
      assert CrossSum(pts, 1) == Cross(pts, 0);
    } else if |pts| == 2 {
      assert CrossSum(pts, 1) == Cross(pts, 0);
      assert CrossSum(pts, 2) == Cross(pts, 0) + Cross(pts, 1);
    }
  }

  /** The 10 x 10 square (0,0),(10,0),(10,10),(0,10) has area 100. */
  lemma SquareArea()
    ensures ShoelaceArea([Point(0.0, 0.0), Point(10.0, 0.0), Point(10.0, 10.0), Point(0.0, 10.0)]) == 100.0
  {
    var sq := [Point(0.0, 0.0), Point(10.0, 0.0), Point(10.0, 10.0), Point(0.0, 10.0)];
    assert Cross(sq, 0) == 0.0;
    assert Cross(sq, 1) == 100.0;
    assert Cross(sq, 2) == 100.0;
    assert Cross(sq, 3) == 0.0;
    assert CrossSum(sq, 4) == 200.0;
  }

  /**
   * The axis-aligned bounding box the calculators derive from stored geometry:
   * rect 2·halfW × 2·halfH, circle 2r × 2r, non-empty polygon the coordinate extents,
   * anything else (unknown type, empty point list) 0 × 0.
   */
  function BBox(g: Geom): (wh: (real, real))
    ensures g.tipo == Some("poly") && g.pts.GetOr([]) != [] ==> wh.0 >= 0.0 && wh.1 >= 0.0
  {
    match g.tipo.GetOr("unknown")
    case "rect" => (g.halfW.GetOr(0.0) * 2.0, g.halfH.GetOr(0.0) * 2.0)
    case "circle" => (g.radius.GetOr(0.0) * 2.0, g.radius.GetOr(0.0) * 2.0)
    case "poly" =>
      var pts := g.pts.GetOr([]);
      if pts != [] then (Extent(Xs(pts)), Extent(Ys(pts))) else (0.0, 0.0)
    case _ => (0.0, 0.0)
  }

  function RotPoint(p: Point): Point {
    Point(p.y, -p.x)
  }

  function Rotated(pts: seq<Point>): (r: seq<Point>)
    ensures |r| == |pts| && forall i :: 0 <= i < |pts| ==> r[i] == RotPoint(pts[i])
  {
    seq(|pts|, i requires 0 <= i < |pts| => RotPoint(pts[i]))
  }

  function Shift(pts: seq<Point>, dx: real, dy: real): (r: seq<Point>)
    ensures |r| == |pts| && forall i :: 0 <= i < |pts| ==> r[i] == Point(pts[i].x - dx, pts[i].y - dy)
  {
    seq(|pts|, i requires 0 <= i < |pts| => Point(pts[i].x - dx, pts[i].y - dy))
  }

  /**
   * Rotation by 90 degrees, (x, y) -> (y, −x), followed by the translation that brings the
   * smallest x and the smallest y of the rotated points to 0.
   */
  function Rotate90(pts: seq<Point>): (r: seq<Point>)
    ensures |r| == |pts|
  {
    if pts == [] then []
    else
      var rot := Rotated(pts);
      Shift(rot, Min(Xs(rot)), Min(Ys(rot)))
  }

  /** After rotation and normalisation every coordinate is >= 0 and both minima are 0. */
  lemma Rotate90Normalised(pts: seq<Point>)
    requires pts != []
    ensures var r := Rotate90(pts);
            (forall i :: 0 <= i < |r| ==> r[i].x >= 0.0 && r[i].y >= 0.0)
            && Min(Xs(r)) == 0.0 && Min(Ys(r)) == 0.0
  {
    ShiftToOrigin(Rotated(pts));
  }

  /** Shifting by the minima puts every point in the first quadrant, touching both axes. */
  lemma ShiftToOrigin(p: seq<Point>)
    requires p != []
    ensures var r := Shift(p, Min(Xs(p)), Min(Ys(p)));
            (forall i :: 0 <= i < |r| ==> r[i].x >= 0.0 && r[i].y >= 0.0)
            && Min(Xs(r)) == 0.0 && Min(Ys(r)) == 0.0
  {
    var xs, ys := Xs(p), Ys(p);
    var mx, my := Min(xs), Min(ys);
    var r := Shift(p, mx, my);
    ShiftCoords(p, mx, my);
    var kx, ky := ArgMin(xs), ArgMin(ys);
    OffsetOrder(xs, mx, ArgMax(xs), kx);
    OffsetOrder(ys, my, ArgMax(ys), ky);
    MinAt(Xs(r), kx);
    MinAt(Ys(r), ky);
  }

  function Neg(s: seq<real>): (r: seq<real>)
    ensures |r| == |s| && forall i {:trigger r[i]} :: 0 <= i < |s| ==> r[i] == -s[i]
  {
    seq(|s|, i requires 0 <= i < |s| => -s[i])
  }

  function Offset(s: seq<real>, d: real): (r: seq<real>)
    ensures |r| == |s| && forall i :: 0 <= i < |s| ==> r[i] == s[i] - d
  {
    seq(|s|, i requires 0 <= i < |s| => s[i] - d)
  }

  /** Where the minimum is. */
  function ArgMin(s: seq<real>): (k: nat)
    requires |s| > 0
    ensures k < |s| && s[k] == Min(s)
  {
    if |s| == 1 then 0
    else if s[|s| - 1] < Min(s[..|s| - 1]) then |s| - 1
    else ArgMin(s[..|s| - 1])
  }

  /** Where the maximum is. */
  function ArgMax(s: seq<real>): (k: nat)
    requires |s| > 0
    ensures k < |s| && s[k] == Max(s)
  {
    if |s| == 1 then 0
    else if s[|s| - 1] > Max(s[..|s| - 1]) then |s| - 1
    else ArgMax(s[..|s| - 1])
  }

  lemma NegBelow(s: seq<real>, k: nat)
    requires k < |s| && forall i :: 0 <= i < |s| ==> s[i] <= s[k]
    ensures forall i :: 0 <= i < |s| ==> Neg(s)[k] <= Neg(s)[i]
  {
  }

  lemma NegMin(s: seq<real>)
    requires |s| > 0
    ensures Min(Neg(s)) == -Max(s)
  {
    var n := Neg(s);
    var k := ArgMax(s);
    NegBelow(s, k);
    MinAt(n, k);
  }

  lemma NegMax(s: seq<real>)
    requires |s| > 0
    ensures Max(Neg(s)) == -Min(s)
  {
    var n := Neg(s);
    var nn := Neg(n);
    assert nn == s;
    NegMin(n);
    assert Min(nn) == -Max(n);
  }

  lemma OffsetExtent(s: seq<real>, d: real)
    requires |s| > 0
    ensures Extent(Offset(s, d)) == Extent(s)
  {
    var o := Offset(s, d);
    var k1 := ArgMax(s);
    var k2 := ArgMin(s);
    OffsetOrder(s, d, k1, k2);
    MaxAt(o, k1);
    MinAt(o, k2);
  }

  lemma OffsetOrder(s: seq<real>, d: real, hi: nat, lo: nat)
    requires hi < |s| && lo < |s|
    requires forall i :: 0 <= i < |s| ==> s[lo] <= s[i] <= s[hi]
    ensures forall i :: 0 <= i < |s| ==> Offset(s, d)[lo] <= Offset(s, d)[i] <= Offset(s, d)[hi]
  {
  }

  lemma RotatedCoords(pts: seq<Point>)
    ensures Xs(Rotated(pts)) == Ys(pts)
    ensures Ys(Rotated(pts)) == Neg(Xs(pts))
  {
  }

  lemma ShiftCoords(pts: seq<Point>, dx: real, dy: real)
    ensures Xs(Shift(pts, dx, dy)) == Offset(Xs(pts), dx)
    ensures Ys(Shift(pts, dx, dy)) == Offset(Ys(pts), dy)
  {
  }

  /** Rotation by 90 degrees swaps the bounding-box width and height. */
  lemma Rotate90SwapsExtents(pts: seq<Point>)
    requires pts != []
    ensures Extent(Xs(Rotate90(pts))) == Extent(Ys(pts))
    ensures Extent(Ys(Rotate90(pts))) == Extent(Xs(pts))
  {
    var rot := Rotated(pts);
    var mx, my := Min(Xs(rot)), Min(Ys(rot));
    // the rotated x's are the original y's; the rotated y's are the negated original x's
    RotatedCoords(pts);
    ShiftCoords(rot, mx, my);
    OffsetExtent(Ys(pts), mx);
    OffsetExtent(Neg(Xs(pts)), my);
    NegMin(Xs(pts));
    NegMax(Xs(pts));
  }
}
