/** Freehand shape detection for the pen (detectFreehandShape, detectCorners).
    The numeric classification (how round, how many corners) rests on the
    floating-point library and is taken as given; what is modelled exactly is
    its guard structure: which strokes can become which shape, and where the
    shape's coordinates come from. */
module Freehand {
  import opened Geometry
  import opened Strokes

  const MinFreehandPoints: nat := 12
  const CloseShare: real := 0.35
  const CircleSpread: real := 0.25
  const TriangleSpread: real := 0.2
  const CornerTurn: real := 0.6
  const CornerGapShare: real := 0.15

  // ---------------------------------------------------------------------------
  // IEEE quotients: the classifier divides by a height and by a mean distance,
  // either of which may be zero.

  datatype Ratio = Num(v: real) | PosInf | NegInf | NaN

  /** a / b with IEEE-754 results for a zero divisor (taken as +0). */
  function Divide(a: real, b: real): (q: Ratio)
    ensures b != 0.0 <==> q.Num?
    ensures q.Num? ==> q.v * b == a
  {
    if b != 0.0 then Num(a / b)
    else if a > 0.0 then PosInf
    else if a < 0.0 then NegInf
    else NaN
  }

  /** q < k; every comparison with NaN is false. */
  predicate Below(q: Ratio, k: real)
  {
    match q
    case Num(v) => v < k
    case NegInf => true
    case _ => false
  }

  /** q > k; every comparison with NaN is false. */
  predicate Above(q: Ratio, k: real)
  {
    match q
    case Num(v) => v > k
    case PosInf => true
    case _ => false
  }

  // ---------------------------------------------------------------------------
  // Corners.

  /** The turn at curr between the incoming and outgoing directions, folded into [0, PI]. */
  function TurnAngle(t: Trig, prev: Point, curr: Point, next: Point): real
  {
    var angle1 := t.atan2(curr.y - prev.y, curr.x - prev.x);
    var angle2 := t.atan2(next.y - curr.y, next.x - curr.x);
    var diff := Abs(angle2 - angle1);
    if diff > t.pi then 2.0 * t.pi - diff else diff
  }

  /** After a corner the scan skips floor(max(8, n / 8) / 2) further points. */
  function SkipAhead(n: nat): int
  {
    (Max(8.0, n as real / 8.0) / 2.0).Floor
  }

  /** A sharp turn three points either side of index i. */
  predicate SharpAt(t: Trig, pts: seq<Point>, i: int)
    requires 3 <= i < |pts| - 3
  {
    TurnAngle(t, pts[i - 3], pts[i], pts[i + 3]) > CornerTurn
  }

  /** The corner scan from index i on, with the corners found so far. */
  function CornersFrom(t: Trig, pts: seq<Point>, maxDim: real, i: int, corners: seq<Point>): seq<Point>
    requires i >= 3
    decreases |pts| - i
  {
    if i >= |pts| - 3 then corners
    else if SharpAt(t, pts, i)
            && (corners == [] || FartherThan(pts[i], corners[|corners| - 1], maxDim * CornerGapShare))
    then CornersFrom(t, pts, maxDim, i + SkipAhead(|pts|) + 1, corners + [pts[i]])
    else CornersFrom(t, pts, maxDim, i + 1, corners)
  }

  function Corners(t: Trig, pts: seq<Point>, maxDim: real): seq<Point>
  {
    CornersFrom(t, pts, maxDim, 3, [])
  }

  /** detectCorners: a scan with a skip-ahead index that appends to a local list. */
  method DetectCorners(t: Trig, pts: seq<Point>, maxDim: real) returns (corners: seq<Point>)
    ensures corners == Corners(t, pts, maxDim)
  {
    corners := [];
    var minSpacing := Max(8.0, |pts| as real / 8.0);
    var i := 3;
    while i < |pts| - 3
      invariant i >= 3
      invariant CornersFrom(t, pts, maxDim, i, corners) == Corners(t, pts, maxDim)
      decreases |pts| - i
    {
      var prev := pts[i - 3];
      var curr := pts[i];
      var next := pts[i + 3];
      var angle1 := t.atan2(curr.y - prev.y, curr.x - prev.x);
      var angle2 := t.atan2(next.y - curr.y, next.x - curr.x);
      var diff := Abs(angle2 - angle1);
      if diff > t.pi {
        diff := 2.0 * t.pi - diff;
      }
      assert diff > CornerTurn <==> SharpAt(t, pts, i);
      assert (minSpacing / 2.0).Floor == SkipAhead(|pts|);
      if diff > CornerTurn {
        if corners == [] || FartherThan(curr, corners[|corners| - 1], maxDim * CornerGapShare) {
          corners := corners + [curr];
          i := i + (minSpacing / 2.0).Floor;
        }
      }
      i := i + 1;
    }
  }

  /** A corner is a point of the stroke, away from its ends, where it turns sharply. */
  ghost predicate IsCornerPoint(t: Trig, pts: seq<Point>, p: Point)
  {
    exists j :: 3 <= j < |pts| - 3 && pts[j] == p && SharpAt(t, pts, j)
  }

  /** What every list of corners satisfies: sharp turns of the stroke, each more
      than 15% of the larger side away from the one before it. */
  ghost predicate GoodCorners(t: Trig, pts: seq<Point>, maxDim: real, c: seq<Point>)
  {
    && (forall k :: 0 <= k < |c| ==> IsCornerPoint(t, pts, c[k]))
    && (forall k :: 0 < k < |c| ==> FartherThan(c[k], c[k - 1], maxDim * CornerGapShare))
  }

  /** The scan only appends to the corners it was given. */
  lemma {:induction false} CornersFromExtends(t: Trig, pts: seq<Point>, maxDim: real, i: int, c: seq<Point>)
    requires i >= 3
    ensures |CornersFrom(t, pts, maxDim, i, c)| >= |c|
    ensures CornersFrom(t, pts, maxDim, i, c)[..|c|] == c
    decreases |pts| - i
  {
    if i < |pts| - 3 {
      var r := CornersFrom(t, pts, maxDim, i, c);
      if SharpAt(t, pts, i) && (c == [] || FartherThan(pts[i], c[|c| - 1], maxDim * CornerGapShare)) {
        var c' := c + [pts[i]];
        CornersFromExtends(t, pts, maxDim, i + SkipAhead(|pts|) + 1, c');
        assert r[..|c|] == r[..|c'|][..|c|];
      } else {
        CornersFromExtends(t, pts, maxDim, i + 1, c);
      }
    }
  }

  /** Every corner the scan appends is a sharp turn spaced from the one before. */
  lemma {:induction false} CornersFromGood(t: Trig, pts: seq<Point>, maxDim: real, i: int, c: seq<Point>)
    requires i >= 3 && GoodCorners(t, pts, maxDim, c)
    ensures GoodCorners(t, pts, maxDim, CornersFrom(t, pts, maxDim, i, c))
    decreases |pts| - i
  {
    if i < |pts| - 3 {
      if SharpAt(t, pts, i) && (c == [] || FartherThan(pts[i], c[|c| - 1], maxDim * CornerGapShare)) {
        var c' := c + [pts[i]];
        assert IsCornerPoint(t, pts, pts[i]);
        assert forall k :: 0 <= k < |c| ==> c'[k] == c[k];
        assert GoodCorners(t, pts, maxDim, c');
        CornersFromGood(t, pts, maxDim, i + SkipAhead(|pts|) + 1, c');
      } else {
        CornersFromGood(t, pts, maxDim, i + 1, c);
      }
    }
  }

  /** The detected corners are sharp turns of the stroke, spaced apart. */
  lemma DetectedCornersAreGood(t: Trig, pts: seq<Point>, maxDim: real)
    ensures GoodCorners(t, pts, maxDim, Corners(t, pts, maxDim))
  {
    CornersFromGood(t, pts, maxDim, 3, []);
  }

  // ---------------------------------------------------------------------------
  // The classifier.

  /** Sum of the distances of the points from c, front to back. */
  function SumDist(t: Trig, pts: seq<Point>, c: Point): real
    decreases |pts|
  {
    if pts == [] then 0.0
    else SumDist(t, pts[..|pts| - 1], c) + t.hypot(pts[|pts| - 1].x - c.x, pts[|pts| - 1].y - c.y)
  }

  /** Sum of the squared deviations of those distances from avg. */
  function SumSqDev(t: Trig, pts: seq<Point>, c: Point, avg: real): real
    decreases |pts|
  {
    if pts == [] then 0.0
    else
      var d := t.hypot(pts[|pts| - 1].x - c.x, pts[|pts| - 1].y - c.y);
      SumSqDev(t, pts[..|pts| - 1], c, avg) + (d - avg) * (d - avg)
  }

  /** The stroke ends close to where it started: within 35% of the box's larger side. */
  predicate IsClosed(pts: seq<Point>)
    requires |pts| > 0
  {
    var e := ExtentOf(pts);
    CloserThan(pts[0], pts[|pts| - 1], Max(e.maxX - e.minX, e.maxY - e.minY) * CloseShare)
  }

  /** The coefficient of variation of the points' distances from the box centre. */
  function Spread(t: Trig, pts: seq<Point>): Ratio
    requires |pts| > 0
  {
    var e := ExtentOf(pts);
    var width, height := e.maxX - e.minX, e.maxY - e.minY;
    var c := Point(e.minX + width / 2.0, e.minY + height / 2.0);
    var n := |pts| as real;
    var avgDist := SumDist(t, pts, c) / n;
    var variance := SumSqDev(t, pts, c, avgDist) / n;
    Divide(t.sqrt(variance), avgDist)
  }

  /** The mean distance of the points from the box centre. */
  function MeanDist(t: Trig, pts: seq<Point>): real
    requires |pts| > 0
  {
    var e := ExtentOf(pts);
    SumDist(t, pts, Point(e.minX + (e.maxX - e.minX) / 2.0, e.minY + (e.maxY - e.minY) / 2.0)) / (|pts| as real)
  }

  /** The decision on a closed stroke, from its box, mean distance, spread and corners. */
  function ClassifyClosed(e: Extent, avgDist: real, cv: Ratio, corners: seq<Point>): Option<ShapeGeom>
  {
    var width, height := e.maxX - e.minX, e.maxY - e.minY;
    var aspect := Divide(width, height);
    if Below(cv, CircleSpread) && Above(aspect, 0.5) && Below(aspect, 2.0) then
      Some(Circle(e.minX + width / 2.0, e.minY + height / 2.0, avgDist))
    else if 2 <= |corners| <= 4 && (|corners| == 3 || (|corners| == 2 && Above(cv, TriangleSpread))) then
      Some(Triangle(corners[0], corners[1], if |corners| > 2 then corners[2] else Point(e.maxX, e.maxY),
                    e.minX, e.minY, width, height))
    else if |corners| >= 4 || Above(cv, CircleSpread) then
      Some(Rectangle(e.minX, e.minY, width, height))
    else if Above(cv, TriangleSpread) then
      Some(Rectangle(e.minX, e.minY, width, height))
    else None
  }

  /** detectFreehandShape: circle, triangle, rectangle or nothing. */
  function FreehandShape(t: Trig, pts: seq<Point>): (r: Option<ShapeGeom>)
    ensures r.Some? ==> |pts| >= MinFreehandPoints && IsClosed(pts)
  {
    if |pts| < MinFreehandPoints then None
    else if !IsClosed(pts) then None
    else
      var e := ExtentOf(pts);
      ClassifyClosed(e, MeanDist(t, pts), Spread(t, pts), Corners(t, pts, Max(e.maxX - e.minX, e.maxY - e.minY)))
  }

  /** The first forEach: the total distance from c. */
  method SumDistances(t: Trig, pts: seq<Point>, c: Point) returns (total: real)
    ensures total == SumDist(t, pts, c)
  {
    total := 0.0;
    var i := 0;
    while i < |pts|
      invariant 0 <= i <= |pts|
      invariant total == SumDist(t, pts[..i], c)
    {
      assert pts[..i + 1][..i] == pts[..i];
      total := total + t.hypot(pts[i].x - c.x, pts[i].y - c.y);
      i := i + 1;
    }
    assert pts[..|pts|] == pts;
  }

  /** The second forEach: the total squared deviation from avg. */
  method SumSquaredDeviations(t: Trig, pts: seq<Point>, c: Point, avg: real) returns (total: real)
    ensures total == SumSqDev(t, pts, c, avg)
  {
    total := 0.0;
    var i := 0;
    while i < |pts|
      invariant 0 <= i <= |pts|
      invariant total == SumSqDev(t, pts[..i], c, avg)
    {
      assert pts[..i + 1][..i] == pts[..i];
      var dist := t.hypot(pts[i].x - c.x, pts[i].y - c.y);
      total := total + (dist - avg) * (dist - avg);
      i := i + 1;
    }
    assert pts[..|pts|] == pts;
  }

  /** detectFreehandShape as the source runs it: the envelope pass, the two
      passes over the distances, then the corner scan. */
  method DetectFreehandShape(t: Trig, pts: seq<Point>) returns (r: Option<ShapeGeom>)
    ensures r == FreehandShape(t, pts)
  {
    if |pts| < MinFreehandPoints {
      return None;
    }
    var start, end := pts[0], pts[|pts| - 1];
    var e := ScanExtent(pts);
    var width, height := e.maxX - e.minX, e.maxY - e.minY;
    var cx, cy := e.minX + width / 2.0, e.minY + height / 2.0;
    var maxDim := Max(width, height);
    if !CloserThan(start, end, maxDim * CloseShare) {
      return None;
    }
    var totalDist := SumDistances(t, pts, Point(cx, cy));
    var avgDist := totalDist / (|pts| as real);
    var variance := SumSquaredDeviations(t, pts, Point(cx, cy), avgDist);
    variance := variance / (|pts| as real);
    var cv := Divide(t.sqrt(variance), avgDist);
    assert avgDist == MeanDist(t, pts) && cv == Spread(t, pts);
    var aspect := Divide(width, height);
    if Below(cv, CircleSpread) && Above(aspect, 0.5) && Below(aspect, 2.0) {
      return Some(Circle(cx, cy, avgDist));
    }
    var corners := DetectCorners(t, pts, maxDim);
    if 2 <= |corners| <= 4 && (|corners| == 3 || (|corners| == 2 && Above(cv, TriangleSpread))) {
      var p3 := if |corners| > 2 then corners[2] else Point(e.maxX, e.maxY);
      r := Some(Triangle(corners[0], corners[1], p3, e.minX, e.minY, width, height));
    } else if |corners| >= 4 || Above(cv, CircleSpread) {
      r := Some(Rectangle(e.minX, e.minY, width, height));
    } else if Above(cv, TriangleSpread) {
      r := Some(Rectangle(e.minX, e.minY, width, height));
    } else {
      r := None;
    }
    assert r == ClassifyClosed(e, avgDist, cv, corners);
  }

  // ---------------------------------------------------------------------------
  // What the detected shapes are.

  /** Fewer than twelve points, or an open stroke, is never a shape. */
  lemma FreehandGuards(t: Trig, pts: seq<Point>)
    ensures |pts| < MinFreehandPoints ==> FreehandShape(t, pts) == None
    ensures |pts| > 0 && !IsClosed(pts) ==> FreehandShape(t, pts) == None
  {
  }

  /** A detected rectangle is the stroke's bounding box; a detected circle sits at
      its centre; a detected triangle caches the bounding box and its first two
      vertices (all three when three corners were found) are corners of the stroke. */
  lemma FreehandShapeGeometry(t: Trig, pts: seq<Point>)
    requires FreehandShape(t, pts).Some?
    ensures var g := FreehandShape(t, pts).value;
      var e := ExtentOf(pts);
      && (g.Rectangle? || g.Circle? || g.Triangle?)
      && (g.Rectangle? ==> g == Rectangle(e.minX, e.minY, e.maxX - e.minX, e.maxY - e.minY))
      && (g.Circle? ==> g.cx == (e.minX + e.maxX) / 2.0 && g.cy == (e.minY + e.maxY) / 2.0)
      && (g.Triangle? ==>
            && g.x == e.minX && g.y == e.minY && g.w == e.maxX - e.minX && g.h == e.maxY - e.minY
            && IsCornerPoint(t, pts, g.p1) && IsCornerPoint(t, pts, g.p2)
            && (IsCornerPoint(t, pts, g.p3) || g.p3 == Point(e.maxX, e.maxY)))
  {
    var e := ExtentOf(pts);
    var maxDim := Max(e.maxX - e.minX, e.maxY - e.minY);
    DetectedCornersAreGood(t, pts, maxDim);
  }

  /** A triangle comes only from three corners, or from two when the distances spread by more than 0.2. */
  lemma TriangleNeedsThreeOrTwoCorners(t: Trig, pts: seq<Point>)
    requires FreehandShape(t, pts).Some? && FreehandShape(t, pts).value.Triangle?
    ensures var e := ExtentOf(pts);
      var k := |Corners(t, pts, Max(e.maxX - e.minX, e.maxY - e.minY))|;
      k == 3 || (k == 2 && Above(Spread(t, pts), TriangleSpread))
  {
  }
}
