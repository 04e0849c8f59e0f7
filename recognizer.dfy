/** Shape construction from a drawn polyline (recognizeShape). The shape tools
    turn the points of one drag into one shape; the pen turns a nearly straight
    stroke into a line; every other tool recognises nothing. */
module Recognizer {
  import opened Geometry
  import opened Strokes

  /** A pen stroke becomes a line when its chord is more than this share of its length. */
  const StraightShare: real := 0.85

  function Dist(t: Trig, a: Point, b: Point): real
  {
    t.hypot(a.x - b.x, a.y - b.y)
  }

  /** The length of the polyline: the sum of its segment lengths, front to back. */
  function PathLength(t: Trig, pts: seq<Point>): real
    decreases |pts|
  {
    if |pts| <= 1 then 0.0
    else PathLength(t, pts[..|pts| - 1]) + Dist(t, pts[|pts| - 2], pts[|pts| - 1])
  }

  /** Line snapping: within 15 degrees (PI / 12) of horizontal or vertical, the
      end is moved onto that axis through the start, at the same distance. */
  function SnappedEnd(t: Trig, start: Point, end: Point): Point
  {
    var angle := t.atan2(end.y - start.y, end.x - start.x);
    var dist := t.hypot(end.x - start.x, end.y - start.y);
    var threshold := t.pi / 12.0;
    if Abs(angle) < threshold || Abs(angle - t.pi) < threshold || Abs(angle + t.pi) < threshold then
      Point(start.x + (if end.x > start.x then dist else -dist), start.y)
    else if Abs(angle - t.pi / 2.0) < threshold || Abs(angle + t.pi / 2.0) < threshold then
      Point(start.x, start.y + (if end.y > start.y then dist else -dist))
    else end
  }

  /** Half the base of a dragged triangle: the unit perpendicular to the drag
      (zero for a drag of no length) times half the drag's length. */
  function HalfBaseOffset(dx: real, dy: real, length: real): Point
  {
    var perpX := if length == 0.0 then 0.0 else -dy / length;
    var perpY := if length == 0.0 then 0.0 else dx / length;
    var baseHalf := length * 0.5;
    Point(perpX * baseHalf, perpY * baseHalf)
  }

  /** The triangle tool: apex at the start, base centred on the end, perpendicular
      to the drag and as wide as the drag is long; the drag's box is cached. */
  function DragTriangle(t: Trig, pts: seq<Point>): ShapeGeom
    requires |pts| > 0
  {
    var start, end := pts[0], pts[|pts| - 1];
    var e := ExtentOf(pts);
    var off := HalfBaseOffset(end.x - start.x, end.y - start.y, t.hypot(end.x - start.x, end.y - start.y));
    Triangle(Point(start.x, start.y),
             Point(end.x + off.x, end.y + off.y),
             Point(end.x - off.x, end.y - off.y),
             e.minX, e.minY, e.maxX - e.minX, e.maxY - e.minY)
  }

  /** recognizeShape: the shape the current tool makes of the drawn points, if any. */
  function RecognizeShape(t: Trig, pts: seq<Point>, tool: Tool, lineSnap: bool): Option<ShapeGeom>
    requires |pts| > 0
  {
    var start, end := pts[0], pts[|pts| - 1];
    var e := ExtentOf(pts);
    var width, height := e.maxX - e.minX, e.maxY - e.minY;
    var lineEnd := if lineSnap then SnappedEnd(t, start, end) else end;
    match tool
    case RectangleTool => Some(Rectangle(e.minX, e.minY, width, height))
    case CircleTool => Some(Circle(e.minX + width / 2.0, e.minY + height / 2.0, Max(width, height) / 2.0))
    case TriangleTool => Some(DragTriangle(t, pts))
    case LineTool => Some(Line(start.x, start.y, lineEnd.x, lineEnd.y))
    case ArrowTool => Some(Arrow(start.x, start.y, lineEnd.x, lineEnd.y))
    case DiamondTool => Some(Diamond(e.minX, e.minY, width, height))
    case PenTool => StraightenedPen(t, pts)
    case _ => None
  }

  /** The pen's case: the chord as a line when the stroke is nearly straight. */
  function StraightenedPen(t: Trig, pts: seq<Point>): Option<ShapeGeom>
    requires |pts| > 0
  {
    var start, end := pts[0], pts[|pts| - 1];
    var total := PathLength(t, pts);
    if total > 0.0 && Dist(t, start, end) / total > StraightShare then Some(Line(start.x, start.y, end.x, end.y))
    else None
  }

  /** The reduce that sums the segment lengths. */
  method MeasurePath(t: Trig, pts: seq<Point>) returns (total: real)
    ensures total == PathLength(t, pts)
  {
    total := 0.0;
    var i := 0;
    while i < |pts|
      invariant 0 <= i <= |pts|
      invariant total == PathLength(t, pts[..i])
    {
      if i > 0 {
        assert pts[..i + 1][..i] == pts[..i];
        total := total + Dist(t, pts[i - 1], pts[i]);
      }
      i := i + 1;
    }
    assert pts[..|pts|] == pts;
  }

  /** recognizeShape as the source runs it: one envelope pass, then the tool's case. */
  method Recognize(t: Trig, pts: seq<Point>, tool: Tool, lineSnap: bool) returns (r: Option<ShapeGeom>)
    requires |pts| > 0
    ensures r == RecognizeShape(t, pts, tool, lineSnap)
  {
    var start, end := pts[0], pts[|pts| - 1];
    var e := ScanExtent(pts);
    var width, height := e.maxX - e.minX, e.maxY - e.minY;
    if tool == RectangleTool {
      return Some(Rectangle(e.minX, e.minY, width, height));
    }
    if tool == CircleTool {
      return Some(Circle(e.minX + width / 2.0, e.minY + height / 2.0, Max(width, height) / 2.0));
    }
    if tool == TriangleTool {
      return Some(DragTriangle(t, pts));
    }
    if tool == LineTool || tool == ArrowTool {
      var x2, y2 := end.x, end.y;
      if lineSnap {
        var snapped := SnappedEnd(t, start, end);
        x2, y2 := snapped.x, snapped.y;
      }
      if tool == LineTool {
        return Some(Line(start.x, start.y, x2, y2));
      }
      return Some(Arrow(start.x, start.y, x2, y2));
    }
    if tool == DiamondTool {
      return Some(Diamond(e.minX, e.minY, width, height));
    }
    if tool == PenTool {
      var total := MeasurePath(t, pts);
      if total > 0.0 && Dist(t, start, end) / total > StraightShare {
        return Some(Line(start.x, start.y, end.x, end.y));
      }
    }
    return None;
  }

  // ---------------------------------------------------------------------------
  // What the recognised shapes are.

  /** Rectangle and diamond tools give the points' bounding box: it holds every
      point and each of its sides is touched by one. */
  lemma BoxToolsGiveEnvelope(t: Trig, pts: seq<Point>, tool: Tool, lineSnap: bool)
    requires |pts| > 0 && (tool == RectangleTool || tool == DiamondTool)
    ensures var r := RecognizeShape(t, pts, tool, lineSnap);
      && r.Some? && (r.value.Rectangle? || r.value.Diamond?)
      && (tool == RectangleTool <==> r.value.Rectangle?)
      && r.value.w >= 0.0 && r.value.h >= 0.0
      && (forall p :: p in pts ==> r.value.x <= p.x <= r.value.x + r.value.w && r.value.y <= p.y <= r.value.y + r.value.h)
      && (exists p :: p in pts && p.x == r.value.x)
      && (exists p :: p in pts && p.x == r.value.x + r.value.w)
      && (exists p :: p in pts && p.y == r.value.y)
      && (exists p :: p in pts && p.y == r.value.y + r.value.h)
  {
    ExtentEncloses(pts);
    ExtentAttained(pts);
    assert pts[0] in pts;
  }

  /** The circle tool centres on the points' box and its radius is half the box's
      larger side, so every point is within the radius along each axis. */
  lemma CircleToolCoversPoints(t: Trig, pts: seq<Point>, lineSnap: bool)
    requires |pts| > 0
    ensures var r := RecognizeShape(t, pts, CircleTool, lineSnap);
      var e := ExtentOf(pts);
      && r.Some? && r.value.Circle?
      && r.value.cx == (e.minX + e.maxX) / 2.0 && r.value.cy == (e.minY + e.maxY) / 2.0
      && r.value.r >= 0.0
      && (r.value.r == (e.maxX - e.minX) / 2.0 || r.value.r == (e.maxY - e.minY) / 2.0)
      && (forall p :: p in pts ==> Abs(p.x - r.value.cx) <= r.value.r && Abs(p.y - r.value.cy) <= r.value.r)
  {
    ExtentEncloses(pts);
    assert pts[0] in pts;
  }

  /** The rectangle, diamond or circle a tool makes of an extent. */
  function EnvelopeShape(e: Extent, tool: Tool): ShapeGeom
  {
    var width, height := e.maxX - e.minX, e.maxY - e.minY;
    if tool == RectangleTool then Rectangle(e.minX, e.minY, width, height)
    else if tool == DiamondTool then Diamond(e.minX, e.minY, width, height)
    else Circle(e.minX + width / 2.0, e.minY + height / 2.0, Max(width, height) / 2.0)
  }

  /** The box and circle tools look at the points only through their extent. */
  lemma EnvelopeShapeOfExtent(t: Trig, pts: seq<Point>, tool: Tool, lineSnap: bool)
    requires |pts| > 0
    requires tool == RectangleTool || tool == DiamondTool || tool == CircleTool
    ensures RecognizeShape(t, pts, tool, lineSnap) == Some(EnvelopeShape(ExtentOf(pts), tool))
  {
  }

  /** The box and circle tools see only which points were drawn: any two drags
      over the same points (in any order, with any repeats) give the same shape. */
  lemma EnvelopeShapesDependOnlyOnPoints(t: Trig, a: seq<Point>, b: seq<Point>, tool: Tool, lineSnap: bool)
    requires |a| > 0 && |b| > 0
    requires forall p :: p in a <==> p in b
    requires tool == RectangleTool || tool == DiamondTool || tool == CircleTool
    ensures RecognizeShape(t, a, tool, lineSnap) == RecognizeShape(t, b, tool, lineSnap)
  {
    ExtentDependsOnlyOnPoints(a, b);
    EnvelopeShapeOfExtent(t, a, tool, lineSnap);
    EnvelopeShapeOfExtent(t, b, tool, lineSnap);
  }

  /** Reversing the drag does not change a rectangle, diamond or circle. */
  lemma EnvelopeShapesIgnoreDirection(t: Trig, pts: seq<Point>, tool: Tool, lineSnap: bool)
    requires |pts| > 0
    requires tool == RectangleTool || tool == DiamondTool || tool == CircleTool
    ensures RecognizeShape(t, Reverse(pts), tool, lineSnap) == RecognizeShape(t, pts, tool, lineSnap)
  {
    ExtentOfReverse(pts);
    EnvelopeShapeOfExtent(t, pts, tool, lineSnap);
    EnvelopeShapeOfExtent(t, Reverse(pts), tool, lineSnap);
  }

  /** A dragged triangle of non-zero length has its apex at the start and its
      base vertices at the end plus and minus half the drag vector turned a
      quarter; its cached box is the drag's bounding box. */
  lemma TriangleFromDrag(t: Trig, pts: seq<Point>, lineSnap: bool)
    requires |pts| > 0
    requires t.hypot(pts[|pts| - 1].x - pts[0].x, pts[|pts| - 1].y - pts[0].y) != 0.0
    ensures var start, end := pts[0], pts[|pts| - 1];
      var dx, dy := end.x - start.x, end.y - start.y;
      var e := ExtentOf(pts);
      RecognizeShape(t, pts, TriangleTool, lineSnap)
        == Some(Triangle(start, Point(end.x - dy * 0.5, end.y + dx * 0.5), Point(end.x + dy * 0.5, end.y - dx * 0.5),
                         e.minX, e.minY, e.maxX - e.minX, e.maxY - e.minY))
  {
    var start, end := pts[0], pts[|pts| - 1];
    var dx, dy := end.x - start.x, end.y - start.y;
    HalfBaseIsQuarterTurn(dx, dy, t.hypot(dx, dy));
  }

  /** For a drag of non-zero length, half the base is the drag vector turned a
      quarter and halved. */
  lemma HalfBaseIsQuarterTurn(dx: real, dy: real, length: real)
    requires length != 0.0
    ensures HalfBaseOffset(dx, dy, length) == Point(-dy * 0.5, dx * 0.5)
  {
    HalfBase(dx, dy, length);
  }

  /** The base of a dragged triangle (as TriangleFromDrag places it) is centred
      on the end of the drag, at right angles to the drag and as long as it. */
  lemma RightAngledBase(start: Point, end: Point, p2: Point, p3: Point)
    requires p2 == Point(end.x - (end.y - start.y) * 0.5, end.y + (end.x - start.x) * 0.5)
    requires p3 == Point(end.x + (end.y - start.y) * 0.5, end.y - (end.x - start.x) * 0.5)
    ensures (p2.x + p3.x) / 2.0 == end.x && (p2.y + p3.y) / 2.0 == end.y
    ensures (p2.x - p3.x) * (end.x - start.x) + (p2.y - p3.y) * (end.y - start.y) == 0.0
    ensures SqDist(p2, p3) == SqDist(start, end)
  {
    var dx, dy := end.x - start.x, end.y - start.y;
    assert p2.x - p3.x == -dy && p2.y - p3.y == dx;
    assert (-dy) * dx + dx * dy == 0.0;
    assert start.x - end.x == -dx && start.y - end.y == -dy;
  }

  /** The unit perpendicular scaled by half the length is half the rotated drag vector. */
  lemma HalfBase(dx: real, dy: real, length: real)
    requires length != 0.0
    ensures (-dy / length) * (length * 0.5) == -dy * 0.5
    ensures (dx / length) * (length * 0.5) == dx * 0.5
  {
  }

  /** Snapping keeps the line's length (with an exact hypot) and either leaves the
      end alone or puts it level with, or plumb above or below, the start. */
  lemma SnapKeepsLength(t: Trig, start: Point, end: Point)
    requires HypotExact(t)
    ensures var s := SnappedEnd(t, start, end);
      && SqDist(s, start) == SqDist(end, start)
      && (s == end || s.y == start.y || s.x == start.x)
  {
    var dist := t.hypot(end.x - start.x, end.y - start.y);
    assert dist * dist == (end.x - start.x) * (end.x - start.x) + (end.y - start.y) * (end.y - start.y);
    assert (-dist) * (-dist) == dist * dist;
  }

  /** Without snapping, a line or arrow runs exactly from the first to the last point. */
  lemma UnsnappedLineJoinsEnds(t: Trig, pts: seq<Point>, tool: Tool)
    requires |pts| > 0 && (tool == LineTool || tool == ArrowTool)
    ensures var r := RecognizeShape(t, pts, tool, false);
      && r.Some? && (r.value.Line? || r.value.Arrow?)
      && (tool == LineTool <==> r.value.Line?)
      && r.value.x1 == pts[0].x && r.value.y1 == pts[0].y
      && r.value.x2 == pts[|pts| - 1].x && r.value.y2 == pts[|pts| - 1].y
  {
  }

  /** With an exact hypot the length of a polyline is never negative. */
  lemma {:induction false} PathLengthNonNegative(t: Trig, pts: seq<Point>)
    requires HypotExact(t)
    ensures PathLength(t, pts) >= 0.0
    decreases |pts|
  {
    if |pts| > 1 {
      PathLengthNonNegative(t, pts[..|pts| - 1]);
      var a, b := pts[|pts| - 2], pts[|pts| - 1];
      assert t.hypot(a.x - b.x, a.y - b.y) >= 0.0;
    }
  }

  /** The pen straightens a stroke only into the line joining its ends, and only
      when the stroke has length and its chord is more than 85% of that length;
      a straightened pen stroke is never snapped. */
  lemma PenStraightensOnlyToChord(t: Trig, pts: seq<Point>, lineSnap: bool)
    requires |pts| > 0
    ensures var r := RecognizeShape(t, pts, PenTool, lineSnap);
      var start, end := pts[0], pts[|pts| - 1];
      var total := PathLength(t, pts);
      && (r.Some? <==> (total > 0.0 && Dist(t, start, end) / total > StraightShare))
      && (r.Some? ==> r.value == Line(start.x, start.y, end.x, end.y))
  {
  }

  /** Only the shape tools and the pen recognise anything. */
  lemma OtherToolsRecognizeNothing(t: Trig, pts: seq<Point>, tool: Tool, lineSnap: bool)
    requires |pts| > 0
    requires tool in {BrushTool, EraserTool, MoveTool, HandTool, TextTool}
    ensures RecognizeShape(t, pts, tool, lineSnap) == None
  {
  }
}
