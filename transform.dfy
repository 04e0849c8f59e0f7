/** Transforming strokes: translation (moveStroke), the rotate step, the
    resize step of a drag and the start values a drag captures when it begins. */
module Transform {
  import opened Geometry
  import opened Strokes
  import opened Bounds
  import opened HitTest

  // ---------------------------------------------------------------------------
  // Translation.

  function TranslateShape(g: ShapeGeom, dx: real, dy: real): ShapeGeom
  {
    match g
    case Rectangle(x, y, w, h) => Rectangle(x + dx, y + dy, w, h)
    case Diamond(x, y, w, h) => Diamond(x + dx, y + dy, w, h)
    case Circle(cx, cy, r) => Circle(cx + dx, cy + dy, r)
    case Line(x1, y1, x2, y2) => Line(x1 + dx, y1 + dy, x2 + dx, y2 + dy)
    case Arrow(x1, y1, x2, y2) => Arrow(x1 + dx, y1 + dy, x2 + dx, y2 + dy)
    case Triangle(p1, p2, p3, x, y, w, h) =>
      Triangle(TranslatePoint(p1, dx, dy), TranslatePoint(p2, dx, dy), TranslatePoint(p3, dx, dy), x + dx, y + dy, w, h)
  }

  /** moveStroke on one stroke: its geometry moves by (dx, dy); a brush stroke has
      no case and stays where it is; nothing but the geometry changes. */
  function Translated(s: Stroke, dx: real, dy: real): (r: Stroke)
    ensures r.color == s.color && r.strokeWidth == s.strokeWidth && r.rotation == s.rotation
    ensures r.scale == s.scale && r.scaleX == s.scaleX && r.scaleY == s.scaleY
    ensures s.data.Brush? ==> r == s
    ensures r.data.Path? == s.data.Path? && r.data.Brush? == s.data.Brush?
    ensures r.data.Shape? == s.data.Shape? && r.data.Text? == s.data.Text?
  {
    match s.data
    case Shape(g) => s.(data := Shape(TranslateShape(g, dx, dy)))
    case Text(x, y, text, style) => s.(data := Text(x + dx, y + dy, text, style))
    case Path(pts) => s.(data := Path(TranslatePoints(pts, dx, dy)))
    case Brush(_) => s
  }

  /** Moving by (dx, dy) and then by (-dx, -dy) puts the stroke back. */
  lemma MoveThenMoveBack(s: Stroke, dx: real, dy: real)
    ensures Translated(Translated(s, dx, dy), -dx, -dy) == s
  {
    if s.data.Path? {
      var pts := s.data.points;
      var back := TranslatePoints(TranslatePoints(pts, dx, dy), -dx, -dy);
      assert back == pts;
    }
  }

  /** Moving a stroke (other than a brush stroke or an empty path) moves its bounds
      by the same amount, size unchanged. */
  lemma MoveShiftsBounds(measure: TextMeasure, s: Stroke, dx: real, dy: real)
    requires !s.data.Brush?
    requires s.data.Path? ==> |s.data.points| > 0
    ensures var b := StrokeBounds(measure, s);
      StrokeBounds(measure, Translated(s, dx, dy)) == Box(b.x + dx, b.y + dy, b.w, b.h, b.cx + dx, b.cy + dy)
  {
    match s.data {
      case Path(pts) => ExtentOfTranslated(pts, dx, dy);
      case Text(_, _, _, _) => MoveShiftsTextBounds(measure, s, dx, dy);
      case Shape(g) => MoveShiftsShapeBounds(g, dx, dy);
    }
  }

  lemma MoveShiftsTextBounds(measure: TextMeasure, s: Stroke, dx: real, dy: real)
    requires s.data.Text?
    ensures var b := StrokeBounds(measure, s);
      StrokeBounds(measure, Translated(s, dx, dy)) == Box(b.x + dx, b.y + dy, b.w, b.h, b.cx + dx, b.cy + dy)
  {
    var d := s.data;
    var b := TextBox(measure, d.x, d.y, d.text, d.style);
    var nb := TextBox(measure, d.x + dx, d.y + dy, d.text, d.style);
    assert nb.w == b.w && nb.h == b.h;
  }

  lemma MoveShiftsShapeBounds(g: ShapeGeom, dx: real, dy: real)
    ensures var b := ShapeBounds(g);
      ShapeBounds(TranslateShape(g, dx, dy)) == Box(b.x + dx, b.y + dy, b.w, b.h, b.cx + dx, b.cy + dy)
  {
  }

  // ---------------------------------------------------------------------------
  // Rotation.

  /** The rotate step turns the mouse's angle change into a tenth as much rotation. */
  const RotateDamping: real := 0.1

  /** One rotate event: the rotation grows by a tenth of the angle change; nothing
      else about the stroke changes. */
  function Rotated(s: Stroke, deltaAngle: real): (r: Stroke)
    ensures r.data == s.data && r.color == s.color && r.strokeWidth == s.strokeWidth
    ensures r.scale == s.scale && r.scaleX == s.scaleX && r.scaleY == s.scaleY
  {
    s.(rotation := OrElse(s.rotation, 0.0) + deltaAngle * RotateDamping)
  }

  /** Rotation events add up: two of them turn the stroke by the sum of their
      steps, and one cancels the other when the angle changes are opposite. */
  lemma RotationsAdd(s: Stroke, a: real, b: real)
    ensures Rotated(Rotated(s, a), b).rotation == s.rotation + (a + b) * RotateDamping
    ensures Rotated(Rotated(s, a), -a) == s
  {
  }

  /** Rotating never changes a stroke's bounds (they are taken unrotated). */
  lemma RotationKeepsBounds(measure: TextMeasure, s: Stroke, deltaAngle: real)
    ensures StrokeBounds(measure, Rotated(s, deltaAngle)) == StrokeBounds(measure, s)
  {
  }

  // ---------------------------------------------------------------------------
  // Start values of a drag.

  /** What a rotate or resize drag remembers of its target when it begins. */
  datatype StartValues = StartValues(
    rotation: real, scale: real, scaleX: real, scaleY: real,
    w: real, h: real, r: real, size: real, cx: real, cy: real,
    handle: Handle,
    p1: Option<Point>, p2: Option<Point>, p3: Option<Point>,
    data: Option<seq<Point>>,
    minX: real, minY: real, maxX: real, maxY: real)

  /** The start values before any drag has begun (the source's empty object). */
  const NoStartValues: StartValues :=
    StartValues(0.0, 0.0, 0.0, 0.0, 0.0, 0.0, 0.0, 0.0, 0.0, 0.0, TL, None, None, None, None, 0.0, 0.0, 0.0, 0.0)

  /** The start values of a drag on handle h of stroke s: its transform with the
      source's fallbacks, its bounds, and a copy of its points or vertices. */
  function CaptureStart(measure: TextMeasure, s: Stroke, h: Handle): (v: StartValues)
    ensures var b := StrokeBounds(measure, s);
      && v.minX == b.x && v.minY == b.y && v.maxX == b.x + b.w && v.maxY == b.y + b.h
      && v.cx == (v.minX + v.maxX) / 2.0 && v.cy == (v.minY + v.maxY) / 2.0
    ensures v.handle == h
    ensures v.w == StrokeBounds(measure, s).w && v.h == StrokeBounds(measure, s).h
    ensures v.rotation == OrElse(s.rotation, 0.0) && v.scale == OrElse(s.scale, 1.0)
    ensures v.scaleX == OrElse(s.scaleX, v.scale) && v.scaleY == OrElse(s.scaleY, v.scale)
    ensures v.scale != 0.0 && v.scaleX != 0.0 && v.scaleY != 0.0 && v.size != 0.0
    ensures s.data.Text? ==> v.size == TextSize(s.data.style)
    ensures s.data.Shape? && s.data.shape.Circle? ==> v.r == OrElse(s.data.shape.r, 0.0)
    ensures s.data.Shape? && s.data.shape.Triangle? ==>
      v.p1 == Some(s.data.shape.p1) && v.p2 == Some(s.data.shape.p2) && v.p3 == Some(s.data.shape.p3)
    ensures v.data.Some? <==> (s.data.Path? || s.data.Brush?)
    ensures v.data.Some? ==> v.data.value == s.data.points
  {
    var b := StrokeBounds(measure, s);
    var isTriangle := s.data.Shape? && s.data.shape.Triangle?;
    StartValues(
      OrElse(s.rotation, 0.0),
      OrElse(s.scale, 1.0),
      OrElse(s.scaleX, OrElse(s.scale, 1.0)),
      OrElse(s.scaleY, OrElse(s.scale, 1.0)),
      b.w, b.h,
      if s.data.Shape? && s.data.shape.Circle? then OrElse(s.data.shape.r, 0.0) else 0.0,
      if s.data.Text? then OrElse(s.data.style.size, 24.0) else 24.0,
      b.cx, b.cy,
      h,
      if isTriangle then Some(s.data.shape.p1) else None,
      if isTriangle then Some(s.data.shape.p2) else None,
      if isTriangle then Some(s.data.shape.p3) else None,
      if s.data.Path? || s.data.Brush? then Some(s.data.points) else None,
      b.x, b.y, b.x + b.w, b.y + b.h)
  }

  // ---------------------------------------------------------------------------
  // The resize step of a single-stroke drag.

  const MinTextSize: real := 12.0
  const MaxTextSize: real := 300.0
  const MinRadius: real := 5.0
  const MinEdge: real := 10.0

  predicate IsHorizontalHandle(h: Handle)
  {
    h == L || h == R
  }

  /** Rectangle and diamond: an edge handle changes one side (at least 10), a
      corner handle both, from the start size. */
  function ResizeSides(v: StartValues, ratio: real, w: real, h: real): (real, real)
  {
    if IsEdgeHandle(v.handle) then
      if IsHorizontalHandle(v.handle) then (Max(MinEdge, OrElse(v.w, 10.0) * ratio), h)
      else (w, Max(MinEdge, OrElse(v.h, 10.0) * ratio))
    else (OrElse(v.w, 10.0) * ratio, OrElse(v.h, 10.0) * ratio)
  }

  /** Edge stretch of one point about the opposite side of the start box. */
  function StretchFromOpposite(p: Point, v: StartValues, ratio: real): Point
  {
    var anchorX := if v.handle == L then v.maxX else v.minX;
    var anchorY := if v.handle == T then v.maxY else v.minY;
    if IsHorizontalHandle(v.handle) then StretchX(p, anchorX, ratio) else StretchY(p, anchorY, ratio)
  }

  function StretchAll(pts: seq<Point>, v: StartValues, ratio: real): seq<Point>
  {
    seq(|pts|, i requires 0 <= i < |pts| => StretchFromOpposite(pts[i], v, ratio))
  }

  /** Scales per axis (a triangle): an edge handle sets one axis, a corner handle
      both, from the start scales. */
  function AxisScaled(s: Stroke, v: StartValues, ratio: real): Stroke
  {
    if IsEdgeHandle(v.handle) then
      if IsHorizontalHandle(v.handle) then s.(scaleX := OrElse(v.scaleX, 1.0) * ratio)
      else s.(scaleY := OrElse(v.scaleY, 1.0) * ratio)
    else s.(scaleX := OrElse(v.scaleX, 1.0) * ratio, scaleY := OrElse(v.scaleY, 1.0) * ratio)
  }

  /** Both axis scales from the start scales (a path or brush not rewritten point by point). */
  function BothAxesScaled(s: Stroke, v: StartValues, ratio: real): Stroke
  {
    s.(scaleX := OrElse(v.scaleX, 1.0) * ratio, scaleY := OrElse(v.scaleY, 1.0) * ratio)
  }

  /** One resize event on a single stroke, working from the start values v and the
      ratio of the pointer's distance from the start centre to its initial distance. */
  function ResizeStroke(s: Stroke, v: StartValues, ratio: real): Stroke
  {
    match s.data
    case Text(x, y, text, style) =>
      s.(data := Text(x, y, text, style.(size := Max(MinTextSize, Min(MaxTextSize, OrElse(v.size, 24.0) * ratio)))))
    case Shape(g) =>
      (match g
       case Circle(cx, cy, r) => s.(data := Shape(Circle(cx, cy, Max(MinRadius, OrElse(v.r, 10.0) * ratio))))
       case Rectangle(x, y, w, h) =>
         var sides := ResizeSides(v, ratio, w, h);
         s.(data := Shape(Rectangle(x, y, sides.0, sides.1)))
       case Diamond(x, y, w, h) =>
         var sides := ResizeSides(v, ratio, w, h);
         s.(data := Shape(Diamond(x, y, sides.0, sides.1)))
       case Triangle(_, _, _, _, _, _, _) => AxisScaled(s, v, ratio)
       case _ => s.(scale := OrElse(v.scale, 1.0) * ratio))
    case Path(pts) =>
      if IsEdgeHandle(v.handle) && v.data.Some? then
        s.(data := Path(StretchAll(v.data.value, v, ratio)), scaleX := 1.0, scaleY := 1.0)
      else BothAxesScaled(s, v, ratio)
    case Brush(pts) =>
      if IsEdgeHandle(v.handle) && v.data.Some? then
        s.(data := Brush(StretchAll(v.data.value, v, ratio)), scaleX := 1.0, scaleY := 1.0)
      else BothAxesScaled(s, v, ratio)
  }

  /** Resizing keeps colour and rotation and the kind of stroke. */
  lemma ResizeKeepsKind(s: Stroke, v: StartValues, ratio: real)
    ensures var r := ResizeStroke(s, v, ratio);
      && r.color == s.color && r.rotation == s.rotation
      && (r.data.Text? <==> s.data.Text?) && (r.data.Shape? <==> s.data.Shape?)
      && (r.data.Path? <==> s.data.Path?) && (r.data.Brush? <==> s.data.Brush?)
  {
  }

  /** A text's font size becomes the start size times the ratio, clamped to
      [12, 300]; the text and its anchor stay. */
  lemma ResizeText(s: Stroke, v: StartValues, ratio: real)
    requires s.data.Text?
    ensures var r := ResizeStroke(s, v, ratio);
      && r.data.Text?
      && r.data.style.size == Max(MinTextSize, Min(MaxTextSize, OrElse(v.size, 24.0) * ratio))
      && MinTextSize <= r.data.style.size <= MaxTextSize
      && r.data.text == s.data.text && r.data.x == s.data.x && r.data.y == s.data.y
  {
    var size := Max(MinTextSize, Min(MaxTextSize, OrElse(v.size, 24.0) * ratio));
    match s.data {
      case Text(x, y, text, style) =>
        assert ResizeStroke(s, v, ratio).data == Text(x, y, text, style.(size := size));
    }
  }

  /** A circle's radius becomes the start radius times the ratio, at least 5. */
  lemma ResizeCircle(s: Stroke, v: StartValues, ratio: real)
    requires s.data.Shape? && s.data.shape.Circle?
    ensures var r := ResizeStroke(s, v, ratio);
      && r.data.Shape? && r.data.shape.Circle?
      && r.data.shape.r == Max(MinRadius, OrElse(v.r, 10.0) * ratio)
      && r.data.shape.r >= MinRadius
  {
  }

  /** A rectangle or diamond under an edge handle: that side is set from the
      start side (at least 10) and the other kept. */
  lemma ResizeBoxEdge(s: Stroke, v: StartValues, ratio: real)
    requires s.data.Shape? && (s.data.shape.Rectangle? || s.data.shape.Diamond?)
    requires IsEdgeHandle(v.handle)
    ensures var r := ResizeStroke(s, v, ratio);
      && r.data.Shape? && (r.data.shape.Rectangle? || r.data.shape.Diamond?)
      && if IsHorizontalHandle(v.handle) then
           r.data.shape.w == Max(MinEdge, OrElse(v.w, 10.0) * ratio) && r.data.shape.w >= MinEdge
           && r.data.shape.h == s.data.shape.h
         else
           r.data.shape.h == Max(MinEdge, OrElse(v.h, 10.0) * ratio) && r.data.shape.h >= MinEdge
           && r.data.shape.w == s.data.shape.w
  {
  }

  /** A rectangle or diamond under a corner handle: both sides from the start sides. */
  lemma ResizeBoxCorner(s: Stroke, v: StartValues, ratio: real)
    requires s.data.Shape? && (s.data.shape.Rectangle? || s.data.shape.Diamond?)
    requires !IsEdgeHandle(v.handle)
    ensures var r := ResizeStroke(s, v, ratio);
      && r.data.Shape? && (r.data.shape.Rectangle? || r.data.shape.Diamond?)
      && r.data.shape.w == OrElse(v.w, 10.0) * ratio && r.data.shape.h == OrElse(v.h, 10.0) * ratio
  {
  }

  /** A path or brush that is not rewritten point by point (a corner handle, or
      no points captured at the start) scales both axes from the start scales,
      whatever the handle, and keeps its points. */
  lemma ResizePathScalesBothAxes(s: Stroke, v: StartValues, ratio: real)
    requires s.data.Path? || s.data.Brush?
    requires !IsEdgeHandle(v.handle) || v.data.None?
    ensures var r := ResizeStroke(s, v, ratio);
      && r.scaleX == OrElse(v.scaleX, 1.0) * ratio && r.scaleY == OrElse(v.scaleY, 1.0) * ratio
      && r.data == s.data && r.scale == s.scale && r.color == s.color && r.rotation == s.rotation
  {
  }

  /** The resize step from the start values, for every kind of stroke at once. */
  lemma ResizeClamps(s: Stroke, v: StartValues, ratio: real)
    ensures var r := ResizeStroke(s, v, ratio);
      && r.color == s.color && r.rotation == s.rotation
      && (r.data.Text? <==> s.data.Text?) && (r.data.Shape? <==> s.data.Shape?)
      && (r.data.Path? <==> s.data.Path?) && (r.data.Brush? <==> s.data.Brush?)
      && (s.data.Text? ==>
            && r.data.style.size == Max(MinTextSize, Min(MaxTextSize, OrElse(v.size, 24.0) * ratio))
            && MinTextSize <= r.data.style.size <= MaxTextSize && r.data.text == s.data.text)
      && (s.data.Shape? && s.data.shape.Circle? ==>
            && r.data.shape.Circle?
            && r.data.shape.r == Max(MinRadius, OrElse(v.r, 10.0) * ratio) && r.data.shape.r >= MinRadius)
      && (s.data.Shape? && (s.data.shape.Rectangle? || s.data.shape.Diamond?) && IsEdgeHandle(v.handle) ==>
            if IsHorizontalHandle(v.handle) then r.data.shape.w >= MinEdge && r.data.shape.h == s.data.shape.h
            else r.data.shape.h >= MinEdge && r.data.shape.w == s.data.shape.w)
  {
    ResizeKeepsKind(s, v, ratio);
    if s.data.Text? {
      ResizeText(s, v, ratio);
    } else if s.data.Shape? && s.data.shape.Circle? {
      ResizeCircle(s, v, ratio);
    } else if s.data.Shape? && (s.data.shape.Rectangle? || s.data.shape.Diamond?) && IsEdgeHandle(v.handle) {
      ResizeBoxEdge(s, v, ratio);
    }
  }

  /** A resize event works from the start values, not from the stroke as the last
      event left it: repeating the same event changes nothing more. */
  lemma SingleResizeIsFromStart(s: Stroke, v: StartValues, ratio: real)
    ensures ResizeStroke(ResizeStroke(s, v, ratio), v, ratio) == ResizeStroke(s, v, ratio)
  {
  }

  /** An edge drag on a path or brush stroke rewrites the points captured at its
      start about the opposite side and resets scaleX and scaleY to 1. */
  lemma EdgeResizeRewritesPoints(measure: TextMeasure, s: Stroke, h: Handle, ratio: real)
    requires s.data.Path? || s.data.Brush?
    requires IsEdgeHandle(h)
    ensures var v := CaptureStart(measure, s, h);
      var r := ResizeStroke(s, v, ratio);
      && (r.data.Path? <==> s.data.Path?) && (r.data.Brush? <==> s.data.Brush?)
      && r.data.points == StretchAll(s.data.points, v, ratio)
      && r.scaleX == 1.0 && r.scaleY == 1.0
      && r.color == s.color && r.rotation == s.rotation && r.scale == s.scale
  {
  }

  /** The bounds of a path or brush stroke with points are the box of their extent. */
  lemma PathBoundsAreExtent(measure: TextMeasure, s: Stroke)
    requires s.data.Path? || s.data.Brush?
    requires |s.data.points| > 0
    ensures StrokeBounds(measure, s) == BoxOf(ExtentOf(s.data.points))
  {
  }

  /** A horizontal edge handle stretches every point along x about the start
      box's opposite side: the right side for L, the left side for R. */
  lemma StretchAllHorizontal(measure: TextMeasure, s: Stroke, h: Handle, ratio: real)
    requires s.data.Path? || s.data.Brush?
    requires |s.data.points| > 0 && IsHorizontalHandle(h)
    ensures var e := ExtentOf(s.data.points);
      StretchAll(s.data.points, CaptureStart(measure, s, h), ratio)
        == StretchPointsX(s.data.points, if h == L then e.maxX else e.minX, ratio)
  {
    PathBoundsAreExtent(measure, s);
  }

  /** A vertical edge handle stretches every point along y about the start box's
      opposite side: the bottom for T, the top for B. */
  lemma StretchAllVertical(measure: TextMeasure, s: Stroke, h: Handle, ratio: real)
    requires s.data.Path? || s.data.Brush?
    requires |s.data.points| > 0 && (h == T || h == B)
    ensures var e := ExtentOf(s.data.points);
      StretchAll(s.data.points, CaptureStart(measure, s, h), ratio)
        == StretchPointsY(s.data.points, if h == T then e.maxY else e.minY, ratio)
  {
    PathBoundsAreExtent(measure, s);
  }



  /** How an edge drag moves a box: the side opposite handle h stays where it
      was, the dragged dimension is scaled by the ratio, the other is untouched. */
  predicate KeepsOppositeSide(h: Handle, b: Box, nb: Box, ratio: real)
  {
    && (IsHorizontalHandle(h) ==> nb.w == b.w * ratio && nb.y == b.y && nb.h == b.h)
    && (h == R ==> nb.x == b.x)
    && (h == L ==> nb.x + nb.w == b.x + b.w)
    && (!IsHorizontalHandle(h) ==> nb.h == b.h * ratio && nb.x == b.x && nb.w == b.w)
    && (h == B ==> nb.y == b.y)
    && (h == T ==> nb.y + nb.h == b.y + b.h)
  }

  /** Stretching an extent along x about the side opposite a horizontal handle
      moves its box as the handle's drag should. */
  lemma StretchedBoxX(h: Handle, e: Extent, k: real, b: Box, nb: Box)
    requires IsHorizontalHandle(h)
    requires b == BoxOf(e) && nb == BoxOf(StretchExtentX(e, if h == L then e.maxX else e.minX, k))
    ensures KeepsOppositeSide(h, b, nb, k)
  {
    var a := if h == L then e.maxX else e.minX;
    var ne := StretchExtentX(e, a, k);
    assert ne.maxX - ne.minX == (e.maxX - e.minX) * k;
  }

  /** The same along y for a vertical handle. */
  lemma StretchedBoxY(h: Handle, e: Extent, k: real, b: Box, nb: Box)
    requires h == T || h == B
    requires b == BoxOf(e) && nb == BoxOf(StretchExtentY(e, if h == T then e.maxY else e.minY, k))
    ensures KeepsOppositeSide(h, b, nb, k)
  {
    var a := if h == T then e.maxY else e.minY;
    var ne := StretchExtentY(e, a, k);
    assert ne.maxY - ne.minY == (e.maxY - e.minY) * k;
  }

  /** An edge drag on a path or brush stroke (ratio >= 0) keeps the side opposite
      the handle where it was, scales the dragged dimension by the ratio and leaves
      the other dimension alone; both axis scales are reset to 1. */
  lemma EdgeStretchKeepsOppositeSide(measure: TextMeasure, s: Stroke, h: Handle, ratio: real)
    requires s.data.Path? || s.data.Brush?
    requires |s.data.points| > 0 && ratio >= 0.0 && IsEdgeHandle(h)
    ensures ResizeStroke(s, CaptureStart(measure, s, h), ratio).scaleX == 1.0
    ensures ResizeStroke(s, CaptureStart(measure, s, h), ratio).scaleY == 1.0
    ensures |ResizeStroke(s, CaptureStart(measure, s, h), ratio).data.points| == |s.data.points|
    ensures KeepsOppositeSide(h, StrokeBounds(measure, s),
                              StrokeBounds(measure, ResizeStroke(s, CaptureStart(measure, s, h), ratio)), ratio)
  {
    var pts := s.data.points;
    var e := ExtentOf(pts);
    var r := ResizeStroke(s, CaptureStart(measure, s, h), ratio);
    PathBoundsAreExtent(measure, s);
    EdgeResizeRewritesPoints(measure, s, h, ratio);
    PathBoundsAreExtent(measure, r);
    if IsHorizontalHandle(h) {
      var a := if h == L then e.maxX else e.minX;
      StretchAllHorizontal(measure, s, h, ratio);
      ExtentOfStretchX(pts, a, ratio);
      StretchedBoxX(h, e, ratio, StrokeBounds(measure, s), StrokeBounds(measure, r));
    } else {
      var a := if h == T then e.maxY else e.minY;
      StretchAllVertical(measure, s, h, ratio);
      ExtentOfStretchY(pts, a, ratio);
      StretchedBoxY(h, e, ratio, StrokeBounds(measure, s), StrokeBounds(measure, r));
    }
  }

  // ---------------------------------------------------------------------------
  // The resize step of a multi-stroke drag.

  /** The per-event factor of a multi-select resize: 1 + (ratio - 1) * 0.05. */
  function MultiFactor(ratio: real): real
  {
    1.0 + (ratio - 1.0) * 0.05
  }

  /** One multi-select resize event on one stroke: both axis scales are multiplied
      by the factor, from their current values (unset reads as 1). */
  function ScaleAxes(s: Stroke, ratio: real): (r: Stroke)
    ensures r.data == s.data && r.rotation == s.rotation && r.scale == s.scale && r.color == s.color
    ensures r.strokeWidth == s.strokeWidth
  {
    s.(scaleX := OrElse(s.scaleX, 1.0) * MultiFactor(ratio), scaleY := OrElse(s.scaleY, 1.0) * MultiFactor(ratio))
  }

  function Power(f: real, n: nat): real
  {
    if n == 0 then 1.0 else Power(f, n - 1) * f
  }

  /** n multi-select resize events at one ratio, one after the other. */
  function ScaleAxesTimes(s: Stroke, ratio: real, n: nat): Stroke
  {
    if n == 0 then s else ScaleAxes(ScaleAxesTimes(s, ratio, n - 1), ratio)
  }

  /** One axis scale after n events with factor f: each event reads the current
      value (unset as 1) and multiplies it by f. */
  function Compound(v: real, f: real, n: nat): real
  {
    if n == 0 then v else OrElse(Compound(v, f, n - 1), 1.0) * f
  }

  lemma NonZeroProduct(a: real, b: real)
    requires a != 0.0 && b != 0.0
    ensures a * b != 0.0
  {
  }

  lemma OneMoreFactor(now: real, before: real, base: real, pw: real, f: real, next: real)
    requires now == before * f && before == base * pw && next == pw * f
    ensures now == base * next
  {
  }

  /** With a non-zero factor the axis scale, as read, is its starting value times
      the factor to the n-th power. */
  lemma {:induction false} CompoundIsPower(v: real, f: real, n: nat)
    requires f != 0.0
    ensures OrElse(Compound(v, f, n), 1.0) == OrElse(v, 1.0) * Power(f, n)
    decreases n
  {
    if n > 0 {
      var prev := Compound(v, f, n - 1);
      CompoundIsPower(v, f, n - 1);
      NonZeroProduct(OrElse(prev, 1.0), f);
      OneMoreFactor(Compound(v, f, n), OrElse(prev, 1.0), OrElse(v, 1.0), Power(f, n - 1), f, Power(f, n));
    }
  }

  /** Repeated events act on each axis scale separately and touch nothing else. */
  lemma {:induction false} ScaleAxesTimesPerAxis(s: Stroke, ratio: real, n: nat)
    ensures ScaleAxesTimes(s, ratio, n).scaleX == Compound(s.scaleX, MultiFactor(ratio), n)
    ensures ScaleAxesTimes(s, ratio, n).scaleY == Compound(s.scaleY, MultiFactor(ratio), n)
    ensures ScaleAxesTimes(s, ratio, n).data == s.data
    decreases n
  {
    if n > 0 {
      ScaleAxesTimesPerAxis(s, ratio, n - 1);
    }
  }

  /** Multi-select resize compounds: after n events at the same ratio each axis
      scale (unset reading as 1) is its value before the drag times the factor to
      the n-th power, and the geometry is never touched. */
  lemma MultiResizeCompounds(s: Stroke, ratio: real, n: nat)
    requires MultiFactor(ratio) != 0.0
    ensures OrElse(ScaleAxesTimes(s, ratio, n).scaleX, 1.0) == OrElse(s.scaleX, 1.0) * Power(MultiFactor(ratio), n)
    ensures OrElse(ScaleAxesTimes(s, ratio, n).scaleY, 1.0) == OrElse(s.scaleY, 1.0) * Power(MultiFactor(ratio), n)
    ensures ScaleAxesTimes(s, ratio, n).data == s.data
  {
    ScaleAxesTimesPerAxis(s, ratio, n);
    CompoundIsPower(s.scaleX, MultiFactor(ratio), n);
    CompoundIsPower(s.scaleY, MultiFactor(ratio), n);
  }

  // ---------------------------------------------------------------------------
  // Applying one edit to several strokes by index.

  /** The edits a drag applies to each selected stroke. */
  datatype Edit = MoveBy(dx: real, dy: real) | RotateBy(deltaAngle: real) | ScaleAxesBy(ratio: real)

  function ApplyEdit(e: Edit, s: Stroke): Stroke
  {
    match e
    case MoveBy(dx, dy) => Translated(s, dx, dy)
    case RotateBy(d) => Rotated(s, d)
    case ScaleAxesBy(ratio) => ScaleAxes(s, ratio)
  }

  /** The edit at one index; an index with no stroke is skipped (`if (!s) return`). */
  function ApplyAt(ss: seq<Stroke>, i: int, e: Edit): (r: seq<Stroke>)
    ensures |r| == |ss|
    ensures forall j :: 0 <= j < |ss| ==> r[j] == (if j == i then ApplyEdit(e, ss[j]) else ss[j])
  {
    if 0 <= i < |ss| then ss[i := ApplyEdit(e, ss[i])] else ss
  }

  /** The edit at each index in turn (the forEach over the selection). */
  function ApplyEach(ss: seq<Stroke>, idxs: seq<int>, e: Edit): (r: seq<Stroke>)
    ensures |r| == |ss|
    decreases |idxs|
  {
    if idxs == [] then ss
    else ApplyAt(ApplyEach(ss, idxs[..|idxs| - 1], e), idxs[|idxs| - 1], e)
  }

  /** Indices in strictly increasing order, as every selection is. */
  predicate Increasing(idxs: seq<int>)
  {
    forall a, b :: 0 <= a < b < |idxs| ==> idxs[a] < idxs[b]
  }

  /** Over a selection of distinct indices, each selected stroke is edited exactly
      once and every other stroke is left as it was. */
  lemma {:induction false} ApplyEachOnce(ss: seq<Stroke>, idxs: seq<int>, e: Edit)
    requires Increasing(idxs)
    ensures forall i :: 0 <= i < |ss| ==>
      ApplyEach(ss, idxs, e)[i] == (if i in idxs then ApplyEdit(e, ss[i]) else ss[i])
    decreases |idxs|
  {
    if idxs != [] {
      var init := idxs[..|idxs| - 1];
      var last := idxs[|idxs| - 1];
      assert Increasing(init);
      ApplyEachOnce(ss, init, e);
      assert last !in init;
      forall i | 0 <= i < |ss|
        ensures ApplyEach(ss, idxs, e)[i] == (if i in idxs then ApplyEdit(e, ss[i]) else ss[i])
      {
        assert i in idxs <==> (i in init || i == last);
      }
    }
  }
}
