/** The bounds of a stroke (getStrokeBounds): an axis-aligned box and its centre,
    in the stroke's own unrotated, unscaled frame. Total: every stroke has one. */
module Bounds {
  import opened Geometry
  import opened Strokes

  /** Width of one line of text at a font size and weight (the canvas's measureText). */
  type TextMeasure = (string, real, bool) -> real

  const DefaultTextSize: real := 24.0
  const LineHeightFactor: real := 1.2

  /** The font size a text stroke is laid out with (`style.size || 24`). */
  function TextSize(style: TextStyle): real
  {
    OrElse(style.size, DefaultTextSize)
  }

  /** The widest of the lines, starting from 0 (the maxWidth loop). */
  function MaxLineWidth(measure: TextMeasure, lines: seq<string>, size: real, bold: bool): real
    decreases |lines|
  {
    if lines == [] then 0.0
    else
      var m := MaxLineWidth(measure, lines[..|lines| - 1], size, bold);
      var w := measure(lines[|lines| - 1], size, bold);
      if w > m then w else m
  }

  /** The box of a text stroke: it extends up from the baseline anchor (x, y). */
  function TextBox(measure: TextMeasure, x: real, y: real, text: string, style: TextStyle): Box
  {
    var size := TextSize(style);
    var lines := Lines(text);
    var w := MaxLineWidth(measure, lines, size, style.bold);
    var h := (|lines| as real) * (size * LineHeightFactor);
    Box(x, y - h, w, h, x + w / 2.0, y - h / 2.0)
  }

  function ShapeBounds(g: ShapeGeom): Box
  {
    match g
    case Rectangle(x, y, w, h) => Box(x, y, w, h, x + w / 2.0, y + h / 2.0)
    case Diamond(x, y, w, h) => Box(x, y, w, h, x + w / 2.0, y + h / 2.0)
    case Circle(cx, cy, r) => Box(cx - r, cy - r, r * 2.0, r * 2.0, cx, cy)
    case Line(x1, y1, x2, y2) => SegmentBox(x1, y1, x2, y2)
    case Arrow(x1, y1, x2, y2) => SegmentBox(x1, y1, x2, y2)
    case Triangle(p1, p2, p3, _, _, _, _) =>
      BoxOf(Widen(Widen(PointExtent(p1), p2), p3))
  }

  function SegmentBox(x1: real, y1: real, x2: real, y2: real): Box
  {
    var mx, my := Min(x1, x2), Min(y1, y2);
    var nx, ny := Max(x1, x2), Max(y1, y2);
    Box(mx, my, nx - mx, ny - my, (x1 + x2) / 2.0, (y1 + y2) / 2.0)
  }

  /** The bounds of any stroke; the centre is always the middle of the box. */
  function StrokeBounds(measure: TextMeasure, s: Stroke): (b: Box)
    ensures b.cx == b.x + b.w / 2.0 && b.cy == b.y + b.h / 2.0
  {
    match s.data
    case Text(x, y, text, style) => TextBox(measure, x, y, text, style)
    case Shape(g) => ShapeBounds(g)
    case Path(pts) => if |pts| == 0 then ZeroBox else BoxOf(ExtentOf(pts))
    case Brush(pts) => if |pts| == 0 then ZeroBox else BoxOf(ExtentOf(pts))
  }

  /** The forEach over the lines of a text that keeps the widest measured width. */
  method WidestLine(measure: TextMeasure, lines: seq<string>, size: real, bold: bool) returns (maxWidth: real)
    ensures maxWidth == MaxLineWidth(measure, lines, size, bold)
  {
    maxWidth := 0.0;
    var i := 0;
    while i < |lines|
      invariant 0 <= i <= |lines|
      invariant maxWidth == MaxLineWidth(measure, lines[..i], size, bold)
    {
      assert lines[..i + 1][..i] == lines[..i];
      var m := measure(lines[i], size, bold);
      if m > maxWidth {
        maxWidth := m;
      }
      i := i + 1;
    }
    assert lines[..|lines|] == lines;
  }

  /** getStrokeBounds as the source runs it: a pass over the points or over the lines. */
  method GetStrokeBounds(measure: TextMeasure, s: Stroke) returns (b: Box)
    ensures b == StrokeBounds(measure, s)
  {
    match s.data {
      case Text(x, y, text, style) =>
        var size := TextSize(style);
        var lines := Lines(text);
        var maxWidth := WidestLine(measure, lines, size, style.bold);
        var h := (|lines| as real) * (size * LineHeightFactor);
        b := Box(x, y - h, maxWidth, h, x + maxWidth / 2.0, y - h / 2.0);
      case Shape(g) =>
        b := ShapeBounds(g);
      case Path(pts) =>
        if |pts| == 0 {
          b := ZeroBox;
        } else {
          var e := ScanExtent(pts);
          b := BoxOf(e);
        }
      case Brush(pts) =>
        if |pts| == 0 {
          b := ZeroBox;
        } else {
          var e := ScanExtent(pts);
          b := BoxOf(e);
        }
    }
  }

  // ---------------------------------------------------------------------------
  // What the bounds of each kind are.

  ghost predicate InBox(b: Box, p: Point)
  {
    b.x <= p.x <= b.x + b.w && b.y <= p.y <= b.y + b.h
  }

  /** A path or brush with no points has the zero box at the origin. */
  lemma EmptyPathBounds(measure: TextMeasure, s: Stroke)
    requires s.data == Path([]) || s.data == Brush([])
    ensures StrokeBounds(measure, s) == ZeroBox
  {
  }

  /** A rectangle or diamond's bounds are its stored box, centred in the middle. */
  lemma RectangleBounds(measure: TextMeasure, s: Stroke, x: real, y: real, w: real, h: real)
    requires s.data == Shape(Rectangle(x, y, w, h)) || s.data == Shape(Diamond(x, y, w, h))
    ensures StrokeBounds(measure, s) == Box(x, y, w, h, x + w / 2.0, y + h / 2.0)
  {
  }

  /** A circle's bounds are the square around it, centred on the circle's centre. */
  lemma CircleBounds(measure: TextMeasure, s: Stroke, cx: real, cy: real, r: real)
    requires s.data == Shape(Circle(cx, cy, r))
    ensures StrokeBounds(measure, s) == Box(cx - r, cy - r, 2.0 * r, 2.0 * r, cx, cy)
  {
  }

  /** A path or brush is enclosed by its bounds, which touch a point on every side. */
  lemma PathBoundsEnvelope(measure: TextMeasure, s: Stroke)
    requires s.data.Path? || s.data.Brush?
    requires |s.data.points| > 0
    ensures var b := StrokeBounds(measure, s);
      && b.w >= 0.0 && b.h >= 0.0
      && (forall p :: p in s.data.points ==> InBox(b, p))
      && (exists p :: p in s.data.points && p.x == b.x)
      && (exists p :: p in s.data.points && p.x == b.x + b.w)
      && (exists p :: p in s.data.points && p.y == b.y)
      && (exists p :: p in s.data.points && p.y == b.y + b.h)
  {
    var pts := s.data.points;
    ExtentEncloses(pts);
    ExtentAttained(pts);
    assert pts[0] in pts;
  }

  /** A line or arrow is enclosed by its bounds; the centre is the segment's midpoint. */
  lemma SegmentBoundsEnvelope(measure: TextMeasure, s: Stroke)
    requires s.data.Shape? && (s.data.shape.Line? || s.data.shape.Arrow?)
    ensures var b := StrokeBounds(measure, s); var g := s.data.shape;
      && b.w >= 0.0 && b.h >= 0.0
      && InBox(b, Point(g.x1, g.y1)) && InBox(b, Point(g.x2, g.y2))
      && b.cx == (g.x1 + g.x2) / 2.0 && b.cy == (g.y1 + g.y2) / 2.0
  {
  }

  /** A triangle's bounds enclose its three live vertices, whatever box is cached. */
  lemma TriangleBoundsFromVertices(measure: TextMeasure, p1: Point, p2: Point, p3: Point,
                                   x: real, y: real, w: real, h: real,
                                   x': real, y': real, w': real, h': real,
                                   s: Stroke)
    requires s.data == Shape(Triangle(p1, p2, p3, x, y, w, h))
    ensures var b := StrokeBounds(measure, s);
      && b == StrokeBounds(measure, s.(data := Shape(Triangle(p1, p2, p3, x', y', w', h'))))
      && b.w >= 0.0 && b.h >= 0.0
      && InBox(b, p1) && InBox(b, p2) && InBox(b, p3)
      && b.x == Min(Min(p1.x, p2.x), p3.x) && b.y == Min(Min(p1.y, p2.y), p3.y)
  {
  }

  /** The widest line is at least 0 and at least as wide as every line, and it is
      either 0 or the width of one of the lines. */
  lemma {:induction false} MaxLineWidthBounds(measure: TextMeasure, lines: seq<string>, size: real, bold: bool)
    ensures MaxLineWidth(measure, lines, size, bold) >= 0.0
    ensures forall i :: 0 <= i < |lines| ==> measure(lines[i], size, bold) <= MaxLineWidth(measure, lines, size, bold)
    ensures MaxLineWidth(measure, lines, size, bold) == 0.0
      || exists i :: 0 <= i < |lines| && MaxLineWidth(measure, lines, size, bold) == measure(lines[i], size, bold)
  {
    if lines != [] {
      var init := lines[..|lines| - 1];
      MaxLineWidthBounds(measure, init, size, bold);
      forall i | 0 <= i < |lines| - 1
        ensures measure(lines[i], size, bold) <= MaxLineWidth(measure, lines, size, bold)
      {
        assert lines[i] == init[i];
      }
      var m := MaxLineWidth(measure, init, size, bold);
      if MaxLineWidth(measure, lines, size, bold) != 0.0 {
        if m == MaxLineWidth(measure, lines, size, bold) {
          var i :| 0 <= i < |init| && m == measure(init[i], size, bold);
          assert lines[i] == init[i];
        } else {
          assert MaxLineWidth(measure, lines, size, bold) == measure(lines[|lines| - 1], size, bold);
        }
      }
    }
  }

  /** A text stroke's box stands on its baseline anchor, one line height per line,
      as wide as its widest line. */
  lemma TextBounds(measure: TextMeasure, s: Stroke)
    requires s.data.Text?
    ensures var b := StrokeBounds(measure, s); var d := s.data;
      var size := if d.style.size == 0.0 then 24.0 else d.style.size;
      var lines := Lines(d.text);
      && b.x == d.x && b.y + b.h == d.y
      && b.h == (CountNewlines(d.text) + 1) as real * size * 1.2
      && b.w >= 0.0
      && (forall i :: 0 <= i < |lines| ==> measure(lines[i], size, d.style.bold) <= b.w)
      && (b.w == 0.0 || exists i :: 0 <= i < |lines| && b.w == measure(lines[i], size, d.style.bold))
  {
    var d := s.data;
    MaxLineWidthBounds(measure, Lines(d.text), TextSize(d.style), d.style.bold);
  }
}
