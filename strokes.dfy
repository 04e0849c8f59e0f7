/** The stroke data model: what a drawing holds, in z-order (later is on top). */
module Strokes {
  import opened Geometry

  /** The geometry of a shape stroke, one variant per shape kind. */
  datatype ShapeGeom =
    | Rectangle(x: real, y: real, w: real, h: real)
    | Diamond(x: real, y: real, w: real, h: real)
    | Circle(cx: real, cy: real, r: real)
    | Line(x1: real, y1: real, x2: real, y2: real)
    | Arrow(x1: real, y1: real, x2: real, y2: real)
      /** Three live vertices plus the box cached when the triangle was made. */
    | Triangle(p1: Point, p2: Point, p3: Point, x: real, y: real, w: real, h: real)

  datatype TextStyle = TextStyle(size: real, bold: bool, underline: bool)

  /** The payload of a stroke, by stroke type. */
  datatype StrokeData =
    | Path(points: seq<Point>)
    | Brush(points: seq<Point>)
    | Shape(shape: ShapeGeom)
      /** Text is anchored at (x, y), the baseline of its last line. */
    | Text(x: real, y: real, text: string, style: TextStyle)

  /** One drawable object. scaleX, scaleY and strokeWidth read 0 when never set. */
  datatype Stroke = Stroke(
    data: StrokeData,
    color: string,
    strokeWidth: real,
    rotation: real,
    scale: real,
    scaleX: real,
    scaleY: real)

  /** The tools of the toolbar. */
  datatype Tool =
    | PenTool | BrushTool | RectangleTool | DiamondTool | CircleTool | TriangleTool
    | ArrowTool | LineTool | EraserTool | MoveTool | HandTool | TextTool

  /** The tools that start a drawing gesture or erase on pointer-down. */
  predicate IsDrawingTool(t: Tool)
  {
    t in {PenTool, BrushTool, RectangleTool, DiamondTool, CircleTool, TriangleTool, ArrowTool, LineTool, EraserTool}
  }

  /** A new, untransformed stroke as the drawing tools create it. The ensures list
      the fields so that callers can use them without unfolding the body. */
  function NewStroke(data: StrokeData, color: string, width: real): (s: Stroke)
    ensures s.data == data && s.rotation == 0.0 && s.scale == 1.0
    ensures s.scaleX == 0.0 && s.scaleY == 0.0
  {
    Stroke(data, color, width, 0.0, 1.0, 0.0, 0.0)
  }

  // ---------------------------------------------------------------------------
  // Multi-line text: split at '\n' (String.prototype.split with "\n").

  function CountNewlines(t: string): nat
  {
    if t == [] then 0 else (if t[0] == '\n' then 1 else 0) + CountNewlines(t[1..])
  }

  /** The lines of a text: one more than the number of line breaks, none holding a break. */
  function Lines(t: string): (r: seq<string>)
    ensures |r| == CountNewlines(t) + 1
    ensures forall i :: 0 <= i < |r| ==> '\n' !in r[i]
  {
    if t == [] then [""]
    else if t[0] == '\n' then [""] + Lines(t[1..])
    else
      var rest := Lines(t[1..]);
      [[t[0]] + rest[0]] + rest[1..]
  }

  /** Lines joined back with '\n'. */
  function JoinLines(ls: seq<string>): string
  {
    if ls == [] then "" else if |ls| == 1 then ls[0] else ls[0] + "\n" + JoinLines(ls[1..])
  }

  /** Splitting loses nothing: joining the lines gives the text back. */
  lemma {:induction false} LinesJoinBack(t: string)
    ensures JoinLines(Lines(t)) == t
  {
    if t == [] {
    } else if t[0] == '\n' {
      LinesJoinBack(t[1..]);
      assert Lines(t) == [""] + Lines(t[1..]);
      assert t == "\n" + t[1..];
    } else {
      var rest := Lines(t[1..]);
      LinesJoinBack(t[1..]);
      var ls := Lines(t);
      assert ls == [[t[0]] + rest[0]] + rest[1..];
      if |rest| == 1 {
        assert JoinLines(rest) == rest[0];
      } else {
        assert JoinLines(rest) == rest[0] + "\n" + JoinLines(rest[1..]);
        assert ls[1..] == rest[1..];
      }
      assert t == [t[0]] + t[1..];
    }
  }
}
