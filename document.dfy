/** The drawing document: the global state of the editor (strokes, the undo and
    redo stacks, the camera, the selection and the state of the current gesture)
    and the handlers that change it: saveState, undo, redo, the Delete key,
    setTool, adjustZoom, the three pointer handlers, processDrawing and the end
    effects of the two text overlays. */
module Document {
  import opened Geometry
  import opened Strokes
  import opened Bounds
  import opened Camera
  import H = History
  import opened HitTest
  import opened Recognizer
  import opened Freehand
  import opened Transform
  import opened Selection

  /** The action of a transform drag (the source's `action`, null when idle). */
  datatype DragAction = MoveAction | RotateAction | ResizeAction

  /** The source's transformState object. */
  datatype TransformState = TransformState(
    isDragging: bool,
    action: Option<DragAction>,
    targetIndex: int,
    startPos: Point,
    startValues: StartValues,
    initialMouseDist: real,
    initialMouseAngle: real)

  const IdleTransform: TransformState :=
    TransformState(false, None, -1, Point(0.0, 0.0), NoStartValues, 0.0, 0.0)

  /** The toolbar settings the handlers read. */
  datatype Settings = Settings(
    color: string,
    strokeWidth: real,
    text: TextStyle,
    shapeRecognition: bool,
    lineSnap: bool,
    darkTheme: bool)

  const DefaultSettings: Settings :=
    Settings("#ffffff", 3.0, TextStyle(24.0, false, false), false, false, true)

  /** Array.prototype.splice(i, 1) at an index that is never negative: the
      element at i goes and the later ones move down; past the end, nothing. */
  function RemoveAt<T>(s: seq<T>, i: nat): (r: seq<T>)
    ensures i < |s| ==> |r| == |s| - 1
    ensures i < |s| ==> forall j :: 0 <= j < i ==> r[j] == s[j]
    ensures i < |s| ==> forall j :: i <= j < |r| ==> r[j] == s[j + 1]
    ensures i >= |s| ==> r == s
  {
    if i < |s| then s[..i] + s[i + 1..] else s
  }

  /** The characters String.prototype.trim removes: white space and line terminators. */
  predicate IsTrimmed(c: char)
  {
    var n := c as int;
    n == 0x09 || n == 0x0A || n == 0x0B || n == 0x0C || n == 0x0D || n == 0x20 || n == 0xA0
    || n == 0x1680 || (0x2000 <= n <= 0x200A) || n == 0x2028 || n == 0x2029 || n == 0x202F
    || n == 0x205F || n == 0x3000 || n == 0xFEFF
  }

  /** `text.trim()` is the empty string. */
  predicate IsBlank(text: string)
  {
    forall i :: 0 <= i < |text| ==> IsTrimmed(text[i])
  }

  /** The colour new text gets: white on a light canvas becomes black and black or
      dark grey on a dark canvas becomes white, so the text stays visible. */
  function SafeTextColor(darkTheme: bool, color: string): (r: string)
    ensures !darkTheme ==> r != "#ffffff"
    ensures darkTheme ==> r != "#000000" && r != "#333333"
    ensures r == color || r == "#000000" || r == "#ffffff"
    ensures !darkTheme && color != "#ffffff" ==> r == color
    ensures darkTheme && color != "#000000" && color != "#333333" ==> r == color
  {
    if !darkTheme && color == "#ffffff" then "#000000"
    else if darkTheme && (color == "#000000" || color == "#333333") then "#ffffff"
    else color
  }

  /** The stroke a finished text overlay adds at world point p: the baseline goes
      0.8 of the font size below the click, the style is a copy of the settings.
      The ensures list the fields so that callers can use them without unfolding
      the body; TypedTextBox states where the text lands. */
  function TypedText(p: Point, text: string, s: Settings): (r: Stroke)
    ensures r.data == Text(p.x, p.y + s.text.size * 0.8, text, s.text)
    ensures r.color == SafeTextColor(s.darkTheme, s.color)
    ensures r.rotation == 0.0 && r.scale == 1.0 && r.strokeWidth == 0.0
  {
    Stroke(Text(p.x, p.y + s.text.size * 0.8, text, s.text), SafeTextColor(s.darkTheme, s.color), 0.0, 0.0, 1.0, 0.0, 0.0)
  }

  /** Where typed text lands: its box starts at the click and its bottom sits 0.8
      of the font size below it, one line height per line. */
  lemma TypedTextBox(measure: TextMeasure, p: Point, text: string, s: Settings)
    ensures var b := StrokeBounds(measure, TypedText(p, text, s));
      && b.x == p.x && b.y + b.h == p.y + s.text.size * 0.8
      && b.h == (|Lines(text)| as real) * (TextSize(s.text) * LineHeightFactor)
  {
    var r := TypedText(p, text, s);
    assert r.data == Text(p.x, p.y + s.text.size * 0.8, text, s.text);
  }

  /** With a positive font size the click lies inside the box of the typed text. */
  lemma TypedTextHoldsClick(measure: TextMeasure, p: Point, text: string, s: Settings)
    requires s.text.size > 0.0
    ensures InBox(StrokeBounds(measure, TypedText(p, text, s)), p)
  {
    var b := StrokeBounds(measure, TypedText(p, text, s));
    TypedTextBox(measure, p, text, s);
    TextBounds(measure, TypedText(p, text, s));
    var n := |Lines(text)| as real;
    assert b.h == n * (s.text.size * LineHeightFactor);
    assert n * (s.text.size * LineHeightFactor) >= s.text.size * LineHeightFactor by {
      assert (n - 1.0) * (s.text.size * LineHeightFactor) >= 0.0;
    }
  }

  /** So the new text is hit at the click that placed it. */
  lemma TypedTextHitAtClick(t: Trig, measure: TextMeasure, p: Point, text: string, s: Settings)
    requires t.cos(0.0) == 1.0 && t.sin(0.0) == 0.0 && s.text.size > 0.0
    ensures Hits(t, measure, TypedText(p, text, s), p)
  {
    TypedTextHoldsClick(measure, p, text, s);
    UnrotatedHitIsBoxMembership(t, measure, TypedText(p, text, s), p);
  }

  /** processDrawing: the data of the stroke a finished gesture adds, if any. The
      brush keeps its points; the shape tools make their shape; the pen makes a
      straight line, a detected freehand shape (when recognition is on) or a path. */
  function DrawnData(t: Trig, tool: Tool, s: Settings, pts: seq<Point>): Option<StrokeData>
    requires |pts| > 0
  {
    if tool == BrushTool then Some(Brush(pts))
    else match RecognizeShape(t, pts, tool, s.lineSnap)
      case Some(g) => Some(Shape(g))
      case None =>
        if tool != PenTool then None
        else if s.shapeRecognition && FreehandShape(t, pts).Some? then Some(Shape(FreehandShape(t, pts).value))
        else Some(Path(pts))
  }

  /** Every drawing tool except the eraser adds exactly one stroke; every other
      tool adds none. */
  lemma DrawingToolsDraw(t: Trig, tool: Tool, s: Settings, pts: seq<Point>)
    requires |pts| > 0
    ensures DrawnData(t, tool, s, pts).Some? <==> IsDrawingTool(tool) && tool != EraserTool
  {
    if !IsDrawingTool(tool) || tool == EraserTool {
      OtherToolsRecognizeNothing(t, pts, tool, s.lineSnap);
    }
  }

  /** What each tool's stroke holds: the brush and an unstraightened, unrecognised
      pen stroke keep the drawn points as they are; the shape tools make the
      recognised shape. */
  lemma DrawnDataByTool(t: Trig, tool: Tool, s: Settings, pts: seq<Point>)
    requires |pts| > 0
    ensures tool == BrushTool ==> DrawnData(t, tool, s, pts) == Some(Brush(pts))
    ensures tool in {RectangleTool, DiamondTool, CircleTool, TriangleTool, LineTool, ArrowTool} ==>
      DrawnData(t, tool, s, pts).Some? && DrawnData(t, tool, s, pts).value.Shape?
      && Some(DrawnData(t, tool, s, pts).value.shape) == RecognizeShape(t, pts, tool, s.lineSnap)
    ensures tool == PenTool && StraightenedPen(t, pts).None? && (!s.shapeRecognition || FreehandShape(t, pts).None?) ==>
      DrawnData(t, tool, s, pts) == Some(Path(pts))
  {
  }

  /** Fewer than twelve points never turn a pen stroke into a freehand shape. */
  lemma ShortPenStrokesStayPaths(t: Trig, s: Settings, pts: seq<Point>)
    requires 0 < |pts| < MinFreehandPoints
    ensures DrawnData(t, PenTool, s, pts) == Some(Path(pts)) || DrawnData(t, PenTool, s, pts) == Some(Shape(StraightenedPen(t, pts).value))
  {
    FreehandGuards(t, pts);
  }

  /** The text overlay a press with the text tool opens: an editor over the text
      stroke at an index, or a new text box at a world point. */
  datatype Overlay = NoOverlay | NewText(at: Point) | EditText(index: nat)

  /** The overlay for a text-tool press at world point p: the topmost stroke under
      p is edited if it is a text stroke; otherwise new text starts at p. */
  function TextOverlay(t: Trig, measure: TextMeasure, strokes: seq<Stroke>, p: Point): (r: Overlay)
    ensures r.EditText? ==> r.index < |strokes| && strokes[r.index].data.Text?
    ensures r.EditText? <==> (TopmostHit(t, measure, strokes, p) != -1 && strokes[TopmostHit(t, measure, strokes, p)].data.Text?)
    ensures r.EditText? ==> r.index == TopmostHit(t, measure, strokes, p)
    ensures r.NewText? ==> r.at == p
    ensures r != NoOverlay
  {
    var hit := TopmostHit(t, measure, strokes, p);
    if hit != -1 && strokes[hit].data.Text? then EditText(hit) else NewText(p)
  }

  /** Every edit that saves first is undone by one undo, which (below the cap)
      also restores the undo stack and lets redo bring the edit back. */
  lemma SavedEditIsUndoable(h: H.History<seq<Stroke>>, edited: seq<Stroke>)
    requires |h.undo| <= H.HistoryCap
    ensures H.Undo(H.Save(h).(present := edited)).present == h.present
    ensures |h.undo| < H.HistoryCap ==> H.Undo(H.Save(h).(present := edited)).undo == h.undo
    ensures H.Redo(H.Undo(H.Save(h).(present := edited))).present == edited
  {
  }

  /** The part of the document state a pointer press can change. */
  datatype Scene = Scene(
    strokes: seq<Stroke>,
    historyStack: seq<seq<Stroke>>,
    redoStack: seq<seq<Stroke>>,
    selectedIndices: seq<int>,
    transform: TransformState,
    isDrawing: bool,
    points: seq<Point>,
    isMarqueeSelecting: bool,
    marqueeStart: Point,
    marqueeEnd: Point)

  /** A selection is a strictly increasing list of indices. */
  predicate IsSelection(sel: seq<int>)
  {
    Increasing(sel) && forall k :: 0 <= k < |sel| ==> sel[k] >= 0
  }

  /** The two stacks together hold at most 50 snapshots, the target is an index or
      -1, and the selection is a selection. */
  predicate SceneValid(sc: Scene)
  {
    && |sc.historyStack| + |sc.redoStack| <= H.HistoryCap
    && sc.transform.targetIndex >= -1
    && IsSelection(sc.selectedIndices)
  }

  function SceneTimeline(sc: Scene): H.History<seq<Stroke>>
  {
    H.History(sc.strokes, sc.historyStack, sc.redoStack)
  }

  /** saveState on a scene. */
  function SaveScene(sc: Scene): (r: Scene)
    requires |sc.historyStack| <= H.HistoryCap
    ensures SceneTimeline(r) == H.Save(SceneTimeline(sc))
    ensures r.(historyStack := sc.historyStack, redoStack := sc.redoStack) == sc
  {
    var h := H.Save(SceneTimeline(sc));
    sc.(historyStack := h.undo, redoStack := h.redo)
  }

  /** The handle of the target under p, if the target names a stroke. */
  function HandleUnder(t: Trig, measure: TextMeasure, sc: Scene, p: Point): Option<Handle>
  {
    if 0 <= sc.transform.targetIndex < |sc.strokes|
    then FirstHandleFrom(t, measure, sc.strokes[sc.transform.targetIndex], p, 0)
    else None
  }

  /** The transform state once handle h of stroke s is grabbed at p: a rotate (the
      rotation handle) or resize drag, with the start values and the pointer's
      distance and angle from the centre of the stroke's bounds captured once. */
  function GrabbedTransform(t: Trig, measure: TextMeasure, tr: TransformState, s: Stroke, p: Point, h: Handle): (r: TransformState)
    ensures r.isDragging && r.targetIndex == tr.targetIndex && r.startPos == p
    ensures r.action == Some(if h == Rot then RotateAction else ResizeAction)
    ensures r.startValues == CaptureStart(measure, s, h)
  {
    var b := StrokeBounds(measure, s);
    tr.(
      isDragging := true,
      action := Some(if h == Rot then RotateAction else ResizeAction),
      startPos := p,
      startValues := CaptureStart(measure, s, h),
      initialMouseDist := t.hypot(p.x - b.cx, p.y - b.cy),
      initialMouseAngle := t.atan2(p.y - b.cy, p.x - b.cx))
  }

  /** Handle h of the target grabbed at p: save, then start the drag. */
  function GrabHandle(t: Trig, measure: TextMeasure, sc: Scene, p: Point, h: Handle): Scene
    requires |sc.historyStack| <= H.HistoryCap && 0 <= sc.transform.targetIndex < |sc.strokes|
  {
    SaveScene(sc).(transform := GrabbedTransform(t, measure, sc.transform, sc.strokes[sc.transform.targetIndex], p, h))
  }

  /** The move tool pressed at p: on a stroke, save and start a move drag of it (a
      stroke outside the selection becomes the whole selection); on empty space,
      clear the selection and the target and start a marquee at p. */
  function MovePress(t: Trig, measure: TextMeasure, sc: Scene, p: Point): Scene
    requires |sc.historyStack| <= H.HistoryCap
  {
    var hit := TopmostHit(t, measure, sc.strokes, p);
    if hit != -1 then
      SaveScene(sc).(
        selectedIndices := if hit in sc.selectedIndices then sc.selectedIndices else [hit],
        transform := sc.transform.(targetIndex := hit, isDragging := true, action := Some(MoveAction), startPos := p))
    else
      sc.(selectedIndices := [], transform := sc.transform.(targetIndex := -1),
          isMarqueeSelecting := true, marqueeStart := p, marqueeEnd := p)
  }

  /** The eraser pressed at p: save and splice out the topmost stroke under p, if any. */
  function ErasePress(t: Trig, measure: TextMeasure, sc: Scene, p: Point): Scene
    requires |sc.historyStack| <= H.HistoryCap
  {
    var hit := TopmostHit(t, measure, sc.strokes, p);
    if hit != -1 then SaveScene(sc).(strokes := RemoveAt(sc.strokes, hit)) else sc
  }

  /** Another drawing tool pressed at p: save and start a gesture at p. */
  function DrawPress(sc: Scene, p: Point): Scene
    requires |sc.historyStack| <= H.HistoryCap
  {
    SaveScene(sc).(isDrawing := true, points := [p])
  }

  /** A press at p where no handle is under the pointer. */
  function ToolPress(t: Trig, measure: TextMeasure, tool: Tool, sc: Scene, p: Point): Scene
    requires |sc.historyStack| <= H.HistoryCap
  {
    if tool == MoveTool then MovePress(t, measure, sc, p)
    else if tool == EraserTool then ErasePress(t, measure, sc, p)
    else if IsDrawingTool(tool) then DrawPress(sc, p)
    else sc
  }

  /** onPointerDown on the canvas at world point p with a tool that neither types
      nor pans: a handle of the target under p is grabbed, or else the tool acts. */
  function CanvasPress(t: Trig, measure: TextMeasure, tool: Tool, sc: Scene, p: Point): Scene
    requires |sc.historyStack| <= H.HistoryCap
  {
    match HandleUnder(t, measure, sc, p)
    case Some(h) => GrabHandle(t, measure, sc, p, h)
    case None => ToolPress(t, measure, tool, sc, p)
  }

  /** Saving keeps the scene valid. */
  lemma SaveKeepsValid(sc: Scene)
    requires SceneValid(sc)
    ensures SceneValid(SaveScene(sc))
  {
    H.OperationsKeepBounded(SceneTimeline(sc));
  }

  /** The move tool's press keeps the scene valid. */
  lemma MovePressKeepsValid(t: Trig, measure: TextMeasure, sc: Scene, p: Point)
    requires SceneValid(sc)
    ensures SceneValid(MovePress(t, measure, sc, p))
  {
    SaveKeepsValid(sc);
    var hit := TopmostHit(t, measure, sc.strokes, p);
    assert hit >= -1 by { TopmostHitBelowIsTopmost(t, measure, sc.strokes, p, |sc.strokes|); }
    if hit != -1 {
      assert IsSelection(MovePress(t, measure, sc, p).selectedIndices);
    }
  }

  /** Grabbing a handle keeps the scene valid. */
  lemma GrabKeepsValid(t: Trig, measure: TextMeasure, sc: Scene, p: Point, h: Handle)
    requires SceneValid(sc) && 0 <= sc.transform.targetIndex < |sc.strokes|
    ensures SceneValid(GrabHandle(t, measure, sc, p, h))
  {
    SaveKeepsValid(sc);
  }

  /** The eraser's press keeps the scene valid. */
  lemma ErasePressKeepsValid(t: Trig, measure: TextMeasure, sc: Scene, p: Point)
    requires SceneValid(sc)
    ensures SceneValid(ErasePress(t, measure, sc, p))
  {
    SaveKeepsValid(sc);
  }

  /** A press keeps the scene valid. */
  lemma PressKeepsValid(t: Trig, measure: TextMeasure, tool: Tool, sc: Scene, p: Point)
    requires SceneValid(sc)
    ensures SceneValid(CanvasPress(t, measure, tool, sc, p))
  {
    match HandleUnder(t, measure, sc, p)
    case Some(h) =>
      GrabKeepsValid(t, measure, sc, p, h);
    case None =>
      if tool == MoveTool {
        MovePressKeepsValid(t, measure, sc, p);
      } else if tool == EraserTool {
        ErasePressKeepsValid(t, measure, sc, p);
      } else {
        SaveKeepsValid(sc);
      }
  }

  /** Only the eraser changes the strokes on a press, it removes exactly the
      topmost stroke under the pointer, and it saves first: one undo brings the
      erased stroke back. */
  lemma PressErasesOnlyTopmost(t: Trig, measure: TextMeasure, tool: Tool, sc: Scene, p: Point)
    requires SceneValid(sc)
    ensures var r := CanvasPress(t, measure, tool, sc, p);
      r.strokes != sc.strokes ==>
        && tool == EraserTool && HandleUnder(t, measure, sc, p).None?
        && var hit := TopmostHit(t, measure, sc.strokes, p);
           && 0 <= hit < |sc.strokes| && Hits(t, measure, sc.strokes[hit], p)
           && (forall j :: hit < j < |sc.strokes| ==> !Hits(t, measure, sc.strokes[j], p))
           && r.strokes == sc.strokes[..hit] + sc.strokes[hit + 1..]
           && H.Undo(SceneTimeline(r)).present == sc.strokes
  {
    var r := CanvasPress(t, measure, tool, sc, p);
    var hit := TopmostHit(t, measure, sc.strokes, p);
    match HandleUnder(t, measure, sc, p)
    case Some(h) =>
      assert r.strokes == SaveScene(sc).strokes;
    case None =>
      if tool == MoveTool {
        assert r.strokes == sc.strokes;
      } else if tool == EraserTool {
        if hit != -1 {
          TopmostHitBelowIsTopmost(t, measure, sc.strokes, p, |sc.strokes|);
          assert r.historyStack == H.CappedPush(sc.historyStack, sc.strokes);
        }
      } else if IsDrawingTool(tool) {
        assert r.strokes == SaveScene(sc).strokes;
      }
  }

  /** After a move-tool press away from the handles the target is the topmost
      stroke under the pointer and it is selected, or nothing is hit, nothing is
      selected and a marquee of no size sits at the pointer. */
  lemma MovePressPicksTopmost(t: Trig, measure: TextMeasure, sc: Scene, p: Point)
    requires SceneValid(sc) && HandleUnder(t, measure, sc, p).None?
    ensures var r := CanvasPress(t, measure, MoveTool, sc, p);
      var target := r.transform.targetIndex;
      && r.strokes == sc.strokes
      && (target == -1 <==> forall j :: 0 <= j < |sc.strokes| ==> !Hits(t, measure, sc.strokes[j], p))
      && (target != -1 ==>
            && 0 <= target < |sc.strokes| && Hits(t, measure, sc.strokes[target], p)
            && (forall j :: target < j < |sc.strokes| ==> !Hits(t, measure, sc.strokes[j], p))
            && target in r.selectedIndices && r.transform.isDragging && r.transform.action == Some(MoveAction))
      && (target == -1 ==> r.selectedIndices == [] && r.isMarqueeSelecting && r.marqueeStart == p && r.marqueeEnd == p)
  {
    TopmostHitBelowIsTopmost(t, measure, sc.strokes, p, |sc.strokes|);
    var hit := TopmostHit(t, measure, sc.strokes, p);
    var r := CanvasPress(t, measure, MoveTool, sc, p);
    if hit != -1 {
      assert r.transform.targetIndex == hit;
      assert hit in r.selectedIndices by {
        if hit !in sc.selectedIndices {
          assert r.selectedIndices == [hit];
        }
      }
    }
  }

  /** The strokes a move or rotate drag acts on: the selection, or the target alone. */
  function DragIndices(sc: Scene): seq<int>
  {
    if |sc.selectedIndices| > 0 then sc.selectedIndices else [sc.transform.targetIndex]
  }

  /** One pointer event of a transform drag at world point p. A move translates
      the dragged strokes by the pointer's motion since the last event; a rotate
      turns them by a tenth of the angle change since the drag began; a resize
      rebuilds the target from its start values by the ratio of the pointer's
      distance from the start centre to its initial distance, except that with
      several strokes selected each one's axis scales compound instead. */
  function DragTo(t: Trig, sc: Scene, p: Point): Scene
    requires 0 <= sc.transform.targetIndex < |sc.strokes|
  {
    var tr := sc.transform;
    var sv := tr.startValues;
    match tr.action
    case None => sc
    case Some(MoveAction) =>
      sc.(strokes := ApplyEach(sc.strokes, DragIndices(sc), MoveBy(p.x - tr.startPos.x, p.y - tr.startPos.y)),
          transform := tr.(startPos := p))
    case Some(RotateAction) =>
      sc.(strokes := ApplyEach(sc.strokes, DragIndices(sc), RotateBy(t.atan2(p.y - sv.cy, p.x - sv.cx) - tr.initialMouseAngle)))
    case Some(ResizeAction) =>
      var ratio := t.hypot(p.x - sv.cx, p.y - sv.cy) / OrElse(tr.initialMouseDist, 1.0);
      if |sc.selectedIndices| > 1 then sc.(strokes := ApplyEach(sc.strokes, sc.selectedIndices, ScaleAxesBy(ratio)))
      else sc.(strokes := sc.strokes[tr.targetIndex := ResizeStroke(sc.strokes[tr.targetIndex], sv, ratio)])
  }

  /** onPointerMove at world point p when neither panning nor locked: a drag step
      (nothing if the target names no stroke), else the marquee's far corner
      follows the pointer, else a gesture in progress collects the point. */
  function PointerMoved(t: Trig, sc: Scene, p: Point): Scene
  {
    if sc.transform.isDragging && sc.transform.targetIndex != -1 then
      if 0 <= sc.transform.targetIndex < |sc.strokes| then DragTo(t, sc, p) else sc
    else if sc.isMarqueeSelecting then sc.(marqueeEnd := p)
    else if sc.isDrawing then sc.(points := sc.points + [p])
    else sc
  }

  /** A run of pointer moves, one event per point. */
  function PointerMovedAll(t: Trig, sc: Scene, ps: seq<Point>): Scene
  {
    if ps == [] then sc else PointerMoved(t, PointerMovedAll(t, sc, ps[..|ps| - 1]), ps[|ps| - 1])
  }

  /** A pointer move never touches what a drag captured when it began: the start
      values, the initial distance and angle, the action and the target. */
  lemma PointerMovedKeepsStart(t: Trig, sc: Scene, p: Point)
    ensures var tr := PointerMoved(t, sc, p).transform;
      && tr.startValues == sc.transform.startValues
      && tr.initialMouseDist == sc.transform.initialMouseDist
      && tr.initialMouseAngle == sc.transform.initialMouseAngle
      && tr.action == sc.transform.action && tr.targetIndex == sc.transform.targetIndex
      && tr.isDragging == sc.transform.isDragging
  {
  }

  /** So a whole run of moves keeps them as the press set them. */
  lemma {:induction false} PointerMovedAllKeepsStart(t: Trig, sc: Scene, ps: seq<Point>)
    ensures var tr := PointerMovedAll(t, sc, ps).transform;
      && tr.startValues == sc.transform.startValues
      && tr.initialMouseDist == sc.transform.initialMouseDist
      && tr.initialMouseAngle == sc.transform.initialMouseAngle
      && tr.action == sc.transform.action && tr.targetIndex == sc.transform.targetIndex
      && tr.isDragging == sc.transform.isDragging
  {
    if ps != [] {
      PointerMovedAllKeepsStart(t, sc, ps[..|ps| - 1]);
      PointerMovedKeepsStart(t, PointerMovedAll(t, sc, ps[..|ps| - 1]), ps[|ps| - 1]);
    }
  }

  /** The strokes processDrawing adds for a finished gesture: none or one. */
  function DrawnStrokes(t: Trig, tool: Tool, s: Settings, pts: seq<Point>): (r: seq<Stroke>)
    requires |pts| > 0
    ensures |r| <= 1
  {
    match DrawnData(t, tool, s, pts)
    case Some(d) => [NewStroke(d, s.color, s.strokeWidth)]
    case None => []
  }

  /** onPointerUp when neither panning nor locked. A marquee selects every stroke
      that intersects it, in index order, and the first of them becomes the target;
      otherwise a drag ends, and a gesture of more than two points is processed. */
  function Released(t: Trig, measure: TextMeasure, tool: Tool, s: Settings, sc: Scene): Scene
  {
    if sc.isMarqueeSelecting then
      var sel := MarqueeSelection(measure, sc.strokes, MarqueeExtent(sc.marqueeStart, sc.marqueeEnd));
      sc.(isMarqueeSelecting := false, selectedIndices := sel,
          transform := if |sel| > 0 then sc.transform.(targetIndex := sel[0]) else sc.transform)
    else
      var tr := if sc.transform.isDragging then sc.transform.(isDragging := false, action := None) else sc.transform;
      if sc.isDrawing then
        sc.(transform := tr, isDrawing := false, points := [],
            strokes := if |sc.points| > 2 then sc.strokes + DrawnStrokes(t, tool, s, sc.points) else sc.strokes)
      else sc.(transform := tr)
  }

  /** Pointer moves keep the scene valid. */
  lemma MoveKeepsValid(t: Trig, sc: Scene, p: Point)
    requires SceneValid(sc)
    ensures SceneValid(PointerMoved(t, sc, p))
  {
  }

  /** Releasing keeps the scene valid. */
  lemma ReleaseKeepsValid(t: Trig, measure: TextMeasure, tool: Tool, s: Settings, sc: Scene)
    requires SceneValid(sc)
    ensures SceneValid(Released(t, measure, tool, s, sc))
  {
    if sc.isMarqueeSelecting {
      var sel := MarqueeSelection(measure, sc.strokes, MarqueeExtent(sc.marqueeStart, sc.marqueeEnd));
      MarqueeSelectionIsExact(measure, sc.strokes, MarqueeExtent(sc.marqueeStart, sc.marqueeEnd));
      forall k | 0 <= k < |sel|
        ensures sel[k] >= 0
      {
        assert sel[k] in sel;
      }
    }
  }

  /** Releasing a marquee selects exactly the strokes that intersect it, and the
      target becomes the lowest of them; with none, the target stays. */
  lemma MarqueeReleaseSelectsIntersecting(t: Trig, measure: TextMeasure, tool: Tool, s: Settings, sc: Scene)
    requires sc.isMarqueeSelecting
    ensures var r := Released(t, measure, tool, s, sc);
      var m := MarqueeExtent(sc.marqueeStart, sc.marqueeEnd);
      && !r.isMarqueeSelecting && r.strokes == sc.strokes
      && (forall i :: i in r.selectedIndices <==> 0 <= i < |sc.strokes| && Intersects(StrokeBounds(measure, sc.strokes[i]), m))
      && (r.selectedIndices == [] ==> r.transform == sc.transform)
      && (r.selectedIndices != [] ==>
            r.transform.targetIndex in r.selectedIndices && forall i :: i in r.selectedIndices ==> r.transform.targetIndex <= i)
  {
    var r := Released(t, measure, tool, s, sc);
    var m := MarqueeExtent(sc.marqueeStart, sc.marqueeEnd);
    MarqueeSelectionIsExact(measure, sc.strokes, m);
    if r.selectedIndices != [] {
      forall i | i in r.selectedIndices
        ensures r.transform.targetIndex <= i
      {
        var k :| 0 <= k < |r.selectedIndices| && r.selectedIndices[k] == i;
        assert k == 0 || r.selectedIndices[0] < r.selectedIndices[k];
      }
    }
  }

  /** While a gesture is in progress, each pointer move appends its point. */
  lemma {:induction false} DrawingMovesCollectPoints(t: Trig, sc: Scene, ps: seq<Point>)
    requires sc.isDrawing && !sc.isMarqueeSelecting && !(sc.transform.isDragging && sc.transform.targetIndex != -1)
    ensures PointerMovedAll(t, sc, ps) == sc.(points := sc.points + ps)
  {
    if ps != [] {
      var init := ps[..|ps| - 1];
      DrawingMovesCollectPoints(t, sc, init);
      assert sc.points + init + [ps[|ps| - 1]] == sc.points + ps;
    }
  }

  /** A drawing gesture (press, moves, release) adds at most the one stroke its
      points make, and it is a single undo step: one undo restores the strokes as
      they were before the press. */
  lemma StrokeGestureIsOneUndoStep(t: Trig, measure: TextMeasure, tool: Tool, s: Settings, sc: Scene, p: Point, ps: seq<Point>)
    requires SceneValid(sc) && IsDrawingTool(tool) && tool != EraserTool
    requires HandleUnder(t, measure, sc, p).None?
    requires !sc.isMarqueeSelecting && !(sc.transform.isDragging && sc.transform.targetIndex != -1)
    ensures var r := Released(t, measure, tool, s, PointerMovedAll(t, CanvasPress(t, measure, tool, sc, p), ps));
      && r.strokes == sc.strokes + (if |ps| >= 2 then DrawnStrokes(t, tool, s, [p] + ps) else [])
      && H.Undo(SceneTimeline(r)).present == sc.strokes
      && !r.isDrawing && r.points == []
  {
    var pressed := CanvasPress(t, measure, tool, sc, p);
    assert pressed == DrawPress(sc, p);
    DrawingMovesCollectPoints(t, pressed, ps);
    var moved := PointerMovedAll(t, pressed, ps);
    assert moved.points == [p] + ps;
    assert moved.historyStack == H.CappedPush(sc.historyStack, sc.strokes);
  }

  class Document {
    /** The floating-point library and the canvas's text measurement. */
    const trig: Trig
    const measure: TextMeasure

    var strokes: seq<Stroke>
    var historyStack: seq<seq<Stroke>>
    var redoStack: seq<seq<Stroke>>
    var cameraOffset: Point
    var cameraZoom: real
    var selectedIndices: seq<int>
    var transform: TransformState
    var tool: Tool
    var locked: bool
    var isDrawing: bool
    var isPanning: bool
    var isMarqueeSelecting: bool
    var marqueeStart: Point
    var marqueeEnd: Point
    var points: seq<Point>
    var lastPointerPos: Point
    var settings: Settings

    /** The zoom stays in its clamp range and the scene is valid. */
    predicate Valid()
      reads this
    {
      MinZoom <= cameraZoom <= MaxZoom && SceneValid(Now())
    }

    /** The current scene. */
    function Now(): Scene
      reads this`strokes, this`historyStack, this`redoStack, this`selectedIndices, this`transform,
            this`isDrawing, this`points, this`isMarqueeSelecting, this`marqueeStart, this`marqueeEnd
    {
      Scene(strokes, historyStack, redoStack, selectedIndices, transform,
            isDrawing, points, isMarqueeSelecting, marqueeStart, marqueeEnd)
    }

    function Cam(): Camera
      reads this`cameraOffset, this`cameraZoom
    {
      Camera(cameraOffset, cameraZoom)
    }

    function Timeline(): H.History<seq<Stroke>>
      reads this`strokes, this`historyStack, this`redoStack
    {
      H.History(strokes, historyStack, redoStack)
    }

    constructor (trig: Trig, measure: TextMeasure)
      ensures Valid()
      ensures this.trig == trig && this.measure == measure
      ensures strokes == [] && historyStack == [] && redoStack == []
      ensures Cam() == Camera(Point(0.0, 0.0), 1.0)
      ensures selectedIndices == [] && transform == IdleTransform
      ensures tool == PenTool && !locked && settings == DefaultSettings
      ensures !isDrawing && !isPanning && !isMarqueeSelecting && points == []
    {
      this.trig := trig;
      this.measure := measure;
      strokes := [];
      historyStack := [];
      redoStack := [];
      cameraOffset := Point(0.0, 0.0);
      cameraZoom := 1.0;
      selectedIndices := [];
      transform := IdleTransform;
      tool := PenTool;
      locked := false;
      isDrawing := false;
      isPanning := false;
      isMarqueeSelecting := false;
      marqueeStart := Point(0.0, 0.0);
      marqueeEnd := Point(0.0, 0.0);
      points := [];
      lastPointerPos := Point(0.0, 0.0);
      settings := DefaultSettings;
    }

    // -------------------------------------------------------------------------
    // History.

    /** saveState: push a copy of the strokes, drop the oldest past 50, clear redo. */
    method SaveState()
      requires Valid()
      modifies this`historyStack, this`redoStack
      ensures Valid()
      ensures Timeline() == H.Save(old(Timeline()))
    {
      historyStack := historyStack + [strokes];
      if |historyStack| > H.HistoryCap {
        historyStack := historyStack[1..];
      }
      redoStack := [];
    }

    /** undo: nothing without history; else the strokes go to the redo stack and
        the top snapshot comes back. The selection and the target are untouched. */
    method Undo()
      requires Valid()
      modifies this`strokes, this`historyStack, this`redoStack
      ensures Valid()
      ensures Timeline() == H.Undo(old(Timeline()))
    {
      if |historyStack| == 0 {
        return;
      }
      redoStack := redoStack + [strokes];
      strokes := historyStack[|historyStack| - 1];
      historyStack := historyStack[..|historyStack| - 1];
    }

    /** redo: the mirror image of undo. */
    method Redo()
      requires Valid()
      modifies this`strokes, this`historyStack, this`redoStack
      ensures Valid()
      ensures Timeline() == H.Redo(old(Timeline()))
    {
      if |redoStack| == 0 {
        return;
      }
      historyStack := historyStack + [strokes];
      strokes := redoStack[|redoStack| - 1];
      redoStack := redoStack[..|redoStack| - 1];
    }

    // -------------------------------------------------------------------------
    // Keyboard and toolbar.

    predicate CanDelete()
      reads this`transform, this`isDrawing, this`tool
    {
      transform.targetIndex != -1 && !isDrawing && !transform.isDragging && tool == MoveTool
    }

    /** The Delete and Backspace keys: with the move tool, a target and no gesture
        in progress, save, splice the target out and clear the target. */
    method DeleteTarget()
      requires Valid()
      modifies this`strokes, this`historyStack, this`redoStack, this`transform
      ensures Valid()
      ensures old(CanDelete()) ==>
        && Timeline() == H.Save(old(Timeline())).(present := RemoveAt(old(strokes), old(transform.targetIndex)))
        && transform == old(transform).(targetIndex := -1)
      ensures !old(CanDelete()) ==> unchanged(this)
    {
      if CanDelete() {
        SaveState();
        strokes := RemoveAt(strokes, transform.targetIndex);
        transform := transform.(targetIndex := -1);
      }
    }

    /** setTool: ignored while locked; otherwise switch and clear the target. */
    method SetTool(t: Tool)
      requires Valid()
      modifies this`tool, this`transform
      ensures Valid()
      ensures old(locked) ==> unchanged(this)
      ensures !old(locked) ==> tool == t && transform == old(transform).(targetIndex := -1)
    {
      if locked {
        return;
      }
      tool := t;
      transform := transform.(targetIndex := -1);
    }

    method ToggleLock()
      requires Valid()
      modifies this`locked
      ensures Valid()
      ensures locked == !old(locked)
    {
      locked := !locked;
    }

    // -------------------------------------------------------------------------
    // Camera.

    /** adjustZoom: clamp the new zoom to [0.1, 5] and keep the world point under
        the anchor where it is on screen. */
    method AdjustZoom(delta: real, center: Point)
      requires Valid()
      modifies this`cameraOffset, this`cameraZoom
      ensures Valid()
      ensures Cam() == ZoomAt(old(Cam()), delta, center)
      ensures ToWorldPos(Cam(), center) == old(ToWorldPos(Cam(), center))
    {
      var worldBefore := ToWorldPos(Cam(), center);
      cameraZoom := ClampZoom(cameraZoom + delta);
      cameraOffset := Point(center.x - worldBefore.x * cameraZoom, center.y - worldBefore.y * cameraZoom);
    }

    /** onWheel: a wheel step of deltaY zooms by -deltaY / 1000 at the pointer. */
    method Wheel(deltaY: real, screen: Point)
      requires Valid()
      modifies this`cameraOffset, this`cameraZoom
      ensures Valid()
      ensures Cam() == ZoomAt(old(Cam()), deltaY * -0.001, screen)
    {
      AdjustZoom(deltaY * -0.001, screen);
    }

    // -------------------------------------------------------------------------
    // Editing strokes in place.

    /** moveStroke: translate the stroke at idx, if there is one. */
    method MoveStroke(idx: int, dx: real, dy: real)
      modifies this`strokes
      ensures strokes == ApplyAt(old(strokes), idx, MoveBy(dx, dy))
    {
      if !(0 <= idx < |strokes|) {
        return;
      }
      strokes := strokes[idx := Translated(strokes[idx], dx, dy)];
    }

    /** The forEach of a drag over several indices. */
    method ApplyToEach(idxs: seq<int>, e: Edit)
      modifies this`strokes
      ensures strokes == ApplyEach(old(strokes), idxs, e)
    {
      var k := 0;
      while k < |idxs|
        invariant 0 <= k <= |idxs|
        invariant strokes == ApplyEach(old(strokes), idxs[..k], e)
      {
        assert idxs[..k + 1][..k] == idxs[..k];
        var i := idxs[k];
        if e.MoveBy? {
          MoveStroke(i, e.dx, e.dy);
        } else if 0 <= i < |strokes| {
          strokes := strokes[i := ApplyEdit(e, strokes[i])];
        }
        k := k + 1;
      }
      assert idxs[..|idxs|] == idxs;
    }

    /** processDrawing: add the stroke the finished gesture makes, if any. */
    method ProcessDrawing(pts: seq<Point>)
      requires |pts| > 0
      modifies this`strokes
      ensures strokes == old(strokes) +
        match DrawnData(trig, tool, settings, pts)
        case Some(d) => [NewStroke(d, settings.color, settings.strokeWidth)]
        case None => []
    {
      if tool == BrushTool {
        strokes := strokes + [NewStroke(Brush(pts), settings.color, settings.strokeWidth)];
        return;
      }
      var shape := Recognize(trig, pts, tool, settings.lineSnap);
      if shape.Some? {
        strokes := strokes + [NewStroke(Shape(shape.value), settings.color, settings.strokeWidth)];
      } else if tool == PenTool {
        if settings.shapeRecognition {
          var detected := DetectFreehandShape(trig, pts);
          if detected.Some? {
            strokes := strokes + [NewStroke(Shape(detected.value), settings.color, settings.strokeWidth)];
            return;
          }
        }
        strokes := strokes + [NewStroke(Path(pts), settings.color, settings.strokeWidth)];
      }
    }

    // -------------------------------------------------------------------------
    // Text overlays (their end effects).

    /** The new-text overlay closing with `text`: unless it is blank, save and add a
        text stroke at the clicked world point. */
    method CommitNewText(p: Point, text: string)
      requires Valid()
      modifies this`strokes, this`historyStack, this`redoStack
      ensures Valid()
      ensures IsBlank(text) ==> unchanged(this)
      ensures !IsBlank(text) ==> Timeline() == H.Save(old(Timeline())).(present := old(strokes) + [TypedText(p, text, settings)])
    {
      if IsBlank(text) {
        return;
      }
      SaveState();
      strokes := strokes + [TypedText(p, text, settings)];
    }

    /** The edit overlay of the text stroke at index closing with `text`: save, then
        replace its text, or splice it out when the new text is blank. An index that
        names no text stroke opens no overlay. */
    method CommitTextEdit(index: nat, text: string)
      requires Valid()
      modifies this`strokes, this`historyStack, this`redoStack
      ensures Valid()
      ensures !(index < |old(strokes)| && old(strokes)[index].data.Text?) ==> unchanged(this)
      ensures index < |old(strokes)| && old(strokes)[index].data.Text? ==>
        && historyStack == H.Save(old(Timeline())).undo && redoStack == []
        && strokes == (if IsBlank(text) then RemoveAt(old(strokes), index)
                       else old(strokes)[index := old(strokes)[index].(data := old(strokes)[index].data.(text := text))])
    {
      if !(index < |strokes| && strokes[index].data.Text?) {
        return;
      }
      SaveState();
      if IsBlank(text) {
        strokes := RemoveAt(strokes, index);
      } else {
        var s := strokes[index];
        strokes := strokes[index := s.(data := s.data.(text := text))];
      }
    }

    // -------------------------------------------------------------------------
    // Pointer down.

    method BeginHandleDrag(world: Point, h: Handle)
      requires Valid() && 0 <= transform.targetIndex < |strokes|
      modifies this`historyStack, this`redoStack, this`transform
      ensures Now() == GrabHandle(trig, measure, old(Now()), world, h)
    {
      SaveState();
      transform := GrabbedTransform(trig, measure, transform, strokes[transform.targetIndex], world, h);
    }

    method PressWithMoveTool(world: Point)
      requires Valid()
      modifies this`historyStack, this`redoStack, this`selectedIndices, this`transform,
               this`isMarqueeSelecting, this`marqueeStart, this`marqueeEnd
      ensures Now() == MovePress(trig, measure, old(Now()), world)
    {
      var hit := DetectHit(trig, measure, strokes, world);
      if hit != -1 {
        SaveState();
        if hit !in selectedIndices {
          selectedIndices := [hit];
        }
        transform := transform.(targetIndex := hit, isDragging := true, action := Some(MoveAction), startPos := world);
      } else {
        selectedIndices := [];
        transform := transform.(targetIndex := -1);
        isMarqueeSelecting := true;
        marqueeStart := world;
        marqueeEnd := world;
      }
    }

    method PressWithEraser(world: Point)
      requires Valid()
      modifies this`strokes, this`historyStack, this`redoStack
      ensures Now() == ErasePress(trig, measure, old(Now()), world)
    {
      var hit := DetectHit(trig, measure, strokes, world);
      if hit != -1 {
        SaveState();
        strokes := RemoveAt(strokes, hit);
      }
    }

    method PressWithPenOrShape(world: Point)
      requires Valid()
      modifies this`historyStack, this`redoStack, this`isDrawing, this`points
      ensures Now() == DrawPress(old(Now()), world)
    {
      SaveState();
      isDrawing := true;
      points := [world];
    }

    /** A press where no handle of the target is under the pointer: the tool acts. */
    method PressWithTool(p: Point)
      requires Valid()
      modifies this`strokes, this`historyStack, this`redoStack, this`selectedIndices, this`transform,
               this`isDrawing, this`points, this`isMarqueeSelecting, this`marqueeStart, this`marqueeEnd
      ensures Now() == ToolPress(trig, measure, old(tool), old(Now()), p)
    {
      if tool == MoveTool {
        PressWithMoveTool(p);
      } else if tool == EraserTool {
        PressWithEraser(p);
      } else if IsDrawingTool(tool) {
        PressWithPenOrShape(p);
      }
    }

    /** The part of onPointerDown after the text and pan cases. */
    method PressOnCanvas(p: Point)
      requires Valid()
      modifies this`strokes, this`historyStack, this`redoStack, this`selectedIndices, this`transform,
               this`isDrawing, this`points, this`isMarqueeSelecting, this`marqueeStart, this`marqueeEnd
      ensures Valid()
      ensures Now() == CanvasPress(trig, measure, old(tool), old(Now()), p)
    {
      ghost var before := Now();
      PressKeepsValid(trig, measure, tool, before, p);
      if 0 <= transform.targetIndex < |strokes| {
        var handle := DetectHandleHit(trig, measure, p, strokes[transform.targetIndex]);
        if handle.Some? {
          BeginHandleDrag(p, handle.value);
          return;
        }
      }
      assert HandleUnder(trig, measure, before, p).None?;
      PressWithTool(p);
    }

    /** onPointerDown at a screen point with a mouse button (1 is the middle one).
        While locked only panning starts; the text tool opens an overlay (whose
        end effects are CommitNewText and CommitTextEdit); the hand tool and the
        middle button pan; everything else is CanvasPress at the world point. */
    method PointerDown(screen: Point, button: int) returns (overlay: Overlay)
      requires Valid()
      modifies this`strokes, this`historyStack, this`redoStack, this`selectedIndices, this`transform,
               this`isDrawing, this`points, this`isMarqueeSelecting, this`marqueeStart, this`marqueeEnd,
               this`isPanning, this`lastPointerPos
      ensures Valid()
      ensures old(locked) || old(tool) == TextTool || old(tool) == HandTool || button == 1 ==>
        && isPanning == (old(isPanning) || ((old(locked) || old(tool) != TextTool) && (old(tool) == HandTool || button == 1)))
        && Now() == old(Now())
      ensures old(locked) ==> lastPointerPos == (if old(tool) == HandTool || button == 1 then screen else old(lastPointerPos))
      ensures !old(locked) ==> lastPointerPos == screen
      ensures overlay == (if !old(locked) && old(tool) == TextTool
                          then TextOverlay(trig, measure, old(strokes), old(ToWorldPos(Cam(), screen)))
                          else NoOverlay)
      ensures !old(locked) && old(tool) != TextTool && old(tool) != HandTool && button != 1 ==>
        && Now() == CanvasPress(trig, measure, old(tool), old(Now()), old(ToWorldPos(Cam(), screen)))
        && isPanning == old(isPanning)
    {
      overlay := NoOverlay;
      if locked {
        if tool == HandTool || button == 1 {
          isPanning := true;
          lastPointerPos := screen;
        }
        return;
      }
      var world := ToWorldPos(Cam(), screen);
      lastPointerPos := screen;
      if tool == TextTool {
        var hit := DetectHit(trig, measure, strokes, world);
        if hit != -1 && strokes[hit].data.Text? {
          overlay := EditText(hit);
        } else {
          overlay := NewText(world);
        }
        return;
      }
      if tool == HandTool || button == 1 {
        isPanning := true;
        return;
      }
      PressOnCanvas(world);
    }

    // -------------------------------------------------------------------------
    // Pointer move.

    /** One event of a transform drag on the target at the world point. */
    method DragStep(world: Point)
      requires 0 <= transform.targetIndex < |strokes|
      modifies this`strokes, this`transform
      ensures Now() == DragTo(trig, old(Now()), world)
    {
      var initial := transform.startValues;
      match transform.action {
        case None =>
        case Some(MoveAction) =>
          var dx := world.x - transform.startPos.x;
          var dy := world.y - transform.startPos.y;
          ApplyToEach(DragIndices(Now()), MoveBy(dx, dy));
          transform := transform.(startPos := world);
        case Some(RotateAction) =>
          var angle := trig.atan2(world.y - initial.cy, world.x - initial.cx);
          ApplyToEach(DragIndices(Now()), RotateBy(angle - transform.initialMouseAngle));
        case Some(ResizeAction) =>
          var dist := trig.hypot(world.x - initial.cx, world.y - initial.cy);
          var ratio := dist / OrElse(transform.initialMouseDist, 1.0);
          if |selectedIndices| > 1 {
            ApplyToEach(selectedIndices, ScaleAxesBy(ratio));
            return;
          }
          var s := strokes[transform.targetIndex];
          strokes := strokes[transform.targetIndex := ResizeStroke(s, initial, ratio)];
      }
    }

    /** onPointerMove at a screen point: panning moves the camera by the pointer's
        screen motion; otherwise, unless locked, the scene follows PointerMoved at
        the world point. */
    method PointerMove(screen: Point)
      requires Valid()
      modifies this`strokes, this`transform, this`marqueeEnd, this`points, this`cameraOffset, this`lastPointerPos
      ensures Valid()
      ensures lastPointerPos == screen
      ensures old(isPanning) ==>
        Cam() == Panned(old(Cam()), screen.x - old(lastPointerPos.x), screen.y - old(lastPointerPos.y)) && Now() == old(Now())
      ensures !old(isPanning) ==> Cam() == old(Cam())
      ensures !old(isPanning) && old(locked) ==> Now() == old(Now())
      ensures !old(isPanning) && !old(locked) ==> Now() == PointerMoved(trig, old(Now()), old(ToWorldPos(Cam(), screen)))
    {
      var world := ToWorldPos(Cam(), screen);
      if isPanning {
        var dx := screen.x - lastPointerPos.x;
        var dy := screen.y - lastPointerPos.y;
        cameraOffset := Point(cameraOffset.x + dx, cameraOffset.y + dy);
        lastPointerPos := screen;
        return;
      }
      lastPointerPos := screen;
      if locked {
        return;
      }
      ghost var before := Now();
      if transform.isDragging && transform.targetIndex != -1 {
        if !(0 <= transform.targetIndex < |strokes|) {
          return;
        }
        DragStep(world);
      } else if isMarqueeSelecting {
        marqueeEnd := world;
      } else if isDrawing {
        points := points + [world];
      }
      MoveKeepsValid(trig, before, world);
    }

    // -------------------------------------------------------------------------
    // Pointer up.

    /** End a marquee: select every stroke that intersects it, in index order, and
        make the first of them the target. */
    method FinishMarquee()
      requires isMarqueeSelecting
      modifies this`isMarqueeSelecting, this`selectedIndices, this`transform
      ensures Now() == Released(trig, measure, tool, settings, old(Now()))
    {
      isMarqueeSelecting := false;
      var m := MarqueeExtent(marqueeStart, marqueeEnd);
      var sel := SelectInMarquee(measure, strokes, m);
      selectedIndices := sel;
      if |sel| > 0 {
        transform := transform.(targetIndex := sel[0]);
      }
    }

    /** End a drag and a gesture in progress. */
    method FinishGesture()
      requires !isMarqueeSelecting
      modifies this`transform, this`isDrawing, this`strokes, this`points
      ensures Now() == Released(trig, measure, tool, settings, old(Now()))
    {
      if transform.isDragging {
        transform := transform.(isDragging := false, action := None);
      }
      if isDrawing {
        isDrawing := false;
        if |points| > 2 {
          ProcessDrawing(points);
        }
        points := [];
      }
    }

    /** onPointerUp: a pan ends; otherwise, unless locked, the scene follows Released. */
    method PointerUp()
      requires Valid()
      modifies this`isPanning, this`isMarqueeSelecting, this`selectedIndices, this`transform,
               this`isDrawing, this`strokes, this`points
      ensures Valid()
      ensures old(isPanning) ==> !isPanning && Now() == old(Now())
      ensures !old(isPanning) && old(locked) ==> Now() == old(Now()) && !isPanning
      ensures !old(isPanning) && !old(locked) ==> Now() == Released(trig, measure, tool, settings, old(Now())) && !isPanning
    {
      if isPanning {
        isPanning := false;
        return;
      }
      if locked {
        return;
      }
      ghost var before := Now();
      if isMarqueeSelecting {
        FinishMarquee();
      } else {
        FinishGesture();
      }
      ReleaseKeepsValid(trig, measure, tool, settings, before);
    }
  }
}
