# Drawing canvas engine — a Dafny model

This project models the geometry and document-state engine of a single-page
drawing application (`app.js`). The engine keeps its state in a handful of
globals: the list of strokes, the undo and redo snapshot stacks, the camera
(offset and zoom), the selection, and the state of the current pointer gesture.
Pointer, wheel and keyboard handlers change that state.

A stroke is a freehand path, a brush trail, a text block or a shape. The shapes
are rectangle, diamond, circle, line, arrow and triangle.

The model is split into modules that follow the source:

- `Geometry`: points, min/max extents, `rotatePoint`, and the stretch and translate maps.
- `Strokes`: the stroke datatype, tools and text lines.
- `Bounds`: `getStrokeBounds`.
- `Camera`: `toWorldPos` and `adjustZoom`.
- `History`: `saveState`, `undo` and `redo` as a value-level timeline.
- `HitTest`: `detectHit` and `detectHandleHit`.
- `Recognizer`: `recognizeShape`.
- `Freehand`: `detectFreehandShape` and `detectCorners`.
- `Transform`: `moveStroke`, plus the rotate and resize branches of a drag.
- `Selection`: the marquee pass.
- `Document`: the global state as a `Document` class, with the handlers as methods.

The source changes state in place, so the model does too. `Document.Document`
holds the globals as fields. Each handler is a method with field-level
`modifies` frames. Each method is proved against a specification function over
the `Scene` value, which is the part of the state a gesture may change:

- `CanvasPress` for a pointer press on the canvas;
- `PointerMoved` for a pointer move;
- `Released` for a pointer release;
- `History.Save`, `History.Undo` and `History.Redo` for the timeline
  (the present strokes, the undo stack and the redo stack).

The lemmas about those functions state what a gesture does:

- the scene stays valid;
- the eraser removes exactly the topmost hit stroke;
- a move press picks the topmost stroke or starts a marquee;
- a whole drawing gesture adds at most one stroke and is undone by one undo.

Loops in the source are methods with loop invariants, proved equal to the
functions the lemmas speak about. These include:

- the min/max scans;
- the reverse hit scan;
- the handle scan;
- the marquee scan;
- the corner scan with its skip-ahead index;
- the distance sums of the freehand classifier;
- the path-length reduction;
- applying a move, rotation or scale to each selected stroke.

Numbers are `real`. The floating-point library (`Math.cos`, `sin`, `atan2`,
`hypot`, `sqrt`, `PI`) is a record of uninterpreted functions, `Geometry.Trig`.
Canvas text measurement is a function parameter, `Strokes.TextMeasure`. A few
lemmas assume the one law of `hypot` they need (`HypotExact`).

Where the source compares a `hypot` with a constant, the model compares squared
distances. `CloserThanIsHypot` and `FartherThanIsHypot` prove the two
comparisons equivalent under `HypotExact`.

JavaScript's `v || d` on numbers is `OrElse(v, d)`: a zero or missing value
falls back to the default.

Not guaranteed, as in the source: `undo` and `redo` leave `selectedIndices` and
`transformState.targetIndex` untouched. The target may therefore name a stroke
that no longer exists, or a different one. The Delete key resets the target to
-1. `Document.Document.Valid` therefore bounds the target only from below (by
-1), and the selection only by its order and sign. Every handler guards its use
of the target by its index check, as the source does.

## Model

| member | source | states |
|---|---|---|
| Geometry.CloserThanIsHypot | app.js:1337 | comparing squared distance with k² decides `hypot(...) < k` exactly, given an exact hypot |
| Geometry.FartherThanIsHypot | app.js:963-964 | comparing squared distance with k² decides `hypot(...) > k` exactly, given an exact hypot |
| Geometry.RotationKeepsDistance | app.js:359-368 | rotating a point about a centre keeps its distance to the centre, when cos²+sin² = 1 |
| Geometry.RotationByZero | app.js:359-368 | rotation by angle 0 leaves the point where it is |
| Geometry.ExtentEncloses | app.js:332-337 | every point lies inside the min/max extent of the points |
| Geometry.ExtentAttained | app.js:332-337 | each of the four extent bounds is attained by some point |
| Geometry.ExtentDependsOnlyOnPoints | app.js:977-983 | two non-empty point lists with the same points have the same extent, whatever the order or repetition |
| Geometry.ExtentOfReverse | app.js:977-983 | reversing the point list keeps the extent |
| Geometry.ScanExtent | app.js:332-337 | the min/max accumulator loop computes the extent of the points |
| Geometry.ExtentOfTranslated | app.js:1284 | translating every point translates the extent by the same offset |
| Geometry.ExtentOfStretchX | app.js:596-598 | stretching x about an anchor by a non-negative ratio stretches the extent's x-range the same way |
| Geometry.ExtentOfStretchY | app.js:599-602 | the same for y |
| Strokes.Lines | app.js:282 | splitting text on newline gives one more line than there are newlines, none of them holding a newline |
| Strokes.LinesJoinBack | app.js:282 | joining the lines with newlines gives back the text |
| Bounds.StrokeBounds | app.js:274-346 | the box of any stroke is defined (total) and its centre is its midpoint `(x+w/2, y+h/2)` |
| Bounds.GetStrokeBounds | app.js:330-343 | the method with the min/max scan over path points returns the box the function defines |
| Bounds.EmptyPathBounds | app.js:331 | an empty path or brush has the zero box |
| Bounds.RectangleBounds | app.js:300-302 | a rectangle or diamond's box is its stored x, y, w, h with centre (x+w/2, y+h/2) |
| Bounds.CircleBounds | app.js:303-306 | a circle's box is (cx-r, cy-r, 2r, 2r) with centre (cx, cy) |
| Bounds.PathBoundsEnvelope | app.js:330-343 | a non-empty path or brush box has w, h ≥ 0, encloses every point, and each edge touches a point |
| Bounds.SegmentBoundsEnvelope | app.js:307-313 | a line or arrow box has w, h ≥ 0, encloses both endpoints, and is centred on the midpoint |
| Bounds.TriangleBoundsFromVertices | app.js:314-328 | a triangle's box is computed from its live vertices only (the cached x, y, w, h do not matter) and encloses all three |
| Bounds.WidestLine | app.js:286-290 | the loop over the lines keeps the widest measured width, starting from 0 |
| Bounds.MaxLineWidthBounds | app.js:285-290 | the width measured for text is ≥ 0, at least the width of every line, and is either 0 or the width of one of the lines (the widest) |
| Bounds.TextBounds | app.js:277-297 | a text box starts at x, ends at the baseline y, is 1.2·size tall per line (size 24 when unset), and is exactly as wide as its widest line (or 0) |
| Camera.ScreenWorldRoundTrip | app.js:352-357 | screen→world and world→screen are inverse at any non-zero zoom |
| Camera.ClampZoom | app.js:698 | the clamped zoom lies in [0.1, 5] and equals the input when that lies in range |
| Camera.ZoomAt | app.js:695-700 | the new zoom is the old zoom plus delta clamped to [0.1, 5], and the world point under the anchor is unchanged, for any delta |
| Camera.ZoomAtBoundIsIdempotent | app.js:698-700 | zooming further in at the maximum (or out at the minimum) changes nothing |
| Camera.Panned | app.js:484-489 | panning keeps the zoom and shifts every world point's screen position by (dx, dy) |
| History.CappedPush | app.js:243-244 | pushing onto a stack of at most 50 keeps at most 50, puts the new entry on top, keeps the newest entries, and drops nothing below the cap |
| History.Save | app.js:242-247 | saving pushes the present strokes onto the capped undo stack, keeps the present, and empties the redo stack |
| History.Undo | app.js:249-255 | with an empty undo stack nothing changes; otherwise the top snapshot becomes the present and the old present is pushed on the redo stack |
| History.Redo | app.js:257-263 | the mirror image of undo |
| History.OperationsKeepBounded | app.js:242-263 | save, undo and redo keep the two stacks' combined size within 50 |
| History.RedoAfterUndo | app.js:249-263 | undo followed by redo restores the strokes and both stacks |
| History.UndoAfterRedo | app.js:249-263 | redo followed by undo restores the strokes and both stacks |
| History.UndoRedoUndo | app.js:249-263 | undo, redo, undo is the same as one undo, including on an empty stack |
| History.UndoAfterSave | app.js:242-255 | undoing right after a save returns to the saved strokes, and the redo stack holds exactly the present |
| History.PushAllKeepsNewest | app.js:243-244 | any run of saves leaves the newest 50 snapshots in order |
| HitTest.TopmostHitBelowIsTopmost | app.js:1289-1303 | the hit found below n hits the point and no later stroke below n does |
| HitTest.LaterStrokeWins | app.js:1288-1303 | when two strokes contain the point, the later one (or a later still) is reported |
| HitTest.DetectHit | app.js:1288-1303 | the reverse scan returns the highest index whose local-frame box contains the point, or -1 when none does |
| HitTest.HitsIgnoresAxisScales | app.js:1296 | hit testing ignores scaleX and scaleY and uses only the uniform scale |
| HitTest.UnrotatedHitIsBoxMembership | app.js:1293-1301 | for an unrotated stroke at scale 1 a hit is exactly membership of the bounding box |
| HitTest.NewStrokeHitIsBoxMembership | app.js:1293-1301 | a freshly drawn stroke (unrotated, scale 1) is hit exactly at the points of its box |
| HitTest.FirstHandleIsFirstNear | app.js:1330-1341 | the handle scan returns the first handle, in declaration order, within 15 of the point, and none only when no handle is |
| HitTest.DetectHandleHit | app.js:1306-1342 | the handle loop returns that first near handle, and a returned handle is within 15 of the point |
| Recognizer.MeasurePath | app.js:1043-1044 | the reduce loop sums the segment lengths of the polyline |
| Recognizer.Recognize | app.js:974-1050 | the method with its extent scan returns the shape the recognizer defines for the tool |
| Recognizer.BoxToolsGiveEnvelope | app.js:977-987 | the rectangle and diamond tools give the points' box: w, h ≥ 0, every point inside, each edge touching a point |
| Recognizer.CircleToolCoversPoints | app.js:988 | the circle tool centres on the points' box with radius half its larger side |
| Recognizer.EnvelopeShapesDependOnlyOnPoints | app.js:977-988 | rectangle, diamond and circle results depend only on the set of points |
| Recognizer.EnvelopeShapesIgnoreDirection | app.js:977-988 | reversing the drag gives the same rectangle, diamond or circle |
| Recognizer.TriangleFromDrag | app.js:989-1014 | for a drag of non-zero length the apex is the start, the base vertices are the end plus and minus half the drag vector turned a quarter, and the stored box is the points' box |
| Recognizer.HalfBaseIsQuarterTurn | app.js:996-1005 | the unit perpendicular times half the length is half the drag vector turned a quarter |
| Recognizer.RightAngledBase | app.js:1007-1011 | a base placed that way is centred on the end of the drag, at right angles to it and exactly as long |
| Recognizer.SnapKeepsLength | app.js:1020-1035 | line snapping keeps the line's length and leaves the end unsnapped, horizontal or vertical |
| Recognizer.UnsnappedLineJoinsEnds | app.js:1016-1038 | without snapping a line or arrow runs from the first to the last point |
| Recognizer.PathLengthNonNegative | app.js:1043-1044 | the polyline length is never negative |
| Recognizer.PenStraightensOnlyToChord | app.js:1042-1047 | the pen gives a shape iff the path has length and its chord exceeds 85% of it, and the shape is then the chord |
| Recognizer.OtherToolsRecognizeNothing | app.js:1049 | brush, eraser, move, hand and text recognise no shape |
| Freehand.Divide | app.js:900-903 | IEEE division: a number exactly when the divisor is non-zero, and then the true quotient |
| Freehand.DetectCorners | app.js:945-972 | the corner loop with its skip-ahead index returns the corners the corner function defines |
| Freehand.CornersFromExtends | app.js:950-969 | the scan only appends to the corners found so far |
| Freehand.CornersFromGood | app.js:950-969 | every corner the scan appends is a sharp turn at an interior point, more than 15% of the larger side from the previous corner |
| Freehand.DetectedCornersAreGood | app.js:945-972 | every detected corner is one of the points with a sharp turn, spaced from the corner before it |
| Freehand.SumDistances | app.js:886-889 | the accumulation loop sums the distances from the centre |
| Freehand.SumSquaredDeviations | app.js:893-897 | the accumulation loop sums the squared deviations from the mean distance |
| Freehand.FreehandShape | app.js:861-943 | a shape is recognised only from at least 12 points whose ends are close |
| Freehand.DetectFreehandShape | app.js:861-943 | the method returns the shape the classifier defines |
| Freehand.FreehandGuards | app.js:862-883 | fewer than 12 points, or a path whose ends are not close, gives no shape |
| Freehand.FreehandShapeGeometry | app.js:908-940 | a recognised shape is a rectangle on the points' box, a circle at its centre, or a triangle on the box whose vertices are detected corners (the third possibly the box's far corner) |
| Freehand.TriangleNeedsThreeOrTwoCorners | app.js:916-929 | a triangle comes from exactly three corners, or from two when the spread exceeds 0.2 |
| Transform.Translated | app.js:1251-1286 | moving keeps colour, width, rotation and all scales, keeps the kind, and leaves a brush stroke unchanged |
| Transform.MoveThenMoveBack | app.js:1251-1286 | moving by (dx, dy) and then by (-dx, -dy) restores the stroke |
| Transform.MoveShiftsBounds | app.js:1251-1286 | moving a non-brush stroke shifts its box and centre by (dx, dy) |
| Transform.MoveShiftsTextBounds | app.js:1279-1282 | moving a text stroke shifts its box by (dx, dy) |
| Transform.MoveShiftsShapeBounds | app.js:1255-1278 | moving a shape shifts its box by (dx, dy) |
| Transform.Rotated | app.js:517-520 | rotating changes only the rotation angle |
| Transform.RotationsAdd | app.js:519 | successive rotation steps add (damped by 0.1), and a step is undone by its opposite |
| Transform.RotationKeepsBounds | app.js:274-346 | the box of a stroke does not depend on its rotation |
| Transform.CaptureStart | app.js:413-430 | the start values hold the box's edges, size and centre at the press, the handle, the rotation and scales with the source's fallbacks (scaleX falls back to scale, then 1), the font size (24 when unset) of a text, the radius of a circle, the vertices of a triangle, and a copy of the points exactly for paths and brushes |
| Transform.ResizeKeepsKind | app.js:544-611 | resizing keeps colour, rotation and the kind of stroke |
| Transform.ResizeText | app.js:544-548 | a text's size becomes the start size (24 when unset) times the ratio, clamped to [12, 300]; the text and its anchor stay |
| Transform.ResizeCircle | app.js:550-551 | a circle's radius becomes the start radius (10 when unset) times the ratio, at least 5 |
| Transform.ResizeBoxEdge | app.js:552-559 | an edge handle on a rectangle or diamond sets that side to the start side (10 when unset) times the ratio, at least 10, and keeps the other side |
| Transform.ResizeBoxCorner | app.js:560-564 | a corner handle on a rectangle or diamond sets both sides to the start sides times the ratio |
| Transform.ResizePathScalesBothAxes | app.js:582-612 | a path or brush under a corner handle, or under an edge handle when no points were captured, gets both axis scales from the start scales times the ratio and keeps its points |
| Transform.ResizeClamps | app.js:544-581 | the resize step for every kind at once: colour, rotation and kind kept, the text size, circle radius and edge-resized side as above, within their clamps |
| Transform.SingleResizeIsFromStart | app.js:544-612 | a single-stroke resize works from the start values, so repeating the same step gives the same stroke |
| Transform.EdgeResizeRewritesPoints | app.js:584-607 | an edge handle on a path or brush rewrites the points stretched about the opposite edge and resets scaleX and scaleY to 1 |
| Transform.PathBoundsAreExtent | app.js:330-343 | a non-empty path's box is the box of its points' extent |
| Transform.StretchAllHorizontal | app.js:587-598 | the l handle stretches x about the box's right edge, the r handle about its left edge |
| Transform.StretchAllVertical | app.js:589-602 | the t handle stretches y about the box's bottom edge, the b handle about its top edge |
| Transform.EdgeStretchKeepsOppositeSide | app.js:584-607 | after an edge stretch by a non-negative ratio the opposite side of the box stays put and the dragged extent is scaled by the ratio |
| Transform.ScaleAxes | app.js:537-538 | a multi-select resize step keeps the data, rotation, scale, colour and width: only scaleX and scaleY change |
| Transform.CompoundIsPower | app.js:537-538 | n compounding steps multiply the (fallback 1) scale by the factor to the n-th power |
| Transform.ScaleAxesTimesPerAxis | app.js:533-539 | n steps compound each axis scale separately and leave the data untouched |
| Transform.MultiResizeCompounds | app.js:532-541 | multi-select resize compounds per event: after n moves each axis scale is its start value times (1+(ratio-1)·0.05)ⁿ |
| Transform.ApplyAt | app.js:1251-1253 | editing one index keeps the number of strokes, applies the edit to the stroke at that index and leaves every other stroke as it was, so an index out of range changes nothing |
| Transform.ApplyEach | app.js:507-508 | applying an edit to each listed index keeps the number of strokes |
| Transform.ApplyEachOnce | app.js:507-508 | for an increasing index list, each listed stroke is edited exactly once and every other stroke is untouched |
| Selection.MarqueeExtent | app.js:653-656 | the marquee rectangle is ordered and contains both corners |
| Selection.SelectedBelowIncreasing | app.js:659-667 | the selection below n is strictly increasing and within [0, n) |
| Selection.SelectedBelowMembers | app.js:659-667 | an index is selected below n exactly when its stroke's box strictly overlaps the marquee |
| Selection.SelectedBelowIsExact | app.js:659-667 | the selection below n is increasing and holds exactly the indices whose box strictly overlaps the marquee |
| Selection.MarqueeSelectionIsExact | app.js:659-667 | the same over all strokes |
| Selection.SelectInMarquee | app.js:659-667 | the forEach pass builds that selection, in increasing order |
| Selection.MarqueeIgnoresDirection | app.js:653-656 | dragging the marquee from either corner gives the same rectangle |
| Selection.ClickSelectsStrokesAroundPoint | app.js:653-667 | a marquee of zero size selects exactly the strokes whose box holds the point strictly inside |
| Document.RemoveAt | app.js:469 | splice(i, 1) removes element i and shifts the later ones down; past the end it changes nothing |
| Document.SafeTextColor | app.js:724-726 | typed text is never white on the light theme nor black or #333333 on the dark theme; otherwise it keeps the current colour |
| Document.TypedTextBox | app.js:752-758 | the box of committed text starts at the click's x, its bottom sits 0.8·size below the click, and it is one line height (1.2·size, with size 24 when unset) per line |
| Document.TypedTextHoldsClick | app.js:752-758 | with a positive font size the click lies inside the box of the text it placed |
| Document.TypedTextHitAtClick | app.js:752-758 | so the hit test finds the new text at the click that placed it |
| Document.DrawingToolsDraw | app.js:837-859 | processing a drawing adds a stroke exactly for the drawing tools other than the eraser |
| Document.DrawnDataByTool | app.js:837-859 | the brush keeps its points; the shape tools add the recognised shape; the pen keeps a path unless straightened or (with recognition on) classified |
| Document.ShortPenStrokesStayPaths | app.js:848-857 | a pen stroke of fewer than 12 points is a path or its chord, never a classified shape |
| Document.TextOverlay | app.js:385-394 | the text tool edits exactly when the topmost hit is a text stroke, and then edits that stroke; otherwise it opens new text at the click |
| Document.SavedEditIsUndoable | app.js:815-826 | a text commit made after a save is undone by one undo (restoring the stacks below the cap) and brought back by redo |
| Document.SaveScene | app.js:242-247 | saving the scene saves its timeline and changes nothing else |
| Document.GrabbedTransform | app.js:406-433 | grabbing a handle starts a drag (rotate for the rotation handle, resize otherwise) on the same target, at the press, with the start values captured then |
| Document.SaveKeepsValid | app.js:242-247 | saving keeps the scene valid |
| Document.GrabKeepsValid | app.js:403-436 | grabbing a handle of the target keeps the scene valid |
| Document.MovePressKeepsValid | app.js:439-461 | the move tool's press keeps the scene valid: the hit is a stroke index or -1 and the new selection is increasing |
| Document.ErasePressKeepsValid | app.js:465-473 | the eraser's press keeps the scene valid |
| Document.PressKeepsValid | app.js:403-477 | every canvas press keeps the scene valid |
| Document.PressErasesOnlyTopmost | app.js:464-473 | a press changes the strokes only with the eraser, off any handle, and then removes exactly the topmost hit stroke; one undo restores them |
| Document.MovePressPicksTopmost | app.js:439-461 | a move-tool press off a handle targets the topmost hit stroke, keeps it selected and starts a move drag; with no hit it clears the selection and starts a marquee at the press |
| Document.DrawnStrokes | app.js:837-859 | a drawing adds at most one stroke |
| Document.PointerMovedKeepsStart | app.js:497-617 | a pointer move keeps the start values, the initial distance and angle, the action, the target and the dragging flag |
| Document.PointerMovedAllKeepsStart | app.js:497-617 | so any run of moves keeps them as the press captured them |
| Document.MoveKeepsValid | app.js:497-629 | every pointer move keeps the scene valid |
| Document.ReleaseKeepsValid | app.js:649-687 | every release keeps the scene valid |
| Document.MarqueeReleaseSelectsIntersecting | app.js:649-676 | ending a marquee selects exactly the intersecting strokes and targets the first of them; with none selected the target is kept |
| Document.DrawingMovesCollectPoints | app.js:626-629 | while drawing, a run of moves appends each world position to the points and changes nothing else |
| Document.StrokeGestureIsOneUndoStep | app.js:464-477 | press, moves and release with a drawing tool add the processed stroke (when at least three points were taken), one undo restores the strokes, and the gesture state is reset |
| Document.Document.constructor | app.js:5-54 | the initial state: no strokes, empty stacks, identity camera, no selection, idle transform, the pen, unlocked, default settings |
| Document.Document.SaveState | app.js:242-247 | the timeline afterwards is `History.Save` of the timeline before, and the document stays valid |
| Document.Document.Undo | app.js:249-255 | the timeline afterwards is `History.Undo` of the timeline before |
| Document.Document.Redo | app.js:257-263 | the timeline afterwards is `History.Redo` of the timeline before |
| Document.Document.DeleteTarget | app.js:104-111 | with a target, the move tool and no gesture in progress, Delete saves, splices out the target and resets it to -1; otherwise nothing changes |
| Document.Document.SetTool | app.js:223-240 | when unlocked the tool changes and the target is reset to -1; when locked nothing changes; the document stays valid |
| Document.Document.ToggleLock | app.js:194-201 | the lock flips and the document stays valid |
| Document.Document.AdjustZoom | app.js:695-700 | the camera becomes `ZoomAt` of the old camera, so the zoom stays in [0.1, 5] and the world point under the centre is kept |
| Document.Document.Wheel | app.js:690-693 | the wheel zooms by deltaY·(-0.001) about the pointer |
| Document.Document.MoveStroke | app.js:1251-1286 | the stroke at idx is translated and no other stroke changes; an index out of range changes nothing |
| Document.Document.ApplyToEach | app.js:507-508 | the forEach over the indices applies the edit to each listed stroke in turn |
| Document.Document.ProcessDrawing | app.js:837-859 | the stroke processed from the points is appended with the current colour and width, or nothing is |
| Document.Document.CommitNewText | app.js:747-762 | blank text changes nothing; otherwise the document saves and appends the typed text stroke |
| Document.Document.CommitTextEdit | app.js:815-826 | on a text stroke the document saves, then replaces the text or splices the stroke out when the text is blank; otherwise nothing changes |
| Document.Document.BeginHandleDrag | app.js:403-436 | the scene becomes the handle-grab scene: saved, with a rotate or resize drag and its start values |
| Document.Document.PressWithMoveTool | app.js:439-461 | the scene becomes the move-press scene |
| Document.Document.PressWithEraser | app.js:465-473 | the scene becomes the eraser-press scene |
| Document.Document.PressWithPenOrShape | app.js:474-476 | the scene is saved and drawing starts with the press as the only point |
| Document.Document.PressWithTool | app.js:439-477 | with no handle under the pointer, the scene becomes `ToolPress`: the move, eraser or drawing press, or no change for other tools |
| Document.Document.PressOnCanvas | app.js:403-477 | the scene becomes `CanvasPress` of the scene before, and the document stays valid |
| Document.Document.PointerDown | app.js:371-478 | locked or hand presses only start panning; the text tool opens the overlay `TextOverlay` chooses; other presses act as `CanvasPress` at the world point; the last pointer position is updated as in the source |
| Document.Document.DragStep | app.js:497-617 | one drag step moves, rotates or resizes the dragged strokes as `DragTo` states |
| Document.Document.PointerMove | app.js:480-630 | panning pans the camera only; locked moves change nothing; otherwise the scene becomes `PointerMoved`; the last pointer position is always the new one |
| Document.Document.FinishMarquee | app.js:649-676 | ending a marquee makes the scene `Released` |
| Document.Document.FinishGesture | app.js:678-687 | ending a drag or drawing makes the scene `Released` |
| Document.Document.PointerUp | app.js:640-688 | release ends panning only; a locked release changes nothing; otherwise the scene becomes `Released` and the document stays valid |

## Left out

- DOM, canvas and window plumbing are not modelled: `init`, `resizeCanvas`, menus, `saveCanvas`, `updateHistoryUI`, cursor updates, and all of `main.js`. These are I/O and UI.
- `redraw` (app.js:1052-1249) only paints pixels and is not modelled.
- The toolbar setters are not operations here; `Settings` is a parameter of the document. These are the colour buttons, the hex input, stroke width, the text style toggles, the theme and transparency toggles, and the shape-recognition and line-snap switches.
- Floating point is not modelled. Numbers are exact reals, and IEEE special values appear only where the freehand classifier divides (`Freehand.Divide`). Signed zero, rounding and overflow to infinity are not modelled.
- The trigonometric functions, `hypot`, `sqrt` and `PI` are uninterpreted. The freehand circle, corner and triangle thresholds are therefore stated, not proved numerically accurate.
- Text measurement (`ctx.measureText`) is a function parameter. The `ctx.font` side effect of `getStrokeBounds` (app.js:279) is not modelled.
- `Recognizer.TriangleFromDrag`: the source divides by a zero drag length when the triangle tool is released where it started, giving NaN vertices. The model then places both base vertices at the end point, and the lemma covers only drags of non-zero length.
- Null or missing points inside a path, and missing shape fields other than the ones `||` falls back on, are not modelled. Every stroke is well formed.
- The JSON deep copy of `saveState` is value semantics of `seq<Stroke>` here.
- Text strokes have no `strokeWidth` in the source; the model stores 0.
- The text overlays (app.js:714-834) keep only their end effects: `CommitNewText` and `CommitTextEdit`, and which overlay a press opens (`TextOverlay`). These parts of the textarea lifecycle are left out:
  - Escape, which closes the overlay without committing;
  - the guard that allows only one overlay at a time;
  - focus and resizing.
- The new-text overlay fixes its colour when it opens. `CommitNewText` uses the settings current at commit.
- The edit overlay holds the stroke object. `CommitTextEdit` names it by index, assuming the strokes did not change while the overlay was open.
- `Document.Document.Valid`: it bounds the target index only from below. `undo` and `redo` leave the target and the selection stale, so no upper bound holds.
- The zoom buttons (app.js:146-148) call `adjustZoom` without a centre, so it falls back to the canvas centre. The canvas size is not modelled, and that centre is the `center` parameter of `AdjustZoom`.
- Cursor styling in `onPointerMove` (app.js:631-637) is not modelled.
