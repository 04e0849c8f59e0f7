/** Hit testing: which stroke is under a point (detectHit) and which transform
    handle of a stroke is near a point (detectHandleHit). */
module HitTest {
  import opened Geometry
  import opened Strokes
  import opened Bounds

  /** A point in a stroke's local frame: relative to the box centre, rotated back
      by the stroke's rotation and divided by its uniform scale. scaleX and
      scaleY play no part. */
  function LocalPoint(t: Trig, s: Stroke, b: Box, pos: Point): Point
  {
    var centered := Point(pos.x - b.cx, pos.y - b.cy);
    var rotated := RotatePoint(t, centered, Point(0.0, 0.0), -s.rotation);
    var scale := OrElse(s.scale, 1.0);
    Point(rotated.x / scale, rotated.y / scale)
  }

  /** The stroke's box, taken in its local frame, holds the point (edges included). */
  predicate Hits(t: Trig, measure: TextMeasure, s: Stroke, pos: Point)
  {
    var b := StrokeBounds(measure, s);
    var local := LocalPoint(t, s, b, pos);
    -(b.w / 2.0) <= local.x <= b.w / 2.0 && -(b.h / 2.0) <= local.y <= b.h / 2.0
  }

  /** The highest index below n whose stroke is hit, or -1. */
  function TopmostHitBelow(t: Trig, measure: TextMeasure, strokes: seq<Stroke>, pos: Point, n: nat): (r: int)
    requires n <= |strokes|
    ensures -1 <= r < n
  {
    if n == 0 then -1
    else if Hits(t, measure, strokes[n - 1], pos) then n - 1
    else TopmostHitBelow(t, measure, strokes, pos, n - 1)
  }

  function TopmostHit(t: Trig, measure: TextMeasure, strokes: seq<Stroke>, pos: Point): int
  {
    TopmostHitBelow(t, measure, strokes, pos, |strokes|)
  }

  /** The topmost hit is hit and nothing above it is; -1 means nothing is hit. */
  lemma {:induction false} TopmostHitBelowIsTopmost(t: Trig, measure: TextMeasure, strokes: seq<Stroke>, pos: Point, n: nat)
    requires n <= |strokes|
    ensures var r := TopmostHitBelow(t, measure, strokes, pos, n);
      && (r >= 0 ==> Hits(t, measure, strokes[r], pos))
      && (forall j :: r < j < n ==> !Hits(t, measure, strokes[j], pos))
  {
    if n > 0 && !Hits(t, measure, strokes[n - 1], pos) {
      TopmostHitBelowIsTopmost(t, measure, strokes, pos, n - 1);
    }
  }

  /** Of two strokes under the point, the later one (drawn on top) wins. */
  lemma LaterStrokeWins(t: Trig, measure: TextMeasure, strokes: seq<Stroke>, pos: Point, i: nat, j: nat)
    requires i < j < |strokes|
    requires Hits(t, measure, strokes[i], pos) && Hits(t, measure, strokes[j], pos)
    ensures TopmostHit(t, measure, strokes, pos) >= j
  {
    TopmostHitBelowIsTopmost(t, measure, strokes, pos, |strokes|);
  }

  /** detectHit: scan from the top of the z-order down, first hit wins. */
  method DetectHit(t: Trig, measure: TextMeasure, strokes: seq<Stroke>, pos: Point) returns (r: int)
    ensures r == TopmostHit(t, measure, strokes, pos)
    ensures -1 <= r < |strokes|
    ensures r >= 0 ==> Hits(t, measure, strokes[r], pos)
    ensures forall j :: r < j < |strokes| ==> !Hits(t, measure, strokes[j], pos)
  {
    var i := |strokes| - 1;
    while i >= 0
      invariant -1 <= i < |strokes|
      invariant TopmostHitBelow(t, measure, strokes, pos, i + 1) == TopmostHit(t, measure, strokes, pos)
      invariant forall j :: i < j < |strokes| ==> !Hits(t, measure, strokes[j], pos)
    {
      var b := GetStrokeBounds(measure, strokes[i]);
      var local := LocalPoint(t, strokes[i], b, pos);
      var hw := b.w / 2.0;
      var hh := b.h / 2.0;
      var hit := local.x >= -hw && local.x <= hw && local.y >= -hh && local.y <= hh;
      assert hit == Hits(t, measure, strokes[i], pos);
      if hit {
        return i;
      }
      i := i - 1;
    }
    return -1;
  }

  /** Hit testing reads the uniform scale only: scaleX and scaleY never change the answer. */
  lemma HitsIgnoresAxisScales(t: Trig, measure: TextMeasure, s: Stroke, pos: Point, sx: real, sy: real)
    ensures Hits(t, measure, s.(scaleX := sx, scaleY := sy), pos) == Hits(t, measure, s, pos)
  {
  }

  /** Unrotated and unscaled, a stroke is hit exactly when the point is in its bounds. */
  lemma UnrotatedHitIsBoxMembership(t: Trig, measure: TextMeasure, s: Stroke, pos: Point)
    requires t.cos(0.0) == 1.0 && t.sin(0.0) == 0.0
    requires s.rotation == 0.0 && OrElse(s.scale, 1.0) == 1.0
    ensures var b := StrokeBounds(measure, s);
      Hits(t, measure, s, pos) <==> InBox(b, pos)
  {
    var b := StrokeBounds(measure, s);
    var centered := Point(pos.x - b.cx, pos.y - b.cy);
    RotationByZero(t, centered, Point(0.0, 0.0));
    assert -s.rotation == 0.0;
    assert LocalPoint(t, s, b, pos) == centered;
  }

  /** A newly drawn stroke (unrotated, at scale 1) is hit exactly inside its box. */
  lemma NewStrokeHitIsBoxMembership(t: Trig, measure: TextMeasure, data: StrokeData, color: string, width: real, q: Point)
    requires t.cos(0.0) == 1.0 && t.sin(0.0) == 0.0
    ensures var s := NewStroke(data, color, width);
      Hits(t, measure, s, q) <==> InBox(StrokeBounds(measure, s), q)
  {
    UnrotatedHitIsBoxMembership(t, measure, NewStroke(data, color, width), q);
  }

  // ---------------------------------------------------------------------------
  // Transform handles.

  /** Corner handles, edge handles and the rotation handle, in the order they are tried. */
  datatype Handle = TL | TR | BL | BR | T | B | L | R | Rot

  const HandleOrder: seq<Handle> := [TL, TR, BL, BR, T, B, L, R, Rot]

  const HandleMargin: real := 4.0
  const RotationHandleLift: real := 20.0
  const HandleRadius: real := 15.0

  predicate IsEdgeHandle(h: Handle)
  {
    h == T || h == B || h == L || h == R
  }

  /** Where a handle sits in the local frame, the box grown by the margin. */
  function HandleOffset(h: Handle, hw: real, hh: real): Point
  {
    match h
    case TL => Point(-hw, -hh)
    case TR => Point(hw, -hh)
    case BL => Point(-hw, hh)
    case BR => Point(hw, hh)
    case T => Point(0.0, -hh)
    case B => Point(0.0, hh)
    case L => Point(-hw, 0.0)
    case R => Point(hw, 0.0)
    case Rot => Point(0.0, -hh - RotationHandleLift)
  }

  /** Where a handle sits in the world: scaled, rotated, moved to the box centre. */
  function HandlePosition(t: Trig, s: Stroke, b: Box, h: Handle): Point
  {
    var hw := b.w / 2.0 + HandleMargin;
    var hh := b.h / 2.0 + HandleMargin;
    var scale := OrElse(s.scale, 1.0);
    var o := HandleOffset(h, hw, hh);
    var rotated := RotatePoint(t, Point(o.x * scale, o.y * scale), Point(0.0, 0.0), s.rotation);
    Point(rotated.x + b.cx, rotated.y + b.cy)
  }

  /** The point is within the handle radius of handle h (Math.hypot(...) < 15). */
  predicate NearHandle(t: Trig, measure: TextMeasure, s: Stroke, pos: Point, h: Handle)
  {
    CloserThan(pos, HandlePosition(t, s, StrokeBounds(measure, s), h), HandleRadius)
  }

  /** The first handle, in HandleOrder from index k on, that the point is near. */
  function FirstHandleFrom(t: Trig, measure: TextMeasure, s: Stroke, pos: Point, k: nat): (r: Option<Handle>)
    requires k <= |HandleOrder|
    decreases |HandleOrder| - k
  {
    if k == |HandleOrder| then None
    else if NearHandle(t, measure, s, pos, HandleOrder[k]) then Some(HandleOrder[k])
    else FirstHandleFrom(t, measure, s, pos, k + 1)
  }

  /** The first handle found is near the point and no handle tried before it is;
      None means no handle is near. */
  lemma {:induction false} FirstHandleIsFirstNear(t: Trig, measure: TextMeasure, s: Stroke, pos: Point, k: nat)
    requires k <= |HandleOrder|
    ensures var r := FirstHandleFrom(t, measure, s, pos, k);
      && (r.None? <==> forall j :: k <= j < |HandleOrder| ==> !NearHandle(t, measure, s, pos, HandleOrder[j]))
      && (r.Some? ==> exists i :: k <= i < |HandleOrder| && HandleOrder[i] == r.value && NearHandle(t, measure, s, pos, HandleOrder[i])
                                  && forall j :: k <= j < i ==> !NearHandle(t, measure, s, pos, HandleOrder[j]))
    decreases |HandleOrder| - k
  {
    if k < |HandleOrder| && !NearHandle(t, measure, s, pos, HandleOrder[k]) {
      FirstHandleIsFirstNear(t, measure, s, pos, k + 1);
      var r := FirstHandleFrom(t, measure, s, pos, k);
      if r.Some? {
        var i :| k + 1 <= i < |HandleOrder| && HandleOrder[i] == r.value && NearHandle(t, measure, s, pos, HandleOrder[i])
                 && forall j :: k + 1 <= j < i ==> !NearHandle(t, measure, s, pos, HandleOrder[j]);
        assert forall j :: k <= j < i ==> !NearHandle(t, measure, s, pos, HandleOrder[j]);
      }
    }
  }

  /** detectHandleHit: try the nine handles in order, the first one near the point wins. */
  method DetectHandleHit(t: Trig, measure: TextMeasure, pos: Point, s: Stroke) returns (r: Option<Handle>)
    ensures r == FirstHandleFrom(t, measure, s, pos, 0)
    ensures r.Some? ==> NearHandle(t, measure, s, pos, r.value)
  {
    var b := GetStrokeBounds(measure, s);
    var k := 0;
    while k < |HandleOrder|
      invariant 0 <= k <= |HandleOrder|
      invariant FirstHandleFrom(t, measure, s, pos, k) == FirstHandleFrom(t, measure, s, pos, 0)
    {
      var hp := HandlePosition(t, s, b, HandleOrder[k]);
      if CloserThan(pos, hp, HandleRadius) {
        return Some(HandleOrder[k]);
      }
      k := k + 1;
    }
    return None;
  }
}
