/** Marquee selection: when a marquee drag ends, every stroke whose bounds
    strictly overlap the marquee rectangle is selected, in index order. */
module Selection {
  import opened Geometry
  import opened Strokes
  import opened Bounds
  import opened Transform

  /** The marquee rectangle spanned by its two corners, in either order. */
  function MarqueeExtent(a: Point, b: Point): (m: Extent)
    ensures m.minX <= m.maxX && m.minY <= m.maxY
    ensures Encloses(m, a) && Encloses(m, b)
  {
    Extent(Min(a.x, b.x), Max(a.x, b.x), Min(a.y, b.y), Max(a.y, b.y))
  }

  /** The box and the marquee overlap with positive area on both axes (strict
      comparisons: touching edges do not count). */
  predicate Intersects(b: Box, m: Extent)
  {
    b.x < m.maxX && b.x + b.w > m.minX && b.y < m.maxY && b.y + b.h > m.minY
  }

  /** The indices below n whose stroke intersects the marquee, in increasing order. */
  function SelectedBelow(measure: TextMeasure, strokes: seq<Stroke>, m: Extent, n: nat): seq<int>
    requires n <= |strokes|
  {
    if n == 0 then []
    else SelectedBelow(measure, strokes, m, n - 1)
         + (if Intersects(StrokeBounds(measure, strokes[n - 1]), m) then [n - 1] else [])
  }

  function MarqueeSelection(measure: TextMeasure, strokes: seq<Stroke>, m: Extent): seq<int>
  {
    SelectedBelow(measure, strokes, m, |strokes|)
  }

  /** The selection below n lists indices in strictly increasing order. */
  lemma {:induction false} SelectedBelowIncreasing(measure: TextMeasure, strokes: seq<Stroke>, m: Extent, n: nat)
    requires n <= |strokes|
    ensures Increasing(SelectedBelow(measure, strokes, m, n))
    ensures forall i :: i in SelectedBelow(measure, strokes, m, n) ==> 0 <= i < n
  {
    if n > 0 {
      SelectedBelowIncreasing(measure, strokes, m, n - 1);
      var prev := SelectedBelow(measure, strokes, m, n - 1);
      var r := SelectedBelow(measure, strokes, m, n);
      if Intersects(StrokeBounds(measure, strokes[n - 1]), m) {
        assert r == prev + [n - 1];
        forall a, b | 0 <= a < b < |r|
          ensures r[a] < r[b]
        {
          if b == |r| - 1 {
            assert r[a] == prev[a] && prev[a] in prev;
          }
        }
      } else {
        assert r == prev;
      }
    }
  }

  /** An index is selected below n exactly when it names a stroke below n that
      intersects the marquee. */
  lemma {:induction false} SelectedBelowMembers(measure: TextMeasure, strokes: seq<Stroke>, m: Extent, n: nat)
    requires n <= |strokes|
    ensures forall i :: i in SelectedBelow(measure, strokes, m, n) <==>
      0 <= i < n && Intersects(StrokeBounds(measure, strokes[i]), m)
  {
    if n > 0 {
      SelectedBelowMembers(measure, strokes, m, n - 1);
    }
  }

  /** An index is selected exactly when it names a stroke below n that intersects
      the marquee, and the selection is in strictly increasing order. */
  lemma SelectedBelowIsExact(measure: TextMeasure, strokes: seq<Stroke>, m: Extent, n: nat)
    requires n <= |strokes|
    ensures var r := SelectedBelow(measure, strokes, m, n);
      && Increasing(r)
      && (forall i :: i in r <==> 0 <= i < n && Intersects(StrokeBounds(measure, strokes[i]), m))
  {
    SelectedBelowIncreasing(measure, strokes, m, n);
    SelectedBelowMembers(measure, strokes, m, n);
  }

  /** The selection a marquee makes over the whole drawing. */
  lemma MarqueeSelectionIsExact(measure: TextMeasure, strokes: seq<Stroke>, m: Extent)
    ensures var r := MarqueeSelection(measure, strokes, m);
      && Increasing(r)
      && (forall i :: i in r <==> 0 <= i < |strokes| && Intersects(StrokeBounds(measure, strokes[i]), m))
  {
    SelectedBelowIsExact(measure, strokes, m, |strokes|);
  }

  /** The pass over the strokes that rebuilds the selection. */
  method SelectInMarquee(measure: TextMeasure, strokes: seq<Stroke>, m: Extent) returns (sel: seq<int>)
    ensures sel == MarqueeSelection(measure, strokes, m)
    ensures Increasing(sel)
    ensures forall i :: i in sel <==> 0 <= i < |strokes| && Intersects(StrokeBounds(measure, strokes[i]), m)
  {
    sel := [];
    var i := 0;
    while i < |strokes|
      invariant 0 <= i <= |strokes|
      invariant sel == SelectedBelow(measure, strokes, m, i)
    {
      var b := GetStrokeBounds(measure, strokes[i]);
      if b.x < m.maxX && b.x + b.w > m.minX && b.y < m.maxY && b.y + b.h > m.minY {
        sel := sel + [i];
      }
      i := i + 1;
    }
    MarqueeSelectionIsExact(measure, strokes, m);
  }

  /** Dragging the marquee out from either corner selects the same strokes. */
  lemma MarqueeIgnoresDirection(a: Point, b: Point)
    ensures MarqueeExtent(a, b) == MarqueeExtent(b, a)
  {
  }

  /** A click without a drag (a marquee of no size) selects exactly the strokes
      whose bounds hold the point strictly inside. */
  lemma ClickSelectsStrokesAroundPoint(measure: TextMeasure, strokes: seq<Stroke>, p: Point)
    ensures forall i :: i in MarqueeSelection(measure, strokes, MarqueeExtent(p, p)) <==>
      0 <= i < |strokes| &&
      var b := StrokeBounds(measure, strokes[i]);
      b.x < p.x < b.x + b.w && b.y < p.y < b.y + b.h
  {
    MarqueeSelectionIsExact(measure, strokes, MarqueeExtent(p, p));
  }
}
