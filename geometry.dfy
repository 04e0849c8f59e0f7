/** Points, boxes, extents and the numeric helpers shared by every part of the
    drawing engine. Coordinates are reals; the floating-point library the
    engine calls (cos, sin, atan2, hypot, sqrt, PI) is a parameter. */
module Geometry {

  datatype Point = Point(x: real, y: real)

  /** An axis-aligned box together with its centre, as the bounds of a stroke. */
  datatype Box = Box(x: real, y: real, w: real, h: real, cx: real, cy: real)

  const ZeroBox: Box := Box(0.0, 0.0, 0.0, 0.0, 0.0, 0.0)

  /** The running minima and maxima of a point set. */
  datatype Extent = Extent(minX: real, maxX: real, minY: real, maxY: real)

  /** The floating-point functions the engine calls, taken as given. */
  datatype Trig = Trig(
    cos: real -> real,
    sin: real -> real,
    atan2: (real, real) -> real,
    hypot: (real, real) -> real,
    sqrt: real -> real,
    pi: real)

  /** hypot behaves as the Euclidean norm. */
  ghost predicate HypotExact(t: Trig)
  {
    forall a: real, b: real :: t.hypot(a, b) >= 0.0 && t.hypot(a, b) * t.hypot(a, b) == a * a + b * b
  }

  datatype Option<V> = None | Some(value: V)

  function Min(a: real, b: real): real { if a <= b then a else b }

  function Max(a: real, b: real): real { if a >= b then a else b }

  function Abs(a: real): real { if a < 0.0 then -a else a }

  /** A numeric field read with a fallback, `v || d`: zero (or absent) reads as d. */
  function OrElse(v: real, d: real): real { if v == 0.0 then d else v }

  function SqDist(a: Point, b: Point): real
  {
    (a.x - b.x) * (a.x - b.x) + (a.y - b.y) * (a.y - b.y)
  }

  /** `hypot(a - b) < k`, decided exactly on the squared distance. */
  predicate CloserThan(a: Point, b: Point, k: real)
  {
    0.0 < k && SqDist(a, b) < k * k
  }

  /** `hypot(a - b) > k`, decided exactly on the squared distance. */
  predicate FartherThan(a: Point, b: Point, k: real)
  {
    k < 0.0 || SqDist(a, b) > k * k
  }

  lemma SquareMonotone(u: real, v: real)
    requires 0.0 <= u < v
    ensures u * u < v * v
  {
    var d := v - u;
    assert v * v == u * u + (u + v) * d;
    assert (u + v) * d > 0.0;
  }

  /** With an exact hypot, the squared-distance test is the source's `hypot(a - b) < k`. */
  lemma CloserThanIsHypot(t: Trig, a: Point, b: Point, k: real)
    requires HypotExact(t)
    ensures CloserThan(a, b, k) <==> t.hypot(a.x - b.x, a.y - b.y) < k
  {
    var d := t.hypot(a.x - b.x, a.y - b.y);
    assert d >= 0.0 && d * d == (a.x - b.x) * (a.x - b.x) + (a.y - b.y) * (a.y - b.y);
    if d < k {
      SquareMonotone(d, k);
    } else if 0.0 < k && k < d {
      SquareMonotone(k, d);
    }
  }

  /** With an exact hypot, the squared-distance test is the source's `hypot(a - b) > k`. */
  lemma FartherThanIsHypot(t: Trig, a: Point, b: Point, k: real)
    requires HypotExact(t)
    ensures FartherThan(a, b, k) <==> t.hypot(a.x - b.x, a.y - b.y) > k
  {
    var d := t.hypot(a.x - b.x, a.y - b.y);
    assert d >= 0.0 && d * d == (a.x - b.x) * (a.x - b.x) + (a.y - b.y) * (a.y - b.y);
    if 0.0 <= k < d {
      SquareMonotone(k, d);
    } else if d < k {
      SquareMonotone(d, k);
    }
  }

  /** Rotation of p about center by angle (rotatePoint). */
  function RotatePoint(t: Trig, p: Point, center: Point, angle: real): Point
  {
    var c := t.cos(angle);
    var s := t.sin(angle);
    var dx := p.x - center.x;
    var dy := p.y - center.y;
    Point(center.x + (dx * c - dy * s), center.y + (dx * s + dy * c))
  }

  /** A rotation keeps the distance to its centre when cos and sin are consistent. */
  lemma RotationKeepsDistance(t: Trig, p: Point, center: Point, angle: real)
    requires t.cos(angle) * t.cos(angle) + t.sin(angle) * t.sin(angle) == 1.0
    ensures SqDist(RotatePoint(t, p, center, angle), center) == SqDist(p, center)
  {
    var c, s := t.cos(angle), t.sin(angle);
    var dx, dy := p.x - center.x, p.y - center.y;
    var q := RotatePoint(t, p, center, angle);
    assert q.x - center.x == dx * c - dy * s;
    assert q.y - center.y == dx * s + dy * c;
    calc {
      (dx * c - dy * s) * (dx * c - dy * s) + (dx * s + dy * c) * (dx * s + dy * c);
      dx * dx * (c * c + s * s) + dy * dy * (c * c + s * s);
      dx * dx + dy * dy;
    }
  }

  /** A rotation by a zero angle is the identity when cos 0 = 1 and sin 0 = 0. */
  lemma RotationByZero(t: Trig, p: Point, center: Point)
    requires t.cos(0.0) == 1.0 && t.sin(0.0) == 0.0
    ensures RotatePoint(t, p, center, 0.0) == p
  {
  }

  // ---------------------------------------------------------------------------
  // Extents: the min/max envelope the engine computes with a forEach loop.

  function Widen(e: Extent, p: Point): Extent
  {
    Extent(Min(e.minX, p.x), Max(e.maxX, p.x), Min(e.minY, p.y), Max(e.maxY, p.y))
  }

  function PointExtent(p: Point): Extent
  {
    Extent(p.x, p.x, p.y, p.y)
  }

  /** The envelope of a non-empty point list, accumulated front to back. */
  function ExtentOf(pts: seq<Point>): Extent
    requires |pts| > 0
    decreases |pts|
  {
    if |pts| == 1 then PointExtent(pts[0])
    else Widen(ExtentOf(pts[..|pts| - 1]), pts[|pts| - 1])
  }

  ghost predicate Encloses(e: Extent, p: Point)
  {
    e.minX <= p.x <= e.maxX && e.minY <= p.y <= e.maxY
  }

  /** The box of an extent; its centre is the middle of each side. */
  function BoxOf(e: Extent): Box
  {
    var w := e.maxX - e.minX;
    var h := e.maxY - e.minY;
    Box(e.minX, e.minY, w, h, e.minX + w / 2.0, e.minY + h / 2.0)
  }

  /** Every point lies inside the envelope. */
  lemma {:induction false} ExtentEncloses(pts: seq<Point>)
    requires |pts| > 0
    ensures forall p :: p in pts ==> Encloses(ExtentOf(pts), p)
  {
    if |pts| > 1 {
      var init := pts[..|pts| - 1];
      ExtentEncloses(init);
      assert pts == init + [pts[|pts| - 1]];
    }
  }

  /** Each of the four sides of the envelope is touched by some point. */
  lemma {:induction false} ExtentAttained(pts: seq<Point>)
    requires |pts| > 0
    ensures exists p :: p in pts && p.x == ExtentOf(pts).minX
    ensures exists p :: p in pts && p.x == ExtentOf(pts).maxX
    ensures exists p :: p in pts && p.y == ExtentOf(pts).minY
    ensures exists p :: p in pts && p.y == ExtentOf(pts).maxY
  {
    if |pts| == 1 {
      assert pts[0] in pts;
    } else {
      var init := pts[..|pts| - 1];
      var last := pts[|pts| - 1];
      assert pts == init + [last];
      assert last in pts;
      ExtentAttained(init);
      var a :| a in init && a.x == ExtentOf(init).minX;
      var b :| b in init && b.x == ExtentOf(init).maxX;
      var c :| c in init && c.y == ExtentOf(init).minY;
      var d :| d in init && d.y == ExtentOf(init).maxY;
      assert a in pts && b in pts && c in pts && d in pts;
    }
  }

  /** The envelope depends only on which points occur, not on their order or repetition. */
  lemma ExtentDependsOnlyOnPoints(a: seq<Point>, b: seq<Point>)
    requires |a| > 0 && |b| > 0
    requires forall p :: p in a <==> p in b
    ensures ExtentOf(a) == ExtentOf(b)
  {
    ExtentEncloses(a);
    ExtentEncloses(b);
    ExtentAttained(a);
    ExtentAttained(b);
    var ea, eb := ExtentOf(a), ExtentOf(b);
    var p1 :| p1 in a && p1.x == ea.minX;
    var q1 :| q1 in b && q1.x == eb.minX;
    assert Encloses(eb, p1) && Encloses(ea, q1);
    var p2 :| p2 in a && p2.x == ea.maxX;
    var q2 :| q2 in b && q2.x == eb.maxX;
    assert Encloses(eb, p2) && Encloses(ea, q2);
    var p3 :| p3 in a && p3.y == ea.minY;
    var q3 :| q3 in b && q3.y == eb.minY;
    assert Encloses(eb, p3) && Encloses(ea, q3);
    var p4 :| p4 in a && p4.y == ea.maxY;
    var q4 :| q4 in b && q4.y == eb.maxY;
    assert Encloses(eb, p4) && Encloses(ea, q4);
  }

  function Reverse<T>(s: seq<T>): (r: seq<T>)
    ensures |r| == |s|
    ensures forall i :: 0 <= i < |s| ==> r[i] == s[|s| - 1 - i]
  {
    if s == [] then [] else Reverse(s[1..]) + [s[0]]
  }

  /** Drawing the same points in the opposite direction gives the same envelope. */
  lemma ExtentOfReverse(pts: seq<Point>)
    requires |pts| > 0
    ensures ExtentOf(Reverse(pts)) == ExtentOf(pts)
  {
    var r := Reverse(pts);
    forall p
      ensures p in pts <==> p in r
    {
      if p in pts {
        var i :| 0 <= i < |pts| && pts[i] == p;
        assert r[|pts| - 1 - i] == p;
      }
      if p in r {
        var i :| 0 <= i < |r| && r[i] == p;
        assert pts[|pts| - 1 - i] == p;
      }
    }
    ExtentDependsOnlyOnPoints(pts, r);
  }

  /** The envelope loop (the forEach with Math.min / Math.max accumulators). */
  method ScanExtent(pts: seq<Point>) returns (e: Extent)
    requires |pts| > 0
    ensures e == ExtentOf(pts)
  {
    e := PointExtent(pts[0]);
    var i := 1;
    while i < |pts|
      invariant 1 <= i <= |pts|
      invariant e == ExtentOf(pts[..i])
    {
      assert pts[..i + 1][..i] == pts[..i];
      e := Widen(e, pts[i]);
      i := i + 1;
    }
    assert pts[..|pts|] == pts;
  }

  // ---------------------------------------------------------------------------
  // Moving and stretching point lists, and what that does to their envelope.

  function TranslatePoint(p: Point, dx: real, dy: real): Point
  {
    Point(p.x + dx, p.y + dy)
  }

  function TranslatePoints(pts: seq<Point>, dx: real, dy: real): seq<Point>
  {
    seq(|pts|, i requires 0 <= i < |pts| => TranslatePoint(pts[i], dx, dy))
  }

  /** Translating the points translates their envelope by the same amount. */
  lemma {:induction false} ExtentOfTranslated(pts: seq<Point>, dx: real, dy: real)
    requires |pts| > 0
    ensures var e := ExtentOf(pts);
      ExtentOf(TranslatePoints(pts, dx, dy)) == Extent(e.minX + dx, e.maxX + dx, e.minY + dy, e.maxY + dy)
    decreases |pts|
  {
    var q := TranslatePoints(pts, dx, dy);
    if |pts| > 1 {
      var init := pts[..|pts| - 1];
      ExtentOfTranslated(init, dx, dy);
      assert q[..|q| - 1] == TranslatePoints(init, dx, dy);
    }
  }

  /** x taken to a + (x - a) * k: a stretch by k about the vertical line through a. */
  function StretchX(p: Point, a: real, k: real): Point
  {
    Point(a + (p.x - a) * k, p.y)
  }

  /** y taken to a + (y - a) * k. */
  function StretchY(p: Point, a: real, k: real): Point
  {
    Point(p.x, a + (p.y - a) * k)
  }

  function StretchPointsX(pts: seq<Point>, a: real, k: real): seq<Point>
  {
    seq(|pts|, i requires 0 <= i < |pts| => StretchX(pts[i], a, k))
  }

  function StretchPointsY(pts: seq<Point>, a: real, k: real): seq<Point>
  {
    seq(|pts|, i requires 0 <= i < |pts| => StretchY(pts[i], a, k))
  }

  function StretchExtentX(e: Extent, a: real, k: real): Extent
  {
    Extent(a + (e.minX - a) * k, a + (e.maxX - a) * k, e.minY, e.maxY)
  }

  function StretchExtentY(e: Extent, a: real, k: real): Extent
  {
    Extent(e.minX, e.maxX, a + (e.minY - a) * k, a + (e.maxY - a) * k)
  }

  lemma StretchMonotone(a: real, k: real, u: real, v: real)
    requires k >= 0.0 && u <= v
    ensures a + (u - a) * k <= a + (v - a) * k
  {
    assert (v - a) * k - (u - a) * k == (v - u) * k;
  }

  /** A non-negative stretch commutes with taking minima and maxima: su and sv
      are u and v stretched about a by k. */
  lemma StretchOfMinMax(a: real, k: real, u: real, v: real, su: real, sv: real)
    requires k >= 0.0 && su == a + (u - a) * k && sv == a + (v - a) * k
    ensures Min(su, sv) == a + (Min(u, v) - a) * k
    ensures Max(su, sv) == a + (Max(u, v) - a) * k
  {
    if u <= v {
      StretchMonotone(a, k, u, v);
    } else {
      StretchMonotone(a, k, v, u);
    }
  }

  lemma WidenStretchX(e: Extent, p: Point, a: real, k: real)
    requires k >= 0.0
    ensures Widen(StretchExtentX(e, a, k), StretchX(p, a, k)) == StretchExtentX(Widen(e, p), a, k)
  {
    var se, sp := StretchExtentX(e, a, k), StretchX(p, a, k);
    StretchOfMinMax(a, k, e.minX, p.x, se.minX, sp.x);
    StretchOfMinMax(a, k, e.maxX, p.x, se.maxX, sp.x);
  }

  lemma WidenStretchY(e: Extent, p: Point, a: real, k: real)
    requires k >= 0.0
    ensures Widen(StretchExtentY(e, a, k), StretchY(p, a, k)) == StretchExtentY(Widen(e, p), a, k)
  {
    var se, sp := StretchExtentY(e, a, k), StretchY(p, a, k);
    StretchOfMinMax(a, k, e.minY, p.y, se.minY, sp.y);
    StretchOfMinMax(a, k, e.maxY, p.y, se.maxY, sp.y);
  }

  /** A non-negative stretch about a line maps the envelope's sides to the stretched sides. */
  lemma {:induction false} ExtentOfStretchX(pts: seq<Point>, a: real, k: real)
    requires |pts| > 0 && k >= 0.0
    ensures ExtentOf(StretchPointsX(pts, a, k)) == StretchExtentX(ExtentOf(pts), a, k)
    decreases |pts|
  {
    var q := StretchPointsX(pts, a, k);
    if |pts| > 1 {
      var init := pts[..|pts| - 1];
      ExtentOfStretchX(init, a, k);
      assert q[..|q| - 1] == StretchPointsX(init, a, k);
      WidenStretchX(ExtentOf(init), pts[|pts| - 1], a, k);
    }
  }

  lemma {:induction false} ExtentOfStretchY(pts: seq<Point>, a: real, k: real)
    requires |pts| > 0 && k >= 0.0
    ensures ExtentOf(StretchPointsY(pts, a, k)) == StretchExtentY(ExtentOf(pts), a, k)
    decreases |pts|
  {
    var q := StretchPointsY(pts, a, k);
    if |pts| > 1 {
      var init := pts[..|pts| - 1];
      ExtentOfStretchY(init, a, k);
      assert q[..|q| - 1] == StretchPointsY(init, a, k);
      WidenStretchY(ExtentOf(init), pts[|pts| - 1], a, k);
    }
  }
}
