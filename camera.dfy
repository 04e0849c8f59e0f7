/** The camera: a screen-space offset and a uniform zoom. A world point w is
    painted at w * zoom + offset; toWorldPos is the inverse. */
module Camera {
  import opened Geometry

  datatype Camera = Camera(offset: Point, zoom: real)

  const MinZoom: real := 0.1
  const MaxZoom: real := 5.0

  /** toWorldPos: the world point under a screen point. */
  function ToWorldPos(cam: Camera, screen: Point): Point
    requires cam.zoom != 0.0
  {
    Point((screen.x - cam.offset.x) / cam.zoom, (screen.y - cam.offset.y) / cam.zoom)
  }

  /** The screen point a world point is painted at (the transform redraw installs). */
  function ToScreenPos(cam: Camera, world: Point): Point
  {
    Point(world.x * cam.zoom + cam.offset.x, world.y * cam.zoom + cam.offset.y)
  }

  /** Screen to world and back is the identity, in both directions. */
  lemma ScreenWorldRoundTrip(cam: Camera, p: Point)
    requires cam.zoom != 0.0
    ensures ToScreenPos(cam, ToWorldPos(cam, p)) == p
    ensures ToWorldPos(cam, ToScreenPos(cam, p)) == p
  {
    var z := cam.zoom;
    assert (p.x - cam.offset.x) / z * z == p.x - cam.offset.x;
    assert (p.y - cam.offset.y) / z * z == p.y - cam.offset.y;
    assert (p.x * z + cam.offset.x - cam.offset.x) / z == p.x;
    assert (p.y * z + cam.offset.y - cam.offset.y) / z == p.y;
  }

  /** Math.min(Math.max(z, 0.1), 5). */
  function ClampZoom(z: real): (r: real)
    ensures MinZoom <= r <= MaxZoom
    ensures MinZoom <= z <= MaxZoom ==> r == z
    ensures z < MinZoom ==> r == MinZoom
    ensures z > MaxZoom ==> r == MaxZoom
  {
    Min(Max(z, MinZoom), MaxZoom)
  }

  /** adjustZoom: change the zoom by delta, clamped, keeping the world point
      under the anchor where it is on screen. */
  function ZoomAt(cam: Camera, delta: real, anchor: Point): (r: Camera)
    requires cam.zoom != 0.0
    ensures r.zoom == ClampZoom(cam.zoom + delta)
    ensures MinZoom <= r.zoom <= MaxZoom
    ensures ToWorldPos(r, anchor) == ToWorldPos(cam, anchor)
  {
    var before := ToWorldPos(cam, anchor);
    var z := ClampZoom(cam.zoom + delta);
    var r := Camera(Point(anchor.x - before.x * z, anchor.y - before.y * z), z);
    assert (anchor.x - r.offset.x) / z == before.x by {
      assert anchor.x - r.offset.x == before.x * z;
    }
    assert (anchor.y - r.offset.y) / z == before.y by {
      assert anchor.y - r.offset.y == before.y * z;
    }
    r
  }

  /** Zooming at the clamp bound again changes nothing. */
  lemma ZoomAtBoundIsIdempotent(cam: Camera, delta: real, anchor: Point)
    requires MinZoom <= cam.zoom <= MaxZoom
    requires (delta >= 0.0 && cam.zoom == MaxZoom) || (delta <= 0.0 && cam.zoom == MinZoom)
    ensures ZoomAt(cam, delta, anchor) == cam
  {
    var r := ZoomAt(cam, delta, anchor);
    var before := ToWorldPos(cam, anchor);
    var z := cam.zoom;
    assert ClampZoom(cam.zoom + delta) == z;
    assert r.zoom == z;
    assert r.offset == Point(anchor.x - before.x * z, anchor.y - before.y * z);
    assert before.x * z == anchor.x - cam.offset.x;
    assert before.y * z == anchor.y - cam.offset.y;
  }

  /** Panning moves the offset by the pointer's screen movement. */
  function Panned(cam: Camera, dx: real, dy: real): (r: Camera)
    ensures r.zoom == cam.zoom
    ensures forall w :: ToScreenPos(r, w) == Point(ToScreenPos(cam, w).x + dx, ToScreenPos(cam, w).y + dy)
  {
    Camera(Point(cam.offset.x + dx, cam.offset.y + dy), cam.zoom)
  }
}
