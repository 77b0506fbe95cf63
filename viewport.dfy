/** The work-zone viewport: a scale and an offset. A screen point `p` (relative
    to the drawing surface's top-left corner) shows the world point
    `p / scale - offset`, and a world point `w` is drawn at `(w + offset) * scale`.
    Zoom, pan and the polygon layer's transform are defined here over those
    two numbers. */
module Viewport {
  import opened Geometry

  const ZoomFactor: real := 1.1
  const MinScale: real := 0.1
  const MaxScale: real := 10.0

  predicate ScaleInRange(s: real) {
    MinScale <= s <= MaxScale
  }

  // ----- coordinate conversion -----

  /** Screen to world, as in the drop, zoom and drag handlers. */
  function ScreenToWorld(p: Point, scale: real, offset: Point): (w: Point)
    requires scale != 0.0
    ensures WorldToScreen(w, scale, offset) == p
  {
    Point(p.x / scale - offset.x, p.y / scale - offset.y)
  }

  /** World to screen, as in the grid layout. */
  function WorldToScreen(w: Point, scale: real, offset: Point): Point {
    Point((w.x + offset.x) * scale, (w.y + offset.y) * scale)
  }

  /** The other direction of the round trip. */
  lemma WorldToScreenInverse(w: Point, scale: real, offset: Point)
    requires scale != 0.0
    ensures ScreenToWorld(WorldToScreen(w, scale, offset), scale, offset) == w
  {
    var p := WorldToScreen(w, scale, offset);
    assert p.x / scale == w.x + offset.x;
    assert p.y / scale == w.y + offset.y;
  }

  // ----- zoom -----

  /** The wheel handler's new scale: multiplied by 1.1 when the wheel moves up
      (`deltaY < 0`), divided by 1.1 otherwise, then clamped to [0.1, 10]. */
  function ZoomedScale(scale: real, deltaY: real): (s: real)
    ensures ScaleInRange(s)
    ensures var raw := if deltaY < 0.0 then scale * ZoomFactor else scale / ZoomFactor;
      && (ScaleInRange(raw) ==> s == raw)
      && (raw < MinScale ==> s == MinScale)
      && (raw > MaxScale ==> s == MaxScale)
  {
    var raw := if deltaY < 0.0 then scale * ZoomFactor else scale / ZoomFactor;
    if raw > MaxScale then MaxScale else if raw < MinScale then MinScale else raw
  }

  /** From an in-range scale, wheeling up never zooms out and wheeling down never zooms in. */
  lemma ZoomDirection(scale: real, deltaY: real)
    requires ScaleInRange(scale)
    ensures deltaY < 0.0 ==> ZoomedScale(scale, deltaY) >= scale
    ensures deltaY >= 0.0 ==> ZoomedScale(scale, deltaY) <= scale
  {
  }

  /** The wheel handler's new offset, exactly as written: the old offset is first
      capped at 0 per axis, then `(mouse / newScale - world) * (1 - 1 / 1.1)` is
      added, where `world` is the cursor's world point before the zoom. */
  function ZoomedOffset(mouse: Point, oldScale: real, newScale: real, offset: Point): Point
    requires oldScale != 0.0 && newScale != 0.0
  {
    var world := ScreenToWorld(mouse, oldScale, offset);
    var capped := Point(Min2(offset.x, 0.0), Min2(offset.y, 0.0));
    Point(capped.x + (mouse.x / newScale - world.x) * (1.0 - 1.0 / ZoomFactor),
          capped.y + (mouse.y / newScale - world.y) * (1.0 - 1.0 / ZoomFactor))
  }

  function Min2(a: real, b: real): real {
    if a <= b then a else b
  }

  /** The correction term is one eleventh of the old offset plus the change in the
      cursor's world coordinate caused by the new scale. */
  lemma ZoomedOffsetClosedForm(mouse: Point, oldScale: real, newScale: real, offset: Point)
    requires oldScale != 0.0 && newScale != 0.0
    ensures var r := ZoomedOffset(mouse, oldScale, newScale, offset);
      && r.x == Min2(offset.x, 0.0) + (offset.x + mouse.x / newScale - mouse.x / oldScale) / 11.0
      && r.y == Min2(offset.y, 0.0) + (offset.y + mouse.y / newScale - mouse.y / oldScale) / 11.0
  {
  }

  /** The zoom does not keep the cursor's world point fixed: zooming in by one step
      from scale 1 and offset 0 with the cursor at (10, 0) moves it. */
  lemma ZoomMovesCursorPoint()
    ensures var m, o := Point(10.0, 0.0), Point(0.0, 0.0);
      var s := ZoomedScale(1.0, -1.0);
      ScreenToWorld(m, s, ZoomedOffset(m, 1.0, s, o)) != ScreenToWorld(m, 1.0, o)
  {
    var m, o := Point(10.0, 0.0), Point(0.0, 0.0);
    var s := ZoomedScale(1.0, -1.0);
    assert s == 1.1;
    assert 10.0 / s == 100.0 / 11.0;
    var r := ZoomedOffset(m, 1.0, s, o);
    ZoomedOffsetClosedForm(m, 1.0, s, o);
    assert r.x == (100.0 / 11.0 - 10.0) / 11.0;
    assert r.x == -10.0 / 121.0;
    assert ScreenToWorld(m, s, r).x == 1110.0 / 121.0;
  }

  /** Nor does it keep the offset at or below 0: zooming out one step from scale 1
      and offset 0 with the cursor at (10, 0) gives a positive x offset. */
  lemma ZoomMayMakeOffsetPositive()
    ensures var m, o := Point(10.0, 0.0), Point(0.0, 0.0);
      var s := ZoomedScale(1.0, 1.0);
      ZoomedOffset(m, 1.0, s, o).x > 0.0
  {
    var m, o := Point(10.0, 0.0), Point(0.0, 0.0);
    var s := ZoomedScale(1.0, 1.0);
    assert s == 10.0 / 11.0;
    assert 10.0 / s == 11.0;
    assert 1.0 - 1.0 / ZoomFactor == 1.0 / 11.0;
    assert ZoomedOffset(m, 1.0, s, o).x == 1.0 / 11.0;
  }

  // ----- pan -----

  /** The pan handler's new offset: the pointer's movement since the last event,
      divided by the scale, added per axis and capped at 0. */
  function PannedOffset(offset: Point, start: Point, client: Point, scale: real): (r: Point)
    requires scale != 0.0
    ensures r.x <= 0.0 && r.y <= 0.0
    ensures var raw := Add(offset, Point((client.x - start.x) / scale, (client.y - start.y) / scale));
      && (raw.x <= 0.0 ==> r.x == raw.x) && (raw.x > 0.0 ==> r.x == 0.0)
      && (raw.y <= 0.0 ==> r.y == raw.y) && (raw.y > 0.0 ==> r.y == 0.0)
  {
    Point(Min2(offset.x + (client.x - start.x) / scale, 0.0),
          Min2(offset.y + (client.y - start.y) / scale, 0.0))
  }

  /** Where the cap does not bite, panning drags the world with the pointer: the
      world point that was under the previous pointer position is under the new one. */
  lemma PanFollowsPointer(offset: Point, start: Point, client: Point, scale: real, origin: Point)
    requires scale != 0.0
    requires offset.x + (client.x - start.x) / scale <= 0.0
    requires offset.y + (client.y - start.y) / scale <= 0.0
    ensures ScreenToWorld(Sub(client, origin), scale, PannedOffset(offset, start, client, scale))
         == ScreenToWorld(Sub(start, origin), scale, offset)
  {
    var r := PannedOffset(offset, start, client, scale);
    assert (client.x - origin.x) / scale - (client.x - start.x) / scale == (start.x - origin.x) / scale;
    assert (client.y - origin.y) / scale - (client.y - start.y) / scale == (start.y - origin.y) / scale;
  }

  /** Where the cap does not bite, two pan steps add up to the single step over the
      whole pointer movement. */
  lemma PanStepsCompose(offset: Point, a: Point, b: Point, c: Point, scale: real)
    requires scale != 0.0
    requires offset.x + (b.x - a.x) / scale <= 0.0 && offset.y + (b.y - a.y) / scale <= 0.0
    ensures PannedOffset(PannedOffset(offset, a, b, scale), b, c, scale) == PannedOffset(offset, a, c, scale)
  {
    assert (b.x - a.x) / scale + (c.x - b.x) / scale == (c.x - a.x) / scale;
    assert (b.y - a.y) / scale + (c.y - b.y) / scale == (c.y - a.y) / scale;
  }

  // ----- the polygon layer's transform -----

  /** An SVG `translate(tx, ty) scale(s)` transform. */
  datatype Transform = Transform(tx: real, ty: real, s: real)

  /** Where the transform draws a world point: scaled first, then translated. */
  function Apply(t: Transform, w: Point): Point {
    Point(t.tx + t.s * w.x, t.ty + t.s * w.y)
  }

  /** The transform `_applyTransform` writes: `translate(offset) scale(scale)`. */
  function LayerTransformAsWritten(scale: real, offset: Point): Transform {
    Transform(offset.x, offset.y, scale)
  }

  /** The transform as written agrees with the editor's own world-to-screen map
      exactly when the scale is 1 or the offset is 0, axis by axis. */
  lemma AsWrittenAgreesOnlyAtUnitScale(scale: real, offset: Point)
    ensures (forall w :: Apply(LayerTransformAsWritten(scale, offset), w) == WorldToScreen(w, scale, offset))
        <==> (scale == 1.0 || offset == Point(0.0, 0.0))
  {
    var t := LayerTransformAsWritten(scale, offset);
    if scale != 1.0 && offset != Point(0.0, 0.0) {
      var w := Point(0.0, 0.0);
      assert Apply(t, w) == offset;
      assert WorldToScreen(w, scale, offset) == Point(offset.x * scale, offset.y * scale);
      if offset.x != 0.0 {
        assert offset.x * scale != offset.x;
      } else {
        assert offset.y * scale != offset.y;
      }
    }
  }

  /** A polygon dropped at screen point (0, 0) with scale 2 and offset (-10, 0) is
      drawn by the transform as written at (10, 0), not under the cursor. */
  lemma AsWrittenMisplacesDrop()
    ensures var m, s, o := Point(0.0, 0.0), 2.0, Point(-10.0, 0.0);
      Apply(LayerTransformAsWritten(s, o), ScreenToWorld(m, s, o)) == Point(10.0, 0.0)
  {
    DropWorldPoint();
  }

  /** The pointer at screen (0, 0), with scale 2 and offset (-10, 0), is over world point (10, 0). */
  lemma DropWorldPoint()
    ensures ScreenToWorld(Point(0.0, 0.0), 2.0, Point(-10.0, 0.0)) == Point(10.0, 0.0)
  {
  }

  /** The corrected transform, `translate(offset * scale) scale(scale)`: it draws
      every world point where the grid and the pointer handlers place it. */
  function LayerTransform(scale: real, offset: Point): (t: Transform)
    ensures forall w :: Apply(t, w) == WorldToScreen(w, scale, offset)
  {
    Transform(offset.x * scale, offset.y * scale, scale)
  }

  /** With the corrected transform, whatever is dropped or dragged to a screen
      point is drawn at that screen point. */
  lemma LayerTransformDrawsUnderCursor(p: Point, scale: real, offset: Point)
    requires scale != 0.0
    ensures Apply(LayerTransform(scale, offset), ScreenToWorld(p, scale, offset)) == p
  {
  }
}
