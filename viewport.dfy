/** The pan/zoom viewport (frontend/src/composables/useViewport.js): an
    affine world-to-screen map with a flipped y axis, fit-to-bounds,
    zoom about a screen point, and drag panning. */
module Viewport {
  import opened Common

  /** The three fields of the viewport record that the coordinate maps read:
      the screen offset of the bounds' top-left corner and the scale
      (pixels per world unit). */
  datatype View = View(x: real, y: real, scale: real)

  /** worldToScreen: world x grows to the right from min_x, world y grows
      upwards from max_y, so the screen y axis is flipped. Without bounds the
      source answers the origin. */
  function WorldToScreen(v: View, wx: real, wy: real, bounds: Option<Bounds>): (p: Point)
    ensures bounds.None? ==> p == Point(0.0, 0.0)
  {
    match bounds
    case None => Point(0.0, 0.0)
    case Some(b) => Point((wx - b.minX) * v.scale + v.x, (b.maxY - wy) * v.scale + v.y)
  }

  /** screenToWorld: the inverse map; the origin without bounds or at scale 0. */
  function ScreenToWorld(v: View, sx: real, sy: real, bounds: Option<Bounds>): (p: Point)
    ensures bounds.None? || v.scale == 0.0 ==> p == Point(0.0, 0.0)
  {
    if bounds.None? || v.scale == 0.0 then Point(0.0, 0.0)
    else
      var b := bounds.value;
      Point(b.minX + (sx - v.x) / v.scale, b.maxY - (sy - v.y) / v.scale)
  }

  /** Mapping a world point to the screen and back returns it. */
  lemma WorldScreenRoundTrip(v: View, wx: real, wy: real, b: Bounds)
    requires v.scale != 0.0
    ensures var p := WorldToScreen(v, wx, wy, Some(b));
            ScreenToWorld(v, p.x, p.y, Some(b)) == Point(wx, wy)
  {
    var p := WorldToScreen(v, wx, wy, Some(b));
    assert (p.x - v.x) / v.scale == wx - b.minX;
    assert (p.y - v.y) / v.scale == b.maxY - wy;
  }

  /** Mapping a screen point to the world and back returns it. */
  lemma ScreenWorldRoundTrip(v: View, sx: real, sy: real, b: Bounds)
    requires v.scale != 0.0
    ensures var w := ScreenToWorld(v, sx, sy, Some(b));
            WorldToScreen(v, w.x, w.y, Some(b)) == Point(sx, sy)
  {
    var w := ScreenToWorld(v, sx, sy, Some(b));
    assert (w.x - b.minX) * v.scale == sx - v.x;
    assert (b.maxY - w.y) * v.scale == sy - v.y;
  }

  /** At a positive scale the map preserves the order of x and reverses the
      order of y: higher world points are drawn nearer the top. */
  lemma WorldToScreenOrientation(v: View, b: Bounds, x1: real, y1: real, x2: real, y2: real)
    requires v.scale > 0.0
    ensures x1 < x2 <==> WorldToScreen(v, x1, y1, Some(b)).x < WorldToScreen(v, x2, y2, Some(b)).x
    ensures y1 < y2 <==> WorldToScreen(v, x1, y1, Some(b)).y > WorldToScreen(v, x2, y2, Some(b)).y
  {
    assert WorldToScreen(v, x2, y2, Some(b)).x - WorldToScreen(v, x1, y1, Some(b)).x == (x2 - x1) * v.scale;
    assert WorldToScreen(v, x1, y1, Some(b)).y - WorldToScreen(v, x2, y2, Some(b)).y == (y2 - y1) * v.scale;
  }

  /** The view zoomAt moves to: the new scale, and the offset that puts
      the world point under (sx, sy) back under it. */
  function Zoomed(v: View, newScale: real, sx: real, sy: real, b: Bounds): (w: View)
    ensures w.scale == newScale
    ensures v.scale != 0.0 && newScale == v.scale ==> w == v
  {
    var a := ScreenToWorld(v, sx, sy, Some(b));
    assert v.scale != 0.0 ==> (a.x - b.minX) * v.scale == sx - v.x && (b.maxY - a.y) * v.scale == sy - v.y;
    View(sx - (a.x - b.minX) * newScale, sy - (b.maxY - a.y) * newScale, newScale)
  }

  /** The offset zoomAt computes puts the anchor world point back under the
      cursor, and at a nonzero scale the cursor still maps to the anchor. */
  lemma AnchorKept(v: View, newScale: real, sx: real, sy: real, b: Bounds)
    ensures var a := ScreenToWorld(v, sx, sy, Some(b));
            var w := Zoomed(v, newScale, sx, sy, b);
            && w.scale == newScale
            && WorldToScreen(w, a.x, a.y, Some(b)) == Point(sx, sy)
            && (newScale != 0.0 ==> ScreenToWorld(w, sx, sy, Some(b)) == a)
  {
    var a := ScreenToWorld(v, sx, sy, Some(b));
    var w := Zoomed(v, newScale, sx, sy, b);
    OffsetPlaces(w, a.x, a.y, sx, sy, b);
  }

  /** An offset chosen so that (wx, wy) is drawn at (sx, sy) does so, and
      at a nonzero scale the inverse map takes (sx, sy) back to (wx, wy). */
  lemma OffsetPlaces(w: View, wx: real, wy: real, sx: real, sy: real, b: Bounds)
    requires w.x == sx - (wx - b.minX) * w.scale && w.y == sy - (b.maxY - wy) * w.scale
    ensures WorldToScreen(w, wx, wy, Some(b)) == Point(sx, sy)
    ensures w.scale != 0.0 ==> ScreenToWorld(w, sx, sy, Some(b)) == Point(wx, wy)
  {
    if w.scale != 0.0 {
      MulDivCancel(wx - b.minX, w.scale);
      MulDivCancel(b.maxY - wy, w.scale);
    }
  }

  /** The scale fitToBounds chooses: the larger scale at which the padded
      screen still holds the whole bounds, never below 0.01. Spans below
      1e-6 are widened to 1e-6. */
  function FitScale(b: Bounds, screenW: real, screenH: real, padding: real): (s: real)
    ensures s >= 0.01
    ensures s == 0.01 ||
            s == (screenW - padding * 2.0) / Max(b.maxX - b.minX, 0.000001) ||
            s == (screenH - padding * 2.0) / Max(b.maxY - b.minY, 0.000001)
    ensures s > 0.01 ==> s <= (screenW - padding * 2.0) / Max(b.maxX - b.minX, 0.000001) &&
                         s <= (screenH - padding * 2.0) / Max(b.maxY - b.minY, 0.000001)
  {
    var worldW := Max(b.maxX - b.minX, 0.000001);
    var worldH := Max(b.maxY - b.minY, 0.000001);
    Max(0.01, Min((screenW - padding * 2.0) / worldW, (screenH - padding * 2.0) / worldH))
  }

  /** The worked example: a 100 x 50 panel on a 400 x 300 canvas with 56 px of
      padding is drawn at min(288/100, 188/50) = 2.88 pixels per unit. */
  lemma FitScaleExample()
    ensures FitScale(Bounds(0.0, 100.0, 0.0, 50.0), 400.0, 300.0, 56.0) == 2.88
  {
    assert (400.0 - 56.0 * 2.0) / 100.0 == 2.88;
    assert (300.0 - 56.0 * 2.0) / 50.0 == 3.76;
  }

  /** The reactive `viewport` record and the operations that update it. */
  class ViewportState {
    var x: real
    var y: real
    var scale: real
    var isDragging: bool
    var lastX: real
    var lastY: real

    /** The invariant every operation keeps: the scale is positive, so the
        coordinate maps are always mutually inverse. */
    predicate Valid()
      reads this
    {
      scale > 0.0
    }

    constructor ()
      ensures x == 0.0 && y == 0.0 && scale == 1.0
      ensures !isDragging && lastX == 0.0 && lastY == 0.0
      ensures Valid()
    {
      x, y, scale := 0.0, 0.0, 1.0;
      isDragging, lastX, lastY := false, 0.0, 0.0;
    }

    /** The current offset and scale, as the coordinate maps read them. */
    function Current(): View
      reads this
    {
      View(x, y, scale)
    }

    /** fitToBounds: no-op without bounds or on a zero-sized screen; otherwise
        the scale is FitScale and the bounds' midpoint lands on the screen's
        centre. */
    method FitToBounds(bounds: Option<Bounds>, screenW: real, screenH: real, padding: real)
      modifies this`x, this`y, this`scale
      ensures old(Valid()) ==> Valid()
      ensures bounds.None? || screenW == 0.0 || screenH == 0.0 ==>
                x == old(x) && y == old(y) && scale == old(scale)
      ensures bounds.Some? && screenW != 0.0 && screenH != 0.0 ==>
                var b := bounds.value;
                && scale == FitScale(b, screenW, screenH, padding)
                && scale >= 0.01
                && WorldToScreen(Current(), (b.minX + b.maxX) / 2.0, (b.minY + b.maxY) / 2.0, bounds)
                   == Point(screenW / 2.0, screenH / 2.0)
    {
      if bounds.None? || screenW == 0.0 || screenH == 0.0 {
        return;
      }
      var b := bounds.value;
      var midX := (b.minX + b.maxX) / 2.0;
      var midY := (b.minY + b.maxY) / 2.0;
      scale := FitScale(b, screenW, screenH, padding);
      x := screenW / 2.0 - (midX - b.minX) * scale;
      y := screenH / 2.0 - (b.maxY - midY) * scale;
      OffsetPlaces(Current(), midX, midY, screenW / 2.0, screenH / 2.0, b);
    }

    /** startDrag: remember the pointer and enter the dragging state. */
    method StartDrag(clientX: real, clientY: real)
      modifies this`isDragging, this`lastX, this`lastY
      ensures old(Valid()) ==> Valid()
      ensures isDragging && lastX == clientX && lastY == clientY
    {
      isDragging := true;
      lastX := clientX;
      lastY := clientY;
    }

    /** dragTo: while dragging, the offset moves by the pointer delta and the
        pointer is remembered; otherwise nothing changes. The scale is never
        touched. */
    method DragTo(clientX: real, clientY: real)
      modifies this`x, this`y, this`lastX, this`lastY
      ensures old(Valid()) ==> Valid()
      ensures !isDragging ==> x == old(x) && y == old(y) && lastX == old(lastX) && lastY == old(lastY)
      ensures isDragging ==>
                && x == old(x) + (clientX - old(lastX))
                && y == old(y) + (clientY - old(lastY))
                && lastX == clientX && lastY == clientY
    {
      if !isDragging {
        return;
      }
      x := x + (clientX - lastX);
      y := y + (clientY - lastY);
      lastX := clientX;
      lastY := clientY;
    }

    /** endDrag: leave the dragging state. */
    method EndDrag()
      modifies this`isDragging
      ensures old(Valid()) ==> Valid()
      ensures !isDragging
    {
      isDragging := false;
    }

    /** zoomAt: the new scale is scale * factor clamped to [minScale, maxScale];
        without bounds, or when that equals the current scale, nothing changes.
        Otherwise the world point under (sx, sy) before the zoom is still under
        (sx, sy) afterwards. */
    method ZoomAt(factor: real, sx: real, sy: real, bounds: Option<Bounds>, minScale: real, maxScale: real)
      modifies this`x, this`y, this`scale
      ensures old(Valid()) && 0.0 < minScale <= maxScale ==> Valid()
      ensures bounds.None? || Clamp(old(scale) * factor, minScale, maxScale) == old(scale) ==>
                x == old(x) && y == old(y) && scale == old(scale)
      ensures bounds.Some? && Clamp(old(scale) * factor, minScale, maxScale) != old(scale) ==>
                var anchor := ScreenToWorld(old(Current()), sx, sy, bounds);
                && scale == Clamp(old(scale) * factor, minScale, maxScale)
                && Current() == Zoomed(old(Current()), scale, sx, sy, bounds.value)
                && WorldToScreen(Current(), anchor.x, anchor.y, bounds) == Point(sx, sy)
                && (scale != 0.0 ==> ScreenToWorld(Current(), sx, sy, bounds) == anchor)
    {
      if bounds.None? {
        return;
      }
      var b := bounds.value;
      var nextScale := Clamp(scale * factor, minScale, maxScale);
      if nextScale == scale {
        return;
      }
      var w := Zoomed(Current(), nextScale, sx, sy, b);
      AnchorKept(Current(), nextScale, sx, sy, b);
      x, y, scale := w.x, w.y, w.scale;
      assert Current() == w;
    }
  }
}
