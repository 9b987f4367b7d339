/**
 * src/ui/Preview/components/Light/PositionDrag.tsx: dragging the light source
 * over the preview, placing it from azimuth and distance, and pulling it back
 * into view when the preview shrinks.
 */
module PositionDrag {
  import opened Wrappers
  import opened Figma
  import opened Js
  import opened Snapping
  import opened AppStore

  /** The light's resting point: the centre of the preview, corrected by half the light's size. */
  function AlignTarget(bounds: Bounds, size: real): (c: Vec)
    ensures c.x == bounds.width / 2.0 - size / 2.0 && c.y == bounds.height / 2.0 - size / 2.0
  {
    Vec(bounds.width / 2.0 - size / 2.0, bounds.height / 2.0 - size / 2.0)
  }

  /** The `bounds` option of the drag gesture: left, top, right, bottom. */
  datatype DragBox = DragBox(left: real, top: real, right: real, bottom: real)

  function DragBounds(bounds: Bounds, size: real): (b: DragBox)
    ensures b.left == 0.0 && b.top == 0.0
    ensures b.right == bounds.width - size && b.bottom == bounds.height - size
  {
    DragBox(0.0, 0.0, bounds.width - size, bounds.height - size)
  }

  /** When the light fits the preview, its resting point lies inside the drag box. */
  lemma AlignTargetInsideDragBox(bounds: Bounds, size: real)
    requires size >= 0.0 && bounds.width >= size && bounds.height >= size
    ensures var c, b := AlignTarget(bounds, size), DragBounds(bounds, size);
      b.left <= c.x <= b.right && b.top <= c.y <= b.bottom
  {
  }

  /**
   * The partial light record one drag frame writes: the aligned position, the
   * alignment tag and the pointer flag. `shiftKey` is handed to `align`, which
   * has no sixth parameter, so holding shift does not stop snapping.
   */
  function DragPatch(bounds: Bounds, size: real, treshold: real, ox: real, oy: real,
                     shiftKey: bool, down: bool): (p: LightPatch)
    ensures var c := AlignTarget(bounds, size);
      var snap := Align(ox, oy, c.x, c.y, treshold);
      p == LightPatch(x := Some(snap.position.x), y := Some(snap.position.y),
                      alignment := Some(snap.alignment), positionPointerDown := Some(down))
  {
    var alignX := bounds.width / 2.0 - size / 2.0;
    var alignY := bounds.height / 2.0 - size / 2.0;
    var snap := Align(ox, oy, alignX, alignY, treshold);
    LightPatch(x := Some(snap.position.x), y := Some(snap.position.y),
               alignment := Some(snap.alignment), positionPointerDown := Some(down))
  }

  /** Holding shift changes nothing: a light dragged near the centre still snaps onto it. */
  lemma DragSnapsWithShift(bounds: Bounds, size: real, treshold: real, ox: real, oy: real, down: bool)
    requires var c := AlignTarget(bounds, size); Centered(ox, c.x, treshold) && Centered(oy, c.y, treshold)
    ensures var p := DragPatch(bounds, size, treshold, ox, oy, true, down);
      && p.x == Some(AlignTarget(bounds, size).x) && p.y == Some(AlignTarget(bounds, size).y)
      && p.alignment == Some(CENTER)
    ensures DragPatch(bounds, size, treshold, ox, oy, true, down) ==
            DragPatch(bounds, size, treshold, ox, oy, false, down)
  {
  }

  /**
   * Where the light is animated to for an azimuth (degrees) and distance: the
   * resting point moved back by `distance` along the azimuth.
   */
  function PositionFromAzimuth(prims: Prims, bounds: Bounds, size: real, azimuth: real, distance: real): (v: Vec)
    ensures v.x == bounds.width / 2.0 - size / 2.0 - distance * prims.cos(Radians(prims, azimuth))
    ensures v.y == bounds.height / 2.0 - size / 2.0 - distance * prims.sin(Radians(prims, azimuth))
  {
    var theta := Radians(prims, azimuth);
    var dx := distance * prims.cos(theta);
    var dy := distance * prims.sin(theta);
    Vec(bounds.width / 2.0 - size / 2.0 - dx, bounds.height / 2.0 - size / 2.0 - dy)
  }

  /** `azimuth * (Math.PI / 180)` */
  function Radians(prims: Prims, degrees: real): real {
    degrees * (prims.pi / 180.0)
  }

  /** The light ends up exactly `distance` away from its resting point (squared, to stay off square roots). */
  lemma {:induction false} PositionFromAzimuthDistance(prims: Prims, bounds: Bounds, size: real,
                                                       azimuth: real, distance: real)
    requires prims.TrigLaws()
    ensures var c, v := AlignTarget(bounds, size), PositionFromAzimuth(prims, bounds, size, azimuth, distance);
      (c.x - v.x) * (c.x - v.x) + (c.y - v.y) * (c.y - v.y) == distance * distance
  {
    var theta := Radians(prims, azimuth);
    var co, si := prims.cos(theta), prims.sin(theta);
    var c, v := AlignTarget(bounds, size), PositionFromAzimuth(prims, bounds, size, azimuth, distance);
    assert v.x == bounds.width / 2.0 - size / 2.0 - distance * co;
    assert v.y == bounds.height / 2.0 - size / 2.0 - distance * si;
    assert co * co + si * si == 1.0;
    SquareSum(distance, co, si);
  }

  lemma SquareSum(d: real, co: real, si: real)
    requires co * co + si * si == 1.0
    ensures (d * co) * (d * co) + (d * si) * (d * si) == d * d
  {
    assert (d * co) * (d * co) + (d * si) * (d * si) == (d * d) * (co * co + si * si);
  }

  const PADDING: real := 8.0

  /**
   * The resize effect: nothing when either bound is 0; otherwise each
   * coordinate past its far edge (minus the light's size) is moved to the
   * edge minus size and padding, and a coordinate in bounds is not written.
   */
  function ResizePatch(bounds: Bounds, size: real, x: real, y: real): (p: Option<LightPatch>)
    ensures bounds.width == 0.0 || bounds.height == 0.0 ==> p.None?
    ensures p.Some? ==> p.value.size.None? && p.value.brightness.None? && p.value.alignment.None?
    ensures p.Some? ==> p.value.positionPointerDown.None? && p.value.brightnessPointerDown.None?
    ensures p.Some? ==> (p.value.x.Some? <==> x > bounds.width - size)
    ensures p.Some? ==> (p.value.y.Some? <==> y > bounds.height - size)
    ensures p.None? && bounds.width != 0.0 && bounds.height != 0.0 ==>
              x <= bounds.width - size && y <= bounds.height - size
  {
    if bounds.width == 0.0 || bounds.height == 0.0 then None
    else
      var oobX := x > bounds.width - size;
      var oobY := y > bounds.height - size;
      if oobX && oobY then
        Some(LightPatch(x := Some(bounds.width - size - PADDING), y := Some(bounds.height - size - PADDING)))
      else if oobX then Some(LightPatch(x := Some(bounds.width - size - PADDING)))
      else if oobY then Some(LightPatch(y := Some(bounds.height - size - PADDING)))
      else None
  }

  /** After the resize effect the light is back inside the far edges, and a coordinate in bounds is untouched. */
  lemma ResizeBringsBack(bounds: Bounds, l: Light, x: real, y: real)
    requires bounds.width != 0.0 && bounds.height != 0.0
    ensures var p := ResizePatch(bounds, l.size, x, y);
      var r := if p.Some? then MergeLight(l.(x := x, y := y), p.value) else l.(x := x, y := y);
      && r.x <= bounds.width - l.size && r.y <= bounds.height - l.size
      && (x <= bounds.width - l.size ==> r.x == x)
      && (y <= bounds.height - l.size ==> r.y == y)
  {
  }

  /** The drag handler: one frame of the gesture writes the aligned position to the store. */
  method OnDrag(store: Store, treshold: real, ox: real, oy: real, shiftKey: bool, down: bool)
    modifies store
    ensures store.State() == old(store.State()).(light := MergeLight(old(store.light),
              DragPatch(old(store.previewBounds), old(store.light.size), treshold, ox, oy, shiftKey, down)))
  {
    var patch := DragPatch(store.previewBounds, store.light.size, treshold, ox, oy, shiftKey, down);
    store.SetLight(patch);
  }

  /** The resize effect, given the spring's current position. */
  method OnPreviewBounds(store: Store, x: real, y: real)
    modifies store
    ensures var p := ResizePatch(old(store.previewBounds), old(store.light.size), x, y);
      store.State() == if p.Some? then old(store.State()).(light := MergeLight(old(store.light), p.value))
                       else old(store.State())
  {
    var patch := ResizePatch(store.previewBounds, store.light.size, x, y);
    if patch.Some? {
      store.SetLight(patch.value);
    }
  }
}
