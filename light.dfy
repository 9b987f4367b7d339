/**
 * src/ui/Preview/components/Light/Light.tsx: the stand-alone light component.
 * It snaps a dragged light to the centre lines, reports it to its parent, and
 * keeps its spring position inside a shrinking preview.
 */
module LightComponent {
  import opened Wrappers
  import opened Figma
  import opened Js
  import opened Snapping

  /** `SNAP_TO_CENTER_TRESHOLD` in px. */
  const SNAP_TO_CENTER_TRESHOLD: real := 6.0
  /** The default of the `size` prop. */
  const DEFAULT_SIZE: real := 24.0
  const PADDING: real := 8.0

  /** `LightValues`: what the component reports through `onLightChange`. */
  datatype LightValues = LightValues(x: real, y: real, alignment: Alignment, pointerDown: bool)

  /** `(vw / 2 - size / 2, vh / 2 - size / 2)` */
  function SnapTarget(vw: real, vh: real, size: real): (c: Vec)
    ensures c.x == vw / 2.0 - size / 2.0 && c.y == vh / 2.0 - size / 2.0
  {
    Vec(vw / 2.0 - size / 2.0, vh / 2.0 - size / 2.0)
  }

  /**
   * `handleLightChange(position, alignment = 'NONE', pointerDown = false)`:
   * JavaScript default parameters stand in for omitted arguments.
   */
  function HandleLightChange(position: Vec, alignment: Option<Alignment>, pointerDown: Option<bool>): (v: LightValues)
    ensures v.x == position.x && v.y == position.y
    ensures v.alignment == alignment.GetOr(NONE) && v.pointerDown == pointerDown.GetOr(false)
  {
    LightValues(position.x, position.y, alignment.GetOr(NONE), pointerDown.GetOr(false))
  }

  /** One drag frame: `snapToAxis` against the centre lines with a 6 px window. */
  function DragValues(vw: real, vh: real, size: real, ox: real, oy: real, shiftKey: bool, down: bool): (v: LightValues)
    ensures var c := SnapTarget(vw, vh, size);
      var snap := SnapToAxis(ox, oy, c.x, c.y, SNAP_TO_CENTER_TRESHOLD, shiftKey);
      v == LightValues(snap.position.x, snap.position.y, snap.alignment, down)
  {
    var snapToX := vw / 2.0 - size / 2.0;
    var snapToY := vh / 2.0 - size / 2.0;
    var snap := SnapToAxis(ox, oy, snapToX, snapToY, SNAP_TO_CENTER_TRESHOLD, shiftKey);
    HandleLightChange(snap.position, Some(snap.alignment), Some(down))
  }

  /** Within 6 px of both centre lines, without shift, the light sits exactly on the centre. */
  lemma DragSnapsToCenter(vw: real, vh: real, size: real, ox: real, oy: real, down: bool)
    requires Abs(ox - (vw / 2.0 - size / 2.0)) < SNAP_TO_CENTER_TRESHOLD
    requires Abs(oy - (vh / 2.0 - size / 2.0)) < SNAP_TO_CENTER_TRESHOLD
    ensures DragValues(vw, vh, size, ox, oy, false, down) ==
            LightValues(vw / 2.0 - size / 2.0, vh / 2.0 - size / 2.0, CENTER, down)
  {
  }

  /** What the component reports when the preview is resized: the current position, `NONE`, not pressed. */
  lemma RefreshReportsRest(x: real, y: real)
    ensures HandleLightChange(Vec(x, y), None, None) == LightValues(x, y, NONE, false)
  {
  }

  /** A coordinate past the far edge (minus the size) goes to the edge minus size and padding. */
  function ClampAxis(v: real, extent: real, size: real): (r: real)
    ensures v > extent - size ==> r == extent - size - PADDING && r < extent - size
    ensures v <= extent - size ==> r == v
  {
    if v > extent - size then extent - size - PADDING else v
  }

  /** The spring that positions the light. */
  class LightSpring {
    var x: real
    var y: real

    constructor ()
      ensures x == 0.0 && y == 0.0
    {
      x := 0.0;
      y := 0.0;
    }

    /**
     * The preview effect: nothing when either dimension is 0; otherwise each
     * axis is pulled back on its own, and the result is within the far edges.
     */
    method KeepInBounds(vw: real, vh: real, size: real)
      modifies this
      ensures vw == 0.0 || vh == 0.0 ==> x == old(x) && y == old(y)
      ensures vw != 0.0 && vh != 0.0 ==> x == ClampAxis(old(x), vw, size) && y == ClampAxis(old(y), vh, size)
      ensures vw != 0.0 && vh != 0.0 ==> x <= vw - size && y <= vh - size
    {
      if vw == 0.0 || vh == 0.0 {
        return;
      }
      if x > vw - size {
        x := vw - size - PADDING;
      }
      if y > vh - size {
        y := vh - size - PADDING;
      }
    }

    /** `animate.set(position)` during a drag; returns what is reported to the parent. */
    method Drag(vw: real, vh: real, size: real, ox: real, oy: real, shiftKey: bool, down: bool)
      returns (v: LightValues)
      modifies this
      ensures v == DragValues(vw, vh, size, ox, oy, shiftKey, down)
      ensures x == v.x && y == v.y
    {
      v := DragValues(vw, vh, size, ox, oy, shiftKey, down);
      x, y := v.x, v.y;
    }
  }
}
