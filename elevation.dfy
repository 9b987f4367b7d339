/**
 * src/ui/Preview/components/Target/useElevationSlider.ts: dragging the target
 * vertically sets its elevation.
 */
module ElevationSlider {
  import opened Wrappers
  import opened Js
  import opened MathUtil
  import opened AppStore

  /** `DRAG_RANGE`: the drag offset runs over [-50, 50]. */
  const DRAG_RANGE: real := 50.0

  /** The drag offset used: `stepped(oy, 10)` with shift held, otherwise raw. */
  function DragValue(prims: Prims, oy: real, shiftKey: bool): (v: real)
    ensures !shiftKey ==> v == oy
    ensures shiftKey ==> v == prims.stepped(oy, 10.0)
  {
    if shiftKey then prims.stepped(oy, 10.0) else oy
  }

  /** `normalize(value, DRAG_RANGE, -DRAG_RANGE)`, with no floor and no clamp. */
  function ElevationOf(value: real): (e: real)
    ensures e == (DRAG_RANGE - value) / (2.0 * DRAG_RANGE)
  {
    Normalize(value, DRAG_RANGE, -DRAG_RANGE)
  }

  /**
   * The bottom of the range is elevation 0, the middle 0.5 and the top 1;
   * within the range the elevation stays in [0, 1] and falls as the offset grows.
   */
  lemma {:induction false} ElevationRange(a: real, b: real)
    requires a <= b
    ensures ElevationOf(DRAG_RANGE) == 0.0 && ElevationOf(0.0) == 0.5 && ElevationOf(-DRAG_RANGE) == 1.0
    ensures -DRAG_RANGE <= a <= DRAG_RANGE ==> 0.0 <= ElevationOf(a) <= 1.0
    ensures ElevationOf(b) <= ElevationOf(a)
  {
    NormalizeAffine(a, DRAG_RANGE, -DRAG_RANGE);
    NormalizeMonotone(a, b, DRAG_RANGE, -DRAG_RANGE);
  }

  /**
   * One drag frame: the elevation and the pointer flag go to the store; a
   * release exactly at the bottom then forces the elevation to 0.
   */
  method OnSlide(store: Store, prims: Prims, oy: real, shiftKey: bool, down: bool)
    modifies store
    ensures var merged := MergeTarget(old(store.target),
              TargetPatch(elevation := Some(ElevationOf(DragValue(prims, oy, shiftKey))),
                          elevationPointerDown := Some(down)));
      store.State() == old(store.State()).(target :=
        if !down && oy == DRAG_RANGE then merged.(elevation := 0.0) else merged)
    ensures store.target.elevationPointerDown == down
    ensures !down && oy == DRAG_RANGE ==> store.target.elevation == 0.0
  {
    var value := if shiftKey then prims.stepped(oy, 10.0) else oy;
    var normalized := ElevationOf(value);
    store.SetTarget(TargetPatch(elevation := Some(normalized), elevationPointerDown := Some(down)));
    if !down && oy == DRAG_RANGE {
      store.SetTarget(TargetPatch(elevation := Some(0.0)));
    }
  }
}
