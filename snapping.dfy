/**
 * The axis-snapping decision table, in its three copies:
 * helpers/align.ts (no bypass), helpers/snapToAxis.ts and helpers/snap.ts
 * (both bypassed while shift is held).
 */
module Snapping {
  import opened Figma

  /** `Alignment`: which guide lines the snapped position sits on. */
  datatype Alignment = NONE | CENTER | HORIZONTAL | VERTICAL

  /** The returned `{ position, alignment }` (`snappedTo` / `snapped` in the other two copies). */
  datatype Snap = Snap(position: Vec, alignment: Alignment)

  /** A coordinate is centred strictly inside the open window `(c - t, c + t)`. */
  predicate Centered(v: real, c: real, t: real) {
    v > c - t && v < c + t
  }

  /**
   * The table stated per axis: a coordinate snaps exactly when it is centred on
   * its own axis, and the tag records which axes snapped.
   */
  predicate SnapsPerAxis(x: real, y: real, cx: real, cy: real, t: real, r: Snap) {
    && r.position.x == (if Centered(x, cx, t) then cx else x)
    && r.position.y == (if Centered(y, cy, t) then cy else y)
    && (r.alignment == CENTER <==> Centered(x, cx, t) && Centered(y, cy, t))
    && (r.alignment == HORIZONTAL <==> Centered(x, cx, t) && !Centered(y, cy, t))
    && (r.alignment == VERTICAL <==> !Centered(x, cx, t) && Centered(y, cy, t))
    && (r.alignment == NONE <==> !Centered(x, cx, t) && !Centered(y, cy, t))
  }

  /** `align(x, y, alignX, alignY, treshold)`: snapping decided by geometry alone. */
  function Align(x: real, y: real, alignX: real, alignY: real, treshold: real): (r: Snap)
    ensures SnapsPerAxis(x, y, alignX, alignY, treshold, r)
    ensures Centered(x, alignX, treshold) && Centered(y, alignY, treshold) ==>
              r == Snap(Vec(alignX, alignY), CENTER)
    ensures !Centered(x, alignX, treshold) && !Centered(y, alignY, treshold) ==>
              r == Snap(Vec(x, y), NONE)
  {
    var centeredX := Centered(x, alignX, treshold);
    var centeredY := Centered(y, alignY, treshold);
    if centeredX && centeredY then Snap(Vec(alignX, alignY), CENTER)
    else if centeredX then Snap(Vec(alignX, y), HORIZONTAL)
    else if centeredY then Snap(Vec(x, alignY), VERTICAL)
    else Snap(Vec(x, y), NONE)
  }

  /**
   * `snapToAxis(x, y, snapToX, snapTo, snapTreshold, shiftPressed)`: with shift
   * held the point is returned as is; otherwise it is the same table as `align`.
   */
  function SnapToAxis(x: real, y: real, snapToX: real, snapTo: real, snapTreshold: real,
                      shiftPressed: bool): (r: Snap)
    ensures shiftPressed ==> r == Snap(Vec(x, y), NONE)
    ensures !shiftPressed ==> r == Align(x, y, snapToX, snapTo, snapTreshold)
    ensures !shiftPressed ==> SnapsPerAxis(x, y, snapToX, snapTo, snapTreshold, r)
  {
    if shiftPressed then Snap(Vec(x, y), NONE)
    else
      var centeredX := x > snapToX - snapTreshold && x < snapToX + snapTreshold;
      var centeredY := y > snapTo - snapTreshold && y < snapTo + snapTreshold;
      if centeredX && centeredY then Snap(Vec(snapToX, snapTo), CENTER)
      else if centeredX then Snap(Vec(snapToX, y), HORIZONTAL)
      else if centeredY then Snap(Vec(x, snapTo), VERTICAL)
      else Snap(Vec(x, y), NONE)
  }

  /** `snapTo(x, y, centerX, centerY, treshold, shiftPressed)`: the same table again. */
  function SnapTo(x: real, y: real, centerX: real, centerY: real, treshold: real,
                  shiftPressed: bool): (r: Snap)
    ensures shiftPressed ==> r == Snap(Vec(x, y), NONE)
    ensures !shiftPressed ==> r == Align(x, y, centerX, centerY, treshold)
    ensures r == SnapToAxis(x, y, centerX, centerY, treshold, shiftPressed)
  {
    if shiftPressed then Snap(Vec(x, y), NONE)
    else
      var centeredX := x > centerX - treshold && x < centerX + treshold;
      var centeredY := y > centerY - treshold && y < centerY + treshold;
      if centeredX && centeredY then Snap(Vec(centerX, centerY), CENTER)
      else if centeredX then Snap(Vec(centerX, y), HORIZONTAL)
      else if centeredY then Snap(Vec(x, centerY), VERTICAL)
      else Snap(Vec(x, y), NONE)
  }

  /**
   * Each output coordinate is the input or the target, and snapping a snapped
   * point again (with a positive window) changes nothing.
   */
  lemma AlignIdempotent(x: real, y: real, cx: real, cy: real, t: real)
    requires t > 0.0
    ensures var r := Align(x, y, cx, cy, t);
      && (r.position.x == x || r.position.x == cx)
      && (r.position.y == y || r.position.y == cy)
      && Align(r.position.x, r.position.y, cx, cy, t) == r
  {
  }

  /** Re-snapping the output of `snapToAxis` with the same arguments gives the same result. */
  lemma SnapToAxisIdempotent(x: real, y: real, cx: real, cy: real, t: real, shift: bool)
    requires t > 0.0
    ensures var r := SnapToAxis(x, y, cx, cy, t, shift);
      SnapToAxis(r.position.x, r.position.y, cx, cy, t, shift) == r
  {
    AlignIdempotent(x, y, cx, cy, t);
  }

  /** With an empty or negative window nothing is ever centred. */
  lemma AlignEmptyWindow(x: real, y: real, cx: real, cy: real, t: real)
    requires t <= 0.0
    ensures Align(x, y, cx, cy, t) == Snap(Vec(x, y), NONE)
  {
  }
}
