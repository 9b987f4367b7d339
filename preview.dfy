/**
 * src/ui/Preview/preview.tsx: the preview pane. It records its measured size
 * and, whenever the light, the target or the background preference change,
 * recomputes the scene (azimuth, distance, elevation, brightness and background
 * colour) the shadows are drawn from.
 */
module PreviewPane {
  import opened Figma
  import opened Js
  import opened AppStore

  /** The background colour the pane shows for the chosen preference. */
  function BackgroundColorFor(b: Background, d: Defaults): (c: string)
    ensures c == d.backgroundDefaultColor || c == b.auto || c == b.custom
    ensures b.preference == NONE ==> c == d.backgroundDefaultColor
    ensures b.preference == AUTO ==> c == b.auto
    ensures b.preference == CUSTOM ==> c == b.custom
  {
    match b.preference
    case NONE => d.backgroundDefaultColor
    case AUTO => b.auto
    case CUSTOM => b.custom
  }

  /**
   * The target's reference point: its position moved back by half the light's
   * size, so that light and target are compared at the same corner.
   */
  function TargetReference(target: Target, light: Light): (v: Vec)
    ensures v.x + light.size / 2.0 == target.x && v.y + light.size / 2.0 == target.y
  {
    Vec(target.x - light.size / 2.0, target.y - light.size / 2.0)
  }

  /**
   * The scene the effect writes: angle and distance from the light to the
   * target's reference point, the target's elevation and the light's brightness.
   */
  function SceneOf(prims: Prims, light: Light, target: Target, backgroundColor: string): (p: Preview)
    ensures p.azimuth == prims.angleFromLightToTarget(TargetReference(target, light), Vec(light.x, light.y))
    ensures p.distance == prims.distanceFromLightToTarget(TargetReference(target, light), Vec(light.x, light.y))
    ensures p.elevation == target.elevation && p.brightness == light.brightness
    ensures p.backgroundColor == backgroundColor
  {
    var targetPosition := TargetReference(target, light);
    var lightPosition := Vec(light.x, light.y);
    Preview(prims.angleFromLightToTarget(targetPosition, lightPosition),
            prims.distanceFromLightToTarget(targetPosition, lightPosition),
            target.elevation, light.brightness, backgroundColor)
  }

  /** The store after the effect has run: only the preview changes, to the scene of the current state. */
  function Refreshed(s: StoreState, prims: Prims, d: Defaults): (r: StoreState)
    ensures r.preview == SceneOf(prims, s.light, s.target, BackgroundColorFor(s.background, d))
    ensures r == s.(preview := r.preview)
  {
    s.(preview := MergePreview(s.preview,
                               AsPatch(SceneOf(prims, s.light, s.target, BackgroundColorFor(s.background, d)))))
  }

  /**
   * The scene is a function of the light, the target and the background alone:
   * running the effect again changes nothing, and whatever was written into
   * the preview before the effect ran is overwritten.
   */
  lemma RefreshedIdempotent(s: StoreState, t: StoreState, prims: Prims, d: Defaults)
    requires t == s.(preview := t.preview)
    ensures Refreshed(Refreshed(s, prims, d), prims, d) == Refreshed(s, prims, d)
    ensures Refreshed(t, prims, d) == Refreshed(s, prims, d)
  {
    var r := Refreshed(s, prims, d);
    assert Refreshed(r, prims, d).preview == r.preview;
    assert Refreshed(t, prims, d).preview == r.preview;
  }

  /** The pane's refresh effect. */
  method Refresh(store: Store, prims: Prims, d: Defaults)
    modifies store
    ensures store.State() == Refreshed(old(store.State()), prims, d)
  {
    var scene := SceneOf(prims, store.light, store.target, BackgroundColorFor(store.background, d));
    store.SetPreview(AsPatch(scene));
  }

  /** The measured size of the pane is recorded as the preview bounds. */
  method OnBoundsChange(store: Store, width: real, height: real)
    modifies store
    ensures store.State() == old(store.State()).(previewBounds := Bounds(width, height))
  {
    store.SetPreviewBounds(Bounds(width, height));
  }
}
