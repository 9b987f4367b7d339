/**
 * src/ui.tsx: the UI's handlers for the plugin's messages. A selection change
 * stores the selection, tints the shadow colour from the colour behind the
 * node, and restores the settings saved on the node when there are any.
 *
 * The handlers are memoised once, on first render, so the light and target
 * they spread into the store are the ones of that first render: the model
 * keeps them as `capturedLight` and `capturedTarget`.
 */
module PluginUi {
  import opened Wrappers
  import opened Figma
  import opened Js
  import opened MathUtil
  import opened Shadow
  import opened AppStore

  const RESTORED_MESSAGE: string := "Restored previous shadow settings."
  const PARTIAL_RESTORE_MESSAGE: string :=
    "Couldn't restore all previous shadow settings due to a newer version. Sorry!"
  /** `WINDOW_INITIAL_WIDTH` by `WINDOW_INITIAL_HEIGHT` (src/constants/index.ts) */
  const WINDOW_INITIAL: Bounds := Bounds(375.0, 375.0)
  const FALLBACK_SHADOW_COLOR: string := "#000"

  // ---------------------------------------------------------------- restoring saved settings

  /** `lightPosition` of the saved object; absent when nothing or an old version was saved. */
  function SavedLightPosition(saved: SavedData): (p: Option<Vec>)
    ensures p.Some? <==> saved.data.Some? && saved.data.value.lightPosition.Some?
  {
    if saved.data.Some? then saved.data.value.lightPosition else None
  }

  /** One coordinate of `lightPosition?.x`. */
  function Coordinate(p: Option<Vec>, horizontal: bool): Option<real> {
    if p.None? then None else if horizontal then Some(p.value.x) else Some(p.value.y)
  }

  /**
   * `{ ...light, x, y, brightness }`: a coordinate comes from the saved light
   * position unless that is absent or 0, then from the initial position; the
   * brightness is the saved one.
   */
  function RestoredLight(captured: Light, d: Defaults, saved: SavedData): (l: Light)
    ensures l.size == captured.size && l.alignment == captured.alignment
    ensures l.positionPointerDown == captured.positionPointerDown
    ensures l.brightnessPointerDown == captured.brightnessPointerDown
    ensures l.x == OrNumber(Coordinate(SavedLightPosition(saved), true), d.lightInitialPosition.x)
    ensures l.y == OrNumber(Coordinate(SavedLightPosition(saved), false), d.lightInitialPosition.y)
    ensures saved.data.Some? ==> l.brightness == saved.data.value.brightness
  {
    var p := SavedLightPosition(saved);
    var x := OrNumber(Coordinate(p, true), d.lightInitialPosition.x);
    var y := OrNumber(Coordinate(p, false), d.lightInitialPosition.y);
    var brightness := if saved.data.Some? then Some(saved.data.value.brightness) else None;
    MergeLight(captured, LightPatch(x := Some(x), y := Some(y), brightness := brightness))
  }

  /** `{ ...target, elevation }` */
  function RestoredTarget(captured: Target, saved: SavedData): (t: Target)
    ensures t.x == captured.x && t.y == captured.y
    ensures t.elevationPointerDown == captured.elevationPointerDown
    ensures saved.data.Some? ==> t.elevation == saved.data.value.elevation
    ensures saved.data.None? ==> t == captured
  {
    var elevation := if saved.data.Some? then Some(saved.data.value.elevation) else None;
    MergeTarget(captured, TargetPatch(elevation := elevation))
  }

  /** `shadowColor || '#000'` */
  function RestoredColor(saved: SavedData): (c: string)
    ensures saved.data.Some? && TruthyString(saved.data.value.shadowColor) ==>
              c == saved.data.value.shadowColor.value
    ensures saved.data.None? || !TruthyString(saved.data.value.shadowColor) ==> c == FALLBACK_SHADOW_COLOR
  {
    OrString(if saved.data.Some? then saved.data.value.shadowColor else None, FALLBACK_SHADOW_COLOR)
  }

  /** The size the plugin window is restored to: the saved preview bounds, else the initial window. */
  function RestoredBounds(saved: SavedData): (b: Bounds)
    ensures saved.data.Some? && saved.data.value.previewBounds.Some? ==> b == saved.data.value.previewBounds.value
    ensures saved.data.None? || saved.data.value.previewBounds.None? ==> b == WINDOW_INITIAL
  {
    if saved.data.Some? && saved.data.value.previewBounds.Some? then saved.data.value.previewBounds.value
    else WINDOW_INITIAL
  }

  /** Settings saved before the light position was recorded can only be restored in part. */
  function RestoreMessage(saved: SavedData): (m: string)
    ensures m == RESTORED_MESSAGE <==> SavedLightPosition(saved).Some?
    ensures m == PARTIAL_RESTORE_MESSAGE <==> SavedLightPosition(saved).None?
  {
    if SavedLightPosition(saved).Some? then RESTORED_MESSAGE else PARTIAL_RESTORE_MESSAGE
  }

  /**
   * The store after `restorePrevEffectsAndSettings`: colour, light and target
   * are replaced, built from the captured light and target, and nothing else changes.
   */
  function Restored(s: StoreState, capturedLight: Light, capturedTarget: Target, d: Defaults,
                    saved: SavedData): (r: StoreState)
    ensures r.light == RestoredLight(capturedLight, d, saved)
    ensures r.target == RestoredTarget(capturedTarget, saved)
    ensures r.color == RestoredColor(saved)
    ensures r == s.(color := r.color, light := r.light, target := r.target)
  {
    s.(color := RestoredColor(saved), light := RestoredLight(capturedLight, d, saved),
       target := RestoredTarget(capturedTarget, saved))
  }

  /**
   * Settings saved with a light position away from the edges come back as they
   * were saved: position, brightness, elevation and (when given) the colour.
   */
  lemma {:induction false} RestoreSavedSettings(s: StoreState, capturedLight: Light, capturedTarget: Target,
                                                d: Defaults, data: PluginData, version: Option<int>)
    requires data.lightPosition.Some? && data.lightPosition.value.x != 0.0 && data.lightPosition.value.y != 0.0
    ensures var r := Restored(s, capturedLight, capturedTarget, d, SavedData(Some(data), version));
      && r.light.x == data.lightPosition.value.x && r.light.y == data.lightPosition.value.y
      && r.light.brightness == data.brightness && r.target.elevation == data.elevation
      && (TruthyString(data.shadowColor) ==> r.color == data.shadowColor.value)
      && RestoreMessage(SavedData(Some(data), version)) == RESTORED_MESSAGE
  {
    var saved := SavedData(Some(data), version);
    var p := data.lightPosition.value;
    assert SavedLightPosition(saved) == Some(p);
    assert Coordinate(Some(p), true) == Some(p.x);
    assert Coordinate(Some(p), false) == Some(p.y);
  }

  /** A coordinate saved as 0 is falsy and is replaced by the initial position. */
  lemma {:induction false} RestoreZeroCoordinate(capturedLight: Light, d: Defaults, data: PluginData,
                                                 version: Option<int>)
    requires data.lightPosition.Some?
    ensures var l := RestoredLight(capturedLight, d, SavedData(Some(data), version));
      && (data.lightPosition.value.x == 0.0 ==> l.x == d.lightInitialPosition.x)
      && (data.lightPosition.value.y == 0.0 ==> l.y == d.lightInitialPosition.y)
  {
    var p := data.lightPosition.value;
    assert SavedLightPosition(SavedData(Some(data), version)) == Some(p);
    assert Coordinate(Some(p), true) == Some(p.x);
    assert Coordinate(Some(p), false) == Some(p.y);
  }

  /**
   * The restored values depend only on what was saved and what was captured:
   * restoring twice is restoring once, whatever the store held before.
   */
  lemma RestoreIdempotent(s: StoreState, t: StoreState, capturedLight: Light, capturedTarget: Target,
                          d: Defaults, saved: SavedData)
    requires t.preview == s.preview && t.background == s.background && t.selection == s.selection
    requires t.previewBounds == s.previewBounds && t.shadowType == s.shadowType
    ensures var r := Restored(s, capturedLight, capturedTarget, d, saved);
      && Restored(r, capturedLight, capturedTarget, d, saved) == r
      && Restored(t, capturedLight, capturedTarget, d, saved) == r
  {
  }

  // ---------------------------------------------------------------- tinting from the background

  /**
   * `setShadowColorAndBackground`'s two values: with a colour behind the node,
   * the shadow colour is that colour darkened (achromatic ones become black)
   * as hex without its `#`, and the background is the colour itself as hex;
   * otherwise both are the defaults.
   */
  function ShadowColorAndBackground(prims: Prims, d: Defaults, derived: Option<Rgba>): (r: (string, string))
    ensures derived.None? ==> r == (d.shadowDefaultColor, d.backgroundDefaultColor)
    ensures derived.Some? ==>
              var toHex := prims.hexOfGl(derived.value);
              var hsl := TintHsl(prims.hslOf(toHex));
              && r.1 == toHex
              && ('#' !in prims.hexOfHsl(hsl.0, hsl.1, hsl.2) ==> r.0 == prims.hexOfHsl(hsl.0, hsl.1, hsl.2))
              && ('#' in prims.hexOfHsl(hsl.0, hsl.1, hsl.2) ==>
                    var hex, k := prims.hexOfHsl(hsl.0, hsl.1, hsl.2), FirstHash(prims.hexOfHsl(hsl.0, hsl.1, hsl.2));
                    r.0 == hex[..k] + hex[k + 1..] && |r.0| == |hex| - 1)
              && (|prims.hexOfHsl(hsl.0, hsl.1, hsl.2)| > 0 && prims.hexOfHsl(hsl.0, hsl.1, hsl.2)[0] == '#' ==>
                    r.0 == prims.hexOfHsl(hsl.0, hsl.1, hsl.2)[1..])
  {
    if derived.None? then (d.shadowDefaultColor, d.backgroundDefaultColor)
    else
      var toHex := prims.hexOfGl(derived.value);
      var hsl := TintHsl(prims.hslOf(toHex));
      (RemoveFirstHash(prims.hexOfHsl(hsl.0, hsl.1, hsl.2)), toHex)
  }

  /**
   * The tint never makes the shadow lighter than the background it is taken
   * from (for lightness at least 0.1), and a colour without hue gives black.
   */
  lemma TintNeverLighter(hsl: ChromaHsl)
    ensures hsl.hue.None? ==> TintHsl(hsl).2 == 0.0
    ensures hsl.hue.Some? && hsl.lightness >= 0.1 ==> TintHsl(hsl).2 <= hsl.lightness
    ensures hsl.hue.Some? && hsl.lightness < 0.1 ==> TintHsl(hsl).2 == 0.1
  {
  }

  /** The store after `setShadowColorAndBackground`: the colour and the preview's background change. */
  function Tinted(s: StoreState, prims: Prims, d: Defaults, derived: Option<Rgba>): (r: StoreState)
    ensures r.color == ShadowColorAndBackground(prims, d, derived).0
    ensures r.preview.backgroundColor == ShadowColorAndBackground(prims, d, derived).1
    ensures r.preview == s.preview.(backgroundColor := r.preview.backgroundColor)
    ensures r == s.(color := r.color, preview := r.preview)
  {
    var colors := ShadowColorAndBackground(prims, d, derived);
    s.(color := colors.0, preview := MergePreview(s.preview, PreviewPatch(backgroundColor := Some(colors.1))))
  }

  // ---------------------------------------------------------------- selection change

  /** The store after `handleSelectionChange(selection)`. */
  function SelectionChanged(s: StoreState, capturedLight: Light, capturedTarget: Target, prims: Prims,
                            d: Defaults, sel: SelectionRecord): StoreState
  {
    var tinted := Tinted(s.(selection := sel), prims, d, sel.derivedBackgroundColor);
    if sel.prevShadowEffects.Some? then Restored(tinted, capturedLight, capturedTarget, d, sel.prevShadowEffects.value)
    else tinted
  }

  /**
   * The selection is stored and the preview background follows the colour
   * behind the node; when saved settings come along they are restored, and
   * their colour wins over the tint; otherwise light and target are untouched.
   */
  lemma {:induction false} SelectionChangeOutcome(s: StoreState, capturedLight: Light, capturedTarget: Target,
                                                  prims: Prims, d: Defaults, sel: SelectionRecord)
    ensures var r := SelectionChanged(s, capturedLight, capturedTarget, prims, d, sel);
      && r.selection == sel
      && r.preview.backgroundColor == ShadowColorAndBackground(prims, d, sel.derivedBackgroundColor).1
      && r.background == s.background && r.previewBounds == s.previewBounds && r.shadowType == s.shadowType
      && (sel.prevShadowEffects.Some? ==>
            && r.color == RestoredColor(sel.prevShadowEffects.value)
            && r.light == RestoredLight(capturedLight, d, sel.prevShadowEffects.value)
            && r.target == RestoredTarget(capturedTarget, sel.prevShadowEffects.value))
      && (sel.prevShadowEffects.None? ==>
            && r.color == ShadowColorAndBackground(prims, d, sel.derivedBackgroundColor).0
            && r.light == s.light && r.target == s.target)
  {
    var tinted := Tinted(s.(selection := sel), prims, d, sel.derivedBackgroundColor);
    if sel.prevShadowEffects.Some? {
      var r := Restored(tinted, capturedLight, capturedTarget, d, sel.prevShadowEffects.value);
      assert r.preview == tinted.preview;
    }
  }

  /** The UI's message handlers over the store. */
  class UiApp {
    const store: Store
    const capturedLight: Light
    const capturedTarget: Target
    const defaults: Defaults
    const prims: Prims

    /** First render: the handlers capture the store's light and target as they are now. */
    constructor (store: Store, d: Defaults, prims: Prims)
      ensures this.store == store && defaults == d && this.prims == prims
      ensures capturedLight == store.light && capturedTarget == store.target
    {
      this.store := store;
      capturedLight := store.light;
      capturedTarget := store.target;
      defaults := d;
      this.prims := prims;
    }

    /** `restorePrevEffectsAndSettings`: returns the window size and the message it emits. */
    method RestorePrevEffectsAndSettings(saved: SavedData) returns (resize: Bounds, message: string)
      modifies store
      ensures store.State() == Restored(old(store.State()), capturedLight, capturedTarget, defaults, saved)
      ensures resize == RestoredBounds(saved) && message == RestoreMessage(saved)
    {
      var p := SavedLightPosition(saved);
      var x := OrNumber(Coordinate(p, true), defaults.lightInitialPosition.x);
      var y := OrNumber(Coordinate(p, false), defaults.lightInitialPosition.y);
      var brightness := if saved.data.Some? then Some(saved.data.value.brightness) else None;
      var elevation := if saved.data.Some? then Some(saved.data.value.elevation) else None;
      var shadowColor := if saved.data.Some? then saved.data.value.shadowColor else None;
      store.SetEntireStore(OrString(shadowColor, FALLBACK_SHADOW_COLOR),
                           MergeLight(capturedLight, LightPatch(x := Some(x), y := Some(y), brightness := brightness)),
                           MergeTarget(capturedTarget, TargetPatch(elevation := elevation)));
      resize := if saved.data.Some? && saved.data.value.previewBounds.Some? then saved.data.value.previewBounds.value
                else WINDOW_INITIAL;
      message := if p.Some? then RESTORED_MESSAGE else PARTIAL_RESTORE_MESSAGE;
    }

    /** `setShadowColorAndBackground` */
    method SetShadowColorAndBackground(derived: Option<Rgba>)
      modifies store
      ensures store.State() == Tinted(old(store.State()), prims, defaults, derived)
    {
      var shadowColor := defaults.shadowDefaultColor;
      var backgroundColor := defaults.backgroundDefaultColor;
      if derived.Some? {
        var toHex := prims.hexOfGl(derived.value);
        var hsl := TintHsl(prims.hslOf(toHex));
        shadowColor := RemoveFirstHash(prims.hexOfHsl(hsl.0, hsl.1, hsl.2));
        backgroundColor := toHex;
      }
      store.SetColor(shadowColor);
      store.SetPreview(PreviewPatch(backgroundColor := Some(backgroundColor)));
    }

    /**
     * `handleSelectionChange`: returns the window size and message of the
     * restore when saved settings came with the selection.
     */
    method HandleSelectionChange(sel: SelectionRecord) returns (resize: Option<Bounds>, message: Option<string>)
      modifies store
      ensures store.State() == SelectionChanged(old(store.State()), capturedLight, capturedTarget, prims, defaults, sel)
      ensures resize.Some? <==> sel.prevShadowEffects.Some?
      ensures message.Some? <==> sel.prevShadowEffects.Some?
      ensures sel.prevShadowEffects.Some? ==>
                resize == Some(RestoredBounds(sel.prevShadowEffects.value)) &&
                message == Some(RestoreMessage(sel.prevShadowEffects.value))
    {
      store.SetSelection(sel);
      SetShadowColorAndBackground(sel.derivedBackgroundColor);
      resize, message := None, None;
      if sel.prevShadowEffects.Some? {
        var b, m := RestorePrevEffectsAndSettings(sel.prevShadowEffects.value);
        resize, message := Some(b), Some(m);
      }
    }
  }
}
