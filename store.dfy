/**
 * src/store/create*.ts: the UI's state slices, their initial values and
 * setters, composed into one store the way src/store/useStore.ts composes them.
 */
module AppStore {
  import opened Wrappers
  import opened Figma
  import opened Snapping
  import opened Selection

  /** `TARGET_INITIAL_ELEVATION` (src/constants/index.ts) */
  const TARGET_INITIAL_ELEVATION: real := 0.5

  /**
   * Constants the slices and components import from src/constants/index.ts that
   * the file does not define; the model takes them as parameters.
   */
  datatype Defaults = Defaults(
    lightSize: real,
    lightInitialPosition: Vec,
    lightInitialBrightness: real,
    lightMinBrightness: real,
    backgroundDefaultColor: string,
    shadowDefaultColor: string)

  /** `{ ...current, ...partial }` on one field: the supplied value, else the current one. */
  function Pick<T>(supplied: Option<T>, current: T): (r: T)
    ensures supplied.Some? ==> r == supplied.value
    ensures supplied.None? ==> r == current
  {
    supplied.GetOr(current)
  }

  /** Two partials spread one after the other: the later one's field wins where it is given. */
  function Later<T>(first: Option<T>, second: Option<T>): (r: Option<T>)
    ensures second.Some? ==> r == second
    ensures second.None? ==> r == first
  {
    if second.Some? then second else first
  }

  /** Spreading the same field twice, or spreading two fields in turn, per field. */
  lemma PickLaws<T>(a: Option<T>, b: Option<T>, v: T)
    ensures Pick(a, Pick(a, v)) == Pick(a, v)
    ensures Pick(b, Pick(a, v)) == Pick(Later(a, b), v)
    ensures Pick(None, v) == v
  {
  }

  // ---------------------------------------------------------------- light

  /** `Light` (src/store/createLight.ts) */
  datatype Light = Light(
    size: real,
    x: real,
    y: real,
    brightness: real,
    alignment: Alignment,
    positionPointerDown: bool,
    brightnessPointerDown: bool)

  /** The partial record handed to `setLight`; an absent field is `None`. */
  datatype LightPatch = LightPatch(
    size: Option<real> := None,
    x: Option<real> := None,
    y: Option<real> := None,
    brightness: Option<real> := None,
    alignment: Option<Alignment> := None,
    positionPointerDown: Option<bool> := None,
    brightnessPointerDown: Option<bool> := None)

  function InitialLight(d: Defaults): (l: Light)
    ensures l.alignment == Alignment.NONE && !l.positionPointerDown && !l.brightnessPointerDown
    ensures l.size == d.lightSize && l.brightness == d.lightInitialBrightness
    ensures l.x == d.lightInitialPosition.x && l.y == d.lightInitialPosition.y
  {
    Light(d.lightSize, d.lightInitialPosition.x, d.lightInitialPosition.y,
          d.lightInitialBrightness, Alignment.NONE, false, false)
  }

  /** `{ ...state.light, ...light }` */
  function MergeLight(l: Light, p: LightPatch): Light {
    Light(Pick(p.size, l.size), Pick(p.x, l.x), Pick(p.y, l.y), Pick(p.brightness, l.brightness),
          Pick(p.alignment, l.alignment), Pick(p.positionPointerDown, l.positionPointerDown),
          Pick(p.brightnessPointerDown, l.brightnessPointerDown))
  }

  /** Two `setLight` partials applied in turn, as one. */
  function ThenLight(p: LightPatch, q: LightPatch): LightPatch {
    LightPatch(Later(p.size, q.size), Later(p.x, q.x), Later(p.y, q.y),
               Later(p.brightness, q.brightness), Later(p.alignment, q.alignment),
               Later(p.positionPointerDown, q.positionPointerDown),
               Later(p.brightnessPointerDown, q.brightnessPointerDown))
  }

  /**
   * `setLight` writes exactly the supplied fields; merging the same partial
   * twice is merging it once, an empty partial changes nothing, and two
   * partials in turn merge like one in which the later fields win.
   */
  lemma MergeLightLaws(l: Light, p: LightPatch, q: LightPatch)
    ensures var r := MergeLight(l, p);
      && (p.x.Some? ==> r.x == p.x.value) && (p.x.None? ==> r.x == l.x)
      && (p.y.Some? ==> r.y == p.y.value) && (p.y.None? ==> r.y == l.y)
      && (p.size.Some? ==> r.size == p.size.value) && (p.size.None? ==> r.size == l.size)
      && (p.brightness.Some? ==> r.brightness == p.brightness.value)
      && (p.brightness.None? ==> r.brightness == l.brightness)
      && (p.alignment.Some? ==> r.alignment == p.alignment.value)
      && (p.alignment.None? ==> r.alignment == l.alignment)
      && (p.positionPointerDown.Some? ==> r.positionPointerDown == p.positionPointerDown.value)
      && (p.positionPointerDown.None? ==> r.positionPointerDown == l.positionPointerDown)
      && (p.brightnessPointerDown.Some? ==> r.brightnessPointerDown == p.brightnessPointerDown.value)
      && (p.brightnessPointerDown.None? ==> r.brightnessPointerDown == l.brightnessPointerDown)
    ensures MergeLight(MergeLight(l, p), p) == MergeLight(l, p)
    ensures MergeLight(l, LightPatch()) == l
    ensures MergeLight(MergeLight(l, p), q) == MergeLight(l, ThenLight(p, q))
  {
  }

  // ---------------------------------------------------------------- target

  /** `Target` (src/store/createTarget.ts) */
  datatype Target = Target(x: real, y: real, elevation: real, elevationPointerDown: bool)

  datatype TargetPatch = TargetPatch(
    x: Option<real> := None,
    y: Option<real> := None,
    elevation: Option<real> := None,
    elevationPointerDown: Option<bool> := None)

  function InitialTarget(): (t: Target)
    ensures t.x == 0.0 && t.y == 0.0 && !t.elevationPointerDown
    ensures t.elevation == TARGET_INITIAL_ELEVATION
  {
    Target(0.0, 0.0, TARGET_INITIAL_ELEVATION, false)
  }

  /** `{ ...state.target, ...target }`: no range check, any elevation is stored as given. */
  function MergeTarget(t: Target, p: TargetPatch): Target {
    Target(Pick(p.x, t.x), Pick(p.y, t.y), Pick(p.elevation, t.elevation),
           Pick(p.elevationPointerDown, t.elevationPointerDown))
  }

  function ThenTarget(p: TargetPatch, q: TargetPatch): TargetPatch {
    TargetPatch(Later(p.x, q.x), Later(p.y, q.y), Later(p.elevation, q.elevation),
                Later(p.elevationPointerDown, q.elevationPointerDown))
  }

  lemma MergeTargetLaws(t: Target, p: TargetPatch, q: TargetPatch)
    ensures var r := MergeTarget(t, p);
      && (p.x.Some? ==> r.x == p.x.value) && (p.x.None? ==> r.x == t.x)
      && (p.y.Some? ==> r.y == p.y.value) && (p.y.None? ==> r.y == t.y)
      && (p.elevation.Some? ==> r.elevation == p.elevation.value)
      && (p.elevation.None? ==> r.elevation == t.elevation)
      && (p.elevationPointerDown.Some? ==> r.elevationPointerDown == p.elevationPointerDown.value)
      && (p.elevationPointerDown.None? ==> r.elevationPointerDown == t.elevationPointerDown)
    ensures MergeTarget(MergeTarget(t, p), p) == MergeTarget(t, p)
    ensures MergeTarget(t, TargetPatch()) == t
    ensures MergeTarget(MergeTarget(t, p), q) == MergeTarget(t, ThenTarget(p, q))
  {
  }

  // ---------------------------------------------------------------- background

  /** `BackgroundPreference` */
  datatype BackgroundPreference = NONE | AUTO | CUSTOM

  /** `Background` (src/store/createBackground.ts) */
  datatype Background = Background(custom: string, auto: string, preference: BackgroundPreference)

  datatype BackgroundPatch = BackgroundPatch(
    custom: Option<string> := None,
    auto: Option<string> := None,
    preference: Option<BackgroundPreference> := None)

  function InitialBackground(d: Defaults): (b: Background)
    ensures b.custom == d.backgroundDefaultColor && b.auto == d.backgroundDefaultColor
    ensures b.preference == AUTO
  {
    Background(d.backgroundDefaultColor, d.backgroundDefaultColor, AUTO)
  }

  /** `{ ...state.background, ...background }`: colours are stored without validation. */
  function MergeBackground(b: Background, p: BackgroundPatch): Background {
    Background(Pick(p.custom, b.custom), Pick(p.auto, b.auto), Pick(p.preference, b.preference))
  }

  lemma MergeBackgroundLaws(b: Background, p: BackgroundPatch)
    ensures var r := MergeBackground(b, p);
      && (p.custom.Some? ==> r.custom == p.custom.value) && (p.custom.None? ==> r.custom == b.custom)
      && (p.auto.Some? ==> r.auto == p.auto.value) && (p.auto.None? ==> r.auto == b.auto)
      && (p.preference.Some? ==> r.preference == p.preference.value)
      && (p.preference.None? ==> r.preference == b.preference)
    ensures MergeBackground(MergeBackground(b, p), p) == MergeBackground(b, p)
    ensures MergeBackground(b, BackgroundPatch()) == b
  {
  }

  // ---------------------------------------------------------------- preview

  /** `Preview` (src/store/createPreview.ts): the scene the shadows are computed from. */
  datatype Preview = Preview(
    azimuth: real,
    distance: real,
    elevation: real,
    brightness: real,
    backgroundColor: string)

  datatype PreviewPatch = PreviewPatch(
    azimuth: Option<real> := None,
    distance: Option<real> := None,
    elevation: Option<real> := None,
    brightness: Option<real> := None,
    backgroundColor: Option<string> := None)

  function InitialPreview(d: Defaults): (p: Preview)
    ensures p.azimuth == 0.0 && p.distance == 0.0
    ensures p.elevation == TARGET_INITIAL_ELEVATION && p.brightness == d.lightInitialBrightness
    ensures p.backgroundColor == d.backgroundDefaultColor
  {
    Preview(0.0, 0.0, TARGET_INITIAL_ELEVATION, d.lightInitialBrightness, d.backgroundDefaultColor)
  }

  /** `{ ...state.preview, ...preview }`: no range checks. */
  function MergePreview(v: Preview, p: PreviewPatch): Preview {
    Preview(Pick(p.azimuth, v.azimuth), Pick(p.distance, v.distance), Pick(p.elevation, v.elevation),
            Pick(p.brightness, v.brightness), Pick(p.backgroundColor, v.backgroundColor))
  }

  /** A full record as a partial: every field supplied. */
  function AsPatch(v: Preview): PreviewPatch {
    PreviewPatch(Some(v.azimuth), Some(v.distance), Some(v.elevation), Some(v.brightness),
                 Some(v.backgroundColor))
  }

  lemma MergePreviewLaws(v: Preview, p: PreviewPatch, full: Preview)
    ensures var r := MergePreview(v, p);
      && (p.azimuth.Some? ==> r.azimuth == p.azimuth.value) && (p.azimuth.None? ==> r.azimuth == v.azimuth)
      && (p.distance.Some? ==> r.distance == p.distance.value)
      && (p.distance.None? ==> r.distance == v.distance)
      && (p.elevation.Some? ==> r.elevation == p.elevation.value)
      && (p.elevation.None? ==> r.elevation == v.elevation)
      && (p.brightness.Some? ==> r.brightness == p.brightness.value)
      && (p.brightness.None? ==> r.brightness == v.brightness)
      && (p.backgroundColor.Some? ==> r.backgroundColor == p.backgroundColor.value)
      && (p.backgroundColor.None? ==> r.backgroundColor == v.backgroundColor)
    ensures MergePreview(MergePreview(v, p), p) == MergePreview(v, p)
    ensures MergePreview(v, PreviewPatch()) == v
    ensures MergePreview(v, AsPatch(full)) == full
  {
  }

  // ---------------------------------------------------------------- bounds, selection, shadow props

  /** `PreviewBounds` */
  datatype Bounds = Bounds(width: real, height: real)

  /** The stored shadow settings read back from a node (`PluginData` in src/main.ts). */
  datatype PluginData = PluginData(
    azimuth: real,
    distance: real,
    elevation: real,
    brightness: real,
    backgroundColor: string,
    shadowColor: Option<string>,
    shadowType: Option<ShadowType>,
    previewBounds: Option<Bounds>,
    lightPosition: Option<Vec>)

  /**
   * The object written to a node: the spread of `pluginData` (nothing when it is
   * `undefined`) with a `version` field. Objects read back may lack the version.
   */
  datatype SavedData = SavedData(data: Option<PluginData>, version: Option<int>)

  /** `Selection` (src/store/createSelection.ts), the payload of `SELECTION_CHANGE`. */
  datatype SelectionRecord = SelectionRecord(
    state: SelectionState,
    width: real,
    height: real,
    cornerRadius: Option<real>,
    nodeType: Option<NodeType>,
    derivedBackgroundColor: Option<Rgba>,
    prevShadowEffects: Option<SavedData>)

  function InitialSelection(): (s: SelectionRecord)
    ensures s.state == EMPTY && s.width == 0.0 && s.height == 0.0
    ensures s.cornerRadius == Some(0.0) && s.nodeType == Some(RECTANGLE)
    ensures s.derivedBackgroundColor.None? && s.prevShadowEffects.None?
  {
    SelectionRecord(EMPTY, 0.0, 0.0, Some(0.0), Some(RECTANGLE), None, None)
  }

  /** `toggleType`: the other shadow type. */
  function Toggle(t: ShadowType): (r: ShadowType)
    ensures r != t
    ensures t == DROP_SHADOW <==> r == INNER_SHADOW
  {
    if t == DROP_SHADOW then INNER_SHADOW else DROP_SHADOW
  }

  /** Toggling twice restores the type. */
  lemma ToggleInvolution(t: ShadowType)
    ensures Toggle(Toggle(t)) == t
  {
  }

  /** Everything the store holds, as one value. */
  datatype StoreState = StoreState(
    light: Light,
    target: Target,
    background: Background,
    preview: Preview,
    previewBounds: Bounds,
    selection: SelectionRecord,
    color: string,
    shadowType: ShadowType)

  /**
   * The store: the six slices of src/store/useStore.ts together with the
   * `color`/`type` state of src/store/createShadowProps.ts and
   * src/store/createShadowColor.ts, whose `setColor` the UI calls on it.
   */
  class Store {
    var light: Light
    var target: Target
    var background: Background
    var preview: Preview
    var previewBounds: Bounds
    var selection: SelectionRecord
    var color: string
    var shadowType: ShadowType

    function State(): StoreState
      reads this
    {
      StoreState(light, target, background, preview, previewBounds, selection, color, shadowType)
    }

    /** The initial values of every slice. */
    constructor (d: Defaults)
      ensures light == InitialLight(d) && target == InitialTarget()
      ensures background == InitialBackground(d) && preview == InitialPreview(d)
      ensures previewBounds == Bounds(0.0, 0.0) && selection == InitialSelection()
      ensures color == "000000" && shadowType == DROP_SHADOW
    {
      light := InitialLight(d);
      target := InitialTarget();
      background := InitialBackground(d);
      preview := InitialPreview(d);
      previewBounds := Bounds(0.0, 0.0);
      selection := InitialSelection();
      color := "000000";
      shadowType := DROP_SHADOW;
    }

    method SetLight(p: LightPatch)
      modifies this
      ensures State() == old(State()).(light := MergeLight(old(light), p))
    {
      light := MergeLight(light, p);
    }

    method SetTarget(p: TargetPatch)
      modifies this
      ensures State() == old(State()).(target := MergeTarget(old(target), p))
    {
      target := MergeTarget(target, p);
    }

    method SetBackground(p: BackgroundPatch)
      modifies this
      ensures State() == old(State()).(background := MergeBackground(old(background), p))
    {
      background := MergeBackground(background, p);
    }

    method SetPreview(p: PreviewPatch)
      modifies this
      ensures State() == old(State()).(preview := MergePreview(old(preview), p))
    {
      preview := MergePreview(preview, p);
    }

    /** Replaces the bounds; nothing of the previous value is kept. */
    method SetPreviewBounds(b: Bounds)
      modifies this
      ensures State() == old(State()).(previewBounds := b)
    {
      previewBounds := b;
    }

    /** Replaces the selection record wholesale with a copy of the argument. */
    method SetSelection(s: SelectionRecord)
      modifies this
      ensures State() == old(State()).(selection := s)
    {
      selection := s;
    }

    /** Stores the colour verbatim; the type is left alone. */
    method SetColor(c: string)
      modifies this
      ensures State() == old(State()).(color := c)
    {
      color := c;
    }

    /** Stores the type; the colour is left alone. */
    method SetType(t: ShadowType)
      modifies this
      ensures State() == old(State()).(shadowType := t)
    {
      shadowType := t;
    }

    /** Flips between drop and inner shadow; the colour is left alone. */
    method ToggleType()
      modifies this
      ensures State() == old(State()).(shadowType := Toggle(old(shadowType)))
    {
      shadowType := if shadowType == DROP_SHADOW then INNER_SHADOW else DROP_SHADOW;
    }

    /**
     * `setEntireStore({ color, light, target })` as the UI calls it: the three
     * given top-level fields are replaced, everything else is kept.
     */
    method SetEntireStore(c: string, l: Light, t: Target)
      modifies this
      ensures State() == old(State()).(color := c, light := l, target := t)
    {
      color := c;
      light := l;
      target := t;
    }
  }
}
