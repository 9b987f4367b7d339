# Beautiful Shadows, modelled in Dafny

Beautiful Shadows is a Figma plugin. It replaces the shadow effects of a selected layer with a stack of
six drop shadows, computed from a light source the user places in a small preview.

The plugin has two halves:

- **The main thread** (`src/main.ts`). It classifies the current selection and keeps a reference to the
  selected node and to the effects the node had before. It redraws the shadow stack whenever the UI
  sends new settings. On close it either puts the old effects back, or, after APPLY, stores the
  settings on the node as JSON.
- **The UI**. A zustand store holds the light, the target, the background, the preview scene and the
  selection. Components write to it:
  - the light drag, with snapping to the centre lines;
  - the brightness and elevation sliders;
  - the numeric parameter fields;
  - the preview pane, which turns light and target into azimuth and distance.

  When a node with saved settings is selected, the UI restores those settings.

The model follows the source file by file.

- `wrappers.dfy` (`Wrappers`): `Option`, which stands for JavaScript's `undefined`
- `figma.dfy` (`Figma`): the host's records: vectors, colours, node types, effects, a document node, a scene-tree node
- `js.dfy` (`Js`): `Math.round`, `%`, `Math.min`/`max`/`abs`, the falsy `||` fallbacks, `replace('#', '')`, and the `Prims` record of uninterpreted library functions with the laws some lemmas assume
- `math.dfy` (`MathUtil`): `src/utils/math.ts`
- `ease.dfy` (`Ease`): the d3-ease polynomials used for the layers
- `grid.dfy` (`Grid`): `src/utils/grid.ts`
- `snapping.dfy` (`Snapping`): `align.ts`, `snapToAxis.ts`, `snap.ts`
- `shadow.dfy` (`Shadow`): `src/utils/shadow.ts`
- `selection.dfy` (`Selection`): `src/utils/selection.ts`
- `node.dfy` (`EnclosingNode`): `src/utils/node.ts`
- `store.dfy` (`AppStore`): the `src/store/create*.ts` slices, as one `Store` class
- `main.dfy` (`Plugin`): `src/main.ts`: pure transition functions on a `Session` value, plus a `Controller` class whose methods are proved against them
- `ui.dfy` (`PluginUi`): `src/ui.tsx`
- `parameters.dfy` (`Parameters`): `Parameters.tsx`
- `preview.dfy` (`PreviewPane`): `preview.tsx`
- `position_drag.dfy` (`PositionDrag`): `PositionDrag.tsx`
- `light.dfy` (`LightComponent`): `Light.tsx`
- `brightness.dfy` (`BrightnessSlider`): `BrightnessSlider.tsx`
- `elevation.dfy` (`ElevationSlider`): `useElevationSlider.ts`

How some things are represented:

- **Numbers.** They are `real`. `Math.round` is `floor(x + 0.5)`. JavaScript's `%` is the truncated
  remainder, which takes the dividend's sign; it is not Dafny's `%`.
- **Library functions.** The following are fields of `Js.Prims` and are left uninterpreted:
  - `Math.cos`, `Math.sin`, `Math.sqrt`, `Math.atan2`, `Math.PI`;
  - the helpers imported from `src/utils/math.ts` but not defined in it: `round(v, digits)`, `degreeToRadian`,
    `stepped`, `denormalize`, `percent`, `deriveXYFromAngle`, `angleFromLightToTarget`,
    `distanceFromLightToTarget`;
  - chroma-js's conversions.

  A lemma that needs a law about them requires it as a predicate: `RoundMonotone`, `RoundFixesZero`,
  `SqrtLaws`, `TrigLaws`.
- **Unknown constants.** Some constants are imported from `src/constants/index.ts` but not defined
  there: `LIGHT_SIZE`, `LIGHT_INITIAL_POSITION`, `LIGHT_INITIAL_BRIGHTNESS`, `LIGHT_MIN_BRIGHTNESS`,
  `BACKGROUND_DEFAULT_COLOR`, `SHADOW_DEFAULT_COLOR`. The `AppStore.Defaults` record carries them.
  `LIGHT_SNAP_TO_AXIS_TRESHOLD` is a parameter.
- **The document.** It is a map from node id to a `CanvasNode`, a record with `effects`, a plugin-data
  map and a `removed` flag.
- **The selection tree.** A selected node is a `SceneNode` tree together with its parent chain, which
  is the sequence of its ancestors' types, nearest first.

## Model

| member | source | states |
|---|---|---|
| Js.Round | src/utils/grid.ts:8 | `Math.round` gives an integer within half a unit of its argument |
| Js.RemBounds | src/utils/grid.ts:8 | JavaScript's `%` is smaller in size than the divisor and has the dividend's sign |
| Js.OrNumber | src/ui.tsx:69-70 | `o \|\| fallback` on a number: the value unless it is undefined or 0, which fall back |
| Js.OrString | src/ui.tsx:78 | `o \|\| fallback` on a string: the value unless it is undefined or empty |
| Js.RemoveFirstHash | src/ui.tsx:129 | `replace('#', '')` leaves a string without `#` unchanged; otherwise the result is the string with its first `#` cut out (`FirstHash`), every other character kept in order |
| MathUtil.Clamp | src/utils/math.ts:1-2 | the result never exceeds max; it lies in [min, max] when min ≤ max; it is the identity on [min, max] and gives the nearer bound outside |
| MathUtil.ClampIdempotent | src/utils/math.ts:1-2 | clamping twice is clamping once |
| MathUtil.NormalizeAffine | src/utils/math.ts:4-5 | `normalize` maps min to 0 and max to 1; it does not clamp (inputs outside the range map outside [0, 1]); inputs inside map into [0, 1], for a reversed range too |
| MathUtil.NormalizeMonotone | src/utils/math.ts:4-5 | `normalize` is increasing for min < max and decreasing for a reversed range |
| MathUtil.VecAngleTranslation | src/utils/math.ts:7-8 | the angle depends only on the difference of the two vectors |
| MathUtil.VecDistanceMetric | src/utils/math.ts:10-14 | the distance is non-negative and symmetric, and 0 between equal points |
| Ease.EaseEndpoints | src/utils/shadow.ts:69-88 | the three ease curves map 0 to 0 and 1 to 1; the cubic one maps 1/2 to 1/2 |
| Ease.CubeMonotone | src/utils/shadow.ts:69 | the cube never decreases |
| Ease.QuadInMonotone | src/utils/shadow.ts:73 | the quadratic ease-in is non-negative and grows on [0, ∞) |
| Ease.QuadOutMonotone | src/utils/shadow.ts:82 | the quadratic ease-out grows up to 1 |
| Ease.QuadOutNonNegative | src/utils/shadow.ts:82 | the quadratic ease-out stays in [0, 1] on [0, 1] |
| Ease.CubicInOutMonotone | src/utils/shadow.ts:69 | the two halves of the cubic ease-in-out meet, so the whole curve never decreases |
| Ease.CubicInOutRange | src/utils/shadow.ts:69 | the cubic ease-in-out stays in [0, 1] on [0, 1] |
| Grid.CenterDot | src/utils/grid.ts:2-4 | the most central dot is at viewport / 2 for any non-zero grid size |
| Grid.AlignGridToCenter | src/utils/grid.ts:1-9 | the shift is `round((viewport/2 - gridSize/2) % gridSize)`, an integer; a zero grid size (NaN in JavaScript) gives `None` |
| Grid.AlignGridBounds | src/utils/grid.ts:5-8 | the result is below \|gridSize\| + 1/2 in size, at most \|gridSize\| for a whole-number grid size, and takes the sign of viewport − gridSize |
| Grid.AlignGridFullViewport | src/utils/grid.ts:5-8 | a grid as wide as the viewport gets shift 0 |
| Snapping.Align | src/ui/Preview/components/helpers/align.ts:2-25 | geometry alone decides: a coordinate snaps exactly when it is strictly inside its window; the tag is CENTER, HORIZONTAL, VERTICAL or NONE for both axes, x only, y only, or neither |
| Snapping.SnapToAxis | src/ui/Preview/components/helpers/snapToAxis.ts:6-36 | with shift held the point comes back unchanged with NONE; otherwise it is the `align` table |
| Snapping.SnapTo | src/ui/Preview/components/helpers/snap.ts:3-33 | with shift held the point comes back unchanged with NONE; otherwise the same table, equal to `snapToAxis` on all inputs |
| Snapping.AlignIdempotent | src/ui/Preview/components/helpers/align.ts:13-23 | each output coordinate is the input or the target; snapping the output again (positive window) changes nothing |
| Snapping.SnapToAxisIdempotent | src/ui/Preview/components/helpers/snapToAxis.ts:14-35 | re-snapping the output of `snapToAxis` with the same arguments gives the same result |
| Snapping.AlignEmptyWindow | src/ui/Preview/components/helpers/align.ts:11-12 | with a window of zero or negative width nothing snaps |
| Shadow.Scale | src/utils/shadow.ts:44-47 | the offset scale is non-negative for a non-negative distance and size |
| Shadow.BlurFactor | src/utils/shadow.ts:49 | the blur factor is at least 0.1, at least scale/100, and exactly 0.1 for a scale up to 10 |
| Shadow.TintHsl | src/utils/shadow.ts:56-60 | an achromatic colour gives HSL (0, 0, 0); otherwise hue and saturation are kept and the lightness lies in [0.1, 1], equal to l − 0.8 when that is already in range |
| Shadow.ShadowTint | src/utils/shadow.ts:54-63 | without a (non-empty) background colour the layer colour is transparent black; otherwise it is the tinted HSL converted back |
| Shadow.Progress | src/utils/shadow.ts:69 | a layer's position `normalize(i, 0, n)` lies in [0, 1) and is 0 for the first layer |
| Shadow.ProgressMonotone | src/utils/shadow.ts:69 | later layers sit further along |
| Shadow.Layer | src/utils/shadow.ts:67-106 | every layer is a visible DROP_SHADOW with blend mode NORMAL and spread 0, in the tint colour |
| Shadow.GetCastedShadows | src/utils/shadow.ts:28-110 | exactly `numShadows` layers, where layer i depends only on i and the parameter; all have the fixed fields, and without a background colour all are black |
| Shadow.RawAlphaRange | src/utils/shadow.ts:69-70 | before rounding, a layer's alpha lies in [0, brightness] |
| Shadow.AlphaNonIncreasing | src/utils/shadow.ts:69-70 | for brightness ≥ 0 the alpha never grows along the stack, given a monotone `round` |
| Shadow.RadiusNonDecreasing | src/utils/shadow.ts:82-88 | for elevation ≥ 0 the blur radius never shrinks along the stack |
| Shadow.OffsetMonotone | src/utils/shadow.ts:72-79 | each offset coordinate moves away from 0 along the stack, in the direction of the azimuth's cosine or sine |
| Shadow.RawOffsetMonotone | src/utils/shadow.ts:73-79 | before rounding, the offset length never shrinks along the stack |
| Shadow.FirstLayer | src/utils/shadow.ts:65-106 | layer 0 has alpha `round(brightness, 2)`, offset (0, 0) and radius 0 |
| Shadow.RawAtStart | src/utils/shadow.ts:69-88 | at stack position 0: alpha brightness, offset length 0, radius 0 |
| Shadow.RawAlphaAtStart | src/utils/shadow.ts:69-70 | at stack position 0 the alpha before rounding is the brightness |
| Shadow.RawOffsetAtStart | src/utils/shadow.ts:73-79 | at stack position 0 the offset length is 0 |
| Shadow.RawRadiusAtStart | src/utils/shadow.ts:82-88 | at stack position 0 the radius before rounding is 0 |
| Shadow.OffsetAtZero | src/utils/shadow.ts:74-79 | a zero offset length rounds to a zero coordinate |
| Selection.IsWithinNodeType | src/utils/selection.ts:51-64 | false for DOCUMENT and PAGE and without parents |
| Selection.IsWithinNodeTypeSpec | src/utils/selection.ts:51-64 | true exactly when some ancestor below the page has the type |
| Selection.HasComponentChildSpec | src/utils/selection.ts:71-82 | truthy exactly when the node is a component, or a group that contains one through groups; an empty group gives `undefined`; a falsy non-empty group gives its last child's value |
| Selection.SomeChildSpec | src/utils/selection.ts:75-80 | the `.some` loop from index i is true exactly when a later child contains a component, and otherwise ends with the last child's value |
| Selection.ValidateSelection | src/utils/selection.ts:18-43 | one iff per state, in the source's order: EMPTY, MULTIPLE (before any type check), INVALID, IS_WITHIN_COMPONENT, IS_WITHIN_INSTANCE, HAS_COMPONENT_CHILD (groups only), and VALID otherwise |
| Selection.ValidateSingle | src/utils/selection.ts:18-43 | a single valid node outside components and instances is VALID unless it is a group that contains a component |
| EnclosingNode.SearchForEnclosingNode | src/utils/node.ts:3-7 | a missing node or reference gives undefined |
| EnclosingNode.Search | src/utils/node.ts:8-17 | a node without children gives undefined; a FRAME with `ref` as a direct child returns itself; an INSTANCE gives undefined |
| EnclosingNode.SearchSound | src/utils/node.ts:3-37 | any result is in the searched tree, and is either a FRAME holding `ref` directly or a non-FRAME/GROUP node other than `ref` whose rectangle contains `ref`'s |
| EnclosingNode.SearchChildrenSound | src/utils/node.ts:18-34 | the same for the loop over the children from index i |
| EnclosingNode.FirstCandidateDecides | src/utils/node.ts:18-34 | the first enclosing child decides the result; without one the loop gives undefined, so the discarded recursion never produces the answer |
| AppStore.PickLaws | src/store/createLight.ts:36 | spreading a field twice is spreading it once, and two spreads in turn let the later field win |
| AppStore.InitialLight | src/store/createLight.ts:25-33 | alignment NONE, both pointer flags false, size, position and brightness from the constants |
| AppStore.MergeLightLaws | src/store/createLight.ts:34-37 | `setLight` writes exactly the supplied fields (the pointer flags included) and keeps the others; merging twice is merging once; an empty partial changes nothing; two partials compose, the later field winning |
| AppStore.InitialTarget | src/store/createTarget.ts:17-22 | position (0, 0), elevation `TARGET_INITIAL_ELEVATION`, not pressed |
| AppStore.MergeTargetLaws | src/store/createTarget.ts:23-24 | `setTarget` writes exactly the supplied fields (the pointer flag included) and keeps the others, with no range check; it is idempotent and composes |
| AppStore.InitialBackground | src/store/createBackground.ts:18-22 | both colours are the default background and the preference is AUTO |
| AppStore.MergeBackgroundLaws | src/store/createBackground.ts:23-26 | `setBackground` writes exactly the supplied fields, the preference included, and keeps the others; it is idempotent, and an empty partial changes nothing |
| AppStore.InitialPreview | src/store/createPreview.ts:22-28 | azimuth 0, distance 0, initial elevation, brightness and background |
| AppStore.MergePreviewLaws | src/store/createPreview.ts:29-30 | `setPreview` writes exactly the supplied fields, with no range check; it is idempotent; a full record replaces the preview |
| AppStore.InitialSelection | src/store/createSelection.ts:20-28 | state EMPTY, size 0, corner radius 0, type RECTANGLE, no background colour and no saved effects |
| AppStore.Toggle | src/store/createShadowProps.ts:18-23 | `toggleType` gives the other type: DROP_SHADOW becomes INNER_SHADOW and the reverse |
| AppStore.ToggleInvolution | src/store/createShadowProps.ts:18-23 | toggling twice restores the type |
| AppStore.Store.constructor | src/store/createShadowProps.ts:14-15 | every slice at its initial value; colour `000000`, type DROP_SHADOW, bounds 0 × 0 |
| AppStore.Store.SetLight | src/store/createLight.ts:34-37 | only `light` changes, to the merge of the partial |
| AppStore.Store.SetTarget | src/store/createTarget.ts:23-24 | only `target` changes, to the merge of the partial |
| AppStore.Store.SetBackground | src/store/createBackground.ts:23-26 | only `background` changes, to the merge of the partial |
| AppStore.Store.SetPreview | src/store/createPreview.ts:29-30 | only `preview` changes, to the merge of the partial |
| AppStore.Store.SetPreviewBounds | src/store/createPreviewBounds.ts:11-12 | the bounds are replaced by the argument, and nothing else changes, so the last write wins |
| AppStore.Store.SetSelection | src/store/createSelection.ts:29-32 | the selection is replaced wholesale by the argument, and nothing else changes |
| AppStore.Store.SetColor | src/store/createShadowColor.ts:11 | the colour is stored verbatim; the type and all else are kept |
| AppStore.Store.SetType | src/store/createShadowProps.ts:17 | the type is stored; the colour and all else are kept |
| AppStore.Store.ToggleType | src/store/createShadowProps.ts:18-23 | the type becomes `Toggle` of the old one; the colour is kept |
| AppStore.Store.SetEntireStore | src/ui.tsx:77-81 | colour, light and target are replaced, and nothing else changes |
| Plugin.StripShadowEffects | src/main.ts:135-137 | the filter keeps exactly the non-shadow effects and never grows the list; a list without shadows is unchanged |
| Plugin.StripConcat | src/main.ts:135-137 | filtering distributes over concatenation, so the original order is kept |
| Plugin.StripShadowsOnly | src/main.ts:135-137 | a list of shadows only filters to nothing |
| Plugin.RedrawReplaces | src/main.ts:135-138 | a second redraw removes the first redraw's layers: own non-shadow effects, then the latest layers |
| Plugin.DrawParameter | src/main.ts:123-134 | six layers, sized by the node, and no `backgroundColor`: the colour is passed under a key the synthesiser does not read |
| Plugin.LoadSaved | src/main.ts:67-76 | no stored text under the key gives nothing |
| Plugin.SaveLoadRoundTrip | src/main.ts:159 | what close-after-APPLY writes is read back as the settings stamped with version 16, and the effects are untouched |
| Plugin.CleanUp | src/main.ts:146-151 | nothing changes for a removed node; otherwise the saved effects go back on the referenced node and the reference and saved effects are cleared |
| Plugin.Draw | src/main.ts:120-139 | nothing changes for a removed or missing node or before settings arrived; otherwise the node gets its non-shadow effects, then the six layers |
| Plugin.Update | src/main.ts:141-144 | the settings are replaced wholesale and the referenced node is redrawn from the new settings (own non-shadow effects, then the layers); nothing else changes, and nothing at all for a removed or missing node |
| Plugin.Notice | src/main.ts:91-97 | a notification is shown exactly for MULTIPLE and INVALID, with their fixed messages |
| Plugin.SelectionChange | src/main.ts:88-102 | EMPTY, MULTIPLE or INVALID restores and clears; VALID or IS_WITHIN_COMPONENT restores the previous node, then references the new one and saves its effects; the other states change nothing |
| Plugin.ExistingShadowData | src/main.ts:65-77 | undefined without a node, without stored data, or on a parse failure; otherwise the parsed object |
| Plugin.CornerRadiusValue | src/main.ts:111 | a mixed corner radius is sent as 0 |
| Plugin.SelectionPayload | src/main.ts:103-114 | nothing is sent for a removed node; otherwise the state, the node's type and size (undefined and 0 without a node) and its saved data |
| Plugin.Close | src/main.ts:157-164 | without APPLY the effects are restored; after APPLY the settings are stored on the referenced node |
| Plugin.Apply | src/main.ts:175-178 | APPLY sets the flag and closes: the referenced node keeps its drawn effects and gets the stamped settings under the key; no other node changes |
| Plugin.ApplyPersists | src/main.ts:157-164 | after APPLY the next session reads back exactly the settings, stamped with the version, and the drawn layers stay |
| Plugin.CloseWithoutApplyKeepsData | src/main.ts:157-163 | closing without APPLY writes plugin data to no node |
| Plugin.Updates | src/main.ts:170 | a run of UPDATE_SHADOWS messages changes only the referenced node and keeps the reference |
| Plugin.SelectEditDeselectRestores | src/main.ts:88-151 | select a node (VALID or inside a component, with any ancestors), redraw it any number of times, deselect: the node ends with exactly the effects it had before, the reference is cleared, and no other node changed |
| Plugin.UpdatesKeepNode | src/main.ts:135-138 | redraws change only the referenced node's effects |
| Plugin.Controller.constructor | src/main.ts:47-54 | no node referenced, no saved effects, no settings, not applied |
| Plugin.Controller.CleanUpAndRestorePrevEffects | src/main.ts:146-151 | the new state is `CleanUp` of the old |
| Plugin.Controller.DrawShadows | src/main.ts:120-139 | the new state is `Draw` of the old |
| Plugin.Controller.UpdateSceneAndRedrawShadows | src/main.ts:141-144 | the new state is `Update` of the old |
| Plugin.Controller.HandleSelectionChange | src/main.ts:88-115 | the new state is `SelectionChange` of the old; the notification is `Notice`; the payload is `SelectionPayload` of the new state |
| Plugin.Controller.OnClose | src/main.ts:157-164 | the new state is `Close` of the old |
| Plugin.Controller.OnApply | src/main.ts:175-178 | the new state is `Apply` of the old |
| PluginUi.SavedLightPosition | src/ui.tsx:62-68 | a light position is present exactly when settings were saved with one |
| PluginUi.RestoredLight | src/ui.tsx:69-79 | x and y come from the saved position unless it is missing or 0, else from the initial position; brightness is the saved one; all other light fields are the captured light's |
| PluginUi.RestoredTarget | src/ui.tsx:76-80 | only the elevation is taken from the saved settings; all other target fields are the captured target's |
| PluginUi.RestoredColor | src/ui.tsx:78 | the saved shadow colour, or `#000` when it is falsy |
| PluginUi.RestoredBounds | src/ui.tsx:82-86 | the saved preview bounds, else 375 × 375 |
| PluginUi.RestoreMessage | src/ui.tsx:89-96 | "Restored previous shadow settings." exactly when a light position was saved; the partial-restore message otherwise |
| PluginUi.Restored | src/ui.tsx:77-81 | colour, light and target are replaced by their restored values, and nothing else changes |
| PluginUi.RestoreSavedSettings | src/ui.tsx:60-97 | settings saved with a non-zero light position come back as saved (position, brightness, elevation, colour), with the full-restore message |
| PluginUi.RestoreZeroCoordinate | src/ui.tsx:69-70 | a coordinate saved as 0 is replaced by the initial position |
| PluginUi.RestoreIdempotent | src/ui.tsx:60-99 | restoring twice is restoring once, whatever light and target the store held, because the handler spreads the light and target of the first render |
| PluginUi.ShadowColorAndBackground | src/ui.tsx:113-131 | with no derived colour, the default shadow and background colours; otherwise the background is the colour as hex, and the shadow is the tinted colour's hex with its first `#` cut out (its leading `#` for a `#rrggbb` string), the rest in order |
| PluginUi.TintNeverLighter | src/ui.tsx:121-127 | for a background lightness of at least 0.1 the shadow is never lighter than the background; below that it is 0.1; an achromatic colour gives lightness 0 |
| PluginUi.Tinted | src/ui.tsx:132-135 | only the colour and the preview's background colour change |
| PluginUi.SelectionChangeOutcome | src/ui.tsx:101-111 | the selection is stored and the preview background follows the derived colour; with saved settings they are restored, and their colour wins over the tint; otherwise light and target are untouched |
| PluginUi.UiApp.constructor | src/ui.tsx:60-99 | the handlers capture the light and target of the first render |
| PluginUi.UiApp.RestorePrevEffectsAndSettings | src/ui.tsx:60-99 | the store becomes `Restored`; the resize request and message are `RestoredBounds` and `RestoreMessage` |
| PluginUi.UiApp.SetShadowColorAndBackground | src/ui.tsx:113-138 | the store becomes `Tinted` |
| PluginUi.UiApp.HandleSelectionChange | src/ui.tsx:101-111 | the store becomes `SelectionChanged`; a resize request and a message come back exactly when saved settings came with the selection |
| Parameters.AzimuthPosition | src/ui/Menu/OptionsPanel/options/Parameters.tsx:38-41 | the light goes to the preview centre, minus half its size, minus `deriveXYFromAngle(value, distance)` |
| Parameters.DistanceBound | src/ui/Menu/OptionsPanel/options/Parameters.tsx:57-63 | the bound is never below −size/2, given a non-negative `sqrt` |
| Parameters.StoredDistance | src/ui/Menu/OptionsPanel/options/Parameters.tsx:65-66 | the value when it lies in [0, bound], otherwise the bound; never above the bound |
| Parameters.Fraction | src/ui/Menu/OptionsPanel/options/Parameters.tsx:83 | a percentage in [0, 100] is stored as a fraction in [0, 1] that is one hundredth of it |
| Parameters.AzimuthDisplay | src/ui/Menu/OptionsPanel/options/Parameters.tsx:47 | the azimuth rounded to within half a degree, with a `°` suffix |
| Parameters.DistanceDisplay | src/ui/Menu/OptionsPanel/options/Parameters.tsx:72 | the distance rounded to within half a unit, without a suffix |
| Parameters.BrightnessDisplayUnclamped | src/ui/Menu/OptionsPanel/options/Parameters.tsx:88-107 | the brightness and elevation fields show the same text for a percentage in [0, 100]; outside it the brightness field shows the raw percentage, while the elevation field shows the nearer bound |
| Parameters.ElevationDisplay | src/ui/Menu/OptionsPanel/options/Parameters.tsx:106 | the displayed elevation percentage is always in [0, 100] and equals `percent(elevation)` there |
| Parameters.ValidateAzimuth | src/ui/Menu/OptionsPanel/options/Parameters.tsx:34-45 | null gives null and writes nothing; valid iff 0 ≤ v ≤ 360; only a valid value moves the light, to `AzimuthPosition` |
| Parameters.ValidateDistance | src/ui/Menu/OptionsPanel/options/Parameters.tsx:54-69 | null gives null and writes nothing; valid iff 0 ≤ v ≤ bound; the distance is always written, v or the bound, and is never above the bound |
| Parameters.ValidateBrightness | src/ui/Menu/OptionsPanel/options/Parameters.tsx:79-87 | null gives null and writes nothing; valid iff 0 ≤ v ≤ 100; only a valid value is stored, as v/100 in [0, 1] |
| Parameters.ValidateElevation | src/ui/Menu/OptionsPanel/options/Parameters.tsx:96-104 | null gives null and writes nothing; valid iff 0 ≤ v ≤ 100; only a valid value is stored, as v/100 in [0, 1] |
| PreviewPane.BackgroundColorFor | src/ui/Preview/preview.tsx:36-41 | NONE gives the default background, AUTO the auto colour, CUSTOM the custom one |
| PreviewPane.TargetReference | src/ui/Preview/preview.tsx:47-50 | the target's position moved back by half the light's size |
| PreviewPane.SceneOf | src/ui/Preview/preview.tsx:46-67 | azimuth and distance from (target reference, light position) in that order; elevation and brightness copied unchanged; the chosen background colour |
| PreviewPane.Refreshed | src/ui/Preview/preview.tsx:60-67 | only the preview changes, to the full scene record |
| PreviewPane.RefreshedIdempotent | src/ui/Preview/preview.tsx:46-68 | the scene depends only on light, target and background: running the effect again changes nothing, and earlier preview writes are overwritten |
| PreviewPane.Refresh | src/ui/Preview/preview.tsx:46-68 | the store becomes `Refreshed` |
| PreviewPane.OnBoundsChange | src/ui/Preview/preview.tsx:21-23 | the measured size becomes the preview bounds |
| PositionDrag.AlignTarget | src/ui/Preview/components/Light/PositionDrag.tsx:46-47 | the snap target is the centre minus half the light's size |
| PositionDrag.DragBounds | src/ui/Preview/components/Light/PositionDrag.tsx:65-70 | the drag box is [0, width − size] × [0, height − size] |
| PositionDrag.AlignTargetInsideDragBox | src/ui/Preview/components/Light/PositionDrag.tsx:46-70 | when the light fits, its snap target lies inside the drag box |
| PositionDrag.DragPatch | src/ui/Preview/components/Light/PositionDrag.tsx:44-62 | a drag frame writes the `align`ed position, the alignment tag and the pointer flag, and nothing else |
| PositionDrag.DragSnapsWithShift | src/ui/Preview/components/Light/PositionDrag.tsx:49-56 | `align` ignores the shift argument, so holding shift still snaps to the centre |
| PositionDrag.PositionFromAzimuth | src/ui/Preview/components/Light/PositionDrag.tsx:82-88 | the position is the snap target minus distance × (cos θ, sin θ), with θ the azimuth in radians |
| PositionDrag.PositionFromAzimuthDistance | src/ui/Preview/components/Light/PositionDrag.tsx:83-87 | that position is exactly `distance` from the snap target (squared), given cos² + sin² = 1 |
| PositionDrag.ResizePatch | src/ui/Preview/components/Light/PositionDrag.tsx:97-109 | nothing when a bound is 0; a coordinate is written exactly when it is past its far edge minus size; no write when both are in bounds |
| PositionDrag.ResizeBringsBack | src/ui/Preview/components/Light/PositionDrag.tsx:97-109 | after the effect the light is within the far edges, and a coordinate already in bounds is untouched |
| PositionDrag.OnDrag | src/ui/Preview/components/Light/PositionDrag.tsx:44-63 | only the light changes, by `DragPatch` |
| PositionDrag.OnPreviewBounds | src/ui/Preview/components/Light/PositionDrag.tsx:97-109 | the light changes by `ResizePatch` when there is one; otherwise nothing changes |
| LightComponent.SnapTarget | src/ui/Preview/components/Light/Light.tsx:60-61 | the snap target is (vw/2 − size/2, vh/2 − size/2) |
| LightComponent.HandleLightChange | src/ui/Preview/components/Light/Light.tsx:83-91 | the position is passed through; alignment defaults to NONE and pointerDown to false |
| LightComponent.DragValues | src/ui/Preview/components/Light/Light.tsx:58-72 | a drag frame reports `snapToAxis` against the snap target with a 6 px window, plus the pointer flag |
| LightComponent.DragSnapsToCenter | src/ui/Preview/components/Light/Light.tsx:43-70 | within 6 px of both centre lines, without shift, the light sits exactly on the centre with tag CENTER |
| LightComponent.RefreshReportsRest | src/ui/Preview/components/Light/Light.tsx:102-104 | a resize reports the current position with NONE and not pressed |
| LightComponent.ClampAxis | src/ui/Preview/components/Light/Light.tsx:109-114 | a coordinate past the far edge minus size goes to edge − size − 8; one in bounds is unchanged |
| LightComponent.LightSpring.constructor | src/ui/Preview/components/Light/Light.tsx:57 | the spring starts at (0, 0) |
| LightComponent.LightSpring.KeepInBounds | src/ui/Preview/components/Light/Light.tsx:106-115 | nothing when vw or vh is 0; otherwise each axis is clamped on its own and ends within its far edge |
| LightComponent.LightSpring.Drag | src/ui/Preview/components/Light/Light.tsx:58-72 | the spring is set to the reported position |
| BrightnessSlider.DragValue | src/ui/Preview/components/Light/BrightnessSlider.tsx:50 | raw offset with shift held, `stepped(oy, 2)` otherwise |
| BrightnessSlider.BrightnessOf | src/ui/Preview/components/Light/BrightnessSlider.tsx:51-55 | the brightness never exceeds 1 |
| BrightnessSlider.BrightnessRange | src/ui/Preview/components/Light/BrightnessSlider.tsx:19-20 | over the drag range [−20, 0] the brightness lies in [minimum, 1]; the rest position gives the minimum and the top gives 1 |
| BrightnessSlider.BrightnessMonotone | src/ui/Preview/components/Light/BrightnessSlider.tsx:51-55 | dragging up never dims the light |
| BrightnessSlider.View | src/ui/Preview/components/Light/BrightnessSlider.tsx:68-84 | glow opacity is the brightness clamped to [0.4, 1]; sun-ray width is clamped to [4, 16]; the rays sit at least 24 out |
| BrightnessSlider.OnSlide | src/ui/Preview/components/Light/BrightnessSlider.tsx:47-61 | brightness and pointer flag are written together; the brightness is at most 1 |
| ElevationSlider.DragValue | src/ui/Preview/components/Target/useElevationSlider.ts:29 | `stepped(oy, 10)` with shift held, the raw offset otherwise |
| ElevationSlider.ElevationOf | src/ui/Preview/components/Target/useElevationSlider.ts:30 | elevation = (50 − v)/100, with no floor or clamp |
| ElevationSlider.ElevationRange | src/ui/Preview/components/Target/useElevationSlider.ts:9-43 | oy = 50 gives 0, 0 gives 0.5, −50 gives 1; within [−50, 50] the elevation is in [0, 1] and falls as the offset grows |
| ElevationSlider.OnSlide | src/ui/Preview/components/Target/useElevationSlider.ts:27-41 | elevation and pointer flag are written with each frame; a release exactly at the bottom forces elevation 0 |

## Left out

- Host I/O is not modelled as effects: `figma.notify`, `emit`/`on`, `figma.ui.resize`, `setRelaunchData`,
  `closePlugin`, `showUI` and console output. Where a handler's output matters, it is returned: the
  notification, the `SELECTION_CHANGE` payload, and the resize request and message of a restore.
- `JSON.stringify`/`JSON.parse` are the two functions of `Plugin.Json`. The round trip they are assumed
  to satisfy is `Json.Laws`.
- Throttling, timers and spring animation are not modelled. A spring's target is taken as its value.
  This covers `animate.start`/`set`, the elevation slider's `scale` and the useDrag `from` and bounds
  options. Only the `bounds` records are stated.
- Floating point, NaN and Infinity are not modelled; numbers are exact reals. `normalize` is only used
  with distinct bounds (`MathUtil.Normalize` requires that). A zero grid size is `None`.
- Number-to-text formatting is not modelled. A displayed value is the number plus its suffix
  (`Parameters.Display`).
- `getAbsolutePosition` is not modelled as a call. Absolute coordinates are fields of `SceneNode`.
- `hexToGL(shadowColor)` in `drawShadows` is not modelled. Its result is passed as `color`, which
  `getCastedShadows` never reads. For the same reason `shadowType` is not modelled, so the layers are
  untinted drop shadows.
- Plugin.Close: the source calls `nodeRef.setPluginData` after APPLY even when no node is referenced or
  the node was removed, which throws in JavaScript; the model leaves the session unchanged in those cases.
- PluginUi.RestoredLight: when the saved object has no settings at all (`data` is `None`), the source
  spreads `brightness: undefined` into the light; the model keeps the captured brightness instead.
- PluginUi.RestoredTarget: when the saved object has no settings (`data` is `None`), the source spreads
  `elevation: undefined` into the target; the model keeps the captured target unchanged.
- `setEntireStore` is called by `src/ui.tsx` but is not defined in any of the slices. It is modelled as
  replacing the three top-level fields it is given (`AppStore.Store.SetEntireStore`).
- The store joins `color` and `type` (from `src/store/createShadowProps.ts` and
  `src/store/createShadowColor.ts`) to the six slices. `src/store/useStore.ts` does not list these two.
- `derivedBackgroundColor` is never filled in by `src/main.ts`'s payload (`Plugin.SelectionPayload`
  sends `None`). The UI side is modelled for any value.
- `resizeAndRetainAspectRatio`, `useShadowStyle.ts`, `useSelectionStyle.ts` and the presentation
  components are not part of this model.
- `src/utils/throttle.ts`, `src/utils/debounce.ts` and the DOM measurement hooks are not part of this
  model.
