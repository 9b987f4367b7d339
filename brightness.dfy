/**
 * src/ui/Preview/components/Light/BrightnessSlider.tsx: dragging the light's
 * handle vertically sets the brightness; the glow and sun rays follow it.
 */
module BrightnessSlider {
  import opened Wrappers
  import opened Js
  import opened MathUtil
  import opened AppStore

  const BRIGHTNESS_DRAG_MIN: real := 0.0
  const BRIGHTNESS_DRAG_MAX: real := -20.0
  const SUN_RAY_MIN_WIDTH: real := 4.0
  const SUN_RAY_MAX_WIDTH: real := 16.0
  const SUN_RAY_RADIUS: real := 24.0
  const OPACITY_MIN: real := 0.4
  const OPACITY_MAX: real := 1.0

  /** The drag offset used: raw with shift held, otherwise `stepped(oy, 2)`. */
  function DragValue(prims: Prims, oy: real, shiftKey: bool): (v: real)
    ensures shiftKey ==> v == oy
    ensures !shiftKey ==> v == prims.stepped(oy, 2.0)
  {
    if shiftKey then oy else prims.stepped(oy, 2.0)
  }

  /** `Math.min(normalize(value, 0, -20) + LIGHT_MIN_BRIGHTNESS, 1)`: never above 1. */
  function BrightnessOf(value: real, minBrightness: real): (b: real)
    ensures b <= 1.0
  {
    Min(Normalize(value, BRIGHTNESS_DRAG_MIN, BRIGHTNESS_DRAG_MAX) + minBrightness, 1.0)
  }

  /**
   * Over the drag range [-20, 0] the brightness runs from the minimum up to 1:
   * the handle at rest gives the minimum, the top of the range gives full
   * brightness, and moving up never dims the light.
   */
  lemma {:induction false} BrightnessRange(value: real, minBrightness: real)
    requires BRIGHTNESS_DRAG_MAX <= value <= BRIGHTNESS_DRAG_MIN
    requires 0.0 <= minBrightness <= 1.0
    ensures minBrightness <= BrightnessOf(value, minBrightness) <= 1.0
    ensures value == BRIGHTNESS_DRAG_MIN ==> BrightnessOf(value, minBrightness) == minBrightness
    ensures value == BRIGHTNESS_DRAG_MAX ==> BrightnessOf(value, minBrightness) == 1.0
  {
    NormalizeAffine(value, BRIGHTNESS_DRAG_MIN, BRIGHTNESS_DRAG_MAX);
  }

  lemma {:induction false} BrightnessMonotone(a: real, b: real, minBrightness: real)
    requires a <= b
    ensures BrightnessOf(b, minBrightness) <= BrightnessOf(a, minBrightness)
  {
    NormalizeMonotone(a, b, BRIGHTNESS_DRAG_MIN, BRIGHTNESS_DRAG_MAX);
  }

  /** The animated view of a brightness value. */
  datatype SliderView = SliderView(y: real, opacity: real, translateSunRays: real, sunRayWidth: real)

  /**
   * The effect on `brightness`: the glow's opacity is the brightness clamped to
   * [0.4, 1] and the sun rays' width is the handle's distance clamped to [4, 16].
   */
  function View(prims: Prims, brightness: real): (v: SliderView)
    ensures OPACITY_MIN <= v.opacity <= OPACITY_MAX
    ensures OPACITY_MIN <= brightness <= OPACITY_MAX ==> v.opacity == brightness
    ensures SUN_RAY_MIN_WIDTH <= v.sunRayWidth <= SUN_RAY_MAX_WIDTH
    ensures v.translateSunRays >= SUN_RAY_RADIUS
    ensures v.y == prims.denormalize(brightness, BRIGHTNESS_DRAG_MIN, BRIGHTNESS_DRAG_MAX)
  {
    var denormalized := prims.denormalize(brightness, BRIGHTNESS_DRAG_MIN, BRIGHTNESS_DRAG_MAX);
    SliderView(denormalized, Clamp(brightness, OPACITY_MIN, OPACITY_MAX),
               Abs(denormalized) + SUN_RAY_RADIUS,
               Clamp(Abs(denormalized), SUN_RAY_MIN_WIDTH, SUN_RAY_MAX_WIDTH))
  }

  /** One drag frame: the brightness and the pointer flag go to the store together. */
  method OnSlide(store: Store, prims: Prims, d: Defaults, oy: real, shiftKey: bool, down: bool)
    modifies store
    ensures var b := BrightnessOf(DragValue(prims, oy, shiftKey), d.lightMinBrightness);
      store.State() == old(store.State()).(light := MergeLight(old(store.light),
        LightPatch(brightness := Some(b), brightnessPointerDown := Some(down))))
    ensures store.light.brightness <= 1.0 && store.light.brightnessPointerDown == down
  {
    var value := if shiftKey then oy else prims.stepped(oy, 2.0);
    var normalized := BrightnessOf(value, d.lightMinBrightness);
    store.SetLight(LightPatch(brightness := Some(normalized), brightnessPointerDown := Some(down)));
  }
}
