/**
 * src/ui/Menu/OptionsPanel/options/Parameters.tsx: the numeric fields for
 * azimuth, distance, brightness and elevation. Each validator receives the
 * parsed number (`null` when the text is not a number), writes the store when
 * the value is accepted, and tells the field whether it was.
 */
module Parameters {
  import opened Wrappers
  import opened Figma
  import opened Js
  import opened MathUtil
  import opened AppStore

  /** An azimuth is accepted in [0, 360] degrees. */
  predicate AzimuthValid(v: real) {
    0.0 <= v <= 360.0
  }

  /** Brightness and elevation are accepted as percentages in [0, 100]. */
  predicate PercentValid(v: real) {
    0.0 <= v <= 100.0
  }

  /**
   * Where an accepted azimuth puts the light: the preview centre, corrected by
   * half the light's size, minus the offset `deriveXYFromAngle(value, distance)`.
   */
  function AzimuthPosition(prims: Prims, bounds: Bounds, lightSize: real, value: real, distance: real): (v: Vec)
    ensures var d := prims.deriveXYFromAngle(value, distance);
      v.x + d.x == bounds.width / 2.0 - lightSize / 2.0 && v.y + d.y == bounds.height / 2.0 - lightSize / 2.0
  {
    var d := prims.deriveXYFromAngle(value, distance);
    Vec(bounds.width / 2.0 - lightSize / 2.0 - d.x, bounds.height / 2.0 - lightSize / 2.0 - d.y)
  }

  /**
   * The largest distance the distance field accepts:
   * `sqrt(|bx * bx * cos| + |by * by * sin|) - lightSize / 2` with `(bx, by)`
   * half the preview's size and the angle taken from the stored azimuth.
   */
  function DistanceBound(prims: Prims, bounds: Bounds, azimuth: real, lightSize: real): (b: real)
    ensures prims.SqrtLaws() ==> b >= -lightSize / 2.0
  {
    var boundsX := bounds.width / 2.0;
    var boundsY := bounds.height / 2.0;
    var delta := prims.degreeToRadian(azimuth);
    prims.sqrt(Abs(boundsX * boundsX * prims.cos(delta)) + Abs(boundsY * boundsY * prims.sin(delta))) -
      lightSize / 2.0
  }

  /** The distance written: the value when it lies in [0, bound], otherwise the bound itself. */
  function StoredDistance(v: real, bound: real): (d: real)
    ensures d <= bound
    ensures 0.0 <= v <= bound ==> d == v
    ensures !(0.0 <= v <= bound) ==> d == bound
  {
    if 0.0 <= v && v <= bound then v else bound
  }

  /** `percent / 100`: an accepted percentage is stored as a fraction in [0, 1]. */
  function Fraction(v: real): (f: real)
    ensures PercentValid(v) ==> 0.0 <= f <= 1.0
    ensures f * 100.0 == v
  {
    v / 100.0
  }

  /** A field's displayed number and suffix. */
  datatype Display = Display(number: real, suffix: string)

  /** `Math.round(azimuth) + '°'` */
  function AzimuthDisplay(azimuth: real): (d: Display)
    ensures d.suffix == "°" && d.number == Round(azimuth) as real
    ensures Abs(d.number - azimuth) <= 0.5
  {
    Display(Round(azimuth) as real, "°")
  }

  /** `Math.round(distance).toString()` */
  function DistanceDisplay(distance: real): (d: Display)
    ensures d.suffix == "" && Abs(d.number - distance) <= 0.5
  {
    Display(Round(distance) as real, "")
  }

  /** `percent(brightness) + '%'` */
  function BrightnessDisplay(prims: Prims, brightness: real): Display {
    Display(prims.percent(brightness), "%")
  }

  /** `clamp(percent(elevation), 0, 100) + '%'`: always within [0, 100]. */
  function ElevationDisplay(prims: Prims, elevation: real): (d: Display)
    ensures d.suffix == "%" && 0.0 <= d.number <= 100.0
    ensures 0.0 <= prims.percent(elevation) <= 100.0 ==> d.number == prims.percent(elevation)
  {
    Display(Clamp(prims.percent(elevation), 0.0, 100.0), "%")
  }

  /**
   * The two percentage fields show the same text while the percentage is in
   * [0, 100]; outside it only the elevation field is clamped, so the brightness
   * field shows the out-of-range number itself.
   */
  lemma BrightnessDisplayUnclamped(prims: Prims, brightness: real, elevation: real)
    requires prims.percent(brightness) == prims.percent(elevation)
    ensures 0.0 <= prims.percent(brightness) <= 100.0 ==>
              BrightnessDisplay(prims, brightness) == ElevationDisplay(prims, elevation)
    ensures prims.percent(brightness) > 100.0 ==>
              BrightnessDisplay(prims, brightness).number == prims.percent(brightness) &&
              ElevationDisplay(prims, elevation).number == 100.0
    ensures prims.percent(brightness) < 0.0 ==>
              BrightnessDisplay(prims, brightness).number == prims.percent(brightness) &&
              ElevationDisplay(prims, elevation).number == 0.0
  {
  }

  /** `validateAzimuth`: an accepted azimuth moves the light; nothing is written otherwise. */
  method ValidateAzimuth(store: Store, prims: Prims, value: Option<real>) returns (r: Option<bool>)
    modifies store
    ensures value.None? ==> r.None? && store.State() == old(store.State())
    ensures value.Some? ==> r == Some(AzimuthValid(value.value))
    ensures value.Some? && !AzimuthValid(value.value) ==> store.State() == old(store.State())
    ensures value.Some? && AzimuthValid(value.value) ==>
              var p := AzimuthPosition(prims, old(store.previewBounds), old(store.light.size), value.value,
                                       old(store.preview.distance));
              store.State() == old(store.State()).(light := MergeLight(old(store.light),
                                 LightPatch(x := Some(p.x), y := Some(p.y))))
  {
    if value.None? {
      return None;
    }
    var v := value.value;
    var valid := 0.0 <= v && v <= 360.0;
    if valid {
      var p := AzimuthPosition(prims, store.previewBounds, store.light.size, v, store.preview.distance);
      store.SetLight(LightPatch(x := Some(p.x), y := Some(p.y)));
    }
    r := Some(valid);
  }

  /** `validateDistance`: the distance is always written, clamped to the bound when out of range. */
  method ValidateDistance(store: Store, prims: Prims, value: Option<real>) returns (r: Option<bool>)
    modifies store
    ensures value.None? ==> r.None? && store.State() == old(store.State())
    ensures value.Some? ==>
              var bound := DistanceBound(prims, old(store.previewBounds), old(store.preview.azimuth),
                                         old(store.light.size));
              && r == Some(0.0 <= value.value <= bound)
              && store.State() == old(store.State()).(preview := MergePreview(old(store.preview),
                                    PreviewPatch(distance := Some(StoredDistance(value.value, bound)))))
              && store.preview.distance <= bound
  {
    if value.None? {
      return None;
    }
    var v := value.value;
    var bound := DistanceBound(prims, store.previewBounds, store.preview.azimuth, store.light.size);
    var valid := 0.0 <= v && v <= bound;
    store.SetPreview(PreviewPatch(distance := Some(if valid then v else bound)));
    r := Some(valid);
  }

  /** `validateBrightness`: an accepted percentage is stored as a fraction on the light. */
  method ValidateBrightness(store: Store, value: Option<real>) returns (r: Option<bool>)
    modifies store
    ensures value.None? ==> r.None? && store.State() == old(store.State())
    ensures value.Some? ==> r == Some(PercentValid(value.value))
    ensures value.Some? && !PercentValid(value.value) ==> store.State() == old(store.State())
    ensures value.Some? && PercentValid(value.value) ==>
              && store.State() == old(store.State()).(light := MergeLight(old(store.light),
                                    LightPatch(brightness := Some(Fraction(value.value)))))
              && 0.0 <= store.light.brightness <= 1.0
  {
    if value.None? {
      return None;
    }
    var v := value.value;
    var valid := 0.0 <= v && v <= 100.0;
    if valid {
      store.SetLight(LightPatch(brightness := Some(v / 100.0)));
    }
    r := Some(valid);
  }

  /** `validateElevation`: an accepted percentage is stored as a fraction on the target. */
  method ValidateElevation(store: Store, value: Option<real>) returns (r: Option<bool>)
    modifies store
    ensures value.None? ==> r.None? && store.State() == old(store.State())
    ensures value.Some? ==> r == Some(PercentValid(value.value))
    ensures value.Some? && !PercentValid(value.value) ==> store.State() == old(store.State())
    ensures value.Some? && PercentValid(value.value) ==>
              && store.State() == old(store.State()).(target := MergeTarget(old(store.target),
                                    TargetPatch(elevation := Some(Fraction(value.value)))))
              && 0.0 <= store.target.elevation <= 1.0
  {
    if value.None? {
      return None;
    }
    var v := value.value;
    var valid := 0.0 <= v && v <= 100.0;
    if valid {
      store.SetTarget(TargetPatch(elevation := Some(v / 100.0)));
    }
    r := Some(valid);
  }
}
