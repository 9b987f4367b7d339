/**
 * src/utils/shadow.ts: `getCastedShadows` turns the light parameters into a
 * stack of drop-shadow layers. Layer `i` of `n` is eased by `t = i / n`:
 * opacity by a cubic ease-in-out, offset by a quadratic ease-in, blur by a
 * quadratic ease-out.
 */
module Shadow {
  import opened Wrappers
  import opened Figma
  import opened Js
  import opened MathUtil
  import opened Ease

  /** `SHADOW_BASE_BLUR` (src/constants/index.ts) */
  const SHADOW_BASE_BLUR: real := 50.0

  datatype Size = Size(width: real, height: real)

  /**
   * `ShadowParameter`. The background colour is optional because a caller may
   * leave it out (the plugin's main thread does).
   */
  datatype ShadowParameter = ShadowParameter(
    numShadows: nat,
    azimuth: real,
    distance: real,
    elevation: real,
    brightness: real,
    backgroundColor: Option<string>,
    size: Size)

  /** `scale = distance * (max(width, height) / 100)`: the UI's 100px target scaled to the canvas node. */
  function Scale(p: ShadowParameter): (s: real)
    ensures p.distance >= 0.0 && (p.size.width >= 0.0 || p.size.height >= 0.0) ==> s >= 0.0
  {
    var longestSide := Max(p.size.width, p.size.height);
    var factor := longestSide / 100.0;
    assert longestSide >= 0.0 ==> factor >= 0.0;
    ProductSign(p.distance, factor);
    p.distance * factor
  }

  lemma ProductSign(a: real, b: real)
    ensures a >= 0.0 && b >= 0.0 ==> a * b >= 0.0
  {
  }

  /** `increaseRadiusWithDistance = max(scale / 100, 0.1)`: never below 0.1. */
  function BlurFactor(p: ShadowParameter): (f: real)
    ensures f >= 0.1
    ensures f >= Scale(p) / 100.0
    ensures Scale(p) <= 10.0 ==> f == 0.1
  {
    Max(Scale(p) / 100.0, 0.1)
  }

  /**
   * The tint's HSL: an achromatic colour (NaN hue) becomes black, otherwise hue
   * and saturation are kept and the lightness is lowered by 0.8, clamped to [0.1, 1].
   */
  function TintHsl(hsl: ChromaHsl): (r: (real, real, real))
    ensures hsl.hue.None? ==> r == (0.0, 0.0, 0.0)
    ensures hsl.hue.Some? ==> r.0 == hsl.hue.value && r.1 == hsl.saturation
    ensures hsl.hue.Some? ==> 0.1 <= r.2 <= 1.0
    ensures hsl.hue.Some? && 0.9 <= hsl.lightness <= 1.8 ==> r.2 == hsl.lightness - 0.8
  {
    match hsl.hue
    case None => (0.0, 0.0, 0.0)
    case Some(h) => (h, hsl.saturation, Clamp(hsl.lightness - 0.8, 0.1, 1.0))
  }

  /** The layers' colour: fully transparent black unless a (non-empty) background colour is given. */
  function ShadowTint(prims: Prims, backgroundColor: Option<string>): (c: Rgba)
    ensures !TruthyString(backgroundColor) ==> c == Rgba(0.0, 0.0, 0.0, 0.0)
    ensures TruthyString(backgroundColor) ==>
              var hsl := TintHsl(prims.hslOf(backgroundColor.value));
              c == prims.glOfHsl(hsl.0, hsl.1, hsl.2)
  {
    if TruthyString(backgroundColor) then
      var hsl := TintHsl(prims.hslOf(backgroundColor.value));
      prims.glOfHsl(hsl.0, hsl.1, hsl.2)
    else Rgba(0.0, 0.0, 0.0, 0.0)
  }

  /** The layer's position in the stack: `normalize(i, 0, numShadows)`. */
  function Progress(i: nat, n: nat): (t: real)
    requires i < n
    ensures 0.0 <= t < 1.0
    ensures i == 0 ==> t == 0.0
  {
    NormalizeAffine(i as real, 0.0, n as real);
    Normalize(i as real, 0.0, n as real)
  }

  /** Later layers sit further along the stack. */
  lemma ProgressMonotone(i: nat, j: nat, n: nat)
    requires i <= j < n
    ensures Progress(i, n) <= Progress(j, n)
  {
    NormalizeMonotone(i as real, j as real, 0.0, n as real);
  }

  /** The opacity before rounding: `brightness - brightness * easeCubicInOut(t)`. */
  function RawAlpha(p: ShadowParameter, t: real): real {
    p.brightness - p.brightness * CubicInOut(t)
  }

  /** The offset length before rounding and direction: `scale * elevation * easeQuadIn(t) * 5`. */
  function RawOffset(p: ShadowParameter, t: real): real {
    Scale(p) * p.elevation * (QuadIn(t) * 5.0)
  }

  /** The blur before rounding: `SHADOW_BASE_BLUR * blurFactor * easeQuadOut(t) * (elevation * 2)`. */
  function RawRadius(p: ShadowParameter, t: real): real {
    SHADOW_BASE_BLUR * BlurFactor(p) * QuadOut(t) * (p.elevation * 2.0)
  }

  /** One rounded offset coordinate: `round(direction * length)`. */
  function OffsetCoordinate(prims: Prims, direction: real, length: real): real {
    prims.round(direction * length, None)
  }

  /** Layer `i` of the stack, coloured with the tint's r, g, b. */
  function Layer(prims: Prims, p: ShadowParameter, color: Rgba, i: nat): (e: Effect)
    requires i < p.numShadows
    ensures e.Shadow? && e.shadowType == DROP_SHADOW && e.blendMode == NORMAL
    ensures e.visible && e.spread == 0.0
    ensures e.color.r == color.r && e.color.g == color.g && e.color.b == color.b
  {
    var azimuthRad := prims.degreeToRadian(p.azimuth);
    var t := Progress(i, p.numShadows);
    var a := prims.round(RawAlpha(p, t), Some(2));
    var x := OffsetCoordinate(prims, prims.cos(azimuthRad), RawOffset(p, t));
    var y := OffsetCoordinate(prims, prims.sin(azimuthRad), RawOffset(p, t));
    var radius := prims.round(RawRadius(p, t), None);
    Shadow(DROP_SHADOW, Rgba(color.r, color.g, color.b, a), Vec(x, y), radius, 0.0, true, NORMAL)
  }

  /** `getCastedShadows(p)`: exactly `numShadows` layers, layer `i` a function of `i` and `p` alone. */
  function GetCastedShadows(prims: Prims, p: ShadowParameter): (r: seq<Effect>)
    ensures |r| == p.numShadows
    ensures forall i :: 0 <= i < |r| ==> r[i] == Layer(prims, p, ShadowTint(prims, p.backgroundColor), i)
    ensures forall e :: e in r ==>
              e.Shadow? && e.shadowType == DROP_SHADOW && e.blendMode == NORMAL && e.visible && e.spread == 0.0
    ensures !TruthyString(p.backgroundColor) ==>
              forall e :: e in r ==> e.Shadow? && e.color.r == 0.0 && e.color.g == 0.0 && e.color.b == 0.0
  {
    var color := ShadowTint(prims, p.backgroundColor);
    seq(p.numShadows, (i: int) requires 0 <= i < p.numShadows => Layer(prims, p, color, i))
  }

  lemma ProductMonotoneLeft(c: real, a: real, b: real)
    requires a <= b && c >= 0.0
    ensures c * a <= c * b
  {
    assert c * b - c * a == c * (b - a);
  }

  /** Before rounding, every layer's opacity lies in [0, brightness]. */
  lemma {:induction false} RawAlphaRange(p: ShadowParameter, i: nat)
    requires i < p.numShadows && p.brightness >= 0.0
    ensures 0.0 <= RawAlpha(p, Progress(i, p.numShadows)) <= p.brightness
  {
    var t := Progress(i, p.numShadows);
    CubicInOutRange(t);
    ProductMonotoneLeft(p.brightness, 0.0, CubicInOut(t));
    ProductMonotoneLeft(p.brightness, CubicInOut(t), 1.0);
  }

  /** Opacity fades along the stack: a later layer is never more opaque. */
  lemma {:induction false} AlphaNonIncreasing(prims: Prims, p: ShadowParameter, color: Rgba, i: nat, j: nat)
    requires prims.RoundMonotone()
    requires i <= j < p.numShadows && p.brightness >= 0.0
    ensures Layer(prims, p, color, j).color.a <= Layer(prims, p, color, i).color.a
  {
    var ti, tj := Progress(i, p.numShadows), Progress(j, p.numShadows);
    ProgressMonotone(i, j, p.numShadows);
    CubicInOutMonotone(ti, tj);
    ProductMonotoneLeft(p.brightness, CubicInOut(ti), CubicInOut(tj));
    assert Ordered(RawAlpha(p, tj), RawAlpha(p, ti));
  }

  /** Blur grows along the stack when the elevation is non-negative. */
  lemma {:induction false} RadiusNonDecreasing(prims: Prims, p: ShadowParameter, color: Rgba, i: nat, j: nat)
    requires prims.RoundMonotone()
    requires i <= j < p.numShadows && p.elevation >= 0.0
    ensures Layer(prims, p, color, i).radius <= Layer(prims, p, color, j).radius
  {
    var ti, tj := Progress(i, p.numShadows), Progress(j, p.numShadows);
    ProgressMonotone(i, j, p.numShadows);
    QuadOutMonotone(ti, tj);
    var k := SHADOW_BASE_BLUR * BlurFactor(p);
    assert k > 0.0;
    ProductMonotoneLeft(k, QuadOut(ti), QuadOut(tj));
    ProductMonotoneRight(k * QuadOut(ti), k * QuadOut(tj), p.elevation * 2.0);
    assert Ordered(RawRadius(p, ti), RawRadius(p, tj));
  }

  lemma ProductMonotoneRight(a: real, b: real, c: real)
    requires a <= b && c >= 0.0
    ensures a * c <= b * c
  {
    assert b * c - a * c == (b - a) * c;
  }

  /**
   * The offset moves away from the target along the stack: each coordinate
   * grows in the direction of the azimuth's cosine (x) or sine (y).
   */
  lemma {:induction false} OffsetMonotone(prims: Prims, p: ShadowParameter, color: Rgba, i: nat, j: nat)
    requires prims.RoundMonotone()
    requires i <= j < p.numShadows
    requires p.distance >= 0.0 && p.elevation >= 0.0 && p.size.width >= 0.0
    ensures var c := prims.cos(prims.degreeToRadian(p.azimuth));
      && (c >= 0.0 ==> Layer(prims, p, color, i).offset.x <= Layer(prims, p, color, j).offset.x)
      && (c <= 0.0 ==> Layer(prims, p, color, j).offset.x <= Layer(prims, p, color, i).offset.x)
    ensures var s := prims.sin(prims.degreeToRadian(p.azimuth));
      && (s >= 0.0 ==> Layer(prims, p, color, i).offset.y <= Layer(prims, p, color, j).offset.y)
      && (s <= 0.0 ==> Layer(prims, p, color, j).offset.y <= Layer(prims, p, color, i).offset.y)
  {
    var ti, tj := Progress(i, p.numShadows), Progress(j, p.numShadows);
    ProgressMonotone(i, j, p.numShadows);
    RawOffsetMonotone(p, ti, tj);
    var c := prims.cos(prims.degreeToRadian(p.azimuth));
    var s := prims.sin(prims.degreeToRadian(p.azimuth));
    OffsetAlong(prims, c, RawOffset(p, ti), RawOffset(p, tj));
    OffsetAlong(prims, s, RawOffset(p, ti), RawOffset(p, tj));
  }

  /** A rounded coordinate `round(c * len)` follows the sign of the direction `c` as `len` grows. */
  lemma OffsetAlong(prims: Prims, c: real, a: real, b: real)
    requires prims.RoundMonotone() && a <= b
    ensures c >= 0.0 ==> OffsetCoordinate(prims, c, a) <= OffsetCoordinate(prims, c, b)
    ensures c <= 0.0 ==> OffsetCoordinate(prims, c, b) <= OffsetCoordinate(prims, c, a)
  {
    DirectedMonotone(c, a, b);
    if c >= 0.0 {
      assert Ordered(c * a, c * b);
    }
    if c <= 0.0 {
      assert Ordered(c * b, c * a);
    }
  }

  lemma {:induction false} RawOffsetMonotone(p: ShadowParameter, ti: real, tj: real)
    requires 0.0 <= ti <= tj
    requires p.distance >= 0.0 && p.elevation >= 0.0 && p.size.width >= 0.0
    ensures RawOffset(p, ti) <= RawOffset(p, tj)
  {
    QuadInMonotone(ti, tj);
    var k := Scale(p) * p.elevation;
    ProductSign(Scale(p), p.elevation);
    ProductMonotoneLeft(k, QuadIn(ti) * 5.0, QuadIn(tj) * 5.0);
  }

  lemma DirectedMonotone(c: real, a: real, b: real)
    requires a <= b
    ensures c >= 0.0 ==> c * a <= c * b
    ensures c <= 0.0 ==> c * b <= c * a
  {
    assert c * b - c * a == c * (b - a);
  }

  /** The first layer sits right under the target: full brightness, no offset, no blur. */
  lemma FirstLayer(prims: Prims, p: ShadowParameter, color: Rgba)
    requires prims.RoundFixesZero() && p.numShadows > 0
    ensures Layer(prims, p, color, 0).color.a == prims.round(p.brightness, Some(2))
    ensures Layer(prims, p, color, 0).offset == Vec(0.0, 0.0)
    ensures Layer(prims, p, color, 0).radius == 0.0
  {
    RawAtStart(p);
    var azimuthRad := prims.degreeToRadian(p.azimuth);
    OffsetAtZero(prims, prims.cos(azimuthRad));
    OffsetAtZero(prims, prims.sin(azimuthRad));
  }

  /** The first layer: full opacity, no offset, no blur before rounding. */
  lemma RawAtStart(p: ShadowParameter)
    ensures RawAlpha(p, 0.0) == p.brightness
    ensures RawOffset(p, 0.0) == 0.0
    ensures RawRadius(p, 0.0) == 0.0
  {
    RawAlphaAtStart(p);
    RawOffsetAtStart(p);
    RawRadiusAtStart(p);
  }

  lemma RawAlphaAtStart(p: ShadowParameter)
    ensures RawAlpha(p, 0.0) == p.brightness
  {
    var c := CubicInOut(0.0);
    assert c == 0.0 by { EaseEndpoints(); }
    TimesZero(p.brightness);
    assert RawAlpha(p, 0.0) == p.brightness - p.brightness * c;
  }

  lemma RawOffsetAtStart(p: ShadowParameter)
    ensures RawOffset(p, 0.0) == 0.0
  {
    var k := Scale(p) * p.elevation;
    assert QuadIn(0.0) * 5.0 == 0.0;
    TimesZero(k);
  }

  lemma RawRadiusAtStart(p: ShadowParameter)
    ensures RawRadius(p, 0.0) == 0.0
  {
    var m := SHADOW_BASE_BLUR * BlurFactor(p);
    assert QuadOut(0.0) == 0.0;
    TimesZero(m);
    TimesZero(p.elevation * 2.0);
  }

  lemma TimesZero(a: real)
    ensures a * 0.0 == 0.0 && 0.0 * a == 0.0
  {
  }

  lemma OffsetAtZero(prims: Prims, direction: real)
    requires prims.RoundFixesZero()
    ensures OffsetCoordinate(prims, direction, 0.0) == 0.0
  {
    assert direction * 0.0 == 0.0;
  }

}
