/**
 * JavaScript number semantics the plugin depends on (`Math.round`, `%`,
 * `Math.min`/`Math.max`, falsy fallbacks), and the library functions that are
 * left uninterpreted, gathered in one record of function values.
 */
module Js {
  import opened Wrappers
  import opened Figma

  /** `Math.max(a, b)` */
  function Max(a: real, b: real): (r: real)
    ensures r >= a && r >= b
    ensures r == a || r == b
  {
    if a >= b then a else b
  }

  /** `Math.min(a, b)` */
  function Min(a: real, b: real): (r: real)
    ensures r <= a && r <= b
    ensures r == a || r == b
  {
    if a <= b then a else b
  }

  /** `Math.abs(a)` */
  function Abs(a: real): (r: real)
    ensures r >= 0.0
    ensures r == a || r == -a
  {
    if a >= 0.0 then a else -a
  }

  /**
   * `Math.round(x)`: the nearest integer, halves rounded towards +Infinity
   * (so `Math.round(-2.5) == -2`).
   */
  function Round(x: real): (r: int)
    ensures x - 0.5 < r as real <= x + 0.5
  {
    (x + 0.5).Floor
  }

  /** Truncation towards zero, the integer quotient JavaScript's `%` uses. */
  function Trunc(q: real): (r: int)
    ensures q >= 0.0 ==> 0 <= r && r as real <= q < r as real + 1.0
    ensures q <= 0.0 ==> r <= 0 && r as real - 1.0 < q <= r as real
  {
    if q >= 0.0 then q.Floor else -((-q).Floor)
  }

  /** The signed fractional part `q - trunc(q)`: it keeps the sign of `q` and stays below 1 in size. */
  function Frac(q: real): (f: real)
    ensures q >= 0.0 ==> 0.0 <= f < 1.0
    ensures q <= 0.0 ==> -1.0 < f <= 0.0
  {
    q - Trunc(q) as real
  }

  /**
   * JavaScript's `x % y` for finite `x` and `y != 0`, i.e. `x - y * trunc(x / y)`,
   * written as the fractional part of the quotient scaled back by `y`.
   */
  function Rem(x: real, y: real): real
    requires y != 0.0
  {
    Frac(x / y) * y
  }

  /** The remainder is smaller than the divisor in size and has the dividend's sign. */
  lemma {:induction false} RemBounds(x: real, y: real)
    requires y != 0.0
    ensures Abs(Rem(x, y)) < Abs(y)
    ensures x >= 0.0 ==> Rem(x, y) >= 0.0
    ensures x <= 0.0 ==> Rem(x, y) <= 0.0
  {
    if y > 0.0 {
      if x >= 0.0 { RemNonNegativeByPositive(x, y); }
      if x <= 0.0 { RemNonPositiveByPositive(x, y); }
    } else {
      if x >= 0.0 { RemNonNegativeByNegative(x, y); }
      if x <= 0.0 { RemNonPositiveByNegative(x, y); }
    }
  }

  lemma RemNonNegativeByPositive(x: real, y: real)
    requires x >= 0.0 && y > 0.0
    ensures 0.0 <= Rem(x, y) < y
  {
    QuotientSign(x, y);
    var f := Frac(x / y);
    assert 0.0 <= f < 1.0;
    assert Rem(x, y) == f * y;
    ScaleNonNegativeByPositive(f, y);
  }

  lemma RemNonPositiveByPositive(x: real, y: real)
    requires x <= 0.0 && y > 0.0
    ensures -y < Rem(x, y) <= 0.0
  {
    QuotientSign(x, y);
    var f := Frac(x / y);
    assert -1.0 < f <= 0.0;
    assert Rem(x, y) == f * y;
    ScaleNonPositiveByPositive(f, y);
  }

  lemma RemNonNegativeByNegative(x: real, y: real)
    requires x >= 0.0 && y < 0.0
    ensures 0.0 <= Rem(x, y) < -y
  {
    QuotientSign(x, y);
    var f := Frac(x / y);
    assert -1.0 < f <= 0.0;
    assert Rem(x, y) == f * y;
    ScaleNonPositiveByNegative(f, y);
  }

  lemma RemNonPositiveByNegative(x: real, y: real)
    requires x <= 0.0 && y < 0.0
    ensures y < Rem(x, y) <= 0.0
  {
    QuotientSign(x, y);
    var f := Frac(x / y);
    assert 0.0 <= f < 1.0;
    assert Rem(x, y) == f * y;
    ScaleNonNegativeByNegative(f, y);
  }

  /** The quotient's sign is the product of the operands' signs. */
  lemma QuotientSign(x: real, y: real)
    requires y != 0.0
    ensures (x >= 0.0 && y > 0.0) || (x <= 0.0 && y < 0.0) ==> x / y >= 0.0
    ensures (x >= 0.0 && y < 0.0) || (x <= 0.0 && y > 0.0) ==> x / y <= 0.0
  {
  }

  lemma ScaleNonNegativeByPositive(f: real, y: real)
    requires 0.0 <= f < 1.0 && y > 0.0
    ensures 0.0 <= f * y < y
  {
    assert y - f * y == (1.0 - f) * y;
    assert (1.0 - f) * y > 0.0;
  }

  lemma ScaleNonPositiveByPositive(f: real, y: real)
    requires -1.0 < f <= 0.0 && y > 0.0
    ensures -y < f * y <= 0.0
  {
    assert f * y + y == (f + 1.0) * y;
    assert (f + 1.0) * y > 0.0;
  }

  lemma ScaleNonNegativeByNegative(f: real, y: real)
    requires 0.0 <= f < 1.0 && y < 0.0
    ensures y < f * y <= 0.0
  {
    assert f * y - y == (f - 1.0) * y;
    assert (f - 1.0) * y > 0.0;
  }

  lemma ScaleNonPositiveByNegative(f: real, y: real)
    requires -1.0 < f <= 0.0 && y < 0.0
    ensures 0.0 <= f * y < -y
  {
    assert -y - f * y == (-1.0 - f) * y;
    assert (-1.0 - f) * y > 0.0;
  }

  /** `o || fallback` for a number that may be `undefined`: `0` falls back too. */
  function OrNumber(o: Option<real>, fallback: real): (r: real)
    ensures o.Some? && o.value != 0.0 ==> r == o.value
    ensures o.None? || o.value == 0.0 ==> r == fallback
  {
    if o.Some? && o.value != 0.0 then o.value else fallback
  }

  /** A string is truthy unless it is `undefined` or empty. */
  predicate TruthyString(o: Option<string>) {
    o.Some? && o.value != ""
  }

  /** `o || fallback` for a string that may be `undefined`: `""` falls back too. */
  function OrString(o: Option<string>, fallback: string): (r: string)
    ensures TruthyString(o) ==> r == o.value
    ensures !TruthyString(o) ==> r == fallback
  {
    if TruthyString(o) then o.value else fallback
  }

  /** The index of the first `#` in a string that has one. */
  function FirstHash(s: string): (k: nat)
    requires '#' in s
    ensures k < |s| && s[k] == '#' && '#' !in s[..k]
  {
    if s[0] == '#' then 0
    else
      assert s[1..][..FirstHash(s[1..])] == s[1..FirstHash(s[1..]) + 1];
      FirstHash(s[1..]) + 1
  }

  /**
   * `s.replace('#', '')`: only the first `#` is removed, and the other
   * characters keep their order.
   */
  function RemoveFirstHash(s: string): (r: string)
    ensures '#' !in s ==> r == s
    ensures '#' in s ==> r == s[..FirstHash(s)] + s[FirstHash(s) + 1..]
    ensures '#' in s ==> |r| == |s| - 1 && multiset(r) == multiset(s) - multiset{'#'}
    decreases |s|
  {
    if s == [] then []
    else
      assert s == [s[0]] + s[1..];
      if s[0] == '#' then s[1..]
      else
        var rest := s[1..];
        assert '#' in s ==> '#' in rest;
        assert '#' in s ==> FirstHash(s) == FirstHash(rest) + 1;
        [s[0]] + RemoveFirstHash(rest)
  }

  /** `a <= b`, named so that order laws about uninterpreted functions fire only where a proof asks. */
  ghost predicate Ordered(a: real, b: real) {
    a <= b
  }

  /** `chroma(color).hsl()`: the hue is NaN (here `None`) for achromatic colours. */
  datatype ChromaHsl = ChromaHsl(hue: Option<real>, saturation: real, lightness: real)

  /**
   * Library functions whose definitions are not part of this model. `round`
   * is the helper of src/utils/math.ts called as `round(v)` (`None`) or
   * `round(v, digits)`.
   */
  datatype Prims = Prims(
    pi: real,
    cos: real -> real,
    sin: real -> real,
    sqrt: real -> real,
    atan2: (real, real) -> real,
    round: (real, Option<int>) -> real,
    degreeToRadian: real -> real,
    stepped: (real, real) -> real,
    denormalize: (real, real, real) -> real,
    percent: real -> real,
    deriveXYFromAngle: (real, real) -> Vec,
    angleFromLightToTarget: (Vec, Vec) -> real,
    distanceFromLightToTarget: (Vec, Vec) -> real,
    hslOf: string -> ChromaHsl,
    glOfHsl: (real, real, real) -> Rgba,
    hexOfHsl: (real, real, real) -> string,
    hexOfGl: Rgba -> string)
  {
    /**
     * The rounding helper never reverses the order of two numbers. The law is
     * only applied to pairs a proof has marked `Ordered`.
     */
    ghost predicate RoundMonotone() {
      forall a: real, b: real, d: Option<int> {:trigger Ordered(a, b), round(a, d)} ::
        Ordered(a, b) ==> round(a, d) <= round(b, d)
    }

    /** Rounding zero gives zero, at every precision. */
    ghost predicate RoundFixesZero() {
      forall d: Option<int> :: round(0.0, d) == 0.0
    }

    /** `Math.cos(t)^2 + Math.sin(t)^2 == 1` for every angle. */
    ghost predicate TrigLaws() {
      forall t: real :: cos(t) * cos(t) + sin(t) * sin(t) == 1.0
    }

    /** `Math.sqrt` of a non-negative number is non-negative, and `Math.sqrt(0) == 0`. */
    ghost predicate SqrtLaws() {
      && sqrt(0.0) == 0.0
      && forall v: real :: v >= 0.0 ==> sqrt(v) >= 0.0
    }
  }
}
