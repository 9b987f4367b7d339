/**
 * The three d3-ease curves the shadow layers use, as the polynomials d3-ease
 * defines them, and the order facts the layer lemmas need.
 */
module Ease {

  /** `easeQuadIn(t) = t * t` */
  function QuadIn(t: real): real {
    t * t
  }

  /** `easeQuadOut(t) = t * (2 - t)` */
  function QuadOut(t: real): real {
    t * (2.0 - t)
  }

  /**
   * `easeCubicInOut(t)`: with `u = 2t`, `u^3 / 2` on the first half and
   * `((u - 2)^3 + 2) / 2` on the second.
   */
  function CubicInOut(t: real): real {
    var u := 2.0 * t;
    if u <= 1.0 then u * u * u / 2.0
    else var v := u - 2.0; (v * v * v + 2.0) / 2.0
  }

  /** The curves start at 0 and end at 1. */
  lemma EaseEndpoints()
    ensures QuadIn(0.0) == 0.0 && QuadIn(1.0) == 1.0
    ensures QuadOut(0.0) == 0.0 && QuadOut(1.0) == 1.0
    ensures CubicInOut(0.0) == 0.0 && CubicInOut(1.0) == 1.0
    ensures CubicInOut(0.5) == 0.5
  {
    assert CubicInOut(0.0) == 0.0 * 0.0 * 0.0 / 2.0 == 0.0;
    assert CubicInOut(0.5) == 1.0 * 1.0 * 1.0 / 2.0 == 0.5;
    assert CubicInOut(1.0) == (0.0 * 0.0 * 0.0 + 2.0) / 2.0 == 1.0;
  }

  lemma ProductMonotone(a: real, b: real, c: real)
    requires a <= b && c >= 0.0
    ensures a * c <= b * c
  {
    assert b * c - a * c == (b - a) * c;
  }

  lemma SquareNonNegative(s: real)
    ensures s * s >= 0.0
  {
    if s < 0.0 {
      assert s * s == (-s) * (-s);
    }
  }

  /** `x^3` never decreases. */
  lemma {:induction false} CubeMonotone(x: real, y: real)
    requires x <= y
    ensures x * x * x <= y * y * y
  {
    var s := y + x / 2.0;
    var q := s * s + 3.0 * (x * x) / 4.0;
    SquareNonNegative(s);
    SquareNonNegative(x);
    assert y * y + x * y + x * x == q;
    assert y * y * y - x * x * x == (y - x) * q;
    ProductMonotone(0.0, y - x, q);
  }

  /** The ease-in square grows on the non-negative reals. */
  lemma {:induction false} QuadInMonotone(a: real, b: real)
    requires 0.0 <= a <= b
    ensures 0.0 <= QuadIn(a) <= QuadIn(b)
  {
    ProductMonotone(a, b, a);
    ProductMonotone(a, b, b);
  }

  /** The ease-out parabola grows up to its peak at 1. */
  lemma {:induction false} QuadOutMonotone(a: real, b: real)
    requires a <= b <= 1.0
    ensures QuadOut(a) <= QuadOut(b)
  {
    assert QuadOut(b) - QuadOut(a) == (b - a) * (2.0 - a - b);
    ProductMonotone(0.0, b - a, 2.0 - a - b);
  }

  /** The ease-out parabola is non-negative on [0, 1]. */
  lemma QuadOutNonNegative(t: real)
    requires 0.0 <= t <= 1.0
    ensures 0.0 <= QuadOut(t) <= 1.0
  {
    QuadOutMonotone(0.0, t);
    QuadOutMonotone(t, 1.0);
  }

  /** The two halves of the cubic ease-in-out meet at 1/2, so the whole curve never decreases. */
  lemma {:induction false} CubicInOutMonotone(a: real, b: real)
    requires a <= b
    ensures CubicInOut(a) <= CubicInOut(b)
  {
    var u, w := 2.0 * a, 2.0 * b;
    if w <= 1.0 {
      CubeMonotone(u, w);
    } else if u > 1.0 {
      CubeMonotone(u - 2.0, w - 2.0);
    } else {
      CubeMonotone(u, 1.0);
      CubeMonotone(-1.0, w - 2.0);
    }
  }

  /** On [0, 1] the cubic ease-in-out stays in [0, 1]. */
  lemma CubicInOutRange(t: real)
    requires 0.0 <= t <= 1.0
    ensures 0.0 <= CubicInOut(t) <= 1.0
  {
    CubicInOutMonotone(0.0, t);
    CubicInOutMonotone(t, 1.0);
  }
}
