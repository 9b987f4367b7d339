/** src/utils/math.ts: clamp, normalize, vecAngle, vecDistance. */
module MathUtil {
  import opened Figma
  import opened Js

  /** `clamp(num, min, max) = Math.min(Math.max(num, min), max)` */
  function Clamp(num: real, min: real, max: real): (r: real)
    ensures r <= max
    ensures min <= max ==> min <= r
    ensures min <= num <= max ==> r == num
    ensures num < min <= max ==> r == min
    ensures num > max ==> r == max
  {
    Min(Max(num, min), max)
  }

  lemma ClampIdempotent(num: real, min: real, max: real)
    requires min <= max
    ensures Clamp(Clamp(num, min, max), min, max) == Clamp(num, min, max)
  {
  }

  /**
   * `normalize(val, min, max) = (val - min) / (max - min)`. JavaScript yields
   * NaN or Infinity for an empty range; every caller here passes two distinct
   * constants, so the empty range is excluded.
   */
  function Normalize(val: real, min: real, max: real): real
    requires max != min
  {
    (val - min) / (max - min)
  }

  /** The range's ends map to 0 and 1; the map is affine and does not clamp. */
  lemma {:induction false} NormalizeAffine(val: real, min: real, max: real)
    requires max != min
    ensures Normalize(min, min, max) == 0.0
    ensures Normalize(max, min, max) == 1.0
    ensures min < max && val > max ==> Normalize(val, min, max) > 1.0
    ensures min < max && val < min ==> Normalize(val, min, max) < 0.0
    ensures max < min && val < max ==> Normalize(val, min, max) > 1.0
    ensures max < min && val > min ==> Normalize(val, min, max) < 0.0
    ensures min <= val <= max || max <= val <= min ==> 0.0 <= Normalize(val, min, max) <= 1.0
  {
    var w := max - min;
    var n := Normalize(val, min, max);
    assert Normalize(max, min, max) == w / w == 1.0;
    assert n * w == val - min;
    if w > 0.0 {
      assert val > max ==> n * w > w;
      assert val < min ==> n * w < 0.0;
      assert min <= val <= max ==> 0.0 <= n * w <= w;
    } else {
      assert val < max ==> n * w < w;
      assert val > min ==> n * w > 0.0;
      assert max <= val <= min ==> w <= n * w <= 0.0;
    }
  }

  /** A reversed range (max < min) reverses the order of its inputs. */
  lemma {:induction false} NormalizeMonotone(a: real, b: real, min: real, max: real)
    requires max != min && a <= b
    ensures min < max ==> Normalize(a, min, max) <= Normalize(b, min, max)
    ensures max < min ==> Normalize(a, min, max) >= Normalize(b, min, max)
  {
    var w := max - min;
    assert Normalize(b, min, max) - Normalize(a, min, max) == (b - a) / w;
  }

  /** `vecAngle(vec1, vec2) = Math.atan2(vec1.y - vec2.y, vec1.x - vec2.x)` */
  function VecAngle(p: Prims, vec1: Vec, vec2: Vec): real {
    p.atan2(vec1.y - vec2.y, vec1.x - vec2.x)
  }

  /** The angle only depends on the difference of the two vectors. */
  lemma VecAngleTranslation(p: Prims, vec1: Vec, vec2: Vec, d: Vec)
    ensures VecAngle(p, Vec(vec1.x + d.x, vec1.y + d.y), Vec(vec2.x + d.x, vec2.y + d.y))
         == VecAngle(p, vec1, vec2)
  {
    assert (vec1.y + d.y) - (vec2.y + d.y) == vec1.y - vec2.y;
    assert (vec1.x + d.x) - (vec2.x + d.x) == vec1.x - vec2.x;
  }

  /** `vecDistance(vec1, vec2) = Math.sqrt(p1 * p1 + p2 * p2)` with `p = vec2 - vec1`. */
  function VecDistance(p: Prims, vec1: Vec, vec2: Vec): real {
    var p1 := vec2.x - vec1.x;
    var p2 := vec2.y - vec1.y;
    p.sqrt(p1 * p1 + p2 * p2)
  }

  /** The distance is non-negative, symmetric, and zero between equal points. */
  lemma {:induction false} VecDistanceMetric(p: Prims, vec1: Vec, vec2: Vec)
    requires p.SqrtLaws()
    ensures VecDistance(p, vec1, vec2) >= 0.0
    ensures VecDistance(p, vec1, vec2) == VecDistance(p, vec2, vec1)
    ensures VecDistance(p, vec1, vec1) == 0.0
  {
    var p1 := vec2.x - vec1.x;
    var p2 := vec2.y - vec1.y;
    assert p1 * p1 >= 0.0 && p2 * p2 >= 0.0;
    assert (-p1) * (-p1) + (-p2) * (-p2) == p1 * p1 + p2 * p2;
    assert (vec1.x - vec1.x) * (vec1.x - vec1.x) + (vec1.y - vec1.y) * (vec1.y - vec1.y) == 0.0;
  }
}
