/**
 * Two- and three-dimensional vectors over the reals, as the game engine's
 * Vector2 and Vector3 are used by the gameplay scripts.
 *
 * The engine computes a vector's magnitude with a square root. The model has
 * no square root: wherever the source reads `magnitude` or `normalized`, the
 * magnitude is supplied by the caller (the engine) together with the
 * precondition `IsMagnitude(v, m)`, which pins it down exactly.
 */
module Geometry {

  datatype Vec2 = Vec2(x: real, y: real)

  datatype Vec3 = Vec3(x: real, y: real, z: real)

  const ZERO2 := Vec2(0.0, 0.0)

  /** The engine's normalisation returns the zero vector at or below this magnitude. */
  const NORMALIZE_EPSILON: real := 0.00001

  function Add2(a: Vec2, b: Vec2): Vec2 { Vec2(a.x + b.x, a.y + b.y) }

  function Sub2(a: Vec2, b: Vec2): Vec2 { Vec2(a.x - b.x, a.y - b.y) }

  function Scale2(v: Vec2, k: real): Vec2 { Vec2(v.x * k, v.y * k) }

  function Dot2(a: Vec2, b: Vec2): real { a.x * b.x + a.y * b.y }

  function Sub3(a: Vec3, b: Vec3): Vec3 { Vec3(a.x - b.x, a.y - b.y, a.z - b.z) }

  function Dot3(a: Vec3, b: Vec3): real { a.x * b.x + a.y * b.y + a.z * b.z }

  /** The implicit Vector3-to-Vector2 conversion: drops z. */
  function Flatten(v: Vec3): Vec2 { Vec2(v.x, v.y) }

  /** The implicit Vector2-to-Vector3 conversion: z becomes 0. */
  function Lift(v: Vec2): Vec3 { Vec3(v.x, v.y, 0.0) }

  /** `m` is the Euclidean length of `v`. */
  predicate IsMagnitude(v: Vec2, m: real) { m >= 0.0 && m * m == Dot2(v, v) }

  predicate IsMagnitude3(v: Vec3, m: real) { m >= 0.0 && m * m == Dot3(v, v) }

  /** Vector2.normalized, given the vector's magnitude. */
  function Normalized2(v: Vec2, m: real): (r: Vec2)
    requires IsMagnitude(v, m)
    ensures m > NORMALIZE_EPSILON ==> IsMagnitude(r, 1.0) && Dot2(r, v) == m
    ensures m <= NORMALIZE_EPSILON ==> r == ZERO2
  {
    if m > NORMALIZE_EPSILON then
      ScaleMagnitude(v, m, 1.0 / m);
      ScaledDot(v, m, 1.0 / m);
      Scale2(v, 1.0 / m)
    else ZERO2
  }

  /** Vector3.normalized, given the vector's magnitude, then flattened to a Vector2. */
  function Normalized3Flat(v: Vec3, m: real): (r: Vec2)
    requires IsMagnitude3(v, m)
    ensures m > NORMALIZE_EPSILON ==> Scale2(r, m) == Flatten(v)
    ensures m <= NORMALIZE_EPSILON ==> r == ZERO2
  {
    if m > NORMALIZE_EPSILON then
      assert v.x * (1.0 / m) * m == v.x && v.y * (1.0 / m) * m == v.y;
      Vec2(v.x * (1.0 / m), v.y * (1.0 / m))
    else ZERO2
  }

  /**
   * For a vector in the plane (z == 0) the flattened normalisation has length
   * 1 and points along the vector.
   */
  lemma Normalized3FlatIsUnit(v: Vec3, m: real)
    requires IsMagnitude3(v, m) && v.z == 0.0 && m > NORMALIZE_EPSILON
    ensures IsMagnitude(Normalized3Flat(v, m), 1.0)
    ensures Dot2(Normalized3Flat(v, m), Flatten(v)) == m
  {
    assert IsMagnitude(Flatten(v), m);
    assert Normalized3Flat(v, m) == Scale2(Flatten(v), 1.0 / m);
    ScaleMagnitude(Flatten(v), m, 1.0 / m);
    ScaledDot(Flatten(v), m, 1.0 / m);
  }

  /** Scaling by a non-negative factor scales the magnitude by that factor. */
  lemma ScaleMagnitude(v: Vec2, m: real, k: real)
    requires IsMagnitude(v, m) && k >= 0.0
    ensures IsMagnitude(Scale2(v, k), k * m)
  {
    calc {
      Dot2(Scale2(v, k), Scale2(v, k));
      (v.x * k) * (v.x * k) + (v.y * k) * (v.y * k);
      { assert (v.x * k) * (v.x * k) == k * k * (v.x * v.x);
        assert (v.y * k) * (v.y * k) == k * k * (v.y * v.y); }
      k * k * (v.x * v.x + v.y * v.y);
      k * k * (m * m);
      (k * m) * (k * m);
    }
    assert k * m >= 0.0 by { MulNonNegative(k, m); }
  }

  /** The scaled vector's projection on the original is k * m^2. */
  lemma ScaledDot(v: Vec2, m: real, k: real)
    requires IsMagnitude(v, m)
    ensures Dot2(Scale2(v, k), v) == k * (m * m)
  {
    assert (v.x * k) * v.x == k * (v.x * v.x);
    assert (v.y * k) * v.y == k * (v.y * v.y);
  }

  lemma DotScale(a: Vec2, k: real, b: Vec2)
    ensures Dot2(Scale2(a, k), b) == k * Dot2(a, b)
  {
    assert (a.x * k) * b.x == k * (a.x * b.x);
    assert (a.y * k) * b.y == k * (a.y * b.y);
  }

  lemma MulNonNegative(a: real, b: real)
    requires a >= 0.0 && b >= 0.0
    ensures a * b >= 0.0
  {
  }

  lemma ScaleScale(v: Vec2, a: real, b: real)
    ensures Scale2(Scale2(v, a), b) == Scale2(v, a * b)
  {
    assert (v.x * a) * b == v.x * (a * b);
    assert (v.y * a) * b == v.y * (a * b);
  }

  /** Mathf.Sign: 1 for zero and positive values, -1 for negative ones. */
  function Sign(x: real): (r: real)
    ensures r == 1.0 || r == -1.0
    ensures r == 1.0 <==> x >= 0.0
  {
    if x >= 0.0 then 1.0 else -1.0
  }

  function Abs(x: real): (r: real)
    ensures r >= 0.0 && (r == x || r == -x)
  {
    if x < 0.0 then -x else x
  }
}
