/**
 * Unity's Vector2, Vector3, Vector4 and Quaternion as values over `real`,
 * with the component-wise operators and the clamped linear interpolation the modelled code uses.
 * Floating-point rounding is not modelled.
 */
module Vectors {

  datatype Vector2 = Vector2(x: real, y: real)
  datatype Vector3 = Vector3(x: real, y: real, z: real)
  datatype Vector4 = Vector4(x: real, y: real, z: real, w: real)
  datatype Quaternion = Quaternion(x: real, y: real, z: real, w: real)

  const Vector2Zero := Vector2(0.0, 0.0)
  const Vector3Zero := Vector3(0.0, 0.0, 0.0)
  const Vector4Zero := Vector4(0.0, 0.0, 0.0, 0.0)

  /** Mathf.Clamp01. */
  function Clamp01(t: real): (r: real)
    ensures 0.0 <= r <= 1.0
    ensures 0.0 <= t <= 1.0 ==> r == t
    ensures t <= 0.0 ==> r == 0.0
    ensures 1.0 <= t ==> r == 1.0
  {
    if t < 0.0 then 0.0 else if t > 1.0 then 1.0 else t
  }

  /** Mathf.Lerp: the interpolation parameter is clamped to [0, 1] first. */
  function Lerp(a: real, b: real, t: real): (r: real)
    ensures a <= b ==> a <= r <= b
    ensures b <= a ==> b <= r <= a
  {
    LerpWithin(a, b, Clamp01(t));
    Mix(a, b, Clamp01(t))
  }

  /** The unclamped blend `a + (b - a) * c` that Mathf.Lerp returns. */
  function Mix(a: real, b: real, c: real): real
  {
    a + (b - a) * c
  }

  lemma MulNonneg(x: real, y: real)
    requires 0.0 <= x && 0.0 <= y
    ensures 0.0 <= x * y
  {
  }

  /** A clamped interpolation parameter keeps `a + (b - a) * c` between `a` and `b`. */
  lemma LerpWithin(a: real, b: real, c: real)
    requires 0.0 <= c <= 1.0
    ensures a <= b ==> a <= Mix(a, b, c) <= b
    ensures b <= a ==> b <= Mix(a, b, c) <= a
  {
    var d := b - a;
    if a <= b {
      MulNonneg(d, c);
      MulNonneg(d, 1.0 - c);
    } else {
      MulNonneg(-d, c);
      MulNonneg(-d, 1.0 - c);
    }
  }

  /** Lerp reaches its end points once the parameter is clamped there, and is constant when they agree. */
  lemma LerpEnds(a: real, b: real, t: real)
    ensures t <= 0.0 ==> Lerp(a, b, t) == a
    ensures 1.0 <= t ==> Lerp(a, b, t) == b
    ensures Lerp(a, a, t) == a
  {
  }

  /** Vector3.Lerp, clamped like Mathf.Lerp. */
  function Lerp3(a: Vector3, b: Vector3, t: real): Vector3
  {
    Vector3(Lerp(a.x, b.x, t), Lerp(a.y, b.y, t), Lerp(a.z, b.z, t))
  }

  /**
   * Real multiplication and division behind names of their own, so that a product of two
   * expressions is matched as one term; the solver's arithmetic does not rewrite inside
   * nonlinear products.
   */
  function Times(a: real, k: real): real { a * k }
  function Quot(a: real, k: real): real requires k != 0.0 { a / k }

  /** A quotient of two positive reals, the first below the second, lies strictly inside (0, 1). */
  lemma QuotBelowOne(a: real, n: real)
    requires 0.0 < a < n
    ensures 0.0 < Quot(a, n) < 1.0
  {
    var q := Quot(a, n);
    assert q * n == a;
    if q >= 1.0 {
      MulNonneg(q - 1.0, n);
    } else if q <= 0.0 {
      MulNonneg(-q, n);
    }
  }

  /** Dividing by a positive real keeps the order. */
  lemma QuotMonotone(a: real, b: real, n: real)
    requires a < b && 0.0 < n
    ensures Quot(a, n) < Quot(b, n)
  {
    var qa, qb := Quot(a, n), Quot(b, n);
    assert qa * n == a && qb * n == b;
    if qb <= qa {
      MulNonneg(qa - qb, n);
    }
  }

  lemma TimesNonzero(a: real, b: real)
    requires a != 0.0 && b != 0.0
    ensures Times(a, b) != 0.0
  {
  }

  lemma QuotTimes(a: real, k: real)
    requires k != 0.0
    ensures Times(Quot(a, k), k) == a
  {
  }

  // Component-wise arithmetic used by the spring integrator.

  function Add2(a: Vector2, b: Vector2): Vector2 { Vector2(a.x + b.x, a.y + b.y) }
  function Sub2(a: Vector2, b: Vector2): Vector2 { Vector2(a.x - b.x, a.y - b.y) }
  function Scale2(a: Vector2, k: real): Vector2 { Vector2(Times(a.x, k), Times(a.y, k)) }
  function Div2(a: Vector2, k: real): Vector2 requires k != 0.0 { Vector2(Quot(a.x, k), Quot(a.y, k)) }

  function Add3(a: Vector3, b: Vector3): Vector3 { Vector3(a.x + b.x, a.y + b.y, a.z + b.z) }
  function Sub3(a: Vector3, b: Vector3): Vector3 { Vector3(a.x - b.x, a.y - b.y, a.z - b.z) }
  function Scale3(a: Vector3, k: real): Vector3 { Vector3(Times(a.x, k), Times(a.y, k), Times(a.z, k)) }
  function Div3(a: Vector3, k: real): Vector3 requires k != 0.0 { Vector3(Quot(a.x, k), Quot(a.y, k), Quot(a.z, k)) }

  function Add4(a: Vector4, b: Vector4): Vector4 { Vector4(a.x + b.x, a.y + b.y, a.z + b.z, a.w + b.w) }
  function Sub4(a: Vector4, b: Vector4): Vector4 { Vector4(a.x - b.x, a.y - b.y, a.z - b.z, a.w - b.w) }
  function Scale4(a: Vector4, k: real): Vector4 { Vector4(Times(a.x, k), Times(a.y, k), Times(a.z, k), Times(a.w, k)) }
  function Div4(a: Vector4, k: real): Vector4 requires k != 0.0 { Vector4(Quot(a.x, k), Quot(a.y, k), Quot(a.z, k), Quot(a.w, k)) }
  function Neg4(a: Vector4): Vector4 { Vector4(-a.x, -a.y, -a.z, -a.w) }

  /** Vector4.Dot. */
  function Dot4(a: Vector4, b: Vector4): real
  {
    a.x * b.x + a.y * b.y + a.z * b.z + a.w * b.w
  }

  /** Negating one argument negates the dot product. */
  lemma Dot4Neg(a: Vector4, b: Vector4)
    ensures Dot4(a, Neg4(b)) == -Dot4(a, b)
    ensures Neg4(Neg4(b)) == b
  {
  }
}
