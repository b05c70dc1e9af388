/**
 * Klak's exponential interpolation (ETween): each frame moves a value toward its target by the
 * factor `exp(-omega * dt)`. `Mathf.Exp`, `Mathf.DeltaAngle` and `Quaternion.Lerp` are engine calls
 * and are passed in as functions; `Time.deltaTime` is the parameter `dt`.
 */
module ETween {
  import opened Vectors

  /** ETween.Step on floats: `Mathf.Lerp(target, current, exp(-omega * dt))`. */
  function Step(current: real, target: real, omega: real, dt: real, exp: real -> real): (r: real)
    ensures target <= current ==> target <= r <= current
    ensures current <= target ==> current <= r <= target
  {
    Lerp(target, current, exp(-omega * dt))
  }

  /** A value already on its target stays there. */
  lemma StepFixedPoint(x: real, omega: real, dt: real, exp: real -> real)
    ensures Step(x, x, omega, dt, exp) == x
  {
    LerpEnds(x, x, exp(-omega * dt));
  }

  /** With no time elapsed (and `exp(0) == 1`), the value does not move. */
  lemma StepNoTime(current: real, target: real, omega: real, exp: real -> real)
    requires exp(0.0) == 1.0
    ensures Step(current, target, omega, 0.0, exp) == current
  {
    assert -omega * 0.0 == 0.0;
    LerpEnds(target, current, 1.0);
  }

  /**
   * At speed 0 (and `exp(0) == 1`) nothing is eased: a value stays where it is, and an angle is
   * moved back by the full shortest difference, onto the angle `current` names.
   */
  lemma StepZeroSpeed(current: real, target: real, dt: real, exp: real -> real, deltaAngle: (real, real) -> real)
    requires exp(0.0) == 1.0
    ensures Step(current, target, 0.0, dt, exp) == current
    ensures StepAngle(current, target, 0.0, dt, exp, deltaAngle) == target - deltaAngle(current, target)
  {
    assert -0.0 * dt == 0.0;
    LerpEnds(target, current, 1.0);
  }

  /**
   * ETween.StepAngle: `target - DeltaAngle(current, target) * exp(-omega * dt)`, where
   * `deltaAngle` is Mathf.DeltaAngle, the shortest signed difference between two angles.
   */
  function StepAngle(current: real, target: real, omega: real, dt: real,
                     exp: real -> real, deltaAngle: (real, real) -> real): (r: real)
    ensures deltaAngle(current, target) == 0.0 ==> r == target
    ensures exp(-omega * dt) == 0.0 ==> r == target
    ensures exp(-omega * dt) == 1.0 ==> r == target - deltaAngle(current, target)
    ensures 0.0 <= exp(-omega * dt) <= 1.0 ==>
      var d := deltaAngle(current, target);
      (0.0 <= d ==> target - d <= r <= target) && (d <= 0.0 ==> target <= r <= target - d)
  {
    var d, e := deltaAngle(current, target), exp(-omega * dt);
    if 0.0 <= e <= 1.0 && 0.0 <= d then
      MulNonneg(d, e);
      MulNonneg(d, 1.0 - e);
      target - d * e
    else if 0.0 <= e <= 1.0 then
      MulNonneg(-d, e);
      MulNonneg(-d, 1.0 - e);
      target - d * e
    else
      target - d * e
  }

  /** ETween.Step on Vector3: `Vector3.Lerp(target, current, exp(-omega * dt))`. */
  function StepVector3(current: Vector3, target: Vector3, omega: real, dt: real, exp: real -> real): (r: Vector3)
    ensures r.x == Step(current.x, target.x, omega, dt, exp)
    ensures r.y == Step(current.y, target.y, omega, dt, exp)
    ensures r.z == Step(current.z, target.z, omega, dt, exp)
  {
    Lerp3(target, current, exp(-omega * dt))
  }

  /** A vector already on its target stays there. */
  lemma StepVector3FixedPoint(x: Vector3, omega: real, dt: real, exp: real -> real)
    ensures StepVector3(x, x, omega, dt, exp) == x
  {
    StepFixedPoint(x.x, omega, dt, exp);
    StepFixedPoint(x.y, omega, dt, exp);
    StepFixedPoint(x.z, omega, dt, exp);
  }

  /**
   * ETween.Step on quaternions: returns `target` outright when `current == target`, and otherwise
   * `Quaternion.Lerp(target, current, exp(-omega * dt))` (`qlerp`). Unity's `==` on quaternions is
   * approximate; it is modelled as exact equality.
   */
  function StepQuaternion(current: Quaternion, target: Quaternion, omega: real, dt: real,
                          exp: real -> real, qlerp: (Quaternion, Quaternion, real) -> Quaternion): (r: Quaternion)
    ensures current == target ==> r == target
    ensures current != target ==> r == qlerp(target, current, exp(-omega * dt))
  {
    if current == target then target else qlerp(target, current, exp(-omega * dt))
  }
}

/**
 * Klak's critically damped spring (DTween). One step of the implicit integrator:
 *   v' = (v - (x - target) * omega^2 * dt) / (1 + omega * dt)^2,   x' = x + v' * dt.
 * The division needs `1 + omega * dt != 0`, which holds for every non-negative omega and dt.
 */
module DTween {
  import opened Vectors
  import opened VectorMathExtension

  /** The position and velocity after one step (the C# code returns one and writes the other to `ref velocity`). */
  datatype Spring<T> = Spring(position: T, velocity: T)

  /** The step divides by `(1 + omega * dt)^2`, so that factor must not vanish. */
  predicate Solvable(omega: real, dt: real)
  {
    1.0 + omega * dt != 0.0
  }

  /** The step's divisor `n2 * n2`, with `n2 = 1 + omega * dt`. */
  function Damping(omega: real, dt: real): real
  {
    Times(1.0 + omega * dt, 1.0 + omega * dt)
  }

  lemma DampingNonzero(omega: real, dt: real)
    requires Solvable(omega, dt)
    ensures Damping(omega, dt) != 0.0
  {
    TimesNonzero(1.0 + omega * dt, 1.0 + omega * dt);
  }

  /** DTween.Step on floats: the new velocity `n1 / n2^2`, then the new position `current + velocity * dt`. */
  function StepFloat(current: real, target: real, velocity: real, omega: real, dt: real): (r: Spring<real>)
    requires Solvable(omega, dt)
    ensures Times(r.velocity, Damping(omega, dt)) == velocity - Times(current - target, omega * omega * dt)
    ensures r.position - current == Times(r.velocity, dt)
  {
    DampingNonzero(omega, dt);
    var n1 := velocity - Times(current - target, omega * omega * dt);
    var v := Quot(n1, Damping(omega, dt));
    QuotTimes(n1, Damping(omega, dt));
    Spring(current + Times(v, dt), v)
  }

  /** At rest on the target, the spring stays put. */
  lemma StepAtRest(x: real, omega: real, dt: real)
    requires Solvable(omega, dt)
    ensures StepFloat(x, x, 0.0, omega, dt) == Spring(x, 0.0)
  {
    DampingNonzero(omega, dt);
  }

  /** With no time elapsed, the velocity is kept and the position does not move. */
  lemma StepNoTime(current: real, target: real, velocity: real, omega: real)
    ensures StepFloat(current, target, velocity, omega, 0.0) == Spring(current, velocity)
  {
    assert Damping(omega, 0.0) == 1.0;
  }

  /** DTween.Step on Vector2, with the Vector2 operators. */
  function StepVector2(current: Vector2, target: Vector2, velocity: Vector2, omega: real, dt: real): Spring<Vector2>
    requires Solvable(omega, dt)
  {
    DampingNonzero(omega, dt);
    var n1 := Sub2(velocity, Scale2(Sub2(current, target), omega * omega * dt));
    var v := Div2(n1, Damping(omega, dt));
    Spring(Add2(current, Scale2(v, dt)), v)
  }

  /** The Vector2 step is the float step on each component, with the same omega and dt. */
  lemma StepVector2Componentwise(current: Vector2, target: Vector2, velocity: Vector2, omega: real, dt: real)
    requires Solvable(omega, dt)
    ensures var r := StepVector2(current, target, velocity, omega, dt);
      && Spring(r.position.x, r.velocity.x) == StepFloat(current.x, target.x, velocity.x, omega, dt)
      && Spring(r.position.y, r.velocity.y) == StepFloat(current.y, target.y, velocity.y, omega, dt)
  {
  }

  /** DTween.Step on Vector3, with the Vector3 operators. */
  function StepVector3(current: Vector3, target: Vector3, velocity: Vector3, omega: real, dt: real): Spring<Vector3>
    requires Solvable(omega, dt)
  {
    DampingNonzero(omega, dt);
    var n1 := Sub3(velocity, Scale3(Sub3(current, target), omega * omega * dt));
    var v := Div3(n1, Damping(omega, dt));
    Spring(Add3(current, Scale3(v, dt)), v)
  }

  /** The Vector3 step is the float step on each component, with the same omega and dt. */
  lemma StepVector3Componentwise(current: Vector3, target: Vector3, velocity: Vector3, omega: real, dt: real)
    requires Solvable(omega, dt)
    ensures var r := StepVector3(current, target, velocity, omega, dt);
      && Spring(r.position.x, r.velocity.x) == StepFloat(current.x, target.x, velocity.x, omega, dt)
      && Spring(r.position.y, r.velocity.y) == StepFloat(current.y, target.y, velocity.y, omega, dt)
      && Spring(r.position.z, r.velocity.z) == StepFloat(current.z, target.z, velocity.z, omega, dt)
  {
  }

  /** DTween.Step on Vector4, with the Vector4 operators. */
  function StepVector4(current: Vector4, target: Vector4, velocity: Vector4, omega: real, dt: real): Spring<Vector4>
    requires Solvable(omega, dt)
  {
    DampingNonzero(omega, dt);
    var n1 := Sub4(velocity, Scale4(Sub4(current, target), omega * omega * dt));
    var v := Div4(n1, Damping(omega, dt));
    Spring(Add4(current, Scale4(v, dt)), v)
  }

  /** The Vector4 step is the float step on each component, with the same omega and dt. */
  lemma StepVector4Componentwise(current: Vector4, target: Vector4, velocity: Vector4, omega: real, dt: real)
    requires Solvable(omega, dt)
    ensures var r := StepVector4(current, target, velocity, omega, dt);
      && Spring(r.position.x, r.velocity.x) == StepFloat(current.x, target.x, velocity.x, omega, dt)
      && Spring(r.position.y, r.velocity.y) == StepFloat(current.y, target.y, velocity.y, omega, dt)
      && Spring(r.position.z, r.velocity.z) == StepFloat(current.z, target.z, velocity.z, omega, dt)
      && Spring(r.position.w, r.velocity.w) == StepFloat(current.w, target.w, velocity.w, omega, dt)
  {
  }

  /**
   * The double-cover sign choice: `q` and `-q` are the same rotation, so the spring aims at
   * whichever of `vtarget` and `-vtarget` is closer to `vcurrent`.
   */
  function CloserTarget(vcurrent: Vector4, vtarget: Vector4): (r: Vector4)
    ensures r == vtarget || r == Neg4(vtarget)
    ensures 0.0 <= Dot4(vcurrent, r)
    ensures 0.0 <= Dot4(vcurrent, vtarget) ==> r == vtarget
  {
    Dot4Neg(vcurrent, vtarget);
    if Dot4(vcurrent, vtarget) < 0.0 then Neg4(vtarget) else vtarget
  }

  /** The rotation and the 4-vector velocity after one quaternion step. */
  datatype QuaternionSpring = QuaternionSpring(rotation: Quaternion, velocity: Vector4)

  /**
   * DTween.Step on quaternions: the Vector4 step toward the closer of the target's two
   * representatives, renormalized (`normalize` is Vector4.Normalize).
   */
  function StepQuaternion(current: Quaternion, target: Quaternion, velocity: Vector4, omega: real, dt: real,
                          normalize: Vector4 -> Vector4): (r: QuaternionSpring)
    requires Solvable(omega, dt)
    ensures var s := StepVector4(ToVector4(current), CloserTarget(ToVector4(current), ToVector4(target)), velocity, omega, dt);
      ToVector4(r.rotation) == normalize(s.position) && r.velocity == s.velocity
  {
    var vcurrent := ToVector4(current);
    var vtarget := CloserTarget(vcurrent, ToVector4(target));
    var s := StepVector4(vcurrent, vtarget, velocity, omega, dt);
    QuaternionSpring(ToNormalizedQuaternion(s.position, normalize), s.velocity)
  }

  /** Away from the tie `Dot == 0`, aiming at `q` or at `-q` gives the same step. */
  lemma StepQuaternionDoubleCover(current: Quaternion, target: Quaternion, velocity: Vector4, omega: real, dt: real,
                                  normalize: Vector4 -> Vector4)
    requires Solvable(omega, dt)
    requires Dot4(ToVector4(current), ToVector4(target)) != 0.0
    ensures StepQuaternion(current, target, velocity, omega, dt, normalize)
         == StepQuaternion(current, ToQuaternion(Neg4(ToVector4(target))), velocity, omega, dt, normalize)
  {
    var vc := ToVector4(current);
    var vt := ToVector4(target);
    Dot4Neg(vc, vt);
    assert ToVector4(ToQuaternion(Neg4(vt))) == Neg4(vt);
    assert CloserTarget(vc, vt) == CloserTarget(vc, Neg4(vt));
  }

  /** The DTween struct: a float spring with its own omega. */
  class DTweenFloat {
    var position: real
    var velocity: real
    var omega: real

    constructor (position: real, omega: real)
      ensures this.position == position && this.velocity == 0.0 && this.omega == omega
    {
      this.position := position;
      this.velocity := 0.0;
      this.omega := omega;
    }

    /** Step(target): position and velocity take the static step's results; omega is kept. */
    method Step(target: real, dt: real)
      requires Solvable(omega, dt)
      modifies this
      ensures omega == old(omega)
      ensures Spring(position, velocity) == StepFloat(old(position), target, old(velocity), old(omega), dt)
    {
      var s := StepFloat(position, target, velocity, omega, dt);
      position := s.position;
      velocity := s.velocity;
    }
  }

  /** The DTweenVector2 struct. */
  class DTweenVector2 {
    var position: Vector2
    var velocity: Vector2
    var omega: real

    constructor (position: Vector2, omega: real)
      ensures this.position == position && this.velocity == Vector2Zero && this.omega == omega
    {
      this.position := position;
      this.velocity := Vector2Zero;
      this.omega := omega;
    }

    method Step(target: Vector2, dt: real)
      requires Solvable(omega, dt)
      modifies this
      ensures omega == old(omega)
      ensures Spring(position, velocity) == StepVector2(old(position), target, old(velocity), old(omega), dt)
    {
      var s := StepVector2(position, target, velocity, omega, dt);
      position := s.position;
      velocity := s.velocity;
    }
  }

  /** The DTweenVector3 struct. */
  class DTweenVector3 {
    var position: Vector3
    var velocity: Vector3
    var omega: real

    constructor (position: Vector3, omega: real)
      ensures this.position == position && this.velocity == Vector3Zero && this.omega == omega
    {
      this.position := position;
      this.velocity := Vector3Zero;
      this.omega := omega;
    }

    method Step(target: Vector3, dt: real)
      requires Solvable(omega, dt)
      modifies this
      ensures omega == old(omega)
      ensures Spring(position, velocity) == StepVector3(old(position), target, old(velocity), old(omega), dt)
    {
      var s := StepVector3(position, target, velocity, omega, dt);
      position := s.position;
      velocity := s.velocity;
    }
  }

  /** The DTweenQuaternion struct. */
  class DTweenQuaternion {
    var rotation: Quaternion
    var velocity: Vector4
    var omega: real

    constructor (rotation: Quaternion, omega: real)
      ensures this.rotation == rotation && this.velocity == Vector4Zero && this.omega == omega
    {
      this.rotation := rotation;
      this.velocity := Vector4Zero;
      this.omega := omega;
    }

    method Step(target: Quaternion, dt: real, normalize: Vector4 -> Vector4)
      requires Solvable(omega, dt)
      modifies this
      ensures omega == old(omega)
      ensures QuaternionSpring(rotation, velocity) == StepQuaternion(old(rotation), target, old(velocity), old(omega), dt, normalize)
    {
      var s := StepQuaternion(rotation, target, velocity, omega, dt, normalize);
      rotation := s.rotation;
      velocity := s.velocity;
    }
  }
}
