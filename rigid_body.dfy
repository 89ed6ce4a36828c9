/**
 * The momentum-based rigid body of the ray-traced collision scene
 * (OptiX/src/CSC494/RigidBody.cpp).  Primary state is position, orientation
 * quaternion (scalar in `x`), linear and angular momentum; velocity, world
 * inverse inertia and spin are derived from it; force and torque accumulate
 * between steps.
 *
 * The value-level functions below say what one call does to the whole state;
 * the class `RigidBody` keeps the state in fields, updates it in place the
 * way the source does, and is proved to agree with those functions.
 */
module Body {
  import opened Vec
  import opened MathHelpers

  /** Standard gravity used by `ODE`, in the `-y` direction. */
  const Gravity: real := 9.80665

  /** Scale applied to the lever-arm cross product of off-centre forces and impulses. */
  const LeverScale: real := 0.01

  /** What a body is constructed with and never changes. */
  datatype Properties = Properties(mass: real, isStatic: bool, kDrag: real, inertiaBodyInv: Mat3)

  /** Everything about a body that its operations change. */
  datatype State = State(
    position: Vec3,
    quaternion: Quat,
    linearMomentum: Vec3,
    angularMomentum: Vec3,
    velocity: Vec3,
    inertiaInv: Mat3,
    spinVector: Vec3,
    force: Vec3,
    torque: Vec3,
    useGravity: bool)

  /** World-space inverse inertia `R * IbodyInv * R^T` for orientation `q`. */
  function WorldInverseInertia(q: Quat, inertiaBodyInv: Mat3): Mat3
  {
    var rotation := QuaternionToRotation(q);
    Mul(Mul(rotation, inertiaBodyInv), Transpose(rotation))
  }

  /** The derived variables agree with the primary state. */
  ghost predicate Consistent(p: Properties, s: State)
  {
    p.mass != 0.0
    && s.velocity == Div(s.linearMomentum, p.mass)
    && s.inertiaInv == WorldInverseInertia(s.quaternion, p.inertiaBodyInv)
    && s.spinVector == MulVec(s.inertiaInv, s.angularMomentum)
  }

  /** `CalculateAuxiliaryVariables`: recompute the derived variables. */
  function WithDerived(p: Properties, s: State): (r: State)
    requires p.mass != 0.0
    ensures Consistent(p, r)
    ensures r.(velocity := s.velocity, inertiaInv := s.inertiaInv, spinVector := s.spinVector) == s
  {
    var inertiaInv := WorldInverseInertia(s.quaternion, p.inertiaBodyInv);
    s.(velocity := Div(s.linearMomentum, p.mass),
       inertiaInv := inertiaInv,
       spinVector := MulVec(inertiaInv, s.angularMomentum))
  }

  /**
   * Time derivative of the orientation for spin `w`:
   * `0.5 * (-v . w, s * w + w x v)` with `s = q.x` and `v = (q.y, q.z, q.w)`.
   */
  function QuaternionDot(q: Quat, w: Vec3): Quat
  {
    var v := Vec3(q.y, q.z, q.w);
    var dv := Add(Scale(q.x, w), Cross(w, v));
    QScale(0.5, Quat(-Dot(v, w), dv.x, dv.y, dv.z))
  }

  /** The derivative is orthogonal to the quaternion, as a four-vector. */
  lemma QuaternionDotIsTangent(q: Quat, w: Vec3)
    ensures QDot(q, QuaternionDot(q, w)) == 0.0
  {
    var d := QuaternionDot(q, w);
    assert 2.0 * QDot(q, d)
        == q.x * -(q.y * w.x + q.z * w.y + q.w * w.z)
         + q.y * (q.x * w.x + (w.y * q.w - w.z * q.z))
         + q.z * (q.x * w.y + (w.z * q.y - w.x * q.w))
         + q.w * (q.x * w.z + (w.x * q.z - w.y * q.y));
  }

  /** `(a + e)^2 = a^2 + 2ae + e^2`. */
  lemma SquareOfSum(a: real, e: real)
    ensures (a + e) * (a + e) == a * a + 2.0 * a * e + e * e
  {
  }

  /** Adding an orthogonal four-vector never shortens a quaternion. */
  lemma AddOrthogonal(q: Quat, d: Quat)
    requires QDot(q, d) == 0.0
    ensures Norm2(q) <= Norm2(QAdd(q, d))
  {
    SquareOfSum(q.x, d.x);
    SquareOfSum(q.y, d.y);
    SquareOfSum(q.z, d.z);
    SquareOfSum(q.w, d.w);
    assert 0.0 <= d.x * d.x && 0.0 <= d.y * d.y && 0.0 <= d.z * d.z && 0.0 <= d.w * d.w;
  }

  /** The orientation after one Euler step, before normalisation, is non-zero. */
  lemma IntegratedQuaternionNonZero(q: Quat, w: Vec3)
    requires 0.0 < Norm2(q)
    ensures 0.0 < Norm2(QAdd(q, QuaternionDot(q, w)))
  {
    QuaternionDotIsTangent(q, w);
    AddOrthogonal(q, QuaternionDot(q, w));
  }

  /** The orientation after one step: `q + qDot`, renormalised. */
  function StepOrientation(q: Quat, w: Vec3, sqrt: real -> real): (r: Quat)
    requires IsSqrt(sqrt) && 0.0 < Norm2(q)
    ensures Norm2(r) == 1.0
    ensures exists c :: 0.0 < c && r == QScale(c, QAdd(q, QuaternionDot(q, w)))
  {
    IntegratedQuaternionNonZero(q, w);
    Normalize(QAdd(q, QuaternionDot(q, w)), sqrt)
  }

  /** The force gravity adds for one step, if the body uses gravity. */
  function GravityForce(p: Properties, s: State): Vec3
  {
    if s.useGravity then Vec3(0.0, p.mass * -Gravity, 0.0) else Zero
  }

  /** The force a step integrates: the accumulated force, gravity, and drag `-kDrag L`. */
  function AppliedForce(p: Properties, s: State): Vec3
  {
    Sub(Add(s.force, GravityForce(p, s)), Scale(p.kDrag, s.linearMomentum))
  }

  /** The torque a step integrates: the accumulated torque and drag `-kDrag A`. */
  function AppliedTorque(p: Properties, s: State): Vec3
  {
    Sub(s.torque, Scale(p.kDrag, s.angularMomentum))
  }

  /**
   * The primary state after one step, before the derived variables are
   * recomputed: the position moves by the velocity held before the step,
   * the orientation is integrated and renormalised, and the momenta take
   * the applied force and torque times `dt`.
   */
  function Integrated(p: Properties, s: State, dt: real, sqrt: real -> real): (r: State)
    requires IsSqrt(sqrt) && 0.0 < Norm2(s.quaternion)
    ensures Norm2(r.quaternion) == 1.0
  {
    s.(position := Add(s.position, Scale(dt, s.velocity)),
       quaternion := StepOrientation(s.quaternion, s.spinVector, sqrt),
       linearMomentum := Add(s.linearMomentum, Scale(dt, AppliedForce(p, s))),
       angularMomentum := Add(s.angularMomentum, Scale(dt, AppliedTorque(p, s))))
  }

  /**
   * `ODE`: one explicit Euler step of length `dt`.  A static body is left
   * exactly as it is (its accumulators included).  Otherwise the state is
   * integrated, the derived variables are recomputed from the new state,
   * and the force and torque accumulators are cleared.
   */
  function Stepped(p: Properties, s: State, dt: real, sqrt: real -> real): (r: State)
    requires IsSqrt(sqrt) && p.mass != 0.0 && 0.0 < Norm2(s.quaternion)
    ensures p.isStatic ==> r == s
    ensures !p.isStatic ==> Norm2(r.quaternion) == 1.0 && Consistent(p, r)
  {
    if p.isStatic then s
    else WithDerived(p, Integrated(p, s, dt, sqrt)).(force := Zero, torque := Zero)
  }

  /** `AddForce`. */
  function ForceAdded(s: State, f: Vec3): State { s.(force := Add(s.force, f)) }

  /** `AddTorque`. */
  function TorqueAdded(s: State, t: Vec3): State { s.(torque := Add(s.torque, t)) }

  /** The torque of `f` applied at `at`, with the lever-arm scale. */
  function LeverTorque(s: State, f: Vec3, at: Vec3): Vec3
  {
    Scale(LeverScale, Cross(Sub(at, s.position), f))
  }

  /** `AddForceAtPosition`. */
  function ForceAddedAt(s: State, f: Vec3, at: Vec3): State
  {
    s.(force := Add(s.force, f), torque := Add(s.torque, LeverTorque(s, f, at)))
  }

  /** `AddImpulseAtPosition`: the momenta change at once, nothing else does. */
  function ImpulseAddedAt(s: State, i: Vec3, at: Vec3): State
  {
    s.(linearMomentum := Add(s.linearMomentum, i),
       angularMomentum := Add(s.angularMomentum, LeverTorque(s, i, at)))
  }

  /** `Star`: the matrix of the cross product with `v`, row major. */
  function Star(v: Vec3): Mat3
  {
    Mat3(0.0, -v.z, v.y, v.z, 0.0, -v.x, -v.y, v.x, 0.0)
  }

  /** Multiplying by `Star(v)` is taking the cross product with `v`. */
  lemma StarIsCross(v: Vec3, u: Vec3)
    ensures MulVec(Star(v), u) == Cross(v, u)
  {
    assert 0.0 * u.x == 0.0 && 0.0 * u.y == 0.0 && 0.0 * u.z == 0.0;
  }

  /**
   * The 4x4 row-major matrix `UpdateTransformNode` hands to the transform
   * node: the rotation in the upper-left block, the position in the last
   * column, and `(0, 0, 0, 1)` as the bottom row.
   */
  function TransformMatrix(q: Quat, position: Vec3): (t: seq<real>)
    ensures |t| == 16
  {
    var r := QuaternionToRotation(q);
    [r.m0, r.m1, r.m2, position.x,
     r.m3, r.m4, r.m5, position.y,
     r.m6, r.m7, r.m8, position.z,
     0.0, 0.0, 0.0, 1.0]
  }

  /** Row `i` of a row-major 4x4 matrix applied to the homogeneous point `(v, h)`. */
  function RowTimes(t: seq<real>, i: nat, v: Vec3, h: real): real
    requires |t| == 16 && i < 4
  {
    t[4 * i] * v.x + t[4 * i + 1] * v.y + t[4 * i + 2] * v.z + t[4 * i + 3] * h
  }

  /**
   * The pushed matrix maps a body-space point `v` to `R v + position`, a
   * direction to `R v`, and keeps the homogeneous coordinate.
   */
  lemma TransformPlacesBody(q: Quat, position: Vec3, v: Vec3, h: real)
    ensures var t := TransformMatrix(q, position);
      Vec3(RowTimes(t, 0, v, h), RowTimes(t, 1, v, h), RowTimes(t, 2, v, h))
        == Add(MulVec(QuaternionToRotation(q), v), Scale(h, position))
      && RowTimes(t, 3, v, h) == h
  {
  }

  /** A static body's step changes nothing, not even the accumulators. */
  lemma StaticStepIsNoOp(p: Properties, s: State, dt: real, sqrt: real -> real)
    requires IsSqrt(sqrt) && p.mass != 0.0 && 0.0 < Norm2(s.quaternion)
    requires p.isStatic
    ensures Stepped(p, s, dt, sqrt) == s
  {
  }

  /**
   * What a non-static step does to each field: the position moves by the
   * velocity held before the step, the momenta take the applied force and
   * torque times `dt`, the velocity is the new momentum over the mass, the
   * accumulators are cleared and the gravity flag is kept.
   */
  lemma StepFields(p: Properties, s: State, dt: real, sqrt: real -> real)
    requires IsSqrt(sqrt) && p.mass != 0.0 && 0.0 < Norm2(s.quaternion)
    requires !p.isStatic
    ensures var r := Stepped(p, s, dt, sqrt);
      r.position == Add(s.position, Scale(dt, s.velocity))
      && r.linearMomentum == Add(s.linearMomentum, Scale(dt, AppliedForce(p, s)))
      && r.angularMomentum == Add(s.angularMomentum, Scale(dt, AppliedTorque(p, s)))
      && r.velocity == Div(r.linearMomentum, p.mass)
      && r.force == Zero && r.torque == Zero && r.useGravity == s.useGravity
  {
  }

  /** `v` after drag `k` has acted on it for `dt`: `v - dt (k v)`. */
  function Damped(v: Vec3, k: real, dt: real): Vec3
  {
    Sub(v, Scale(dt, Scale(k, v)))
  }

  /** With only drag acting, integrating a momentum damps it. */
  lemma DragOnlyMomenta(p: Properties, s: State, dt: real)
    requires !s.useGravity && s.force == Zero && s.torque == Zero
    ensures Add(s.linearMomentum, Scale(dt, AppliedForce(p, s))) == Damped(s.linearMomentum, p.kDrag, dt)
    ensures Add(s.angularMomentum, Scale(dt, AppliedTorque(p, s))) == Damped(s.angularMomentum, p.kDrag, dt)
  {
    ScaleSub(dt, Zero, Scale(p.kDrag, s.linearMomentum));
    ScaleSub(dt, Zero, Scale(p.kDrag, s.angularMomentum));
  }

  /** With nothing acting at all, integrating leaves both momenta as they are. */
  lemma FreeMomenta(p: Properties, s: State, dt: real)
    requires p.kDrag == 0.0 && !s.useGravity && s.force == Zero && s.torque == Zero
    ensures Add(s.linearMomentum, Scale(dt, AppliedForce(p, s))) == s.linearMomentum
    ensures Add(s.angularMomentum, Scale(dt, AppliedTorque(p, s))) == s.angularMomentum
  {
    NothingApplied(p, s);
    AddNothing(s.linearMomentum, dt);
    AddNothing(s.angularMomentum, dt);
  }

  lemma NothingApplied(p: Properties, s: State)
    requires p.kDrag == 0.0 && !s.useGravity && s.force == Zero && s.torque == Zero
    ensures AppliedForce(p, s) == Zero && AppliedTorque(p, s) == Zero
  {
  }

  lemma AddNothing(v: Vec3, dt: real)
    ensures Add(v, Scale(dt, Zero)) == v
  {
  }

  /**
   * A free body (no accumulated force or torque, no gravity, no drag) keeps
   * its momenta, and so its velocity, across a step.
   */
  lemma FreeBodyKeepsMomentum(p: Properties, s: State, dt: real, sqrt: real -> real)
    requires IsSqrt(sqrt) && Consistent(p, s) && 0.0 < Norm2(s.quaternion)
    requires p.kDrag == 0.0 && !s.useGravity && s.force == Zero && s.torque == Zero
    ensures var r := Stepped(p, s, dt, sqrt);
      r.linearMomentum == s.linearMomentum && r.angularMomentum == s.angularMomentum
      && r.velocity == s.velocity
  {
    if !p.isStatic {
      StepFields(p, s, dt, sqrt);
      FreeMomenta(p, s, dt);
    }
  }

  /**
   * With nothing accumulated and no gravity, a step only damps both momenta,
   * `L' = L - dt (kDrag L)`: drag acts on momentum, once per step.
   */
  lemma DragOnlyDampsMomenta(p: Properties, s: State, dt: real, sqrt: real -> real)
    requires IsSqrt(sqrt) && p.mass != 0.0 && 0.0 < Norm2(s.quaternion)
    requires !p.isStatic && !s.useGravity && s.force == Zero && s.torque == Zero
    ensures var r := Stepped(p, s, dt, sqrt);
      r.linearMomentum == Damped(s.linearMomentum, p.kDrag, dt)
      && r.angularMomentum == Damped(s.angularMomentum, p.kDrag, dt)
  {
    StepFields(p, s, dt, sqrt);
    DragOnlyMomenta(p, s, dt);
  }

  /**
   * The new orientation is the integrated quaternion `q + qDot` rescaled by
   * a positive factor to unit length.
   */
  lemma StepNormalisesOrientation(p: Properties, s: State, dt: real, sqrt: real -> real)
    requires IsSqrt(sqrt) && p.mass != 0.0 && 0.0 < Norm2(s.quaternion)
    requires !p.isStatic
    ensures var r := Stepped(p, s, dt, sqrt);
      Norm2(r.quaternion) == 1.0
      && exists c :: 0.0 < c && r.quaternion == QScale(c, QAdd(s.quaternion, QuaternionDot(s.quaternion, s.spinVector)))
  {
  }

  /** `Mul` by the identity, on both sides. */
  lemma MulIdentity(m: Mat3)
    ensures Mul(m, Identity) == m && Mul(Identity, m) == m
  {
  }

  /**
   * For a body with identity body-space inverse inertia (the scenes' bodies)
   * and a unit orientation, the consistent derived state has world inverse
   * inertia `I` and spin equal to the angular momentum.
   */
  lemma IsotropicSpinIsAngularMomentum(p: Properties, s: State)
    requires Consistent(p, s) && p.inertiaBodyInv == Identity && Norm2(s.quaternion) == 1.0
    ensures s.inertiaInv == Identity && s.spinVector == s.angularMomentum
  {
    var rotation := QuaternionToRotation(s.quaternion);
    MulIdentity(rotation);
    RotationRowsOrthonormal(s.quaternion);
  }

  /** Two `AddForce` calls are one call with the sum, in either order. */
  lemma ForcesAccumulate(s: State, f: Vec3, g: Vec3)
    ensures ForceAdded(ForceAdded(s, f), g) == ForceAdded(s, Add(f, g))
    ensures ForceAdded(ForceAdded(s, f), g) == ForceAdded(ForceAdded(s, g), f)
  {
  }

  /** Two `AddTorque` calls are one call with the sum, in either order. */
  lemma TorquesAccumulate(s: State, t: Vec3, u: Vec3)
    ensures TorqueAdded(TorqueAdded(s, t), u) == TorqueAdded(s, Add(t, u))
    ensures TorqueAdded(TorqueAdded(s, t), u) == TorqueAdded(TorqueAdded(s, u), t)
  {
  }

  /** A force applied at the body's own position adds no torque. */
  lemma ForceAtCentreIsPlainForce(s: State, f: Vec3)
    ensures ForceAddedAt(s, f, s.position) == ForceAdded(s, f)
  {
    assert Sub(s.position, s.position) == Zero;
  }

  /**
   * An impulse changes nothing but the momenta: the velocity and spin it
   * causes appear only after the next step recomputes them.  After that step
   * the linear momentum differs from the step without the impulse by the
   * impulse damped by that step's drag.
   */
  lemma ImpulseShowsAfterNextStep(p: Properties, s: State, i: Vec3, at: Vec3, dt: real, sqrt: real -> real)
    requires IsSqrt(sqrt) && p.mass != 0.0 && 0.0 < Norm2(s.quaternion)
    requires !p.isStatic
    ensures var hit := ImpulseAddedAt(s, i, at);
      hit.velocity == s.velocity && hit.spinVector == s.spinVector
      && hit.force == s.force && hit.torque == s.torque && hit.position == s.position
    ensures Stepped(p, ImpulseAddedAt(s, i, at), dt, sqrt).linearMomentum
         == Add(Stepped(p, s, dt, sqrt).linearMomentum, Damped(i, p.kDrag, dt))
  {
    var hit := ImpulseAddedAt(s, i, at);
    StepFields(p, s, dt, sqrt);
    StepFields(p, hit, dt, sqrt);
    KickedMomentum(p, s, hit, i, dt);
  }

  /** Integrating a momentum kicked by `i` adds `i`, damped, to the result. */
  lemma KickedMomentum(p: Properties, s: State, hit: State, i: Vec3, dt: real)
    requires hit.linearMomentum == Add(s.linearMomentum, i)
    requires hit.force == s.force && hit.useGravity == s.useGravity
    ensures Add(hit.linearMomentum, Scale(dt, AppliedForce(p, hit)))
         == Add(Add(s.linearMomentum, Scale(dt, AppliedForce(p, s))), Damped(i, p.kDrag, dt))
  {
    var f := Add(s.force, GravityForce(p, s));
    var a := AppliedForce(p, s);
    assert a == Sub(f, Scale(p.kDrag, s.linearMomentum));
    ScaleAdd(p.kDrag, s.linearMomentum, i);
    assert AppliedForce(p, hit) == Sub(a, Scale(p.kDrag, i));
    ScaleSub(dt, a, Scale(p.kDrag, i));
  }

  /**
   * The falling-box scenario: a unit mass at rest with no gravity and no
   * drag, after `AddForce((0, 0, -8))`, steps for 0.1 to momentum and
   * velocity `(0, 0, -0.8)` with its accumulators cleared, and its position
   * unchanged, because the step moved it by the velocity from before.
   */
  lemma PushedBodyScenario(p: Properties, s: State, sqrt: real -> real)
    requires IsSqrt(sqrt) && 0.0 < Norm2(s.quaternion)
    requires p.mass == 1.0 && p.kDrag == 0.0 && !p.isStatic && !s.useGravity
    requires s.linearMomentum == Zero && s.velocity == Zero && s.force == Vec3(0.0, 0.0, -8.0)
    ensures var r := Stepped(p, s, 0.1, sqrt);
      r.linearMomentum == Vec3(0.0, 0.0, -0.8) && r.velocity == Vec3(0.0, 0.0, -0.8)
      && r.force == Zero && r.position == s.position
  {
    StepFields(p, s, 0.1, sqrt);
    PushedMomentum(p, s);
  }

  lemma PushedMomentum(p: Properties, s: State)
    requires p.mass == 1.0 && p.kDrag == 0.0 && !s.useGravity
    requires s.linearMomentum == Zero && s.velocity == Zero && s.force == Vec3(0.0, 0.0, -8.0)
    ensures Add(s.linearMomentum, Scale(0.1, AppliedForce(p, s))) == Vec3(0.0, 0.0, -0.8)
    ensures Div(Vec3(0.0, 0.0, -0.8), p.mass) == Vec3(0.0, 0.0, -0.8)
    ensures Add(s.position, Scale(0.1, s.velocity)) == s.position
  {
    assert AppliedForce(p, s) == Vec3(0.0, 0.0, -8.0);
  }

  /** Adding gravity and then drag to the accumulators gives the applied force and torque. */
  lemma AccumulatedDrag(p: Properties, s: State, f: Vec3)
    requires f == Add(s.force, GravityForce(p, s))
    ensures Add(f, Scale(p.kDrag, Neg(s.linearMomentum))) == AppliedForce(p, s)
    ensures Add(s.torque, Scale(p.kDrag, Neg(s.angularMomentum))) == AppliedTorque(p, s)
  {
  }

  /** Recomputing the derived variables does not look at the accumulators. */
  lemma DerivedIgnoresAccumulators(p: Properties, s: State, f: Vec3, t: Vec3)
    requires p.mass != 0.0
    ensures WithDerived(p, s.(force := f, torque := t)).(force := Zero, torque := Zero)
         == WithDerived(p, s).(force := Zero, torque := Zero)
  {
  }

  /**
   * A body as `RigidBody.cpp` keeps it.  The header that declares its fields
   * is not part of this model; the fields are the ones the methods use.
   */
  class RigidBody {
    const id: int
    const mass: real
    const isStatic: bool
    const kDrag: real
    const inertiaBodyInv: Mat3
    var useGravity: bool
    var position: Vec3
    var quaternion: Quat
    var linearMomentum: Vec3
    var angularMomentum: Vec3
    var velocity: Vec3
    var inertiaInv: Mat3
    var spinVector: Vec3
    var force: Vec3
    var torque: Vec3
    /** The last matrix handed to the transform node (an external call). */
    ghost var transform: seq<real>

    function Props(): Properties
    {
      Properties(mass, isStatic, kDrag, inertiaBodyInv)
    }

    function Snapshot(): State
      reads this
    {
      State(position, quaternion, linearMomentum, angularMomentum,
            velocity, inertiaInv, spinVector, force, torque, useGravity)
    }

    /**
     * The transform node after a step from one that held `before`: a static
     * body keeps it, a moving one holds the matrix of its pose.
     */
    ghost predicate Placed(before: seq<real>)
      reads this
    {
      transform == if isStatic then before else TransformMatrix(quaternion, position)
    }

    /** Non-zero mass and a unit orientation. */
    ghost predicate Valid()
      reads this
    {
      mass != 0.0 && Norm2(quaternion) == 1.0
    }

    /**
     * A body at rest at `position` with the identity orientation, and its
     * derived variables computed from that state.
     */
    constructor (id: int, position: Vec3, mass: real, isStatic: bool, useGravity: bool,
                 kDrag: real, inertiaBodyInv: Mat3)
      requires mass != 0.0
      ensures Valid() && Consistent(Props(), Snapshot())
      ensures this.id == id && this.mass == mass && this.isStatic == isStatic
      ensures this.kDrag == kDrag && this.inertiaBodyInv == inertiaBodyInv
      ensures this.position == position && this.useGravity == useGravity
      ensures quaternion == Quat(1.0, 0.0, 0.0, 0.0)
      ensures linearMomentum == Zero && angularMomentum == Zero && force == Zero && torque == Zero
      ensures transform == []
    {
      this.id := id;
      this.mass := mass;
      this.isStatic := isStatic;
      this.kDrag := kDrag;
      this.inertiaBodyInv := inertiaBodyInv;
      this.useGravity := useGravity;
      this.position := position;
      quaternion := Quat(1.0, 0.0, 0.0, 0.0);
      linearMomentum := Zero;
      angularMomentum := Zero;
      force := Zero;
      torque := Zero;
      var rotation := QuaternionToRotation(Quat(1.0, 0.0, 0.0, 0.0));
      velocity := Div(Zero, mass);
      var worldInertiaInv := Mul(Mul(rotation, inertiaBodyInv), Transpose(rotation));
      inertiaInv := worldInertiaInv;
      spinVector := MulVec(worldInertiaInv, Zero);
      transform := [];
    }

    /** `CalculateAuxiliaryVariables`. */
    method CalculateAuxiliaryVariables()
      requires mass != 0.0
      modifies this
      ensures Snapshot() == WithDerived(Props(), old(Snapshot()))
      ensures transform == old(transform)
    {
      var rotation := QuaternionToRotation(quaternion);
      velocity := Div(linearMomentum, mass);
      inertiaInv := Mul(Mul(rotation, inertiaBodyInv), Transpose(rotation));
      spinVector := MulVec(inertiaInv, angularMomentum);
    }

    /** `UpdateTransformNode`: hand the current pose to the transform node. */
    method UpdateTransformNode()
      modifies this`transform
      ensures transform == TransformMatrix(quaternion, position)
    {
      var rotation := QuaternionToRotation(quaternion);
      transform := [rotation.m0, rotation.m1, rotation.m2, position.x,
                    rotation.m3, rotation.m4, rotation.m5, position.y,
                    rotation.m6, rotation.m7, rotation.m8, position.z,
                    0.0, 0.0, 0.0, 1.0];
    }

    /** `ODE`: one Euler step, in place. */
    method ODE(deltaTime: real, sqrt: real -> real)
      requires Valid() && IsSqrt(sqrt)
      modifies this
      ensures Valid()
      ensures Snapshot() == Stepped(Props(), old(Snapshot()), deltaTime, sqrt)
      ensures isStatic ==> transform == old(transform)
      ensures !isStatic ==> transform == TransformMatrix(quaternion, position)
    {
      if isStatic {
        return;
      }
      ghost var s, p := Snapshot(), Props();
      if useGravity {
        force := Add(force, Vec3(0.0, mass * -Gravity, 0.0));
      }
      AccumulatedDrag(p, s, force);
      force := Add(force, Scale(kDrag, Neg(linearMomentum)));
      torque := Add(torque, Scale(kDrag, Neg(angularMomentum)));

      var positionDot := Scale(deltaTime, velocity);
      var linearMomentumDot := Scale(deltaTime, force);
      var angularMomentumDot := Scale(deltaTime, torque);
      var quaternionDot := QuaternionDot(quaternion, spinVector);

      position := Add(position, positionDot);
      IntegratedQuaternionNonZero(quaternion, spinVector);
      quaternion := QAdd(quaternion, quaternionDot);
      quaternion := Normalize(quaternion, sqrt);
      linearMomentum := Add(linearMomentum, linearMomentumDot);
      angularMomentum := Add(angularMomentum, angularMomentumDot);
      ghost var integrated := Integrated(p, s, deltaTime, sqrt);
      assert Snapshot() == integrated.(force := force, torque := torque);

      UpdateTransformNode();
      CalculateAuxiliaryVariables();

      force := Zero;
      torque := Zero;
      DerivedIgnoresAccumulators(p, integrated, AppliedForce(p, s), AppliedTorque(p, s));
    }

    /** `EulerStep`: the step the scene calls, which is `ODE`. */
    method EulerStep(deltaTime: real, sqrt: real -> real)
      requires Valid() && IsSqrt(sqrt)
      modifies this
      ensures Valid()
      ensures Snapshot() == Stepped(Props(), old(Snapshot()), deltaTime, sqrt)
      ensures isStatic ==> transform == old(transform)
      ensures !isStatic ==> transform == TransformMatrix(quaternion, position)
      ensures Placed(old(transform))
    {
      ODE(deltaTime, sqrt);
    }

    /** `AddForce`. */
    method AddForce(f: Vec3)
      modifies this`force
      ensures Snapshot() == ForceAdded(old(Snapshot()), f)
    {
      force := Add(force, f);
    }

    /** `AddTorque`. */
    method AddTorque(t: Vec3)
      modifies this`torque
      ensures Snapshot() == TorqueAdded(old(Snapshot()), t)
    {
      torque := Add(torque, t);
    }

    /** `AddForceAtPosition`. */
    method AddForceAtPosition(f: Vec3, worldPosition: Vec3)
      modifies this`force, this`torque
      ensures Snapshot() == ForceAddedAt(old(Snapshot()), f, worldPosition)
    {
      force := Add(force, f);
      torque := Add(torque, Scale(LeverScale, Cross(Sub(worldPosition, position), f)));
    }

    /** `AddImpulseAtPosition`. */
    method AddImpulseAtPosition(impulse: Vec3, worldPosition: Vec3)
      modifies this`linearMomentum, this`angularMomentum
      ensures Snapshot() == ImpulseAddedAt(old(Snapshot()), impulse, worldPosition)
    {
      linearMomentum := Add(linearMomentum, impulse);
      angularMomentum := Add(angularMomentum, Scale(LeverScale, Cross(Sub(worldPosition, position), impulse)));
    }

    /** `UseGravity`. */
    method UseGravity(useGravity: bool)
      modifies this`useGravity
      ensures Snapshot() == old(Snapshot()).(useGravity := useGravity)
    {
      this.useGravity := useGravity;
    }

    /** `GetVelocity`: the derived velocity as of the last step. */
    method GetVelocity() returns (v: Vec3)
      ensures v == velocity
    {
      v := velocity;
    }

    /** `GetSpin`: the derived spin as of the last step. */
    method GetSpin() returns (w: Vec3)
      ensures w == spinVector
    {
      w := spinVector;
    }
  }
}
