/**
 * The earlier point-mass body (OptiX/SDK/CSC494/RigidBody.h and
 * RigidBody.cpp): position and velocity integrated by explicit Euler from
 * an accumulated force, followed by a multiplicative drag on the velocity.
 */
module PointMass {
  import opened Vec

  /** The coefficient of drag every body is created with. */
  const DefaultDrag: real := 0.1

  /** What a step changes. */
  datatype State = State(position: Vec3, velocity: Vec3, forceAccumulation: Vec3)

  /**
   * The integration part of `EulerStep`: the position moves by the velocity
   * held before the step, the velocity takes the acceleration `F / m` times
   * `dt`, and the accumulated force is cleared.
   */
  function Integrated(mass: real, s: State, dt: real): State
    requires mass != 0.0
  {
    State(Add(s.position, Scale(dt, s.velocity)),
          Add(s.velocity, Scale(dt, Div(s.forceAccumulation, mass))),
          Zero)
  }

  /** `ApplyDrag`: `velocity -= velocity * kDrag`. */
  function Dragged(kDrag: real, s: State): State
  {
    s.(velocity := Sub(s.velocity, Scale(kDrag, s.velocity)))
  }

  /** `EulerStep`: integrate, then apply drag. */
  function Stepped(mass: real, kDrag: real, s: State, dt: real): State
    requires mass != 0.0
  {
    Dragged(kDrag, Integrated(mass, s, dt))
  }

  /** `v - k v` is `(1 - k) v`. */
  lemma DragScales(k: real, v: Vec3)
    ensures Sub(v, Scale(k, v)) == Scale(1.0 - k, v)
  {
    assert v.x - k * v.x == (1.0 - k) * v.x;
    assert v.y - k * v.y == (1.0 - k) * v.y;
    assert v.z - k * v.z == (1.0 - k) * v.z;
  }

  /**
   * One step, field by field: the position advances by the old velocity,
   * the velocity is `(1 - kDrag) (v + F / m dt)` (drag after integration),
   * and the accumulated force is zero.
   */
  lemma StepFields(mass: real, kDrag: real, s: State, dt: real)
    requires mass != 0.0
    ensures var r := Stepped(mass, kDrag, s, dt);
      r.position == Add(s.position, Scale(dt, s.velocity))
      && r.velocity == Scale(1.0 - kDrag, Add(s.velocity, Scale(dt, Div(s.forceAccumulation, mass))))
      && r.forceAccumulation == Zero
  {
    DragScales(kDrag, Add(s.velocity, Scale(dt, Div(s.forceAccumulation, mass))));
  }

  /** `c^n`. */
  function Pow(c: real, n: nat): real
  {
    if n == 0 then 1.0 else c * Pow(c, n - 1)
  }

  /** Steps of lengths `dts`, first to last. */
  function Steps(mass: real, kDrag: real, s: State, dts: seq<real>): State
    requires mass != 0.0
    decreases |dts|
  {
    if dts == [] then s else Steps(mass, kDrag, Stepped(mass, kDrag, s, dts[0]), dts[1..])
  }

  /** With no force a step only scales the velocity by `1 - kDrag`, whatever `dt` is. */
  lemma UnforcedStep(mass: real, kDrag: real, s: State, dt: real)
    requires mass != 0.0 && s.forceAccumulation == Zero
    ensures Stepped(mass, kDrag, s, dt).velocity == Scale(1.0 - kDrag, s.velocity)
    ensures Stepped(mass, kDrag, s, dt).forceAccumulation == Zero
  {
    StepFields(mass, kDrag, s, dt);
    assert Div(Zero, mass) == Zero;
    assert Add(s.velocity, Scale(dt, Zero)) == s.velocity;
  }

  /**
   * With no force, the velocity after `n` steps is `(1 - kDrag)^n` times
   * the initial velocity, independently of the step lengths.
   */
  lemma {:induction false} UnforcedDecay(mass: real, kDrag: real, s: State, dts: seq<real>)
    requires mass != 0.0 && s.forceAccumulation == Zero
    ensures Steps(mass, kDrag, s, dts).velocity == Scale(Pow(1.0 - kDrag, |dts|), s.velocity)
    decreases |dts|
  {
    if dts != [] {
      var next := Stepped(mass, kDrag, s, dts[0]);
      UnforcedStep(mass, kDrag, s, dts[0]);
      UnforcedDecay(mass, kDrag, next, dts[1..]);
      var c, p := 1.0 - kDrag, Pow(1.0 - kDrag, |dts| - 1);
      assert Steps(mass, kDrag, s, dts) == Steps(mass, kDrag, next, dts[1..]);
      ScaleScale(p, c, s.velocity);
      assert Pow(c, |dts|) == c * p == p * c;
    }
  }

  /** With the default drag and no force, `n` steps leave `0.9^n` of the velocity. */
  lemma DefaultDragDecay(mass: real, s: State, dts: seq<real>)
    requires mass != 0.0 && s.forceAccumulation == Zero
    ensures Steps(mass, DefaultDrag, s, dts).velocity == Scale(Pow(0.9, |dts|), s.velocity)
  {
    UnforcedDecay(mass, DefaultDrag, s, dts);
  }

  /** The sum of the forces added, first to last. */
  function SumForces(fs: seq<Vec3>): Vec3
    decreases |fs|
  {
    if fs == [] then Zero else Add(SumForces(fs[..|fs| - 1]), fs[|fs| - 1])
  }

  /** `AddForce`. */
  function ForceAdded(s: State, f: Vec3): State
  {
    s.(forceAccumulation := Add(s.forceAccumulation, f))
  }

  /** Two `AddForce` calls are one call with the sum, in either order. */
  lemma ForcesAccumulate(s: State, f: Vec3, g: Vec3)
    ensures ForceAdded(ForceAdded(s, f), g) == ForceAdded(s, Add(f, g))
    ensures ForceAdded(ForceAdded(s, f), g) == ForceAdded(ForceAdded(s, g), f)
  {
  }

  /** Adding a run of forces to a cleared accumulator leaves their sum in it. */
  lemma {:induction false} AccumulatedIsSum(s: State, fs: seq<Vec3>)
    requires s.forceAccumulation == Zero
    ensures AddAll(s, fs).forceAccumulation == SumForces(fs)
    ensures AddAll(s, fs) == s.(forceAccumulation := SumForces(fs))
    decreases |fs|
  {
    if fs != [] {
      AccumulatedIsSum(s, fs[..|fs| - 1]);
    }
  }

  /** `AddForce` for each of `fs`, first to last. */
  function AddAll(s: State, fs: seq<Vec3>): State
    decreases |fs|
  {
    if fs == [] then s else ForceAdded(AddAll(s, fs[..|fs| - 1]), fs[|fs| - 1])
  }

  /** A point-mass body as `RigidBody.h` declares it. */
  class RigidBody {
    const mass: real
    const kDrag: real
    var position: Vec3
    var velocity: Vec3
    var forceAccumulation: Vec3
    /** The forces added since construction or the last step. */
    ghost var forcesAdded: seq<Vec3>
    /** The last position handed to the mesh (an external call). */
    ghost var meshPosition: Vec3

    function Snapshot(): State
      reads this
    {
      State(position, velocity, forceAccumulation)
    }

    /** The accumulator holds the sum of the forces added since it was last cleared. */
    ghost predicate Valid()
      reads this
    {
      forceAccumulation == SumForces(forcesAdded)
    }

    /** A body at rest at `startingPosition` with no force and the default drag. */
    constructor (startingPosition: Vec3, mass: real)
      ensures Valid() && this.mass == mass && kDrag == DefaultDrag
      ensures position == startingPosition && velocity == Zero && forceAccumulation == Zero
      ensures forcesAdded == [] && meshPosition == startingPosition
    {
      this.mass := mass;
      kDrag := DefaultDrag;
      position := startingPosition;
      velocity := Zero;
      forceAccumulation := Zero;
      forcesAdded := [];
      meshPosition := startingPosition;
    }

    /** `EulerStep`: integrate, hand the new position to the mesh, clear the force, apply drag. */
    method EulerStep(deltaTime: real)
      requires Valid() && mass != 0.0
      modifies this
      ensures Valid() && forcesAdded == []
      ensures Snapshot() == Stepped(mass, kDrag, old(Snapshot()), deltaTime)
      ensures meshPosition == position
    {
      var positionDeriv := velocity;
      var velocityDeriv := Div(forceAccumulation, mass);

      positionDeriv := Scale(deltaTime, positionDeriv);
      velocityDeriv := Scale(deltaTime, velocityDeriv);

      position := Add(position, positionDeriv);
      velocity := Add(velocity, velocityDeriv);

      meshPosition := position;

      forceAccumulation := Zero;
      forcesAdded := [];

      ApplyDrag();
    }

    /** `ApplyDrag`: `velocity -= velocity * kDrag`. */
    method ApplyDrag()
      modifies this`velocity
      ensures Snapshot() == Dragged(kDrag, old(Snapshot()))
    {
      velocity := Sub(velocity, Scale(kDrag, velocity));
    }

    /** `AddForce`. */
    method AddForce(force: Vec3)
      requires Valid()
      modifies this`forceAccumulation, this`forcesAdded
      ensures Valid() && forcesAdded == old(forcesAdded) + [force]
      ensures Snapshot() == ForceAdded(old(Snapshot()), force)
    {
      forceAccumulation := Add(forceAccumulation, force);
      forcesAdded := forcesAdded + [force];
      assert forcesAdded[..|forcesAdded| - 1] == old(forcesAdded);
    }

    /** `GetForces`: the sum of the forces added since construction or the last step. */
    method GetForces() returns (f: Vec3)
      requires Valid()
      ensures f == SumForces(forcesAdded)
    {
      f := forceAccumulation;
    }

    /** `GetMass`. */
    method GetMass() returns (m: real)
      ensures m == mass
    {
      m := mass;
    }

    /** `GetPosition`. */
    method GetPosition() returns (p: Vec3)
      ensures p == position
    {
      p := position;
    }

    /** `GetVelocity`. */
    method GetVelocity() returns (v: Vec3)
      ensures v == velocity
    {
      v := velocity;
    }
  }
}
