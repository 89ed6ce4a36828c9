/**
 * The earlier revision of the scene (OptiX/SDK/CSC494/Scene.cpp).  Each frame
 * it uploads every body's velocity and spin for the ray pass, sums the
 * volumes of the whole response grid and counts the cells with a positive
 * volume, and then, if the sum is positive, pushes every positive cell's
 * entry and exit bodies back along their normals with one coefficient shared
 * by all cells.  Unlike the final revision it applies no opposing impulse.
 * It drives the same momentum-based bodies as the final revision.
 */
module EarlyScene {
  import opened Vec
  import opened Body
  import opened BufferStructs
  import opened Impulses
  import MathHelpers

  /** Stiffness `k` of the soft constraint. */
  const Stiffness: real := 10.0

  /** Share of the stiffness the coefficient uses. */
  const Softness: real := 0.2

  /** Initial window size and ray stride of this revision. */
  const InitialWidth: nat := 1080
  const InitialHeight: nat := 720
  const PhysicsRayStep: nat := 2

  /** A cell registers an intersection when its volume is positive. */
  predicate Hit(cell: IntersectionResponse)
  {
    cell.volume > 0.0
  }

  /** Sum of the volumes of the first `n` cells, with no threshold. */
  function VolumeSum(grid: seq<IntersectionResponse>, n: nat): real
    requires n <= |grid|
  {
    if n == 0 then 0.0 else VolumeSum(grid, n - 1) + grid[n - 1].volume
  }

  /** The number of cells with a positive volume among the first `n`. */
  function HitCount(grid: seq<IntersectionResponse>, n: nat): nat
    requires n <= |grid|
  {
    if n == 0 then 0 else HitCount(grid, n - 1) + if Hit(grid[n - 1]) then 1 else 0
  }

  /**
   * A positive volume sum needs a positive cell, whatever the signs of the
   * other cells, so the coefficient's division by the count is defined.
   */
  lemma {:induction false} PositiveSumHasHit(grid: seq<IntersectionResponse>, n: nat)
    requires n <= |grid|
    ensures HitCount(grid, n) == 0 ==> VolumeSum(grid, n) <= 0.0
    ensures 0.0 < VolumeSum(grid, n) ==> 1 <= HitCount(grid, n)
  {
    if n > 0 {
      PositiveSumHasHit(grid, n - 1);
    }
  }

  /** With no negative volumes the sum is positive exactly when some cell is. */
  lemma {:induction false} NonNegativeSumPositiveIffHit(grid: seq<IntersectionResponse>, n: nat)
    requires n <= |grid|
    requires forall i :: 0 <= i < n ==> 0.0 <= grid[i].volume
    ensures 0.0 <= VolumeSum(grid, n)
    ensures 0.0 < VolumeSum(grid, n) <==> 1 <= HitCount(grid, n)
  {
    if n > 0 {
      NonNegativeSumPositiveIffHit(grid, n - 1);
    }
  }

  /** `forceCoefficient`: `0.2 k volume / intersectionPixels`, the same for every cell. */
  function Coefficient(volume: real, intersectionPixels: int): real
    requires intersectionPixels != 0
  {
    Softness * Stiffness * volume / intersectionPixels as real
  }

  /**
   * The entry and exit ids of a cell index a collection of `count` bodies;
   * this revision's resolver never reads `collisionId`.
   */
  predicate NamesBodies(cell: IntersectionResponse, count: int)
  {
    0 <= cell.entryId < count && 0 <= cell.exitId < count
  }

  /** Among the first `n` cells, every positive cell names bodies that exist. */
  predicate IdsValid(grid: seq<IntersectionResponse>, n: nat, count: int)
    requires n <= |grid|
  {
    forall i :: 0 <= i < n && Hit(grid[i]) ==> NamesBodies(grid[i], count)
  }

  /**
   * The two impulses of a positive cell: against the entry normal on the
   * entry body at the entry point, and against the exit normal on the exit
   * body at the exit point.
   */
  function CellImpulses(cell: IntersectionResponse, c: real): seq<Impulse>
  {
    [Impulse(cell.entryId, Scale(c, Neg(cell.entryNormal)), cell.entryPoint),
     Impulse(cell.exitId, Scale(c, Neg(cell.exitNormal)), cell.exitPoint)]
  }

  lemma CellImpulsesTargets(states: seq<State>, cell: IntersectionResponse, c: real)
    requires NamesBodies(cell, |states|)
    ensures Targets(states, CellImpulses(cell, c))
  {
  }

  /** The body states after the first `n` cells have been resolved with coefficient `c`. */
  function Resolved(states: seq<State>, grid: seq<IntersectionResponse>, n: nat, c: real): (r: seq<State>)
    requires n <= |grid| && IdsValid(grid, n, |states|)
    ensures |r| == |states|
  {
    if n == 0 then states
    else
      var before := Resolved(states, grid, n - 1, c);
      if Hit(grid[n - 1]) then
        CellImpulsesTargets(before, grid[n - 1], c);
        ApplyImpulses(before, CellImpulses(grid[n - 1], c))
      else before
  }

  /** Sum of `entryNormal + exitNormal` over the positive cells among the first `n`. */
  function NormalSum(grid: seq<IntersectionResponse>, n: nat): Vec3
    requires n <= |grid|
  {
    if n == 0 then Zero
    else
      var before := NormalSum(grid, n - 1);
      if Hit(grid[n - 1]) then Add(before, Add(grid[n - 1].entryNormal, grid[n - 1].exitNormal))
      else before
  }

  /** The two impulses of a cell sum to `-c (entryNormal + exitNormal)`. */
  lemma CellImpulseSum(cell: IntersectionResponse, c: real)
    ensures ImpulseSum(CellImpulses(cell, c)) == Scale(-c, Add(cell.entryNormal, cell.exitNormal))
  {
    var imps := CellImpulses(cell, c);
    assert imps[1..] == [imps[1]] && imps[1..][1..] == [];
    assert ImpulseSum(imps[1..]) == Add(imps[1].impulse, Zero);
    var e, x := cell.entryNormal, cell.exitNormal;
    assert c * -e.x == -c * e.x && c * -e.y == -c * e.y && c * -e.z == -c * e.z;
    assert c * -x.x == -c * x.x && c * -x.y == -c * x.y && c * -x.z == -c * x.z;
    ScaleAdd(-c, e, x);
  }

  /**
   * The impulses are not balanced: the bodies' total linear momentum changes
   * by `-c` times the sum of both normals over the positive cells.
   */
  lemma {:induction false} ResolvedMomentumChange(states: seq<State>, grid: seq<IntersectionResponse>, n: nat, c: real)
    requires n <= |grid| && IdsValid(grid, n, |states|)
    ensures TotalMomentum(Resolved(states, grid, n, c)) == Add(TotalMomentum(states), Scale(-c, NormalSum(grid, n)))
  {
    if n > 0 {
      ResolvedMomentumChange(states, grid, n - 1, c);
      var before := Resolved(states, grid, n - 1, c);
      if Hit(grid[n - 1]) {
        var cell := grid[n - 1];
        CellImpulsesTargets(before, cell, c);
        ApplyImpulsesMomentum(before, CellImpulses(cell, c));
        CellImpulseSum(cell, c);
        ScaleAdd(-c, NormalSum(grid, n - 1), Add(cell.entryNormal, cell.exitNormal));
      }
    } else {
      assert Scale(-c, Zero) == Zero;
    }
  }

  /** A body that no positive cell names as entry or exit body keeps its state. */
  lemma {:induction false} UnnamedBodyUnchanged(states: seq<State>, grid: seq<IntersectionResponse>, n: nat, c: real, j: int)
    requires n <= |grid| && IdsValid(grid, n, |states|) && 0 <= j < |states|
    requires forall i :: 0 <= i < n && Hit(grid[i]) ==> grid[i].entryId != j && grid[i].exitId != j
    ensures Resolved(states, grid, n, c)[j] == states[j]
  {
    if n > 0 {
      UnnamedBodyUnchanged(states, grid, n - 1, c, j);
      var before := Resolved(states, grid, n - 1, c);
      if Hit(grid[n - 1]) {
        CellImpulsesTargets(before, grid[n - 1], c);
        UntargetedUnchanged(before, CellImpulses(grid[n - 1], c), j);
      }
    }
  }

  /**
   * `forceTotal`: the sum of the magnitudes of the impulses of the positive
   * cells among the first `n`; a sum of lengths, so never negative.
   */
  function ForceTotal(grid: seq<IntersectionResponse>, n: nat, c: real, sqrt: real -> real): (r: real)
    requires n <= |grid| && IsSqrt(sqrt)
    ensures 0.0 <= r
  {
    if n == 0 then 0.0
    else
      var before := ForceTotal(grid, n - 1, c, sqrt);
      if Hit(grid[n - 1]) then
        before + MathHelpers.GetMagnitude(Scale(c, Neg(grid[n - 1].entryNormal)), sqrt)
               + MathHelpers.GetMagnitude(Scale(c, Neg(grid[n - 1].exitNormal)), sqrt)
      else before
  }

  /** The motion record the ray pass reads for each body, in body order. */
  function Motions(bodies: seq<RigidBody>): (r: seq<RigidbodyMotion>)
    reads bodies
    ensures |r| == |bodies|
    ensures forall j :: 0 <= j < |bodies| ==> r[j] == RigidbodyMotion(bodies[j].velocity, bodies[j].spinVector)
  {
    seq(|bodies|, j reads bodies requires 0 <= j < |bodies| => RigidbodyMotion(bodies[j].velocity, bodies[j].spinVector))
  }

  /**
   * For a body whose derived variables are current, its uploaded record is
   * its linear momentum over its mass and its world inverse inertia times
   * its angular momentum.
   */
  lemma MotionsFromMomenta(bodies: seq<RigidBody>, j: int)
    requires 0 <= j < |bodies| && Consistent(bodies[j].Props(), bodies[j].Snapshot())
    ensures Motions(bodies)[j]
         == RigidbodyMotion(Div(bodies[j].linearMomentum, bodies[j].mass),
                            MulVec(WorldInverseInertia(bodies[j].quaternion, bodies[j].inertiaBodyInv),
                                   bodies[j].angularMomentum))
  {
  }

  /** The motion buffer as first created: one zero record per body. */
  method InitialMotions(count: nat) returns (motions: array<RigidbodyMotion>)
    ensures fresh(motions) && motions.Length == count
    ensures forall j :: 0 <= j < count ==> motions[j] == RigidbodyMotion(Zero, Zero)
  {
    motions := new RigidbodyMotion[count];
    var j := 0;
    while j < count
      invariant j <= count
      invariant forall k :: 0 <= k < j ==> motions[k] == RigidbodyMotion(Zero, Zero)
    {
      motions[j] := RigidbodyMotion(Zero, Zero);
      j := j + 1;
    }
  }

  /** The scene of this revision: its bodies, the window, and the uploaded motion buffer. */
  class Scene {
    var sceneRigidBodies: seq<RigidBody>
    var width: nat
    var height: nat
    const physicsRayStep: nat
    /** The contents of the motion buffer last uploaded for the ray pass. */
    var rigidbodyMotions: seq<RigidbodyMotion>

    ghost predicate Valid()
      reads this, sceneRigidBodies
    {
      0 < physicsRayStep
      && (forall i, j :: 0 <= i < j < |sceneRigidBodies| ==> sceneRigidBodies[i] != sceneRigidBodies[j])
      && (forall i :: 0 <= i < |sceneRigidBodies| ==> sceneRigidBodies[i].Valid())
    }

    /** The number of cells the loops read. */
    function Pixels(): nat
      reads this
      requires 0 < physicsRayStep
    {
      PhysicsPixels(width, height, physicsRayStep)
    }

    /**
     * The scene with the initial window and stride and the given bodies; the
     * motion buffer starts with one zero record per body.
     */
    constructor (bodies: seq<RigidBody>)
      requires forall i, j :: 0 <= i < j < |bodies| ==> bodies[i] != bodies[j]
      requires forall i :: 0 <= i < |bodies| ==> bodies[i].Valid()
      ensures Valid() && sceneRigidBodies == bodies
      ensures width == InitialWidth && height == InitialHeight && physicsRayStep == PhysicsRayStep
      ensures |rigidbodyMotions| == |bodies|
      ensures forall j :: 0 <= j < |bodies| ==> rigidbodyMotions[j] == RigidbodyMotion(Zero, Zero)
    {
      sceneRigidBodies := bodies;
      width := InitialWidth;
      height := InitialHeight;
      physicsRayStep := PhysicsRayStep;
      var motions := InitialMotions(|bodies|);
      rigidbodyMotions := motions[..];
    }

    /**
     * `UpdateRigidbodyState`: one record per body, in body order, holding
     * that body's current velocity and spin, copied into the motion buffer.
     */
    method UpdateRigidbodyState()
      modifies this`rigidbodyMotions
      ensures rigidbodyMotions == Motions(sceneRigidBodies)
    {
      var motions := new RigidbodyMotion[|sceneRigidBodies|];
      var j := 0;
      while j < |sceneRigidBodies|
        invariant j <= |sceneRigidBodies|
        invariant forall k :: 0 <= k < j ==>
          motions[k] == RigidbodyMotion(sceneRigidBodies[k].velocity, sceneRigidBodies[k].spinVector)
      {
        var velocity := sceneRigidBodies[j].GetVelocity();
        var spin := sceneRigidBodies[j].GetSpin();
        motions[j] := RigidbodyMotion(velocity, spin);
        j := j + 1;
      }
      rigidbodyMotions := motions[..];
    }

    /**
     * The accumulation in `GlutDisplay`: the sum of the volumes of the cells
     * the loop reads, and the number of those cells with a positive volume.
     */
    method AccumulateVolume(grid: seq<IntersectionResponse>) returns (volume: real, intersectionPixels: nat)
      requires 0 < physicsRayStep && Pixels() <= |grid|
      ensures volume == VolumeSum(grid, Pixels())
      ensures intersectionPixels == HitCount(grid, Pixels())
    {
      volume := 0.0;
      intersectionPixels := 0;
      var physicsPixels := width * height / physicsRayStep / physicsRayStep;
      var i := 0;
      while i < physicsPixels
        invariant i <= physicsPixels
        invariant volume == VolumeSum(grid, i)
        invariant intersectionPixels == HitCount(grid, i)
      {
        volume := volume + grid[i].volume;
        if grid[i].volume > 0.0 {
          intersectionPixels := intersectionPixels + 1;
        }
        i := i + 1;
      }
    }

    /**
     * `ResolveCollisions`: if the volume is positive, every positive cell
     * applies its two impulses with the shared coefficient, and the
     * magnitudes of those impulses are summed; nothing is changed otherwise.
     * The total is written out when it is positive.
     */
    method ResolveCollisions(volume: real, intersectionPixels: int, grid: seq<IntersectionResponse>,
                             sqrt: real -> real)
      returns (forceTotal: real, printed: seq<real>)
      requires Valid() && IsSqrt(sqrt)
      requires 0.0 < volume ==> Pixels() <= |grid|
      requires 0.0 < volume ==> intersectionPixels != 0
      requires 0.0 < volume ==> IdsValid(grid, Pixels(), |sceneRigidBodies|)
      modifies sceneRigidBodies
      ensures Valid()
      ensures volume <= 0.0 ==> forceTotal == 0.0 && States(sceneRigidBodies) == old(States(sceneRigidBodies))
      ensures 0.0 < volume ==>
        var c := Coefficient(volume, intersectionPixels);
        forceTotal == ForceTotal(grid, Pixels(), c, sqrt)
        && States(sceneRigidBodies) == Resolved(old(States(sceneRigidBodies)), grid, Pixels(), c)
      ensures Transforms(sceneRigidBodies) == old(Transforms(sceneRigidBodies))
      ensures printed == if 0.0 < forceTotal then [forceTotal] else []
    {
      var k := Stiffness;
      forceTotal := 0.0;
      if volume > 0.0 {
        var forceCoefficient := 0.2 * k * volume / intersectionPixels as real;
        var physicsPixels := width * height / physicsRayStep / physicsRayStep;
        ghost var start := States(sceneRigidBodies);
        var i := 0;
        while i < physicsPixels
          invariant i <= physicsPixels
          invariant Valid()
          invariant forceTotal == ForceTotal(grid, i, forceCoefficient, sqrt)
          invariant States(sceneRigidBodies) == Resolved(start, grid, i, forceCoefficient)
          invariant Transforms(sceneRigidBodies) == old(Transforms(sceneRigidBodies))
        {
          if grid[i].volume > 0.0 {
            var response := grid[i];
            forceTotal := forceTotal + MathHelpers.GetMagnitude(Scale(forceCoefficient, Neg(response.entryNormal)), sqrt);
            forceTotal := forceTotal + MathHelpers.GetMagnitude(Scale(forceCoefficient, Neg(response.exitNormal)), sqrt);
            ResolveCell(response, forceCoefficient);
          }
          i := i + 1;
        }
      }
      printed := if forceTotal > 0.0 then [forceTotal] else [];
    }

    /**
     * The physics half of `GlutDisplay`: sum the grid, then resolve.  The
     * sum is positive only when some cell is, so the count the coefficient
     * divides by is never zero.
     */
    method ResolveFrame(grid: seq<IntersectionResponse>, sqrt: real -> real)
      returns (volume: real, forceTotal: real, printed: seq<real>)
      requires Valid() && IsSqrt(sqrt) && Pixels() <= |grid|
      requires IdsValid(grid, Pixels(), |sceneRigidBodies|)
      modifies sceneRigidBodies
      ensures Valid()
      ensures volume == VolumeSum(grid, Pixels())
      ensures 0.0 < volume ==> 1 <= HitCount(grid, Pixels())
      ensures volume <= 0.0 ==> forceTotal == 0.0 && States(sceneRigidBodies) == old(States(sceneRigidBodies))
      ensures 0.0 < volume ==>
        var c := Coefficient(volume, HitCount(grid, Pixels()));
        forceTotal == ForceTotal(grid, Pixels(), c, sqrt)
        && States(sceneRigidBodies) == Resolved(old(States(sceneRigidBodies)), grid, Pixels(), c)
      ensures Transforms(sceneRigidBodies) == old(Transforms(sceneRigidBodies))
      ensures printed == if 0.0 < forceTotal then [forceTotal] else []
    {
      var intersectionPixels;
      volume, intersectionPixels := AccumulateVolume(grid);
      PositiveSumHasHit(grid, Pixels());
      forceTotal, printed := ResolveCollisions(volume, intersectionPixels, grid, sqrt);
    }

    /** The two impulses of one positive cell, entry first. */
    method ResolveCell(response: IntersectionResponse, forceCoefficient: real)
      requires Valid() && NamesBodies(response, |sceneRigidBodies|)
      modifies sceneRigidBodies
      ensures Valid()
      ensures Targets(old(States(sceneRigidBodies)), CellImpulses(response, forceCoefficient))
      ensures States(sceneRigidBodies)
           == ApplyImpulses(old(States(sceneRigidBodies)), CellImpulses(response, forceCoefficient))
      ensures Transforms(sceneRigidBodies) == old(Transforms(sceneRigidBodies))
    {
      ghost var before := States(sceneRigidBodies);
      CellImpulsesTargets(before, response, forceCoefficient);
      Kick(response.entryId, Scale(forceCoefficient, Neg(response.entryNormal)), response.entryPoint);
      Kick(response.exitId, Scale(forceCoefficient, Neg(response.exitNormal)), response.exitPoint);
      ApplyTwo(before, CellImpulses(response, forceCoefficient));
    }

    /** `sceneRigidBodies[id].AddImpulseAtPosition(impulse, at)`. */
    method Kick(id: int, impulse: Vec3, at: Vec3)
      requires Valid() && 0 <= id < |sceneRigidBodies|
      modifies sceneRigidBodies[id]
      ensures Valid()
      ensures States(sceneRigidBodies) == ApplyImpulse(old(States(sceneRigidBodies)), Impulse(id, impulse, at))
      ensures Transforms(sceneRigidBodies) == old(Transforms(sceneRigidBodies))
    {
      sceneRigidBodies[id].AddImpulseAtPosition(impulse, at);
    }
  }

  /** Applying a run of two impulses, one at a time. */
  lemma ApplyTwo(states: seq<State>, imps: seq<Impulse>)
    requires |imps| == 2 && Targets(states, imps)
    ensures ApplyImpulses(states, imps) == ApplyImpulse(ApplyImpulse(states, imps[0]), imps[1])
  {
    var s1 := ApplyImpulse(states, imps[0]);
    var s2 := ApplyImpulse(s1, imps[1]);
    assert ApplyImpulses(s2, imps[1..][1..]) == s2;
    assert ApplyImpulses(s1, imps[1..]) == s2;
  }
}
