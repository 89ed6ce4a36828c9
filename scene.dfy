/**
 * The frame driver and collision resolver of the final revision
 * (OptiX/src/CSC494/Scene.cpp).  Each frame every body is stepped once with
 * a clamped time step; after the ray pass has filled the intersection grid,
 * every cell whose volume is above a noise threshold pushes the two bodies
 * of its pair apart with four impulses proportional to the volume.
 *
 * The scene's globals (body vector, window size, ray stride, last update
 * time) become the fields of the class `Scene`; the clock is passed in.
 */
module Scene {
  import opened Vec
  import opened Body
  import opened BufferStructs
  import opened Impulses

  /** Cells at or below this volume are treated as noise from near-miss rays. */
  const VolumeThreshold: real := 0.00001

  /** Stiffness `k` turning a cell's volume into an impulse. */
  const Stiffness: real := 250.0

  /** Longest time step a frame integrates, for numerical stability. */
  const MaxDeltaTime: real := 0.1

  /** Initial window size and ray stride. */
  const InitialWidth: nat := 1080
  const InitialHeight: nat := 720
  const PhysicsRayStep: nat := 8

  /** `std::fmin` on the reals. */
  function Min(a: real, b: real): (r: real)
    ensures r <= a && r <= b && (r == a || r == b)
  {
    if a <= b then a else b
  }

  /**
   * Otherwise the loop bound can exceed the grid: a 1081 x 720 window has a
   * 135 x 90 grid but a bound of 12161 cells, and resizing the window from
   * the initial 1080 x 720 to 1920 x 1080 keeps the old grid while the bound
   * grows to 32400.
   */
  lemma LoopBoundCanOverrunGrid()
    ensures GridSize(1081, 720, PhysicsRayStep) == 12150 && PhysicsPixels(1081, 720, PhysicsRayStep) == 12161
    ensures GridSize(InitialWidth, InitialHeight, PhysicsRayStep) == 12150
    ensures PhysicsPixels(1920, 1080, PhysicsRayStep) == 32400
  {
  }

  /** A cell takes part in the resolution when its volume exceeds the threshold. */
  predicate Passes(cell: IntersectionResponse)
  {
    cell.volume > VolumeThreshold
  }

  /** Among the first `n` cells, every cell that passes names bodies that exist. */
  predicate IdsValid(grid: seq<IntersectionResponse>, n: nat, count: int)
    requires n <= |grid|
  {
    forall i :: 0 <= i < n && Passes(grid[i]) ==> IdsInRange(grid[i], count)
  }

  /**
   * The body that takes the opposite of the entry impulse: the collision
   * partner, unless that is the entry body itself, in which case the exit body.
   */
  function EntryPartner(cell: IntersectionResponse): (id: int)
    ensures id == cell.exitId || id == cell.collisionId
    ensures id == cell.entryId ==> cell.exitId == cell.entryId
  {
    if cell.collisionId == cell.entryId then cell.exitId else cell.collisionId
  }

  /**
   * The four impulses of a cell, in the order they are applied: against the
   * entry normal on the entry body and along it on the entry partner, both at
   * the entry point; against the exit normal on the exit body and along it
   * on the collision body, both at the exit point.
   */
  function CellImpulses(cell: IntersectionResponse): seq<Impulse>
  {
    [Impulse(cell.entryId, Scale(Stiffness, Scale(cell.volume, Neg(cell.entryNormal))), cell.entryPoint),
     Impulse(EntryPartner(cell), Scale(Stiffness, Scale(cell.volume, cell.entryNormal)), cell.entryPoint),
     Impulse(cell.exitId, Scale(Stiffness, Scale(cell.volume, Neg(cell.exitNormal))), cell.exitPoint),
     Impulse(cell.collisionId, Scale(Stiffness, Scale(cell.volume, cell.exitNormal)), cell.exitPoint)]
  }

  lemma CellImpulsesTargets(states: seq<State>, cell: IntersectionResponse)
    requires IdsInRange(cell, |states|)
    ensures Targets(states, CellImpulses(cell))
  {
  }

  /** `k (v (-n)) + k (v n)` is zero. */
  lemma OpposedPair(v: real, n: Vec3)
    ensures Add(Scale(Stiffness, Scale(v, Neg(n))), Scale(Stiffness, Scale(v, n))) == Zero
  {
    assert v * -n.x == -(v * n.x) && v * -n.y == -(v * n.y) && v * -n.z == -(v * n.z);
  }

  /** The four impulses of a cell cancel: a cell adds no net linear momentum. */
  lemma CellImpulsesBalance(cell: IntersectionResponse)
    ensures ImpulseSum(CellImpulses(cell)) == Zero
  {
    var imps := CellImpulses(cell);
    FourImpulses(imps[0], imps[1], imps[2], imps[3]);
    assert imps == [imps[0], imps[1], imps[2], imps[3]];
    OpposedPair(cell.volume, cell.entryNormal);
    OpposedPair(cell.volume, cell.exitNormal);
  }

  /** Applying a run of four impulses, one at a time. */
  lemma ApplyFour(states: seq<State>, imps: seq<Impulse>)
    requires |imps| == 4 && Targets(states, imps)
    ensures ApplyImpulses(states, imps)
         == ApplyImpulse(ApplyImpulse(ApplyImpulse(ApplyImpulse(states, imps[0]), imps[1]), imps[2]), imps[3])
  {
    var s1 := ApplyImpulse(states, imps[0]);
    var s2 := ApplyImpulse(s1, imps[1]);
    var s3 := ApplyImpulse(s2, imps[2]);
    var s4 := ApplyImpulse(s3, imps[3]);
    assert ApplyImpulses(s4, imps[1..][1..][1..][1..]) == s4;
    assert ApplyImpulses(s3, imps[1..][1..][1..]) == s4;
    assert ApplyImpulses(s2, imps[1..][1..]) == s4;
    assert ApplyImpulses(s1, imps[1..]) == s4;
  }

  lemma FourImpulses(a: Impulse, b: Impulse, c: Impulse, d: Impulse)
    ensures ImpulseSum([a, b, c, d]) == Add(Add(a.impulse, b.impulse), Add(c.impulse, d.impulse))
  {
    assert [a, b, c, d][1..] == [b, c, d] && [b, c, d][1..] == [c, d] && [c, d][1..] == [d] && [d][1..] == [];
    assert ImpulseSum([d]) == d.impulse;
    assert ImpulseSum([c, d]) == Add(c.impulse, d.impulse);
    assert ImpulseSum([b, c, d]) == Add(b.impulse, Add(c.impulse, d.impulse));
  }

  /** The body states after the first `n` cells have been resolved, in order. */
  function Resolved(states: seq<State>, grid: seq<IntersectionResponse>, n: nat): (r: seq<State>)
    requires n <= |grid| && IdsValid(grid, n, |states|)
    ensures |r| == |states|
  {
    if n == 0 then states
    else
      var before := Resolved(states, grid, n - 1);
      if Passes(grid[n - 1]) then
        CellImpulsesTargets(before, grid[n - 1]);
        ApplyImpulses(before, CellImpulses(grid[n - 1]))
      else before
  }

  /** The volume the resolver reports: the sum over the passing cells among the first `n`. */
  function TotalVolume(grid: seq<IntersectionResponse>, n: nat): real
    requires n <= |grid|
  {
    if n == 0 then 0.0
    else TotalVolume(grid, n - 1) + if Passes(grid[n - 1]) then grid[n - 1].volume else 0.0
  }

  /** The number of passing cells among the first `n`. */
  function HitCount(grid: seq<IntersectionResponse>, n: nat): nat
    requires n <= |grid|
  {
    if n == 0 then 0 else HitCount(grid, n - 1) + if Passes(grid[n - 1]) then 1 else 0
  }

  /** Every impulse the first `n` cells apply, in order. */
  function AllImpulses(grid: seq<IntersectionResponse>, n: nat): seq<Impulse>
    requires n <= |grid|
  {
    if n == 0 then []
    else AllImpulses(grid, n - 1) + if Passes(grid[n - 1]) then CellImpulses(grid[n - 1]) else []
  }

  /**
   * The reported volume is never negative, and it is zero exactly when no
   * cell passes the threshold.
   */
  lemma {:induction false} TotalVolumeZeroIffNoHit(grid: seq<IntersectionResponse>, n: nat)
    requires n <= |grid|
    ensures 0.0 <= TotalVolume(grid, n)
    ensures TotalVolume(grid, n) == 0.0 <==> forall i :: 0 <= i < n ==> !Passes(grid[i])
  {
    if n > 0 {
      TotalVolumeZeroIffNoHit(grid, n - 1);
    }
  }

  /**
   * A grid whose cells are either below the threshold or of one volume `v`
   * above it reports `N * v` for `N` passing cells.
   */
  lemma {:induction false} UniformVolumes(grid: seq<IntersectionResponse>, n: nat, v: real)
    requires n <= |grid|
    requires forall i :: 0 <= i < n && Passes(grid[i]) ==> grid[i].volume == v
    ensures TotalVolume(grid, n) == HitCount(grid, n) as real * v
  {
    if n > 0 {
      UniformVolumes(grid, n - 1, v);
    }
  }

  /**
   * Resolving the first `n` cells is applying four impulses per passing cell,
   * in cell order.
   */
  lemma {:induction false} ResolvedIsImpulseRun(states: seq<State>, grid: seq<IntersectionResponse>, n: nat)
    requires n <= |grid| && IdsValid(grid, n, |states|)
    ensures |AllImpulses(grid, n)| == 4 * HitCount(grid, n)
    ensures Targets(states, AllImpulses(grid, n))
    ensures Resolved(states, grid, n) == ApplyImpulses(states, AllImpulses(grid, n))
  {
    if n > 0 {
      ResolvedIsImpulseRun(states, grid, n - 1);
      var before := AllImpulses(grid, n - 1);
      if Passes(grid[n - 1]) {
        CellImpulsesTargets(states, grid[n - 1]);
        ApplyImpulsesAppend(states, before, CellImpulses(grid[n - 1]));
      } else {
        assert AllImpulses(grid, n) == before + [] && before + [] == before;
      }
    }
  }

  /** Resolution conserves the total linear momentum of the bodies. */
  lemma {:induction false} ResolvedConservesMomentum(states: seq<State>, grid: seq<IntersectionResponse>, n: nat)
    requires n <= |grid| && IdsValid(grid, n, |states|)
    ensures TotalMomentum(Resolved(states, grid, n)) == TotalMomentum(states)
  {
    if n > 0 {
      ResolvedConservesMomentum(states, grid, n - 1);
      var before := Resolved(states, grid, n - 1);
      if Passes(grid[n - 1]) {
        CellImpulsesTargets(before, grid[n - 1]);
        ApplyImpulsesMomentum(before, CellImpulses(grid[n - 1]));
        CellImpulsesBalance(grid[n - 1]);
      }
    }
  }

  /** Body `j` is one of the bodies a passing cell names. */
  predicate Named(cell: IntersectionResponse, j: int)
  {
    Passes(cell) && (cell.entryId == j || cell.exitId == j || cell.collisionId == j)
  }

  /** A body that no passing cell names keeps its state. */
  lemma {:induction false} UnnamedBodyUnchanged(states: seq<State>, grid: seq<IntersectionResponse>, n: nat, j: int)
    requires n <= |grid| && IdsValid(grid, n, |states|) && 0 <= j < |states|
    requires forall i :: 0 <= i < n ==> !Named(grid[i], j)
    ensures Resolved(states, grid, n)[j] == states[j]
  {
    if n > 0 {
      UnnamedBodyUnchanged(states, grid, n - 1, j);
      var before := Resolved(states, grid, n - 1);
      if Passes(grid[n - 1]) {
        CellImpulsesTargets(before, grid[n - 1]);
        UntargetedUnchanged(before, CellImpulses(grid[n - 1]), j);
      }
    }
  }

  /**
   * Resolution changes only momenta: positions, orientations, velocities,
   * spins and accumulators take the impulses into account at the next step.
   */
  lemma ResolvedChangesOnlyMomenta(states: seq<State>, grid: seq<IntersectionResponse>, n: nat, j: int)
    requires n <= |grid| && IdsValid(grid, n, |states|) && 0 <= j < |states|
    ensures var r := Resolved(states, grid, n)[j];
      r == states[j].(linearMomentum := r.linearMomentum, angularMomentum := r.angularMomentum)
  {
    ResolvedIsImpulseRun(states, grid, n);
    OnlyMomentaChange(states, AllImpulses(grid, n), j);
  }

  /** A grid with no cell above the threshold changes nothing and reports zero. */
  lemma QuietGridIsNoOp(states: seq<State>, grid: seq<IntersectionResponse>, n: nat)
    requires n <= |grid|
    requires forall i :: 0 <= i < n ==> grid[i].volume <= VolumeThreshold
    ensures IdsValid(grid, n, |states|)
    ensures Resolved(states, grid, n) == states && TotalVolume(grid, n) == 0.0
  {
    TotalVolumeZeroIffNoHit(grid, n);
    forall j | 0 <= j < |states|
      ensures Resolved(states, grid, n)[j] == states[j]
    {
      UnnamedBodyUnchanged(states, grid, n, j);
    }
  }

  /** The scene: its bodies, the window, and the time of the last update. */
  class Scene {
    var sceneRigidBodies: seq<RigidBody>
    var width: nat
    var height: nat
    const physicsRayStep: nat
    /** Dimensions the response grid was allocated with. */
    const physicsBufferWidth: nat
    const physicsBufferHeight: nat
    var lastUpdateTime: real

    /** Distinct, valid bodies and a positive stride. */
    ghost predicate Valid()
      reads this, sceneRigidBodies
    {
      0 < physicsRayStep
      && (forall i, j :: 0 <= i < j < |sceneRigidBodies| ==> sceneRigidBodies[i] != sceneRigidBodies[j])
      && (forall i :: 0 <= i < |sceneRigidBodies| ==> sceneRigidBodies[i].Valid())
    }

    /**
     * The scene with the initial window and stride, the given bodies, and the
     * response grid sized `(width / step) x (height / step)`.
     */
    constructor (bodies: seq<RigidBody>, startTime: real)
      requires forall i, j :: 0 <= i < j < |bodies| ==> bodies[i] != bodies[j]
      requires forall i :: 0 <= i < |bodies| ==> bodies[i].Valid()
      ensures Valid() && sceneRigidBodies == bodies && lastUpdateTime == startTime
      ensures width == InitialWidth && height == InitialHeight && physicsRayStep == PhysicsRayStep
      ensures physicsBufferWidth * physicsBufferHeight == GridSize(width, height, physicsRayStep)
      ensures PhysicsPixels(width, height, physicsRayStep) == physicsBufferWidth * physicsBufferHeight
    {
      sceneRigidBodies := bodies;
      width := InitialWidth;
      height := InitialHeight;
      physicsRayStep := PhysicsRayStep;
      physicsBufferWidth := InitialWidth / PhysicsRayStep;
      physicsBufferHeight := InitialHeight / PhysicsRayStep;
      lastUpdateTime := startTime;
      new;
      DivisibleDimensionsCoverGrid(InitialWidth, InitialHeight, PhysicsRayStep);
    }

    /**
     * `UpdateGeometry`: every body takes one step of the same length, the
     * time since the last update clamped to `MaxDeltaTime`; the last update
     * time becomes the clock reading taken after the steps.
     */
    method UpdateGeometry(currentTime: real, timeAfterSteps: real, sqrt: real -> real)
      returns (deltaTime: real)
      requires Valid() && IsSqrt(sqrt)
      modifies this`lastUpdateTime, sceneRigidBodies
      ensures Valid()
      ensures deltaTime == Min(currentTime - old(lastUpdateTime), MaxDeltaTime)
      ensures lastUpdateTime == timeAfterSteps
      ensures forall j :: 0 <= j < |sceneRigidBodies| ==>
        sceneRigidBodies[j].Snapshot()
          == Stepped(sceneRigidBodies[j].Props(), old(sceneRigidBodies[j].Snapshot()), deltaTime, sqrt)
      ensures forall j :: 0 <= j < |sceneRigidBodies| ==> sceneRigidBodies[j].Placed(old(sceneRigidBodies[j].transform))
    {
      var updateTime := currentTime - lastUpdateTime;
      deltaTime := Min(updateTime, MaxDeltaTime);
      var i := 0;
      while i < |sceneRigidBodies|
        invariant 0 <= i <= |sceneRigidBodies|
        invariant Valid()
        invariant forall j :: 0 <= j < i ==>
          sceneRigidBodies[j].Snapshot()
            == Stepped(sceneRigidBodies[j].Props(), old(sceneRigidBodies[j].Snapshot()), deltaTime, sqrt)
          && sceneRigidBodies[j].Placed(old(sceneRigidBodies[j].transform))
        invariant forall j :: i <= j < |sceneRigidBodies| ==>
          sceneRigidBodies[j].Snapshot() == old(sceneRigidBodies[j].Snapshot())
          && sceneRigidBodies[j].transform == old(sceneRigidBodies[j].transform)
      {
        StepBody(i, deltaTime, sqrt);
        i := i + 1;
      }
      lastUpdateTime := timeAfterSteps;
    }

    /**
     * `ResolveCollisions`: every cell of the grid's first `PhysicsPixels`
     * that passes the threshold applies its four impulses; the result is the
     * volume handed to the display, the sum of the passing cells' volumes.
     * The grid must hold as many cells as the loop reads, and the passing
     * cells must name existing bodies: the source checks neither.
     */
    method ResolveCollisions(grid: seq<IntersectionResponse>) returns (volume: real)
      requires Valid()
      requires PhysicsPixels(width, height, physicsRayStep) <= |grid|
      requires IdsValid(grid, PhysicsPixels(width, height, physicsRayStep), |sceneRigidBodies|)
      modifies sceneRigidBodies
      ensures Valid()
      ensures volume == TotalVolume(grid, PhysicsPixels(width, height, physicsRayStep))
      ensures States(sceneRigidBodies)
           == Resolved(old(States(sceneRigidBodies)), grid, PhysicsPixels(width, height, physicsRayStep))
      ensures Transforms(sceneRigidBodies) == old(Transforms(sceneRigidBodies))
    {
      volume := 0.0;
      var physicsPixels := width * height / physicsRayStep / physicsRayStep;
      ghost var start := States(sceneRigidBodies);
      var i := 0;
      while i < physicsPixels
        invariant i <= physicsPixels
        invariant Valid()
        invariant volume == TotalVolume(grid, i)
        invariant States(sceneRigidBodies) == Resolved(start, grid, i)
        invariant Transforms(sceneRigidBodies) == old(Transforms(sceneRigidBodies))
      {
        if grid[i].volume > VolumeThreshold {
          ghost var before := States(sceneRigidBodies);
          CellImpulsesTargets(before, grid[i]);
          ResolveCell(grid[i]);
          volume := volume + grid[i].volume;
        }
        i := i + 1;
      }
    }
  
    /**
     * The body of the resolver's loop for one passing cell: its four
     * impulses, in order, on the bodies the cell names.
     */
    method ResolveCell(response: IntersectionResponse)
      requires Valid() && IdsInRange(response, |sceneRigidBodies|)
      modifies sceneRigidBodies
      ensures Valid()
      ensures Targets(old(States(sceneRigidBodies)), CellImpulses(response))
      ensures States(sceneRigidBodies) == ApplyImpulses(old(States(sceneRigidBodies)), CellImpulses(response))
      ensures Transforms(sceneRigidBodies) == old(Transforms(sceneRigidBodies))
    {
      var k := Stiffness;
      var volumeConstraint := response.volume;
      ghost var imps := CellImpulses(response);
      ghost var s0 := States(sceneRigidBodies);

      // Apply force at collision entry
      Kick(response.entryId, Scale(k, Scale(volumeConstraint, Neg(response.entryNormal))), response.entryPoint);
      ghost var s1 := States(sceneRigidBodies);
      var otherId := if response.collisionId == response.entryId then response.exitId else response.collisionId;
      Kick(otherId, Scale(k, Scale(volumeConstraint, response.entryNormal)), response.entryPoint);
      ghost var s2 := States(sceneRigidBodies);

      // Apply force at collision exit
      Kick(response.exitId, Scale(k, Scale(volumeConstraint, Neg(response.exitNormal))), response.exitPoint);
      ghost var s3 := States(sceneRigidBodies);
      otherId := response.collisionId;
      Kick(otherId, Scale(k, Scale(volumeConstraint, response.exitNormal)), response.exitPoint);

      ApplyFour(s0, imps);
    }

    /** `sceneRigidBodies[i].EulerStep(deltaTime)`: one body steps, the others are untouched. */
    method StepBody(i: int, deltaTime: real, sqrt: real -> real)
      requires Valid() && IsSqrt(sqrt) && 0 <= i < |sceneRigidBodies|
      modifies sceneRigidBodies[i]
      ensures Valid()
      ensures sceneRigidBodies[i].Snapshot()
           == Stepped(sceneRigidBodies[i].Props(), old(sceneRigidBodies[i].Snapshot()), deltaTime, sqrt)
      ensures sceneRigidBodies[i].Placed(old(sceneRigidBodies[i].transform))
      ensures forall j :: 0 <= j < |sceneRigidBodies| && j != i ==>
        sceneRigidBodies[j].Snapshot() == old(sceneRigidBodies[j].Snapshot())
        && sceneRigidBodies[j].transform == old(sceneRigidBodies[j].transform)
    {
      sceneRigidBodies[i].EulerStep(deltaTime, sqrt);
    }

    /** `sceneRigidBodies[id].AddImpulseAtPosition(impulse, at)`. */
    method Kick(id: int, impulse: Vec3, at: Vec3)
      requires Valid() && 0 <= id < |sceneRigidBodies|
      modifies sceneRigidBodies[id]
      ensures Valid()
      ensures States(sceneRigidBodies) == ApplyImpulse(old(States(sceneRigidBodies)), Impulse(id, impulse, at))
      ensures Transforms(sceneRigidBodies) == old(Transforms(sceneRigidBodies))
    {
      sceneRigidBodies[id].AddImpulseAtPosition(impulse, at);
    }
  }
}
