# Ray-traced rigid-body collisions, modelled in Dafny

This project models the physics core of a GPU ray-tracing demo, CSC494. In the demo, rigid bodies
are stepped by explicit Euler integration each frame. A ray pass fills a grid of
`IntersectionResponse` cells, one per `physicsRayStep x physicsRayStep` block of pixels. Each cell
holds the volume by which two bodies overlap along that ray, the ids of the bodies involved, and
the entry and exit normals and points. The host then turns every overlapping cell into impulses
that push the bodies apart.

The repository has two revisions of this code, and both are modelled:

* **Final revision** (`OptiX/src/CSC494`):
  * `rigid_body.dfy` (module `Body`) is the momentum-based body: position, orientation quaternion,
    linear and angular momentum, and the derived velocity, world inverse inertia and spin.
  * `scene.dfy` (module `Scene`) is the frame driver `UpdateGeometry` and the resolver
    `ResolveCollisions`. The resolver applies four impulses of `250 * volume` per cell above the
    threshold `0.00001`.
* **Earlier revision** (`OptiX/SDK/CSC494`):
  * `point_mass.dfy` (module `PointMass`) is the point-mass body of that revision's
    `RigidBody.h`/`.cpp`.
  * `early_scene.dfy` (module `EarlyScene`) is that revision's frame code. It sums the volume and
    counts the hit pixels, resolves with the soft coefficient `0.2 * 10 * volume / pixels` on the
    entry and exit bodies, totals the force magnitudes, and packs per-body motion records.
  * `command_line.dfy` (module `CommandLine`) is the option loop of `main`.
* **Shared:**
  * `math_helpers.dfy` (module `MathHelpers`) holds the quaternion/rotation conversions and
    `GetMagnitude`.
  * `vec.dfy` (module `Vec`) holds `float3`/`float4`/`Matrix3x3` as real-valued datatypes.
  * `buffer_structs.dfy` (module `BufferStructs`) holds the GPU buffer records and the grid sizing.
  * `impulses.dfy` (module `Impulses`) gives the value-level meaning of a run of
    `AddImpulseAtPosition` calls over the body vector.

Conventions used throughout:

* Floats are `real`.
* The platform square root is a parameter `sqrt` constrained by `IsSqrt`: it is non-negative and
  squares back on the non-negative reals. `normalize` is built from it.
* Quaternions keep the scalar in `x`, as the source does.
* Matrices are row-major with entries `m0..m8`, matching the source's `rotation[0..8]`.
* Bodies and scenes are classes whose methods update fields in place. Each method is proved equal
  to a function of the old state, read through `Snapshot()` (for one body) or `States(bodies)`
  (for the body vector). `States` and `Transforms` are the abstraction of `sceneRigidBodies`: its
  bodies' states and the matrices last handed to their transform nodes. The lemmas about those
  functions carry the physics.

The two revisions disagree in places, and the model follows each file's own code:

* The SDK scene calls `AddImpulseAtPosition` and `GetSpin`, which only the momentum-based body
  provides, so `EarlyScene` drives `Body.RigidBody`.
* The two revisions' resolvers differ:
  * the final revision uses `k = 250` and four impulses per cell;
  * the earlier revision uses `k = 10`, but scaled by `0.2 * volume / pixels` and applied to the
    entry and exit bodies.

## Model

| member | source | states |
|---|---|---|
| Vec.Normalize | OptiX/src/CSC494/RigidBody.cpp:65 | the normalised quaternion has unit norm and is a positive multiple of its argument |
| MathHelpers.GetMagnitude | OptiX/SDK/CSC494/MathHelpers.h:12-15 | the magnitude is non-negative and its square is the vector's dot product with itself |
| MathHelpers.QuaternionToRotation | OptiX/SDK/CSC494/MathHelpers.h:17-32 | the matrix of a quaternion taken as given, since the `normalize` result is discarded; the rows below prove it a rotation for unit quaternions and invert it |
| MathHelpers.IdentityQuaternionGivesIdentity | OptiX/SDK/CSC494/MathHelpers.h:17-32 | the identity quaternion converts to the identity matrix |
| MathHelpers.RotationIgnoresSign | OptiX/SDK/CSC494/MathHelpers.h:21-29 | `q` and `-q` give the same rotation matrix |
| MathHelpers.RotationTrace | OptiX/SDK/CSC494/MathHelpers.h:21-29 | the matrix trace is `3 - 4(y²+z²+w²)`, tying the conversion's two branches to the quaternion |
| MathHelpers.RotationRowsOrthonormal | OptiX/SDK/CSC494/MathHelpers.h:17-32 | for a unit quaternion, `R Rᵀ = I` |
| MathHelpers.RotationColumnsOrthonormal | OptiX/SDK/CSC494/MathHelpers.h:17-32 | for a unit quaternion, `Rᵀ R = I` |
| MathHelpers.MaxDiagonal | OptiX/SDK/CSC494/MathHelpers.h:52-58 | picks the index of the largest diagonal entry; ties go to the lower index, with each case stated as an iff |
| MathHelpers.DiagonalRootArgumentAboveOne | OptiX/SDK/CSC494/MathHelpers.h:60-85 | when the trace is negative, the square-root argument of the chosen diagonal case exceeds 1, so the division that follows is defined for any matrix |
| MathHelpers.RotationToQuaternion | OptiX/SDK/CSC494/MathHelpers.h:34-88 | trace ≥ 0 gives scalar ≥ 0.5; otherwise the component for the largest diagonal entry exceeds 0.5 |
| MathHelpers.RoundTrip | OptiX/SDK/CSC494/MathHelpers.h:17-88 | converting a unit quaternion to a matrix and back gives `q` or `-q` |
| Body.WithDerived | OptiX/src/CSC494/RigidBody.cpp:21-26 | the derived velocity, world inverse inertia and spin agree with the primary state; nothing else changes |
| Body.IsotropicSpinIsAngularMomentum | OptiX/src/CSC494/RigidBody.cpp:21-26 | with identity body inertia and mass, the spin equals the angular momentum |
| Body.DerivedIgnoresAccumulators | OptiX/src/CSC494/RigidBody.cpp:21-26 | the derived variables do not depend on the pending force and torque |
| Body.QuaternionDotIsTangent | OptiX/src/CSC494/RigidBody.cpp:57-60 | the quaternion derivative is orthogonal to the quaternion |
| Body.IntegratedQuaternionNonZero | OptiX/src/CSC494/RigidBody.cpp:57-65 | `q + qDot` is never zero for a non-zero `q`, so the normalisation at line 65 is always defined |
| Body.StepOrientation | OptiX/src/CSC494/RigidBody.cpp:57-65 | the new orientation is a unit quaternion and a positive multiple of `q + qDot` |
| Body.Integrated | OptiX/src/CSC494/RigidBody.cpp:42-67 | integration leaves a unit orientation |
| Body.Stepped | OptiX/src/CSC494/RigidBody.cpp:35-78 | a static body is unchanged; otherwise the result has a unit quaternion and consistent derived variables |
| Body.StaticStepIsNoOp | OptiX/src/CSC494/RigidBody.cpp:37-40 | stepping a static body changes nothing |
| Body.StepFields | OptiX/src/CSC494/RigidBody.cpp:43-77 | position advances by the pre-step velocity; momenta gain `dt` times (accumulated + gravity − drag); velocity is the new momentum over the mass; force and torque are cleared; the gravity flag is kept |
| Body.StepNormalisesOrientation | OptiX/src/CSC494/RigidBody.cpp:57-65 | a non-static step leaves a unit quaternion in the direction of `q + qDot` |
| Body.AccumulatedDrag | OptiX/src/CSC494/RigidBody.cpp:43-50 | the force and torque used by the step are the accumulators plus gravity, minus `kDrag` times the momenta |
| Body.FreeBodyKeepsMomentum | OptiX/src/CSC494/RigidBody.cpp:43-67 | with no force, torque, gravity or drag, momenta and velocity survive a step |
| Body.DragOnlyDampsMomenta | OptiX/src/CSC494/RigidBody.cpp:48-67 | with drag alone, each momentum becomes `L − dt·kDrag·L` |
| Body.PushedBodyScenario | OptiX/src/CSC494/RigidBody.cpp:53-77 | unit mass, no drag or gravity, force (0,0,−8), step 0.1: momentum and velocity become (0,0,−0.8), force is cleared, position is unchanged (pre-step velocity) |
| Body.Star | OptiX/src/CSC494/RigidBody.cpp:83-87 | the skew matrix of a vector; `StarIsCross` proves it is the cross product |
| Body.StarIsCross | OptiX/src/CSC494/RigidBody.cpp:83-87 | the star matrix times `u` is the cross product `v × u` |
| Body.TransformMatrix | OptiX/src/CSC494/RigidBody.cpp:94-98 | the 16-entry row-major matrix handed to the transform node; `TransformPlacesBody` proves it places the body |
| Body.TransformPlacesBody | OptiX/src/CSC494/RigidBody.cpp:94-98 | the pushed 4x4 matrix maps a body point `v` to `R v + position` and keeps the homogeneous coordinate |
| Body.ForcesAccumulate | OptiX/src/CSC494/RigidBody.cpp:124-127 | successive forces add up, and their order does not matter |
| Body.TorquesAccumulate | OptiX/src/CSC494/RigidBody.cpp:129-132 | successive torques add up, and their order does not matter |
| Body.ForceAtCentreIsPlainForce | OptiX/src/CSC494/RigidBody.cpp:108-112 | a force at the body's own position adds no torque |
| Body.ImpulseShowsAfterNextStep | OptiX/src/CSC494/RigidBody.cpp:118-122 | an impulse changes only the momenta; after the next step the linear momentum differs by the impulse, damped by drag |
| Body.RigidBody.constructor | OptiX/src/CSC494/Scene.cpp:177 | a body at rest with identity orientation, zero momenta and accumulators, and consistent derived variables |
| Body.RigidBody.EulerStep | OptiX/src/CSC494/RigidBody.cpp:13-16 | same new state as `ODE`; a static body keeps its transform, and a moving one gets the matrix of its new pose |
| Body.RigidBody.CalculateAuxiliaryVariables | OptiX/src/CSC494/RigidBody.cpp:21-30 | the new state is `WithDerived` of the old one |
| Body.RigidBody.ODE | OptiX/src/CSC494/RigidBody.cpp:35-78 | the new state is `Stepped` of the old one and the body stays valid; a moving body's transform is the matrix of its new pose |
| Body.RigidBody.UpdateTransformNode | OptiX/src/CSC494/RigidBody.cpp:92-102 | the pushed transform is the matrix of the current pose |
| Body.RigidBody.AddForceAtPosition | OptiX/src/CSC494/RigidBody.cpp:108-112 | adds the force, and a torque of 0.01 × lever × force |
| Body.RigidBody.AddImpulseAtPosition | OptiX/src/CSC494/RigidBody.cpp:118-122 | adds the impulse to the linear momentum, and 0.01 × lever × impulse to the angular momentum |
| Body.RigidBody.AddForce | OptiX/src/CSC494/RigidBody.cpp:124-127 | the force accumulator grows by `f`; nothing else changes |
| Body.RigidBody.AddTorque | OptiX/src/CSC494/RigidBody.cpp:129-132 | the torque accumulator grows by `t`; nothing else changes |
| Body.RigidBody.UseGravity | OptiX/src/CSC494/RigidBody.cpp:134-137 | only the gravity flag changes |
| Body.RigidBody.GetVelocity | OptiX/src/CSC494/RigidBody.cpp:139-142 | returns the derived velocity |
| Body.RigidBody.GetSpin | OptiX/src/CSC494/RigidBody.cpp:144-147 | returns the derived spin |
| BufferStructs.DivisibleDimensionsCoverGrid | OptiX/src/CSC494/Scene.cpp:215-217 | when the stride divides both window sides, the resolver's pixel bound equals the allocated grid size |
| Impulses.ApplyImpulseEffect | OptiX/src/CSC494/RigidBody.cpp:118-122 | one impulse adds exactly its vector to the scene's total momentum and leaves every other body alone |
| Impulses.ApplyImpulsesMomentum | OptiX/src/CSC494/RigidBody.cpp:118-122 | a run of impulses changes the total momentum by the sum of the run |
| Impulses.UntargetedUnchanged | OptiX/src/CSC494/RigidBody.cpp:118-122 | a body that no impulse names is unchanged |
| Impulses.OnlyMomentaChange | OptiX/src/CSC494/RigidBody.cpp:118-122 | impulses change only the linear and angular momenta of each body |
| Scene.Min | OptiX/src/CSC494/Scene.cpp:255 | the result is one of the two arguments and is at most both |
| Scene.LoopBoundCanOverrunGrid | OptiX/src/CSC494/Scene.cpp:312 | a 1081x720 window gives a 12150-cell grid but a loop bound of 12161; after a resize to 1920x1080 the bound is 32400 over the initial 12150-cell grid |
| Scene.EntryPartner | OptiX/src/CSC494/Scene.cpp:322 | the entry partner is the exit or collision body; it equals the entry body only when the exit body does too |
| Scene.CellImpulses | OptiX/src/CSC494/Scene.cpp:318-328 | the four impulses of one passing cell, in source order; `CellImpulsesBalance` proves they cancel |
| Scene.Resolved | OptiX/src/CSC494/Scene.cpp:313-332 | the body states after the first `n` cells, keeping the vector's length; the reference the resolver's loop is proved against |
| Scene.TotalVolume | OptiX/src/CSC494/Scene.cpp:313-331 | the volume summed over the passing cells among the first `n`; `TotalVolumeZeroIffNoHit` and `UniformVolumes` characterise it |
| Scene.HitCount | OptiX/src/CSC494/Scene.cpp:316 | the number of cells above the threshold among the first `n`; `UniformVolumes` ties it to `TotalVolume` |
| Scene.CellImpulsesBalance | OptiX/src/CSC494/Scene.cpp:318-328 | a cell's four impulses sum to zero |
| Scene.TotalVolumeZeroIffNoHit | OptiX/src/CSC494/Scene.cpp:313-331 | the reported volume is non-negative, and is zero iff no cell passes the threshold |
| Scene.UniformVolumes | OptiX/src/CSC494/Scene.cpp:313-331 | when all passing cells share volume `v`, the reported volume is (number of passing cells) × `v` |
| Scene.ResolvedIsImpulseRun | OptiX/src/CSC494/Scene.cpp:313-332 | resolution applies four impulses per passing cell, in grid order, and nothing else |
| Scene.ResolvedConservesMomentum | OptiX/src/CSC494/Scene.cpp:313-332 | resolution leaves the scene's total linear momentum unchanged |
| Scene.UnnamedBodyUnchanged | OptiX/src/CSC494/Scene.cpp:313-332 | a body no passing cell names is unchanged |
| Scene.ResolvedChangesOnlyMomenta | OptiX/src/CSC494/Scene.cpp:318-328 | resolution changes only momenta; positions, orientations, derived variables and accumulators stay |
| Scene.QuietGridIsNoOp | OptiX/src/CSC494/Scene.cpp:315-316 | a grid with every volume at or below the threshold changes nothing and reports zero volume |
| Scene.Scene.constructor | OptiX/src/CSC494/Scene.cpp:215-217 | the scene starts with the 1080x720 window, stride 8, and a response grid of `(width/8) x (height/8)` |
| Scene.Scene.UpdateGeometry | OptiX/src/CSC494/Scene.cpp:252-262 | the step is `min(now − last, 0.1)`; every body is `Stepped` by it; every moving body's transform node holds the matrix of its new pose and every static body's is untouched; the last update time becomes the time after the steps |
| Scene.Scene.StepBody | OptiX/src/CSC494/Scene.cpp:258 | one body is `Stepped` and its transform placed; every other body, transform included, is untouched |
| Scene.Scene.ResolveCollisions | OptiX/src/CSC494/Scene.cpp:305-336 | the returned volume is `TotalVolume` over the loop bound, the bodies end as `Resolved` from their old states, and no transform node changes |
| Scene.Scene.ResolveCell | OptiX/src/CSC494/Scene.cpp:318-328 | the bodies take the cell's four impulses in source order |
| Scene.Scene.Kick | OptiX/src/CSC494/Scene.cpp:321 | one `AddImpulseAtPosition` on the named body, seen on the whole body vector |
| EarlyScene.VolumeSum | OptiX/SDK/CSC494/Scene.cpp:469-471 | the unthresholded sum of the first `n` volumes |
| EarlyScene.HitCount | OptiX/SDK/CSC494/Scene.cpp:472-475 | the number of cells with a positive volume among the first `n`; `PositiveSumHasHit` and `NonNegativeSumPositiveIffHit` relate it to `VolumeSum` |
| EarlyScene.Coefficient | OptiX/SDK/CSC494/Scene.cpp:366 | `forceCoefficient`, shared by all cells, defined for a non-zero pixel count |
| EarlyScene.CellImpulses | OptiX/SDK/CSC494/Scene.cpp:375-376 | the entry and exit impulses of one hit cell; `CellImpulseSum` gives their sum |
| EarlyScene.Resolved | OptiX/SDK/CSC494/Scene.cpp:368-378 | the body states after the first `n` cells, keeping the vector's length; the reference the resolver's loop is proved against |
| EarlyScene.PositiveSumHasHit | OptiX/SDK/CSC494/Scene.cpp:362-366 | a positive volume sum implies at least one hit pixel, so the coefficient's division by the pixel count is defined |
| EarlyScene.NonNegativeSumPositiveIffHit | OptiX/SDK/CSC494/Scene.cpp:469-476 | with non-negative volumes, the sum is positive iff some pixel registered a hit |
| EarlyScene.CellImpulseSum | OptiX/SDK/CSC494/Scene.cpp:375-376 | a cell's two impulses sum to `−c × (entry normal + exit normal)` |
| EarlyScene.ResolvedMomentumChange | OptiX/SDK/CSC494/Scene.cpp:368-378 | the total momentum changes by `−c` times the sum of the hit cells' normals |
| EarlyScene.UnnamedBodyUnchanged | OptiX/SDK/CSC494/Scene.cpp:368-378 | a body no hit cell names as entry or exit is unchanged |
| EarlyScene.ForceTotal | OptiX/SDK/CSC494/Scene.cpp:373-374 | the printed force total is non-negative |
| EarlyScene.Motions | OptiX/SDK/CSC494/Scene.cpp:301-309 | one motion record per body: its velocity and spin |
| EarlyScene.MotionsFromMomenta | OptiX/SDK/CSC494/Scene.cpp:301-309 | for a body with current derived variables, the uploaded velocity is momentum over mass and the uploaded spin is the world inverse inertia times the angular momentum |
| EarlyScene.InitialMotions | OptiX/SDK/CSC494/Scene.cpp:221-229 | a fresh array of zero motion records, one per body |
| EarlyScene.Scene.constructor | OptiX/SDK/CSC494/Scene.cpp:221-242 | the scene starts with zero motion records for its bodies, the 1080x720 window and stride 2 |
| EarlyScene.Scene.UpdateRigidbodyState | OptiX/SDK/CSC494/Scene.cpp:299-318 | the motion buffer becomes `Motions` of the bodies |
| EarlyScene.Scene.AccumulateVolume | OptiX/SDK/CSC494/Scene.cpp:462-476 | returns the sum of all volumes in the loop bound, and the number of cells with positive volume |
| EarlyScene.Scene.ResolveCollisions | OptiX/SDK/CSC494/Scene.cpp:357-384 | a non-positive volume changes nothing, reads no cell and totals zero; otherwise the bodies end `Resolved` with coefficient `0.2·10·volume/pixels` and the total is `ForceTotal`; no transform node changes; the total is printed only when positive |
| EarlyScene.Scene.ResolveCell | OptiX/SDK/CSC494/Scene.cpp:375-376 | the entry body and then the exit body take the cell's impulses |
| EarlyScene.Scene.Kick | OptiX/SDK/CSC494/Scene.cpp:375 | one `AddImpulseAtPosition` on the named body, seen on the whole body vector |
| EarlyScene.Scene.ResolveFrame | OptiX/SDK/CSC494/Scene.cpp:461-481 | accumulates, then resolves: a positive sum implies a hit; the bodies end as `Resolved` and the total is `ForceTotal`, both with the coefficient of the accumulated sum and count; the total is printed only when positive |
| PointMass.Integrated | OptiX/SDK/CSC494/RigidBody.cpp:14-30 | the integration part of a step: the position moves by the velocity held before it, the velocity by `dt·F/m`, and the accumulator is cleared; `StepFields` gives a whole step's effect on every field |
| PointMass.Dragged | OptiX/SDK/CSC494/RigidBody.cpp:35-38 | the drag of a step; `DragScales` shows it scales the velocity by `1 − kDrag` |
| PointMass.Stepped | OptiX/SDK/CSC494/RigidBody.cpp:12-33 | integration followed by drag; `UnforcedDecay` and `StepFields` characterise it |
| PointMass.StepFields | OptiX/SDK/CSC494/RigidBody.cpp:12-38 | position advances by the pre-step velocity; velocity becomes `(1 − kDrag)(v + dt·F/m)`; the accumulator is cleared |
| PointMass.DragScales | OptiX/SDK/CSC494/RigidBody.cpp:35-38 | `v − kDrag·v = (1 − kDrag)·v` |
| PointMass.UnforcedStep | OptiX/SDK/CSC494/RigidBody.cpp:12-38 | with no force, a step multiplies the velocity by `1 − kDrag` |
| PointMass.UnforcedDecay | OptiX/SDK/CSC494/RigidBody.cpp:12-38 | `n` unforced steps multiply the velocity by `(1 − kDrag)^n`, whatever the step lengths |
| PointMass.DefaultDragDecay | OptiX/SDK/CSC494/RigidBody.h:58 | with the default drag 0.1, `n` unforced steps scale the velocity by `0.9^n` |
| PointMass.ForcesAccumulate | OptiX/SDK/CSC494/RigidBody.h:44-47 | successive forces add up, and their order does not matter |
| PointMass.AccumulatedIsSum | OptiX/SDK/CSC494/RigidBody.h:44-52 | after adding a list of forces, the accumulator is their sum and nothing else changed |
| PointMass.RigidBody.constructor | OptiX/SDK/CSC494/RigidBody.h:15-23 | at rest at the starting position, with an empty accumulator and drag 0.1 |
| PointMass.RigidBody.EulerStep | OptiX/SDK/CSC494/RigidBody.cpp:12-33 | the new state is `Stepped` of the old one and the mesh position follows |
| PointMass.RigidBody.ApplyDrag | OptiX/SDK/CSC494/RigidBody.cpp:35-38 | only the velocity changes, by `v − kDrag·v` |
| PointMass.RigidBody.AddForce | OptiX/SDK/CSC494/RigidBody.h:44-47 | the accumulator grows by the force and remains the sum of the forces added since the last step |
| PointMass.RigidBody.GetForces | OptiX/SDK/CSC494/RigidBody.h:49-52 | returns the sum of the forces added since the last step |
| PointMass.RigidBody.GetMass | OptiX/SDK/CSC494/RigidBody.h:29-32 | returns the mass |
| PointMass.RigidBody.GetPosition | OptiX/SDK/CSC494/RigidBody.h:34-37 | returns the position |
| PointMass.RigidBody.GetVelocity | OptiX/SDK/CSC494/RigidBody.h:39-42 | returns the velocity |
| CommandLine.ParseFrom | OptiX/SDK/CSC494/CSC494.cpp:27-53 | the outcome of the loop from index `i` with the options read so far; the lemmas below pin its cases down |
| CommandLine.Parse | OptiX/SDK/CSC494/CSC494.cpp:25-53 | the outcome for the whole command line, starting from the defaults and skipping `argv[0]` |
| CommandLine.ParseArguments | OptiX/SDK/CSC494/CSC494.cpp:23-56 | the option loop computes the recursive reference `Parse` of the arguments |
| CommandLine.NoOptionsGiveDefaults | OptiX/SDK/CSC494/CSC494.cpp:25-27 | with no options, output file is empty and PBO is on |
| CommandLine.ParseAppend | OptiX/SDK/CSC494/CSC494.cpp:27-53 | options already read fix the state that later options continue from |
| CommandLine.NoPboClearsFlag | OptiX/SDK/CSC494/CSC494.cpp:44-47 | a trailing `-n`/`--nopbo` turns PBO off and changes nothing else |
| CommandLine.FileSetsOutput | OptiX/SDK/CSC494/CSC494.cpp:35-43 | `-f`/`--file` followed by a name sets the output file |
| CommandLine.FileWithoutNameFails | OptiX/SDK/CSC494/CSC494.cpp:37-41 | `-f` as the last argument exits with usage, naming the missing argument |
| CommandLine.HelpStops | OptiX/SDK/CSC494/CSC494.cpp:31-34 | `-h`/`--help` exits with usage, whatever follows |
| CommandLine.UnknownOptionStops | OptiX/SDK/CSC494/CSC494.cpp:48-52 | any other argument exits with usage, naming it, whatever follows |
| CommandLine.ProgramNameIgnored | OptiX/SDK/CSC494/CSC494.cpp:27 | the parse outcome does not depend on `argv[0]`, except in the program name it reports |

## Left out

- Rendering, GLUT callbacks, cameras, lights, geometry creation and the GPU ray programs are not part of this model. The GPU side is reduced to the grid of `IntersectionResponse` cells it produces, passed in as a sequence.
- The OptiX variable and buffer writes (`setFloat`, `setMatrix`, `memcpy` to buffers) become ghost or ordinary fields: `transform`, `meshPosition`, `rigidbodyMotions`. The GPU's view of them is not modelled. `markDirty` (`MarkGroupAsDirty`) is dropped: it only tells OptiX to rebuild its acceleration structure.
- The clock (`sutil::currentTime`) is a parameter of `UpdateGeometry`. The source reads the clock again after the steps, so the new last-update time is a second parameter.
- Printing is modelled as the `printed` out-parameter of `EarlyScene.Scene.ResolveCollisions`. `DisplayGUI` and the usage text are not modelled. `exit(1)` becomes the `UsageExit` result.
- 32-bit float rounding, NaN and infinity are not modelled: arithmetic is exact on the reals, and `sqrt` is any exact square root.
- Body.RigidBody.constructor: the header that declares the final revision's body is not part of this model. The constructor is inferred from its use in the scene and from the fields the `.cpp` file reads. It takes the inverse body inertia and drag as parameters, starts at rest with the identity orientation, and requires a non-zero mass.
- Body.RigidBody.ODE: requires a non-zero mass (through `Valid`). The source divides by the mass and would produce infinities for zero.
- PointMass.RigidBody.EulerStep: requires a non-zero mass, for the same reason.
- Scene.Scene.ResolveCollisions: requires a grid at least as long as the loop bound `width*height/step/step`, and requires that every passing cell names existing bodies. The source reads past the buffer or the body vector otherwise. `LoopBoundCanOverrunGrid` shows that the bound can exceed the allocated grid.
- EarlyScene.Scene.ResolveCollisions: with a positive volume, requires a grid as long as the loop bound, a non-zero pixel count (which `ResolveFrame` establishes through `PositiveSumHasHit`), and that every hit cell's `entryId` and `exitId` name existing bodies. The source indexes the buffer and the body vector with them unchecked. `collisionId` is not read by this revision and is unconstrained.
- `GlutResize` and `ensureMinimumSize` are not modelled. They change `width` and `height` without resizing the response buffer, which is how the bound can overrun. The earlier revision's `UpdateGeometry` (OptiX/SDK/CSC494/Scene.cpp:287-297) is not modelled again, because its code is the same as the final revision's, which `Scene.Scene.UpdateGeometry` models.
- `Kick` and `ResolveCell` are proof-structuring methods. Each makes the source's `AddImpulseAtPosition` calls on the body vector (one call, and one cell's calls) and states the effect on the whole vector.
