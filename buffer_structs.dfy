/**
 * The records exchanged with the ray pass (OptiX/src/CSC494/BufferStructs.h):
 * one intersection response per cell of the physics grid, written by the ray
 * pass and read by the collision resolver, and one motion record per body,
 * uploaded for the ray pass to read.  Only the fields are modelled, not the
 * binary layout.
 */
module BufferStructs {
  import opened Vec

  /** What the ray pass measured along one physics ray. */
  datatype IntersectionResponse = IntersectionResponse(
    volume: real,        // estimated volume of the overlap along the ray
    entryId: int,        // body whose surface the overlap enters
    exitId: int,         // body whose surface the overlap leaves
    collisionId: int,    // the other body of the colliding pair
    entryNormal: Vec3,
    exitNormal: Vec3,
    entryPoint: Vec3,
    exitPoint: Vec3)

  /** Velocity and spin of one body, as the ray pass reads them. */
  datatype RigidbodyMotion = RigidbodyMotion(velocity: Vec3, spin: Vec3)

  /** All three body ids of a cell index a collection of `count` bodies. */
  predicate IdsInRange(cell: IntersectionResponse, count: int)
  {
    0 <= cell.entryId < count && 0 <= cell.exitId < count && 0 <= cell.collisionId < count
  }

  /**
   * The number of cells the resolvers read: `width * height / step / step`
   * in unsigned integer arithmetic.
   */
  function PhysicsPixels(width: nat, height: nat, step: nat): nat
    requires 0 < step
  {
    width * height / step / step
  }

  /** The number of cells the response grid is allocated with: `(width / step) * (height / step)`. */
  function GridSize(width: nat, height: nat, step: nat): nat
    requires 0 < step
  {
    (width / step) * (height / step)
  }

  /** `a * s / s == a` for a positive divisor. */
  lemma MulDivCancel(a: nat, s: nat)
    requires 0 < s
    ensures a * s / s == a
  {
    var q, r := a * s / s, a * s % s;
    assert a * s == q * s + r && 0 <= r < s;
    var d := a - q;
    assert d * s == r by {
      assert a * s - q * s == (a - q) * s;
    }
  }

  /**
   * When the stride divides both dimensions the loop bound is exactly the
   * number of allocated cells.
   */
  lemma DivisibleDimensionsCoverGrid(width: nat, height: nat, step: nat)
    requires 0 < step && width % step == 0 && height % step == 0
    ensures PhysicsPixels(width, height, step) == GridSize(width, height, step)
  {
    var a, b := width / step, height / step;
    assert width == a * step && height == b * step;
    assert width * height == (a * b * step) * step;
    MulDivCancel(a * b * step, step);
    MulDivCancel(a * b, step);
  }

}
