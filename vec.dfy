/**
 * The small vector algebra the simulation is written in: three-component
 * vectors (OptiX `float3`), quaternions stored as four components (`float4`,
 * scalar part in `x`, vector part in `(y, z, w)`), and row-major 3x3
 * matrices (`Matrix3x3`, entries 0..8).  Floating point is modelled by
 * exact reals.
 */
module Vec {

  datatype Vec3 = Vec3(x: real, y: real, z: real)

  /** A quaternion as the source stores it: `x` is the scalar part. */
  datatype Quat = Quat(x: real, y: real, z: real, w: real)

  /** A 3x3 matrix, row major: entry `3 * row + column`. */
  datatype Mat3 = Mat3(m0: real, m1: real, m2: real,
                       m3: real, m4: real, m5: real,
                       m6: real, m7: real, m8: real)
  {
    function At(i: nat): real
      requires i < 9
    {
      match i
      case 0 => m0 case 1 => m1 case 2 => m2
      case 3 => m3 case 4 => m4 case 5 => m5
      case 6 => m6 case 7 => m7 case _ => m8
    }

    function Trace(): real { m0 + m4 + m8 }
  }

  const Zero: Vec3 := Vec3(0.0, 0.0, 0.0)
  const Identity: Mat3 := Mat3(1.0, 0.0, 0.0, 0.0, 1.0, 0.0, 0.0, 0.0, 1.0)

  function Add(a: Vec3, b: Vec3): Vec3 { Vec3(a.x + b.x, a.y + b.y, a.z + b.z) }
  function Sub(a: Vec3, b: Vec3): Vec3 { Vec3(a.x - b.x, a.y - b.y, a.z - b.z) }
  function Neg(a: Vec3): Vec3 { Vec3(-a.x, -a.y, -a.z) }
  function Scale(c: real, a: Vec3): Vec3 { Vec3(c * a.x, c * a.y, c * a.z) }

  /** `float3 / float`: component-wise division. */
  function Div(a: Vec3, d: real): Vec3
    requires d != 0.0
  {
    Vec3(a.x / d, a.y / d, a.z / d)
  }

  function Dot(a: Vec3, b: Vec3): real { a.x * b.x + a.y * b.y + a.z * b.z }

  function Cross(a: Vec3, b: Vec3): Vec3
  {
    Vec3(a.y * b.z - a.z * b.y, a.z * b.x - a.x * b.z, a.x * b.y - a.y * b.x)
  }

  function QAdd(p: Quat, q: Quat): Quat { Quat(p.x + q.x, p.y + q.y, p.z + q.z, p.w + q.w) }
  function QScale(c: real, q: Quat): Quat { Quat(c * q.x, c * q.y, c * q.z, c * q.w) }
  function QNeg(q: Quat): Quat { Quat(-q.x, -q.y, -q.z, -q.w) }
  function QDot(p: Quat, q: Quat): real { p.x * q.x + p.y * q.y + p.z * q.z + p.w * q.w }

  /** Squared length of a quaternion as a four-vector. */
  function Norm2(q: Quat): real { QDot(q, q) }

  function MulVec(m: Mat3, v: Vec3): Vec3
  {
    Vec3(m.m0 * v.x + m.m1 * v.y + m.m2 * v.z,
         m.m3 * v.x + m.m4 * v.y + m.m5 * v.z,
         m.m6 * v.x + m.m7 * v.y + m.m8 * v.z)
  }

  function Mul(a: Mat3, b: Mat3): Mat3
  {
    Mat3(a.m0 * b.m0 + a.m1 * b.m3 + a.m2 * b.m6,
         a.m0 * b.m1 + a.m1 * b.m4 + a.m2 * b.m7,
         a.m0 * b.m2 + a.m1 * b.m5 + a.m2 * b.m8,
         a.m3 * b.m0 + a.m4 * b.m3 + a.m5 * b.m6,
         a.m3 * b.m1 + a.m4 * b.m4 + a.m5 * b.m7,
         a.m3 * b.m2 + a.m4 * b.m5 + a.m5 * b.m8,
         a.m6 * b.m0 + a.m7 * b.m3 + a.m8 * b.m6,
         a.m6 * b.m1 + a.m7 * b.m4 + a.m8 * b.m7,
         a.m6 * b.m2 + a.m7 * b.m5 + a.m8 * b.m8)
  }

  function Transpose(a: Mat3): Mat3
  {
    Mat3(a.m0, a.m3, a.m6, a.m1, a.m4, a.m7, a.m2, a.m5, a.m8)
  }

  /** `c (a + b) = c a + c b`. */
  lemma ScaleAdd(c: real, a: Vec3, b: Vec3)
    ensures Scale(c, Add(a, b)) == Add(Scale(c, a), Scale(c, b))
  {
    assert c * (a.x + b.x) == c * a.x + c * b.x;
    assert c * (a.y + b.y) == c * a.y + c * b.y;
    assert c * (a.z + b.z) == c * a.z + c * b.z;
  }

  /** `c (a - b) = c a - c b`. */
  lemma ScaleSub(c: real, a: Vec3, b: Vec3)
    ensures Scale(c, Sub(a, b)) == Sub(Scale(c, a), Scale(c, b))
  {
    assert c * (a.x - b.x) == c * a.x - c * b.x;
    assert c * (a.y - b.y) == c * a.y - c * b.y;
    assert c * (a.z - b.z) == c * a.z - c * b.z;
  }

  /** `c (d a) = (c d) a`. */
  lemma ScaleScale(c: real, d: real, a: Vec3)
    ensures Scale(c, Scale(d, a)) == Scale(c * d, a)
  {
    assert c * (d * a.x) == (c * d) * a.x;
    assert c * (d * a.y) == (c * d) * a.y;
    assert c * (d * a.z) == (c * d) * a.z;
  }

  /**
   * The platform square root, which the model cannot define, is passed
   * around as a function; this predicate is all that is known of it.
   */
  ghost predicate IsSqrt(sqrt: real -> real)
  {
    forall x :: 0.0 <= x ==> 0.0 <= sqrt(x) && sqrt(x) * sqrt(x) == x
  }

  /** A non-negative root of a square is the absolute value. */
  lemma SqrtOfSquare(s: real, a: real)
    requires 0.0 <= s && 0.0 <= a && s * s == a * a
    ensures s == a
  {
    assert (s - a) * (s + a) == 0.0;
    if s + a != 0.0 {
      assert s - a == (s - a) * (s + a) / (s + a);
    }
  }

  /** Multiplying by a non-negative number keeps the order. */
  lemma MulMonotone(a: real, b: real, c: real)
    requires 0.0 <= a && b <= c
    ensures a * b <= a * c
  {
  }

  /** OptiX `normalize` on a `float4`: divide by the Euclidean length. */
  function Normalize(q: Quat, sqrt: real -> real): (r: Quat)
    requires IsSqrt(sqrt) && 0.0 < Norm2(q)
    ensures Norm2(r) == 1.0
    ensures exists c :: 0.0 < c && r == QScale(c, q)
  {
    var n := sqrt(Norm2(q));
    assert n * n == Norm2(q);
    var c := 1.0 / n;
    var r := QScale(c, q);
    assert Norm2(r) == c * c * Norm2(q);
    assert c * c * (n * n) == 1.0;
    r
  }
}
