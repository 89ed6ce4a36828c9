/**
 * Conversions between orientation quaternions and rotation matrices, and the
 * length of a vector (OptiX/SDK/CSC494/MathHelpers.h).  Quaternions keep the
 * scalar part in `x`.
 */
module MathHelpers {
  import opened Vec

  /** Length of a vector; the result is the non-negative root of `v . v`. */
  function GetMagnitude(v: Vec3, sqrt: real -> real): (r: real)
    requires IsSqrt(sqrt)
    ensures 0.0 <= r && r * r == Dot(v, v)
  {
    sqrt(v.x * v.x + v.y * v.y + v.z * v.z)
  }

  /**
   * The rotation matrix of a quaternion.  The source calls `normalize` on its
   * argument and discards the result, so the matrix is built from the
   * quaternion exactly as given.
   */
  function QuaternionToRotation(q: Quat): Mat3
  {
    Mat3(1.0 - 2.0 * q.z * q.z - 2.0 * q.w * q.w,
         2.0 * q.y * q.z - 2.0 * q.x * q.w,
         2.0 * q.y * q.w + 2.0 * q.x * q.z,
         2.0 * q.y * q.z + 2.0 * q.x * q.w,
         1.0 - 2.0 * q.y * q.y - 2.0 * q.w * q.w,
         2.0 * q.z * q.w - 2.0 * q.x * q.y,
         2.0 * q.y * q.w - 2.0 * q.x * q.z,
         2.0 * q.z * q.w + 2.0 * q.x * q.y,
         1.0 - 2.0 * q.y * q.y - 2.0 * q.z * q.z)
  }

  /** Component `i` of a quaternion in storage order x, y, z, w. */
  function Component(q: Quat, i: nat): real
    requires i < 4
  {
    match i
    case 0 => q.x case 1 => q.y case 2 => q.z case _ => q.w
  }

  /**
   * The branch selector of the trace-negative case: the lowest index of a
   * largest diagonal entry (the comparisons are strict, so ties go to the
   * lower index).
   */
  function MaxDiagonal(m: Mat3): (i: nat)
    ensures i < 3
    ensures i == 0 <==> m.m0 >= m.m4 && m.m0 >= m.m8
    ensures i == 1 <==> m.m4 > m.m0 && m.m4 >= m.m8
    ensures i == 2 <==> m.m8 > m.m0 && m.m8 > m.m4
  {
    var i := if m.m4 > m.m0 then 1 else 0;
    if m.m8 > m.At(4 * i) then 2 else i
  }

  /** A non-negative root of a number of at least one is at least one. */
  lemma RootAtLeastOne(s: real, a: real)
    requires 0.0 <= s && s * s == a && 1.0 <= a
    ensures 1.0 <= s
    ensures 1.0 < a ==> 1.0 < s
  {
    if s < 1.0 {
      MulMonotone(s, s, 1.0);
      assert false;
    }
  }

  /** The trace-non-negative branch, given `s = sqrt(trace + 1)`. */
  function FromTrace(m: Mat3, s: real): Quat
    requires 1.0 <= s
  {
    var t := 0.5 / s;
    Quat(0.5 * s, (m.m7 - m.m5) * t, (m.m2 - m.m6) * t, (m.m3 - m.m1) * t)
  }

  /** The argument of the square root in case `i` of the trace-negative branch. */
  function DiagonalRootArgument(m: Mat3, i: nat): real
    requires i < 3
  {
    if i == 0 then (m.m0 - (m.m4 + m.m8)) + 1.0
    else if i == 1 then (m.m4 - (m.m8 + m.m0)) + 1.0
    else (m.m8 - (m.m0 + m.m4)) + 1.0
  }

  /**
   * Case `i` of the trace-negative branch, given `s` the root of
   * `DiagonalRootArgument(m, i)`: component `1 + i` is `s / 2`.
   */
  function FromDiagonal(m: Mat3, i: nat, s: real): Quat
    requires i < 3 && 1.0 <= s
  {
    var t := 0.5 / s;
    if i == 0 then Quat((m.m7 - m.m5) * t, 0.5 * s, (m.m1 + m.m3) * t, (m.m6 + m.m2) * t)
    else if i == 1 then Quat((m.m2 - m.m6) * t, (m.m1 + m.m3) * t, 0.5 * s, (m.m5 + m.m7) * t)
    else Quat((m.m3 - m.m1) * t, (m.m6 + m.m2) * t, (m.m5 + m.m7) * t, 0.5 * s)
  }

  /**
   * With a negative trace the root's argument for the largest diagonal entry,
   * `2 * max - trace + 1`, exceeds one, for every matrix.
   */
  lemma DiagonalRootArgumentAboveOne(m: Mat3)
    requires m.Trace() < 0.0
    ensures 1.0 < DiagonalRootArgument(m, MaxDiagonal(m))
  {
  }

  /**
   * Shepperd-style extraction of a quaternion from a rotation matrix.  The
   * component that is computed from a square root is at least one half, so
   * the division by the root is always defined: in the trace-negative branch
   * the root's argument exceeds one for every matrix.
   */
  function RotationToQuaternion(m: Mat3, sqrt: real -> real): (q: Quat)
    requires IsSqrt(sqrt)
    ensures 0.0 <= m.Trace() ==> 0.5 <= q.x
    ensures m.Trace() < 0.0 ==> 0.5 < Component(q, 1 + MaxDiagonal(m))
  {
    var trace := m.m0 + m.m4 + m.m8;
    if trace >= 0.0 then
      var s := sqrt(trace + 1.0);
      RootAtLeastOne(s, trace + 1.0);
      FromTrace(m, s)
    else
      var i := MaxDiagonal(m);
      var a := DiagonalRootArgument(m, i);
      var s := sqrt(a);
      DiagonalRootArgumentAboveOne(m);
      RootAtLeastOne(s, a);
      FromDiagonal(m, i, s)
  }

  /** The identity quaternion (scalar part one) gives the identity matrix. */
  lemma IdentityQuaternionGivesIdentity()
    ensures QuaternionToRotation(Quat(1.0, 0.0, 0.0, 0.0)) == Identity
  {
  }

  /** `q` and `-q` describe the same rotation: every entry is quadratic. */
  lemma RotationIgnoresSign(q: Quat)
    ensures QuaternionToRotation(QNeg(q)) == QuaternionToRotation(q)
  {
    var p := QNeg(q);
    assert p.x * p.y == q.x * q.y && p.x * p.z == q.x * q.z && p.x * p.w == q.x * q.w;
    assert p.y * p.z == q.y * q.z && p.y * p.w == q.y * q.w && p.z * p.w == q.z * q.w;
    assert p.y * p.y == q.y * q.y && p.z * p.z == q.z * q.z && p.w * p.w == q.w * q.w;
  }

  /** The trace of the matrix, which selects the branch of the inverse conversion. */
  lemma RotationTrace(q: Quat)
    ensures QuaternionToRotation(q).Trace() == 3.0 - 4.0 * (q.y * q.y + q.z * q.z + q.w * q.w)
  {
  }

  /** For a unit quaternion the matrix has orthonormal rows: `R * R^T = I`. */
  lemma RotationRowsOrthonormal(q: Quat)
    requires Norm2(q) == 1.0
    ensures Mul(QuaternionToRotation(q), Transpose(QuaternionToRotation(q))) == Identity
  {
    var r := QuaternionToRotation(q);
    assert q == Quat(q.x, q.y, q.z, q.w);
    Row0Unit(q.x, q.y, q.z, q.w, r);
    Rows01Orthogonal(q.x, q.y, q.z, q.w, r);
    Rows02Orthogonal(q.x, q.y, q.z, q.w, r);
    Row1Unit(q.x, q.y, q.z, q.w, r);
    Rows12Orthogonal(q.x, q.y, q.z, q.w, r);
    Row2Unit(q.x, q.y, q.z, q.w, r);
    RowsOrthonormal(r);
  }

  /** For a unit quaternion the matrix has orthonormal columns: `R^T * R = I`. */
  lemma RotationColumnsOrthonormal(q: Quat)
    requires Norm2(q) == 1.0
    ensures Mul(Transpose(QuaternionToRotation(q)), QuaternionToRotation(q)) == Identity
  {
    var r := QuaternionToRotation(q);
    assert q == Quat(q.x, q.y, q.z, q.w);
    Column0Unit(q.x, q.y, q.z, q.w, r);
    Columns01Orthogonal(q.x, q.y, q.z, q.w, r);
    Columns02Orthogonal(q.x, q.y, q.z, q.w, r);
    Column1Unit(q.x, q.y, q.z, q.w, r);
    Columns12Orthogonal(q.x, q.y, q.z, q.w, r);
    Column2Unit(q.x, q.y, q.z, q.w, r);
    ColumnsOrthonormal(r);
  }

  /** Orthonormal rows, entry by entry, mean `R * R^T = I`. */
  lemma RowsOrthonormal(r: Mat3)
    requires r.m0 * r.m0 + r.m1 * r.m1 + r.m2 * r.m2 == 1.0
    requires r.m0 * r.m3 + r.m1 * r.m4 + r.m2 * r.m5 == 0.0
    requires r.m0 * r.m6 + r.m1 * r.m7 + r.m2 * r.m8 == 0.0
    requires r.m3 * r.m3 + r.m4 * r.m4 + r.m5 * r.m5 == 1.0
    requires r.m3 * r.m6 + r.m4 * r.m7 + r.m5 * r.m8 == 0.0
    requires r.m6 * r.m6 + r.m7 * r.m7 + r.m8 * r.m8 == 1.0
    ensures Mul(r, Transpose(r)) == Identity
  {
  }

  /** Orthonormal columns, entry by entry, mean `R^T * R = I`. */
  lemma ColumnsOrthonormal(r: Mat3)
    requires r.m0 * r.m0 + r.m3 * r.m3 + r.m6 * r.m6 == 1.0
    requires r.m0 * r.m1 + r.m3 * r.m4 + r.m6 * r.m7 == 0.0
    requires r.m0 * r.m2 + r.m3 * r.m5 + r.m6 * r.m8 == 0.0
    requires r.m1 * r.m1 + r.m4 * r.m4 + r.m7 * r.m7 == 1.0
    requires r.m1 * r.m2 + r.m4 * r.m5 + r.m7 * r.m8 == 0.0
    requires r.m2 * r.m2 + r.m5 * r.m5 + r.m8 * r.m8 == 1.0
    ensures Mul(Transpose(r), r) == Identity
  {
  }

  /** The entries of the matrix of the quaternion `(x, y, z, w)`. */
  lemma RotationEntries(x: real, y: real, z: real, w: real, r: Mat3)
    requires r == QuaternionToRotation(Quat(x, y, z, w))
    ensures r.m0 == 1.0 - 2.0 * z * z - 2.0 * w * w
    ensures r.m1 == 2.0 * y * z - 2.0 * x * w
    ensures r.m2 == 2.0 * y * w + 2.0 * x * z
    ensures r.m3 == 2.0 * y * z + 2.0 * x * w
    ensures r.m4 == 1.0 - 2.0 * y * y - 2.0 * w * w
    ensures r.m5 == 2.0 * z * w - 2.0 * x * y
    ensures r.m6 == 2.0 * y * w - 2.0 * x * z
    ensures r.m7 == 2.0 * z * w + 2.0 * x * y
    ensures r.m8 == 1.0 - 2.0 * y * y - 2.0 * z * z
  {
  }

  /** Row 0 of the matrix of a unit quaternion has length one. */
  lemma Row0Unit(x: real, y: real, z: real, w: real, r: Mat3)
    requires x * x + y * y + z * z + w * w == 1.0
    requires r == QuaternionToRotation(Quat(x, y, z, w))
    ensures r.m0 * r.m0 + r.m1 * r.m1 + r.m2 * r.m2 == 1.0
  {
    RotationEntries(x, y, z, w, r);
    Row0Length(x, y, z, w);
  }

  /** The polynomial behind `Row0Unit`, for any quaternion. */
  lemma Row0Length(x: real, y: real, z: real, w: real)
    ensures (1.0 - 2.0 * z * z - 2.0 * w * w) * (1.0 - 2.0 * z * z - 2.0 * w * w) + (2.0 * y * z - 2.0 * x * w) * (2.0 * y * z - 2.0 * x * w) + (2.0 * y * w + 2.0 * x * z) * (2.0 * y * w + 2.0 * x * z)
         == 1.0 + -4.0 * (z * z + w * w) * (1.0 - (x * x + y * y + z * z + w * w))
  {
  }

  /** Rows 0 and 1 of the matrix of a unit quaternion are orthogonal. */
  lemma Rows01Orthogonal(x: real, y: real, z: real, w: real, r: Mat3)
    requires x * x + y * y + z * z + w * w == 1.0
    requires r == QuaternionToRotation(Quat(x, y, z, w))
    ensures r.m0 * r.m3 + r.m1 * r.m4 + r.m2 * r.m5 == 0.0
  {
    RotationEntries(x, y, z, w, r);
    Rows01Product(x, y, z, w);
  }

  /** The polynomial behind `Rows01Orthogonal`, for any quaternion. */
  lemma Rows01Product(x: real, y: real, z: real, w: real)
    ensures (1.0 - 2.0 * z * z - 2.0 * w * w) * (2.0 * y * z + 2.0 * x * w) + (2.0 * y * z - 2.0 * x * w) * (1.0 - 2.0 * y * y - 2.0 * w * w) + (2.0 * y * w + 2.0 * x * z) * (2.0 * z * w - 2.0 * x * y)
         == 4.0 * y * z * (1.0 - (x * x + y * y + z * z + w * w))
  {
  }

  /** Rows 0 and 2 of the matrix of a unit quaternion are orthogonal. */
  lemma Rows02Orthogonal(x: real, y: real, z: real, w: real, r: Mat3)
    requires x * x + y * y + z * z + w * w == 1.0
    requires r == QuaternionToRotation(Quat(x, y, z, w))
    ensures r.m0 * r.m6 + r.m1 * r.m7 + r.m2 * r.m8 == 0.0
  {
    RotationEntries(x, y, z, w, r);
    Rows02Product(x, y, z, w);
  }

  /** The polynomial behind `Rows02Orthogonal`, for any quaternion. */
  lemma Rows02Product(x: real, y: real, z: real, w: real)
    ensures (1.0 - 2.0 * z * z - 2.0 * w * w) * (2.0 * y * w - 2.0 * x * z) + (2.0 * y * z - 2.0 * x * w) * (2.0 * z * w + 2.0 * x * y) + (2.0 * y * w + 2.0 * x * z) * (1.0 - 2.0 * y * y - 2.0 * z * z)
         == 4.0 * y * w * (1.0 - (x * x + y * y + z * z + w * w))
  {
  }

  /** Row 1 of the matrix of a unit quaternion has length one. */
  lemma Row1Unit(x: real, y: real, z: real, w: real, r: Mat3)
    requires x * x + y * y + z * z + w * w == 1.0
    requires r == QuaternionToRotation(Quat(x, y, z, w))
    ensures r.m3 * r.m3 + r.m4 * r.m4 + r.m5 * r.m5 == 1.0
  {
    RotationEntries(x, y, z, w, r);
    Row1Length(x, y, z, w);
  }

  /** The polynomial behind `Row1Unit`, for any quaternion. */
  lemma Row1Length(x: real, y: real, z: real, w: real)
    ensures (2.0 * y * z + 2.0 * x * w) * (2.0 * y * z + 2.0 * x * w) + (1.0 - 2.0 * y * y - 2.0 * w * w) * (1.0 - 2.0 * y * y - 2.0 * w * w) + (2.0 * z * w - 2.0 * x * y) * (2.0 * z * w - 2.0 * x * y)
         == 1.0 + -4.0 * (y * y + w * w) * (1.0 - (x * x + y * y + z * z + w * w))
  {
  }

  /** Rows 1 and 2 of the matrix of a unit quaternion are orthogonal. */
  lemma Rows12Orthogonal(x: real, y: real, z: real, w: real, r: Mat3)
    requires x * x + y * y + z * z + w * w == 1.0
    requires r == QuaternionToRotation(Quat(x, y, z, w))
    ensures r.m3 * r.m6 + r.m4 * r.m7 + r.m5 * r.m8 == 0.0
  {
    RotationEntries(x, y, z, w, r);
    Rows12Product(x, y, z, w);
  }

  /** The polynomial behind `Rows12Orthogonal`, for any quaternion. */
  lemma Rows12Product(x: real, y: real, z: real, w: real)
    ensures (2.0 * y * z + 2.0 * x * w) * (2.0 * y * w - 2.0 * x * z) + (1.0 - 2.0 * y * y - 2.0 * w * w) * (2.0 * z * w + 2.0 * x * y) + (2.0 * z * w - 2.0 * x * y) * (1.0 - 2.0 * y * y - 2.0 * z * z)
         == 4.0 * z * w * (1.0 - (x * x + y * y + z * z + w * w))
  {
  }

  /** Row 2 of the matrix of a unit quaternion has length one. */
  lemma Row2Unit(x: real, y: real, z: real, w: real, r: Mat3)
    requires x * x + y * y + z * z + w * w == 1.0
    requires r == QuaternionToRotation(Quat(x, y, z, w))
    ensures r.m6 * r.m6 + r.m7 * r.m7 + r.m8 * r.m8 == 1.0
  {
    RotationEntries(x, y, z, w, r);
    Row2Length(x, y, z, w);
  }

  /** The polynomial behind `Row2Unit`, for any quaternion. */
  lemma Row2Length(x: real, y: real, z: real, w: real)
    ensures (2.0 * y * w - 2.0 * x * z) * (2.0 * y * w - 2.0 * x * z) + (2.0 * z * w + 2.0 * x * y) * (2.0 * z * w + 2.0 * x * y) + (1.0 - 2.0 * y * y - 2.0 * z * z) * (1.0 - 2.0 * y * y - 2.0 * z * z)
         == 1.0 + -4.0 * (y * y + z * z) * (1.0 - (x * x + y * y + z * z + w * w))
  {
  }

  /** Column 0 of the matrix of a unit quaternion has length one. */
  lemma Column0Unit(x: real, y: real, z: real, w: real, r: Mat3)
    requires x * x + y * y + z * z + w * w == 1.0
    requires r == QuaternionToRotation(Quat(x, y, z, w))
    ensures r.m0 * r.m0 + r.m3 * r.m3 + r.m6 * r.m6 == 1.0
  {
    RotationEntries(x, y, z, w, r);
    Column0Length(x, y, z, w);
  }

  /** The polynomial behind `Column0Unit`, for any quaternion. */
  lemma Column0Length(x: real, y: real, z: real, w: real)
    ensures (1.0 - 2.0 * z * z - 2.0 * w * w) * (1.0 - 2.0 * z * z - 2.0 * w * w) + (2.0 * y * z + 2.0 * x * w) * (2.0 * y * z + 2.0 * x * w) + (2.0 * y * w - 2.0 * x * z) * (2.0 * y * w - 2.0 * x * z)
         == 1.0 + -4.0 * (z * z + w * w) * (1.0 - (x * x + y * y + z * z + w * w))
  {
  }

  /** Columns 0 and 1 of the matrix of a unit quaternion are orthogonal. */
  lemma Columns01Orthogonal(x: real, y: real, z: real, w: real, r: Mat3)
    requires x * x + y * y + z * z + w * w == 1.0
    requires r == QuaternionToRotation(Quat(x, y, z, w))
    ensures r.m0 * r.m1 + r.m3 * r.m4 + r.m6 * r.m7 == 0.0
  {
    RotationEntries(x, y, z, w, r);
    Columns01Product(x, y, z, w);
  }

  /** The polynomial behind `Columns01Orthogonal`, for any quaternion. */
  lemma Columns01Product(x: real, y: real, z: real, w: real)
    ensures (1.0 - 2.0 * z * z - 2.0 * w * w) * (2.0 * y * z - 2.0 * x * w) + (2.0 * y * z + 2.0 * x * w) * (1.0 - 2.0 * y * y - 2.0 * w * w) + (2.0 * y * w - 2.0 * x * z) * (2.0 * z * w + 2.0 * x * y)
         == 4.0 * y * z * (1.0 - (x * x + y * y + z * z + w * w))
  {
  }

  /** Columns 0 and 2 of the matrix of a unit quaternion are orthogonal. */
  lemma Columns02Orthogonal(x: real, y: real, z: real, w: real, r: Mat3)
    requires x * x + y * y + z * z + w * w == 1.0
    requires r == QuaternionToRotation(Quat(x, y, z, w))
    ensures r.m0 * r.m2 + r.m3 * r.m5 + r.m6 * r.m8 == 0.0
  {
    RotationEntries(x, y, z, w, r);
    Columns02Product(x, y, z, w);
  }

  /** The polynomial behind `Columns02Orthogonal`, for any quaternion. */
  lemma Columns02Product(x: real, y: real, z: real, w: real)
    ensures (1.0 - 2.0 * z * z - 2.0 * w * w) * (2.0 * y * w + 2.0 * x * z) + (2.0 * y * z + 2.0 * x * w) * (2.0 * z * w - 2.0 * x * y) + (2.0 * y * w - 2.0 * x * z) * (1.0 - 2.0 * y * y - 2.0 * z * z)
         == 4.0 * y * w * (1.0 - (x * x + y * y + z * z + w * w))
  {
  }

  /** Column 1 of the matrix of a unit quaternion has length one. */
  lemma Column1Unit(x: real, y: real, z: real, w: real, r: Mat3)
    requires x * x + y * y + z * z + w * w == 1.0
    requires r == QuaternionToRotation(Quat(x, y, z, w))
    ensures r.m1 * r.m1 + r.m4 * r.m4 + r.m7 * r.m7 == 1.0
  {
    RotationEntries(x, y, z, w, r);
    Column1Length(x, y, z, w);
  }

  /** The polynomial behind `Column1Unit`, for any quaternion. */
  lemma Column1Length(x: real, y: real, z: real, w: real)
    ensures (2.0 * y * z - 2.0 * x * w) * (2.0 * y * z - 2.0 * x * w) + (1.0 - 2.0 * y * y - 2.0 * w * w) * (1.0 - 2.0 * y * y - 2.0 * w * w) + (2.0 * z * w + 2.0 * x * y) * (2.0 * z * w + 2.0 * x * y)
         == 1.0 + -4.0 * (y * y + w * w) * (1.0 - (x * x + y * y + z * z + w * w))
  {
  }

  /** Columns 1 and 2 of the matrix of a unit quaternion are orthogonal. */
  lemma Columns12Orthogonal(x: real, y: real, z: real, w: real, r: Mat3)
    requires x * x + y * y + z * z + w * w == 1.0
    requires r == QuaternionToRotation(Quat(x, y, z, w))
    ensures r.m1 * r.m2 + r.m4 * r.m5 + r.m7 * r.m8 == 0.0
  {
    RotationEntries(x, y, z, w, r);
    Columns12Product(x, y, z, w);
  }

  /** The polynomial behind `Columns12Orthogonal`, for any quaternion. */
  lemma Columns12Product(x: real, y: real, z: real, w: real)
    ensures (2.0 * y * z - 2.0 * x * w) * (2.0 * y * w + 2.0 * x * z) + (1.0 - 2.0 * y * y - 2.0 * w * w) * (2.0 * z * w - 2.0 * x * y) + (2.0 * z * w + 2.0 * x * y) * (1.0 - 2.0 * y * y - 2.0 * z * z)
         == 4.0 * z * w * (1.0 - (x * x + y * y + z * z + w * w))
  {
  }

  /** Column 2 of the matrix of a unit quaternion has length one. */
  lemma Column2Unit(x: real, y: real, z: real, w: real, r: Mat3)
    requires x * x + y * y + z * z + w * w == 1.0
    requires r == QuaternionToRotation(Quat(x, y, z, w))
    ensures r.m2 * r.m2 + r.m5 * r.m5 + r.m8 * r.m8 == 1.0
  {
    RotationEntries(x, y, z, w, r);
    Column2Length(x, y, z, w);
  }

  /** The polynomial behind `Column2Unit`, for any quaternion. */
  lemma Column2Length(x: real, y: real, z: real, w: real)
    ensures (2.0 * y * w + 2.0 * x * z) * (2.0 * y * w + 2.0 * x * z) + (2.0 * z * w - 2.0 * x * y) * (2.0 * z * w - 2.0 * x * y) + (1.0 - 2.0 * y * y - 2.0 * z * z) * (1.0 - 2.0 * y * y - 2.0 * z * z)
         == 1.0 + -4.0 * (y * y + z * z) * (1.0 - (x * x + y * y + z * z + w * w))
  {
  }

  /** Sign of a real, with zero counted as positive. */
  function Sign(c: real): real
  {
    if c < 0.0 then -1.0 else 1.0
  }

  /**
   * Round trip: converting a unit quaternion to a matrix and back gives the
   * quaternion or its negation (which describes the same rotation), given
   * exact square roots.
   */
  lemma RoundTrip(q: Quat, sqrt: real -> real)
    requires IsSqrt(sqrt) && Norm2(q) == 1.0
    ensures var p := RotationToQuaternion(QuaternionToRotation(q), sqrt); p == q || p == QNeg(q)
  {
    var r := QuaternionToRotation(q);
    var x, y, z, w := q.x, q.y, q.z, q.w;
    assert q == Quat(x, y, z, w);
    RotationSumsAndDifferences(x, y, z, w, r);
    var trace := r.m0 + r.m4 + r.m8;
    if trace >= 0.0 {
      var s := sqrt(trace + 1.0);
      RootAtLeastOne(s, trace + 1.0);
      FromTraceInverts(x, y, z, w, r, s);
      SignedIsPlusMinus(x, q);
    } else {
      var i := MaxDiagonal(r);
      var s := sqrt(DiagonalRootArgument(r, i));
      DiagonalRootArgumentAboveOne(r);
      RootAtLeastOne(s, DiagonalRootArgument(r, i));
      if i == 0 {
        FromDiagonal0Inverts(x, z, y, w, r, s);
        SignedIsPlusMinus(y, q);
      } else if i == 1 {
        FromDiagonal1Inverts(x, y, z, w, r, s);
        SignedIsPlusMinus(z, q);
      } else {
        FromDiagonal2Inverts(x, y, w, z, r, s);
        SignedIsPlusMinus(w, q);
      }
    }
  }

  /** The sums and differences of entries that the inverse conversion reads. */
  lemma RotationSumsAndDifferences(x: real, y: real, z: real, w: real, r: Mat3)
    requires r == QuaternionToRotation(Quat(x, y, z, w))
    ensures r.m7 - r.m5 == 4.0 * x * y && r.m2 - r.m6 == 4.0 * x * z && r.m3 - r.m1 == 4.0 * x * w
    ensures r.m1 + r.m3 == 4.0 * y * z && r.m6 + r.m2 == 4.0 * y * w && r.m5 + r.m7 == 4.0 * z * w
    ensures DiagonalRootArgument(r, 0) == 4.0 * y * y
    ensures DiagonalRootArgument(r, 1) == 4.0 * z * z
    ensures DiagonalRootArgument(r, 2) == 4.0 * w * w
    ensures r.m0 + r.m4 + r.m8 + 1.0 == 4.0 - 4.0 * (y * y + z * z + w * w)
  {
    RotationEntries(x, y, z, w, r);
  }

  /** The non-negative root of `4 c^2` is `2 |c|`, so half of it is `Sign(c) * c`. */
  lemma RootOfFourSquares(s: real, c: real)
    requires 0.0 <= s && s * s == 4.0 * c * c
    ensures s == 2.0 * (if c < 0.0 then -c else c)
    ensures 0.5 * s == Sign(c) * c
  {
    var a := 2.0 * (if c < 0.0 then -c else c);
    assert a * a == 4.0 * c * c;
    SqrtOfSquare(s, a);
  }

  /** Dividing `4 c d` by twice the root `2 |c|` recovers `d` up to the sign of `c`. */
  lemma ScaledByRoot(c: real, d: real, e: real, s: real)
    requires c != 0.0 && s == 2.0 * (if c < 0.0 then -c else c)
    requires e == 4.0 * c * d
    ensures e * (0.5 / s) == Sign(c) * d
  {
    if c < 0.0 {
      assert e * (0.5 / s) == (4.0 * c * d) / (4.0 * -c);
    } else {
      assert e * (0.5 / s) == (4.0 * c * d) / (4.0 * c);
    }
  }

  /** The trace branch applied to the matrix of `(x, y, z, w)` with `s = 2 |x|`. */
  lemma FromTraceInverts(x: real, y: real, z: real, w: real, r: Mat3, s: real)
    requires r.m7 - r.m5 == 4.0 * x * y && r.m2 - r.m6 == 4.0 * x * z && r.m3 - r.m1 == 4.0 * x * w
    requires 1.0 <= s && s * s == 4.0 * x * x
    ensures FromTrace(r, s) == QScale(Sign(x), Quat(x, y, z, w))
  {
    RootOfFourSquares(s, x);
    ScaledByRoot(x, y, r.m7 - r.m5, s);
    ScaledByRoot(x, z, r.m2 - r.m6, s);
    ScaledByRoot(x, w, r.m3 - r.m1, s);
  }

  /**
   * Case 0 of the trace-negative branch applied to the matrix of
   * `Quat(a, c, b, d)`, whose component `y` is `c`, with `s = 2 |c|`.
   */
  lemma FromDiagonal0Inverts(a: real, b: real, c: real, d: real, r: Mat3, s: real)
    requires 1.0 <= s && s * s == 4.0 * c * c
    requires r.m7 - r.m5 == 4.0 * a * c && r.m1 + r.m3 == 4.0 * c * b && r.m6 + r.m2 == 4.0 * c * d
    ensures FromDiagonal(r, 0, s) == QScale(Sign(c), Quat(a, c, b, d))
  {
    RootOfFourSquares(s, c);
    ScaledByRoot(c, a, r.m7 - r.m5, s);
    ScaledByRoot(c, b, r.m1 + r.m3, s);
    ScaledByRoot(c, d, r.m6 + r.m2, s);
  }

  /**
   * Case 1 of the trace-negative branch applied to the matrix of
   * `Quat(a, b, c, d)`, whose component `z` is `c`, with `s = 2 |c|`.
   */
  lemma FromDiagonal1Inverts(a: real, b: real, c: real, d: real, r: Mat3, s: real)
    requires 1.0 <= s && s * s == 4.0 * c * c
    requires r.m2 - r.m6 == 4.0 * a * c && r.m1 + r.m3 == 4.0 * b * c && r.m5 + r.m7 == 4.0 * c * d
    ensures FromDiagonal(r, 1, s) == QScale(Sign(c), Quat(a, b, c, d))
  {
    RootOfFourSquares(s, c);
    ScaledByRoot(c, a, r.m2 - r.m6, s);
    ScaledByRoot(c, b, r.m1 + r.m3, s);
    ScaledByRoot(c, d, r.m5 + r.m7, s);
  }

  /**
   * Case 2 of the trace-negative branch applied to the matrix of
   * `Quat(a, b, d, c)`, whose component `w` is `c`, with `s = 2 |c|`.
   */
  lemma FromDiagonal2Inverts(a: real, b: real, c: real, d: real, r: Mat3, s: real)
    requires 1.0 <= s && s * s == 4.0 * c * c
    requires r.m3 - r.m1 == 4.0 * a * c && r.m6 + r.m2 == 4.0 * b * c && r.m5 + r.m7 == 4.0 * d * c
    ensures FromDiagonal(r, 2, s) == QScale(Sign(c), Quat(a, b, d, c))
  {
    RootOfFourSquares(s, c);
    ScaledByRoot(c, a, r.m3 - r.m1, s);
    ScaledByRoot(c, b, r.m6 + r.m2, s);
    ScaledByRoot(c, d, r.m5 + r.m7, s);
  }

  /** Scaling by a sign gives the quaternion or its negation. */
  lemma SignedIsPlusMinus(c: real, q: Quat)
    ensures QScale(Sign(c), q) == q || QScale(Sign(c), q) == QNeg(q)
  {
  }
}
