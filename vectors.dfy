/** Unity's `Vector3` and `Quaternion` arithmetic, over real numbers. */
module Vectors {
  import opened UnityMath

  datatype Vec3 = Vec3(x: real, y: real, z: real)

  /** `Vector3.zero` and `Vector3.forward`. */
  const Zero: Vec3 := Vec3(0.0, 0.0, 0.0)
  const Forward: Vec3 := Vec3(0.0, 0.0, 1.0)

  function Add(a: Vec3, b: Vec3): Vec3 { Vec3(a.x + b.x, a.y + b.y, a.z + b.z) }

  function Sub(a: Vec3, b: Vec3): Vec3 { Vec3(a.x - b.x, a.y - b.y, a.z - b.z) }

  function Neg(a: Vec3): Vec3 { Vec3(-a.x, -a.y, -a.z) }

  /** `a * k` and `k * a`. */
  function Scale(a: Vec3, k: real): Vec3 { Vec3(a.x * k, a.y * k, a.z * k) }

  /** `a / k`. */
  function DivBy(a: Vec3, k: real): Vec3
    requires k != 0.0
  {
    Vec3(a.x / k, a.y / k, a.z / k)
  }

  /** `Vector3.Cross`. */
  function Cross(a: Vec3, b: Vec3): Vec3
  {
    Vec3(a.y * b.z - a.z * b.y, a.z * b.x - a.x * b.z, a.x * b.y - a.y * b.x)
  }

  /** A cross product is perpendicular to both factors. */
  lemma CrossPerpendicular(a: Vec3, b: Vec3)
    ensures Dot(a, Cross(a, b)) == 0.0 && Dot(b, Cross(a, b)) == 0.0
  {
    var c := Cross(a, b);
    assert a.x * c.x == a.x * a.y * b.z - a.x * a.z * b.y;
    assert a.y * c.y == a.y * a.z * b.x - a.y * a.x * b.z;
    assert a.z * c.z == a.z * a.x * b.y - a.z * a.y * b.x;
    assert b.x * c.x == b.x * a.y * b.z - b.x * a.z * b.y;
    assert b.y * c.y == b.y * a.z * b.x - b.y * a.x * b.z;
    assert b.z * c.z == b.z * a.x * b.y - b.z * a.y * b.x;
  }

  function Dot(a: Vec3, b: Vec3): real { a.x * b.x + a.y * b.y + a.z * b.z }

  /** `Vector3.sqrMagnitude`. */
  function SqrMagnitude(a: Vec3): (r: real)
    ensures r >= 0.0
  {
    a.x * a.x + a.y * a.y + a.z * a.z
  }

  /** `v.normalized`: the zero vector when the magnitude is at most 1e-5, and
      otherwise the vector that, scaled by the magnitude, gives back `v`. */
  function Normalized(lib: MathLib, v: Vec3): (r: Vec3)
    ensures lib.sqrt(SqrMagnitude(v)) > 0.00001 ==> Scale(r, lib.sqrt(SqrMagnitude(v))) == v
    ensures lib.sqrt(SqrMagnitude(v)) <= 0.00001 ==> r == Zero
  {
    var magnitude := lib.sqrt(SqrMagnitude(v));
    if magnitude > 0.00001 then
      ScaleDivBy(v, magnitude);
      DivBy(v, magnitude)
    else Zero
  }

  /** Dividing by a non-zero number and scaling back restores the vector. */
  lemma ScaleDivBy(a: Vec3, k: real)
    requires k != 0.0
    ensures Scale(DivBy(a, k), k) == a
  {
    assert (a.x / k) * k == a.x;
    assert (a.y / k) * k == a.y;
    assert (a.z / k) * k == a.z;
  }

  /** `Vector3.Lerp(a, b, t)`: `Mathf.Lerp` in every component, with one clamped `t`. */
  function Lerp3(a: Vec3, b: Vec3, t: real): (r: Vec3)
    ensures Between(a, r, b)
    ensures t <= 0.0 ==> r == a
    ensures t >= 1.0 ==> r == b
  {
    Vec3(Lerp(a.x, b.x, t), Lerp(a.y, b.y, t), Lerp(a.z, b.z, t))
  }

  /** `r` lies on the segment between `a` and `b` in every component. */
  predicate Between(a: Vec3, r: Vec3, b: Vec3)
  {
    && (a.x <= r.x <= b.x || b.x <= r.x <= a.x)
    && (a.y <= r.y <= b.y || b.y <= r.y <= a.y)
    && (a.z <= r.z <= b.z || b.z <= r.z <= a.z)
  }

  /** Unity's `Quaternion`, stored as (x, y, z, w). */
  datatype Quat = Quat(x: real, y: real, z: real, w: real)

  const Identity: Quat := Quat(0.0, 0.0, 0.0, 1.0)

  /** The squared norm. Unity keeps its rotations at norm 1. */
  function SqrNorm(q: Quat): real { q.x * q.x + q.y * q.y + q.z * q.z + q.w * q.w }

  predicate IsUnit(q: Quat) { SqrNorm(q) == 1.0 }

  /** `lhs * rhs` (Hamilton product): the identity is neutral on either side. */
  function QMul(lhs: Quat, rhs: Quat): (r: Quat)
    ensures lhs == Identity ==> r == rhs
    ensures rhs == Identity ==> r == lhs
  {
    Quat(
      lhs.w * rhs.x + lhs.x * rhs.w + lhs.y * rhs.z - lhs.z * rhs.y,
      lhs.w * rhs.y + lhs.y * rhs.w + lhs.z * rhs.x - lhs.x * rhs.z,
      lhs.w * rhs.z + lhs.z * rhs.w + lhs.x * rhs.y - lhs.y * rhs.x,
      lhs.w * rhs.w - lhs.x * rhs.x - lhs.y * rhs.y - lhs.z * rhs.z)
  }

  /** `Quaternion.Inverse`: Unity returns the conjugate, which undoes a unit
      quaternion on either side and keeps the norm. */
  function Inverse(q: Quat): (r: Quat)
    ensures QMul(q, r) == Quat(0.0, 0.0, 0.0, SqrNorm(q))
    ensures QMul(r, q) == Quat(0.0, 0.0, 0.0, SqrNorm(q))
    ensures SqrNorm(r) == SqrNorm(q)
  {
    Quat(-q.x, -q.y, -q.z, q.w)
  }

  /** A 3x3 matrix, by rows. */
  datatype Mat3 = Mat3(row0: Vec3, row1: Vec3, row2: Vec3)

  function Apply(m: Mat3, p: Vec3): Vec3 { Vec3(Dot(m.row0, p), Dot(m.row1, p), Dot(m.row2, p)) }

  /** The rotation matrix of `rotation * point`: its columns are the images of the
      three axes. */
  function RotationMatrix(q: Quat): Mat3
  {
    Transpose(Mat3(Column0(q.x, q.y, q.z, q.w), Column1(q.x, q.y, q.z, q.w), Column2(q.x, q.y, q.z, q.w)))
  }

  function Transpose(m: Mat3): Mat3
  {
    Mat3(Vec3(m.row0.x, m.row1.x, m.row2.x), Vec3(m.row0.y, m.row1.y, m.row2.y), Vec3(m.row0.z, m.row1.z, m.row2.z))
  }

  /** The columns of the rotation matrix of (x, y, z, w). */
  function Column0(x: real, y: real, z: real, w: real): Vec3
  {
    Vec3(1.0 - 2.0 * (y * y + z * z), 2.0 * (x * y + w * z), 2.0 * (x * z - w * y))
  }

  function Column1(x: real, y: real, z: real, w: real): Vec3
  {
    Vec3(2.0 * (x * y - w * z), 1.0 - 2.0 * (x * x + z * z), 2.0 * (y * z + w * x))
  }

  function Column2(x: real, y: real, z: real, w: real): Vec3
  {
    Vec3(2.0 * (x * z + w * y), 2.0 * (y * z - w * x), 1.0 - 2.0 * (x * x + y * y))
  }

  /** `rotation * point`, Unity's quaternion-vector product: the identity rotation
      leaves a point where it is, and no rotation moves the origin. */
  function Rotate(q: Quat, p: Vec3): (r: Vec3)
    ensures q == Identity ==> r == p
    ensures p == Zero ==> r == Zero
  {
    Apply(RotationMatrix(q), p)
  }

  /** The matrix of the conjugate has the columns of the matrix as its rows. */
  lemma RotationMatrixInverse(q: Quat)
    ensures RotationMatrix(Inverse(q)) == Mat3(Column0(q.x, q.y, q.z, q.w), Column1(q.x, q.y, q.z, q.w), Column2(q.x, q.y, q.z, q.w))
  {
    ConjugateColumn0(q.x, q.y, q.z, q.w);
    ConjugateColumn1(q.x, q.y, q.z, q.w);
    ConjugateColumn2(q.x, q.y, q.z, q.w);
  }

  /** Negating the vector part turns each column into the matching row. */
  lemma ConjugateColumn0(x: real, y: real, z: real, w: real)
    ensures Column0(-x, -y, -z, w) == Vec3(Column0(x, y, z, w).x, Column1(x, y, z, w).x, Column2(x, y, z, w).x)
  {
  }

  lemma ConjugateColumn1(x: real, y: real, z: real, w: real)
    ensures Column1(-x, -y, -z, w) == Vec3(Column0(x, y, z, w).y, Column1(x, y, z, w).y, Column2(x, y, z, w).y)
  {
  }

  lemma ConjugateColumn2(x: real, y: real, z: real, w: real)
    ensures Column2(-x, -y, -z, w) == Vec3(Column0(x, y, z, w).z, Column1(x, y, z, w).z, Column2(x, y, z, w).z)
  {
  }

  function Norm4(x: real, y: real, z: real, w: real): real { x * x + y * y + z * z + w * w }

  /** The columns of a unit quaternion's matrix are unit vectors and pairwise
      perpendicular. */
  lemma UnitColumns(x: real, y: real, z: real, w: real)
    requires Norm4(x, y, z, w) == 1.0
    ensures Dot(Column0(x, y, z, w), Column0(x, y, z, w)) == 1.0
    ensures Dot(Column1(x, y, z, w), Column1(x, y, z, w)) == 1.0
    ensures Dot(Column2(x, y, z, w), Column2(x, y, z, w)) == 1.0
    ensures Dot(Column0(x, y, z, w), Column1(x, y, z, w)) == 0.0
    ensures Dot(Column0(x, y, z, w), Column2(x, y, z, w)) == 0.0
    ensures Dot(Column1(x, y, z, w), Column2(x, y, z, w)) == 0.0
  {
    var e := 1.0 - Norm4(x, y, z, w);
    Gram00(x, y, z, w);
    Gram11(x, y, z, w);
    Gram22(x, y, z, w);
    Gram01(x, y, z, w);
    Gram02(x, y, z, w);
    Gram12(x, y, z, w);
    MulZero(y * y + z * z, e);
    MulZero(x * x + z * z, e);
    MulZero(x * x + y * y, e);
    MulZero(x * y, e);
    MulZero(x * z, e);
    MulZero(y * z, e);
  }

  lemma MulZero(a: real, e: real)
    requires e == 0.0
    ensures a * e == 0.0
  {
  }

  /** For any (x, y, z, w), each product of two columns differs from the identity
      matrix's entry by a multiple of 1 - |q|². */
  lemma Gram00(x: real, y: real, z: real, w: real)
    ensures Dot(Column0(x, y, z, w), Column0(x, y, z, w)) == 1.0 - 4.0 * ((y * y + z * z) * (1.0 - Norm4(x, y, z, w)))
  {
  }

  lemma Gram11(x: real, y: real, z: real, w: real)
    ensures Dot(Column1(x, y, z, w), Column1(x, y, z, w)) == 1.0 - 4.0 * ((x * x + z * z) * (1.0 - Norm4(x, y, z, w)))
  {
  }

  lemma Gram22(x: real, y: real, z: real, w: real)
    ensures Dot(Column2(x, y, z, w), Column2(x, y, z, w)) == 1.0 - 4.0 * ((x * x + y * y) * (1.0 - Norm4(x, y, z, w)))
  {
  }

  lemma Gram01(x: real, y: real, z: real, w: real)
    ensures Dot(Column0(x, y, z, w), Column1(x, y, z, w)) == 4.0 * ((x * y) * (1.0 - Norm4(x, y, z, w)))
  {
  }

  lemma Gram02(x: real, y: real, z: real, w: real)
    ensures Dot(Column0(x, y, z, w), Column2(x, y, z, w)) == 4.0 * ((x * z) * (1.0 - Norm4(x, y, z, w)))
  {
  }

  lemma Gram12(x: real, y: real, z: real, w: real)
    ensures Dot(Column1(x, y, z, w), Column2(x, y, z, w)) == 4.0 * ((y * z) * (1.0 - Norm4(x, y, z, w)))
  {
  }

  /** A matrix with orthonormal columns: its transpose undoes it. */
  lemma OrthonormalRoundTrip(c0: Vec3, c1: Vec3, c2: Vec3, p: Vec3)
    requires Dot(c0, c0) == 1.0 && Dot(c1, c1) == 1.0 && Dot(c2, c2) == 1.0
    requires Dot(c0, c1) == 0.0 && Dot(c0, c2) == 0.0 && Dot(c1, c2) == 0.0
    ensures Apply(Mat3(c0, c1, c2), Apply(Transpose(Mat3(c0, c1, c2)), p)) == p
  {
  }

  /** A unit quaternion's matrix is orthogonal, so the conjugate's matrix undoes it. */
  lemma RotationRoundTrip(q: Quat, p: Vec3)
    requires IsUnit(q)
    ensures Apply(RotationMatrix(Inverse(q)), Apply(RotationMatrix(q), p)) == p
  {
    var x, y, z, w := q.x, q.y, q.z, q.w;
    RotationMatrixInverse(q);
    UnitColumns(x, y, z, w);
    OrthonormalRoundTrip(Column0(x, y, z, w), Column1(x, y, z, w), Column2(x, y, z, w), p);
  }

  lemma DotLinear(r: Vec3, a: Vec3, b: Vec3)
    ensures Dot(r, Zero) == 0.0
    ensures Dot(r, Add(a, b)) == Dot(r, a) + Dot(r, b)
  {
    assert r.x * (a.x + b.x) == r.x * a.x + r.x * b.x;
    assert r.y * (a.y + b.y) == r.y * a.y + r.y * b.y;
    assert r.z * (a.z + b.z) == r.z * a.z + r.z * b.z;
  }

  /** A unit quaternion's rotation and its inverse's undo each other, in either order. */
  lemma RotateInverse(q: Quat, p: Vec3)
    requires IsUnit(q)
    ensures Rotate(Inverse(q), Rotate(q, p)) == p
    ensures Rotate(q, Rotate(Inverse(q), p)) == p
  {
    RotationRoundTrip(q, p);
    assert Inverse(Inverse(q)) == q;
    assert IsUnit(Inverse(q));
    RotationRoundTrip(Inverse(q), p);
  }

  /** Rotation commutes with scaling. */
  lemma RotateScale(q: Quat, p: Vec3, k: real)
    ensures Rotate(q, Scale(p, k)) == Scale(Rotate(q, p), k)
  {
    var m := RotationMatrix(q);
    DotScale(m.row0, p, k);
    DotScale(m.row1, p, k);
    DotScale(m.row2, p, k);
  }

  lemma DotScale(r: Vec3, p: Vec3, k: real)
    ensures Dot(r, Scale(p, k)) == Dot(r, p) * k
  {
    assert r.x * (p.x * k) + r.y * (p.y * k) + r.z * (p.z * k) == (r.x * p.x + r.y * p.y + r.z * p.z) * k;
  }

  /** Rotation is linear in the rotated vector. */
  lemma RotateLinear(q: Quat, a: Vec3, b: Vec3)
    ensures Rotate(q, Add(a, b)) == Add(Rotate(q, a), Rotate(q, b))
  {
    var m := RotationMatrix(q);
    DotLinear(m.row0, a, b);
    DotLinear(m.row1, a, b);
    DotLinear(m.row2, a, b);
  }
}
