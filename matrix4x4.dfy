/**
  `VecMath::Matrix4x4<T>` without its trigonometric factories: a 4x4 matrix over the reals.
  The field `m<r><c>` holds the element in row r and column c; the source stores them
  column-major in memory, which does not change which element each name denotes.
*/
module Matrices {
  import V = Vectors3D

  /** The sixteen elements, listed in the row-major order of the element constructor. */
  datatype Mat4 = Mat4(
    m00: real, m01: real, m02: real, m03: real,
    m10: real, m11: real, m12: real, m13: real,
    m20: real, m21: real, m22: real, m23: real,
    m30: real, m31: real, m32: real, m33: real)

  /** The element in row `r` and column `c`. */
  function At(m: Mat4, r: nat, c: nat): real
    requires r < 4 && c < 4
  {
    if r == 0 then (if c == 0 then m.m00 else if c == 1 then m.m01 else if c == 2 then m.m02 else m.m03)
    else if r == 1 then (if c == 0 then m.m10 else if c == 1 then m.m11 else if c == 2 then m.m12 else m.m13)
    else if r == 2 then (if c == 0 then m.m20 else if c == 1 then m.m21 else if c == 2 then m.m22 else m.m23)
    else (if c == 0 then m.m30 else if c == 1 then m.m31 else if c == 2 then m.m32 else m.m33)
  }

  /** `Matrix4x4()` and `identity()`: ones on the diagonal, zeros elsewhere. */
  function Identity(): (m: Mat4)
    ensures forall r: nat, c: nat | r < 4 && c < 4 :: At(m, r, c) == if r == c then 1.0 else 0.0
  {
    Mat4(1.0, 0.0, 0.0, 0.0,
         0.0, 1.0, 0.0, 0.0,
         0.0, 0.0, 1.0, 0.0,
         0.0, 0.0, 0.0, 1.0)
  }

  /** `operator*`: each element of the product is a row of `a` times a column of `b`. */
  function Mul(a: Mat4, b: Mat4): Mat4 {
    Mat4(
      a.m00 * b.m00 + a.m01 * b.m10 + a.m02 * b.m20 + a.m03 * b.m30,
      a.m00 * b.m01 + a.m01 * b.m11 + a.m02 * b.m21 + a.m03 * b.m31,
      a.m00 * b.m02 + a.m01 * b.m12 + a.m02 * b.m22 + a.m03 * b.m32,
      a.m00 * b.m03 + a.m01 * b.m13 + a.m02 * b.m23 + a.m03 * b.m33,
      a.m10 * b.m00 + a.m11 * b.m10 + a.m12 * b.m20 + a.m13 * b.m30,
      a.m10 * b.m01 + a.m11 * b.m11 + a.m12 * b.m21 + a.m13 * b.m31,
      a.m10 * b.m02 + a.m11 * b.m12 + a.m12 * b.m22 + a.m13 * b.m32,
      a.m10 * b.m03 + a.m11 * b.m13 + a.m12 * b.m23 + a.m13 * b.m33,
      a.m20 * b.m00 + a.m21 * b.m10 + a.m22 * b.m20 + a.m23 * b.m30,
      a.m20 * b.m01 + a.m21 * b.m11 + a.m22 * b.m21 + a.m23 * b.m31,
      a.m20 * b.m02 + a.m21 * b.m12 + a.m22 * b.m22 + a.m23 * b.m32,
      a.m20 * b.m03 + a.m21 * b.m13 + a.m22 * b.m23 + a.m23 * b.m33,
      a.m30 * b.m00 + a.m31 * b.m10 + a.m32 * b.m20 + a.m33 * b.m30,
      a.m30 * b.m01 + a.m31 * b.m11 + a.m32 * b.m21 + a.m33 * b.m31,
      a.m30 * b.m02 + a.m31 * b.m12 + a.m32 * b.m22 + a.m33 * b.m32,
      a.m30 * b.m03 + a.m31 * b.m13 + a.m32 * b.m23 + a.m33 * b.m33)
  }

  /** The product of `a` and `b`, element by element, as the sum over k of `a[r][k] * b[k][c]`. */
  lemma MulIsRowTimesColumn(a: Mat4, b: Mat4, r: nat, c: nat)
    requires r < 4 && c < 4
    ensures At(Mul(a, b), r, c) == RowTimesColumn(a, b, r, c)
  {
    MulRow0(a, b);
    MulRow1(a, b);
    MulRow2(a, b);
    MulRow3(a, b);
  }

  lemma MulRow0(a: Mat4, b: Mat4)
    ensures Mul(a, b).m00 == RowTimesColumn(a, b, 0, 0)
    ensures Mul(a, b).m01 == RowTimesColumn(a, b, 0, 1)
    ensures Mul(a, b).m02 == RowTimesColumn(a, b, 0, 2)
    ensures Mul(a, b).m03 == RowTimesColumn(a, b, 0, 3)
  {
  }

  lemma MulRow1(a: Mat4, b: Mat4)
    ensures Mul(a, b).m10 == RowTimesColumn(a, b, 1, 0)
    ensures Mul(a, b).m11 == RowTimesColumn(a, b, 1, 1)
    ensures Mul(a, b).m12 == RowTimesColumn(a, b, 1, 2)
    ensures Mul(a, b).m13 == RowTimesColumn(a, b, 1, 3)
  {
  }

  lemma MulRow2(a: Mat4, b: Mat4)
    ensures Mul(a, b).m20 == RowTimesColumn(a, b, 2, 0)
    ensures Mul(a, b).m21 == RowTimesColumn(a, b, 2, 1)
    ensures Mul(a, b).m22 == RowTimesColumn(a, b, 2, 2)
    ensures Mul(a, b).m23 == RowTimesColumn(a, b, 2, 3)
  {
  }

  lemma MulRow3(a: Mat4, b: Mat4)
    ensures Mul(a, b).m30 == RowTimesColumn(a, b, 3, 0)
    ensures Mul(a, b).m31 == RowTimesColumn(a, b, 3, 1)
    ensures Mul(a, b).m32 == RowTimesColumn(a, b, 3, 2)
    ensures Mul(a, b).m33 == RowTimesColumn(a, b, 3, 3)
  {
  }

  /** Row `r` of `a` times column `c` of `b`. */
  function RowTimesColumn(a: Mat4, b: Mat4, r: nat, c: nat): real
    requires r < 4 && c < 4
  {
    At(a, r, 0) * At(b, 0, c) + At(a, r, 1) * At(b, 1, c) + At(a, r, 2) * At(b, 2, c) + At(a, r, 3) * At(b, 3, c)
  }

  /** The identity is neutral on both sides of the product. */
  lemma IdentityNeutral(m: Mat4)
    ensures Mul(Identity(), m) == m
    ensures Mul(m, Identity()) == m
  {
  }

  /** `translate(t)`: the identity with `t` in the bottom row (m30, m31, m32). */
  function Translate(t: V.Vec3): (m: Mat4)
    ensures m.m30 == t.x && m.m31 == t.y && m.m32 == t.z
    ensures forall r: nat, c: nat | r < 3 && c < 4 :: At(m, r, c) == At(Identity(), r, c)
    ensures m.m33 == 1.0
  {
    Mat4(1.0, 0.0, 0.0, 0.0,
         0.0, 1.0, 0.0, 0.0,
         0.0, 0.0, 1.0, 0.0,
         t.x, t.y, t.z, 1.0)
  }

  /** Composing two translations translates by the sum. */
  lemma TranslateCompose(a: V.Vec3, b: V.Vec3)
    ensures Mul(Translate(a), Translate(b)) == Translate(V.Add(a, b))
  {
  }

  /** `scale(s)`: the diagonal matrix with s.x, s.y, s.z and 1. */
  function Scale(s: V.Vec3): (m: Mat4)
    ensures m.m00 == s.x && m.m11 == s.y && m.m22 == s.z && m.m33 == 1.0
    ensures forall r: nat, c: nat | r < 4 && c < 4 && r != c :: At(m, r, c) == 0.0
  {
    Mat4(s.x, 0.0, 0.0, 0.0,
         0.0, s.y, 0.0, 0.0,
         0.0, 0.0, s.z, 0.0,
         0.0, 0.0, 0.0, 1.0)
  }

  /** Composing two scales scales by the componentwise product. */
  lemma ScaleCompose(a: V.Vec3, b: V.Vec3)
    ensures Mul(Scale(a), Scale(b)) == Scale(V.Vec3(a.x * b.x, a.y * b.y, a.z * b.z))
  {
  }

  /** A matrix object, for `operator*=`, which assigns `*this * other` to `*this`. */
  class Matrix4x4 {
    var elements: Mat4

    /** `Matrix4x4()`. */
    constructor ()
      ensures elements == Identity()
    {
      elements := Identity();
    }

    /** `Matrix4x4(m00_, m01_, ..., m33_)`: arguments in row-major order. */
    constructor FromElements(e: Mat4)
      ensures elements == e
    {
      elements := e;
    }

    /** `*this *= other`. */
    method MulAssign(other: Mat4)
      modifies this
      ensures elements == Mul(old(elements), other)
    {
      elements := Mul(elements, other);
    }
  }
}
