/**
  `VecMath::Vector3D<T>`: a three-component vector over the reals. The free operators and
  the `const` members are functions on the value type `Vec3`; the compound assignments and
  `normalize()`, which change `x`, `y` and `z` in place, are methods of the class
  `Vector3D`.
*/
module Vectors3D {
  import opened Wrappers
  import opened VecMathCommon

  datatype Vec3 = Vec3(x: real, y: real, z: real)

  /** `Vector3D()`: the default constructor gives the zero vector. */
  function Zero(): Vec3 {
    Vec3(0.0, 0.0, 0.0)
  }

  /** `lhs + rhs`. */
  function Add(a: Vec3, b: Vec3): Vec3 {
    Vec3(a.x + b.x, a.y + b.y, a.z + b.z)
  }

  /** `lhs - rhs`. */
  function Sub(a: Vec3, b: Vec3): Vec3 {
    Vec3(a.x - b.x, a.y - b.y, a.z - b.z)
  }

  /** Unary `-vec`. */
  function Neg(v: Vec3): Vec3 {
    Vec3(-v.x, -v.y, -v.z)
  }

  /** `vec * scalar`. */
  function Mul(v: Vec3, s: real): Vec3 {
    Vec3(v.x * s, v.y * s, v.z * s)
  }

  /** `scalar * vec`: copies `vec` and applies `*=`, as `vec * scalar` does. */
  function MulLeft(s: real, v: Vec3): Vec3 {
    Vec3(v.x * s, v.y * s, v.z * s)
  }

  /**
    `vec / scalar`: copies `vec` and applies `/=`. The operator is `noexcept`, so the
    exception `/=` throws on a zero scalar would end the program; callers must not
    divide by zero.
  */
  function Div(v: Vec3, s: real): (r: Vec3)
    requires s != 0.0
    ensures r.x * s == v.x && r.y * s == v.y && r.z * s == v.z
  {
    Vec3(v.x / s, v.y / s, v.z / s)
  }

  function Dot(a: Vec3, b: Vec3): real {
    a.x * b.x + a.y * b.y + a.z * b.z
  }

  function LengthSquared(v: Vec3): (r: real)
    ensures r >= 0.0
  {
    SquareNonNegative(v.x);
    SquareNonNegative(v.y);
    SquareNonNegative(v.z);
    v.x * v.x + v.y * v.y + v.z * v.z
  }

  lemma SquareNonNegative(c: real)
    ensures c * c >= 0.0
  {
    if c < 0.0 {
      assert c * c == (-c) * (-c);
    }
  }

  function Cross(a: Vec3, b: Vec3): Vec3 {
    Vec3(a.y * b.z - a.z * b.y, a.z * b.x - a.x * b.z, a.x * b.y - a.y * b.x)
  }

  /** `operator==`. */
  function Equals(a: Vec3, b: Vec3): (r: bool)
    ensures r <==> a == b
  {
    a.x == b.x && a.y == b.y && a.z == b.z
  }

  /** `operator!=`. */
  function NotEquals(a: Vec3, b: Vec3): (r: bool)
    ensures r <==> !Equals(a, b)
  {
    !(a.x == b.x && a.y == b.y && a.z == b.z)
  }

  /**
    The magnitude `normalized()` and `normalize()` divide by. The model has no square root,
    so it uses the largest absolute component in place of `length()`: it is zero exactly
    for the zero vector and positive otherwise, which is all the viewer depends on.
  */
  function Magnitude(v: Vec3): (m: real)
    ensures m >= 0.0
    ensures m == 0.0 <==> v == Zero()
    ensures Abs(v.x) <= m && Abs(v.y) <= m && Abs(v.z) <= m
    ensures m == Abs(v.x) || m == Abs(v.y) || m == Abs(v.z)
  {
    Max(Abs(v.x), Max(Abs(v.y), Abs(v.z)))
  }

  /** `normalized()`: the zero vector is returned unchanged, any other vector is divided by its magnitude. */
  function Normalized(v: Vec3): (r: Vec3)
    ensures v == Zero() ==> r == Zero()
  {
    var m := Magnitude(v);
    if m == 0.0 then Zero() else Vec3(v.x / m, v.y / m, v.z / m)
  }

  /** One component divided by a magnitude that bounds it. */
  lemma DividedComponent(c: real, m: real)
    requires m > 0.0 && Abs(c) <= m
    ensures -1.0 <= c / m <= 1.0
    ensures (c / m >= 0.0) <==> (c >= 0.0)
    ensures Abs(c / m) == Abs(c) / m
    ensures Abs(c) == m ==> Abs(c / m) == 1.0
  {
  }

  /**
    A normalized vector is zero only when the input was, keeps the sign of every component,
    has every component in [-1, 1] and, for a non-zero input, magnitude one.
  */
  lemma NormalizedProperties(v: Vec3)
    ensures Normalized(v) == Zero() <==> v == Zero()
    ensures v != Zero() ==> Magnitude(Normalized(v)) == 1.0
    ensures var r := Normalized(v);
      (r.x >= 0.0 <==> v.x >= 0.0) && (r.y >= 0.0 <==> v.y >= 0.0) && (r.z >= 0.0 <==> v.z >= 0.0)
    ensures var r := Normalized(v);
      -1.0 <= r.x <= 1.0 && -1.0 <= r.y <= 1.0 && -1.0 <= r.z <= 1.0
  {
    var m := Magnitude(v);
    if m != 0.0 {
      var r := Normalized(v);
      DividedComponent(v.x, m);
      DividedComponent(v.y, m);
      DividedComponent(v.z, m);
      assert Abs(r.x) == 1.0 || Abs(r.y) == 1.0 || Abs(r.z) == 1.0;
      assert Abs(r.x) <= 1.0 && Abs(r.y) <= 1.0 && Abs(r.z) <= 1.0;
    }
  }

  /** `normalize()`: throws on the zero vector, and otherwise stores `normalized()`. */
  function Normalize(v: Vec3): (r: Result<Vec3>)
    ensures r.Ok? <==> v != Zero()
    ensures r.Err? ==> r.error == RuntimeError("Cannot normalize a zero-length vector")
    ensures r.Ok? ==> r.value == Normalized(v)
  {
    if Magnitude(v) == 0.0 then Err(RuntimeError("Cannot normalize a zero-length vector"))
    else Ok(Normalized(v))
  }

  /** Normalizing rescales by a positive factor (any factor fixes the zero vector). */
  lemma NormalizedRescales(v: Vec3) returns (k: real)
    ensures k > 0.0 && Normalized(v) == Mul(v, k)
  {
    if v == Zero() {
      k := 1.0;
    } else {
      var m := Magnitude(v);
      k := 1.0 / m;
      DivIsMulInverse(v.x, m);
      DivIsMulInverse(v.y, m);
      DivIsMulInverse(v.z, m);
    }
  }

  lemma DivIsMulInverse(c: real, m: real)
    requires m != 0.0
    ensures c / m == c * (1.0 / m)
  {
  }

  /** On a vector along one axis the stand-in magnitude is the Euclidean length, so the result is the unit vector. */
  lemma NormalizedAlongZ(k: real)
    requires k != 0.0
    ensures Normalized(Vec3(0.0, 0.0, k)) == Vec3(0.0, 0.0, if k > 0.0 then 1.0 else -1.0)
  {
    var v := Vec3(0.0, 0.0, k);
    assert Magnitude(v) == Abs(k);
    assert k / Abs(k) == if k > 0.0 then 1.0 else -1.0;
  }

  lemma AddSubCancel(a: Vec3, b: Vec3)
    ensures Sub(Add(a, b), b) == a
  {
  }

  lemma AddNegIsZero(v: Vec3)
    ensures Add(v, Neg(v)) == Zero()
  {
  }

  lemma MulCommutes(v: Vec3, s: real)
    ensures MulLeft(s, v) == Mul(v, s)
  {
  }

  lemma DotCommutes(a: Vec3, b: Vec3)
    ensures Dot(a, b) == Dot(b, a)
  {
  }

  lemma LengthSquaredIsSelfDot(v: Vec3)
    ensures LengthSquared(v) == Dot(v, v)
  {
  }

  /** The cross product is orthogonal to both factors, and a vector crossed with itself vanishes. */
  lemma CrossOrthogonal(a: Vec3, b: Vec3)
    ensures Dot(a, Cross(a, b)) == 0.0
    ensures Dot(b, Cross(a, b)) == 0.0
    ensures Cross(a, a) == Zero()
  {
  }

  /** A vector object: the fields `x`, `y`, `z` that the compound assignments update in place. */
  class Vector3D {
    var x: real
    var y: real
    var z: real

    function Value(): Vec3
      reads this
    {
      Vec3(x, y, z)
    }

    /** `Vector3D()`. */
    constructor Default()
      ensures Value() == Zero()
    {
      x, y, z := 0.0, 0.0, 0.0;
    }

    /** `Vector3D(x_, y_, z_)`. */
    constructor (x_: real, y_: real, z_: real)
      ensures Value() == Vec3(x_, y_, z_)
    {
      x, y, z := x_, y_, z_;
    }

    /** `*this += other`. */
    method AddAssign(other: Vec3)
      modifies this
      ensures Value() == Add(old(Value()), other)
    {
      x := x + other.x;
      y := y + other.y;
      z := z + other.z;
    }

    /** `*this -= other`. */
    method SubAssign(other: Vec3)
      modifies this
      ensures Value() == Sub(old(Value()), other)
    {
      x := x - other.x;
      y := y - other.y;
      z := z - other.z;
    }

    /** `*this *= scalar`. */
    method MulAssign(scalar: real)
      modifies this
      ensures Value() == Mul(old(Value()), scalar)
    {
      x := x * scalar;
      y := y * scalar;
      z := z * scalar;
    }

    /** `*this /= scalar`: throws before changing anything when the scalar is zero. */
    method DivAssign(scalar: real) returns (r: Outcome)
      modifies this
      ensures r.Fail? <==> scalar == 0.0
      ensures r.Fail? ==> Value() == old(Value())
      ensures r.Pass? ==> Value() == Div(old(Value()), scalar)
    {
      if scalar == 0.0 {
        return Fail(RuntimeError("Division by zero in Vector3D"));
      }
      x := x / scalar;
      y := y / scalar;
      z := z / scalar;
      r := Pass;
    }

    /** `normalize()`: throws, leaving the vector as it was, when it is the zero vector. */
    method Normalize() returns (r: Outcome)
      modifies this
      ensures r.Fail? <==> old(Value()) == Zero()
      ensures r.Fail? ==> Value() == old(Value())
      ensures r.Pass? ==> Value() == Normalized(old(Value()))
    {
      var len := Magnitude(Value());
      if len == 0.0 {
        return Fail(RuntimeError("Cannot normalize a zero-length vector"));
      }
      x := x / len;
      y := y / len;
      z := z / len;
      r := Pass;
    }
  }
}
