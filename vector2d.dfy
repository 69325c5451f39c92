/**
  `VecMath::Vector2D<T>`: a two-component vector over the reals. The free operators and the
  `const` members are functions on the value type `Vec2`; the compound assignments, which
  change `x` and `y` in place, are methods of the class `Vector2D`.
*/
module Vectors2D {
  import opened VecMathCommon

  datatype Vec2 = Vec2(x: real, y: real)

  /** `Vector2D()`: the default constructor gives the zero vector. */
  function Zero(): Vec2 {
    Vec2(0.0, 0.0)
  }

  /** `lhs + rhs`. */
  function Add(a: Vec2, b: Vec2): Vec2 {
    Vec2(a.x + b.x, a.y + b.y)
  }

  /** `lhs - rhs`. */
  function Sub(a: Vec2, b: Vec2): Vec2 {
    Vec2(a.x - b.x, a.y - b.y)
  }

  /** `vec * scalar`. */
  function Mul(v: Vec2, s: real): Vec2 {
    Vec2(v.x * s, v.y * s)
  }

  /** `scalar * vec`: copies `vec` and applies `*=`. */
  function MulLeft(s: real, v: Vec2): Vec2 {
    Vec2(v.x * s, v.y * s)
  }

  function Dot(a: Vec2, b: Vec2): real {
    a.x * b.x + a.y * b.y
  }

  lemma SquareNonNegative(c: real)
    ensures c * c >= 0.0
  {
    if c < 0.0 {
      assert c * c == (-c) * (-c);
    }
  }

  function LengthSquared(v: Vec2): (r: real)
    ensures r >= 0.0
  {
    SquareNonNegative(v.x);
    SquareNonNegative(v.y);
    v.x * v.x + v.y * v.y
  }

  /**
    The magnitude `normalized()` divides by: the larger absolute component stands in for
    `length()`, as the model has no square root. It is zero exactly for the zero vector.
  */
  function Magnitude(v: Vec2): (m: real)
    ensures m >= 0.0
    ensures m == 0.0 <==> v == Zero()
    ensures Abs(v.x) <= m && Abs(v.y) <= m
    ensures m == Abs(v.x) || m == Abs(v.y)
  {
    if Abs(v.x) >= Abs(v.y) then Abs(v.x) else Abs(v.y)
  }

  /** `normalized()`: the zero vector gives the zero vector, any other vector is divided by its magnitude. */
  function Normalized(v: Vec2): (r: Vec2)
    ensures v == Zero() ==> r == Zero()
  {
    var m := Magnitude(v);
    if m == 0.0 then Zero() else Vec2(v.x / m, v.y / m)
  }

  /** One component divided by a magnitude that bounds it. */
  lemma DividedComponent(c: real, m: real)
    requires m > 0.0 && Abs(c) <= m
    ensures -1.0 <= c / m <= 1.0
    ensures (c / m >= 0.0) <==> (c >= 0.0)
    ensures Abs(c / m) == Abs(c) / m
    ensures Abs(c) == m ==> Abs(c / m) == 1.0
  {
  }

  /**
    A normalized vector is zero only when the input was, keeps the sign of both components,
    has them in [-1, 1] and, for a non-zero input, magnitude one.
  */
  lemma NormalizedProperties(v: Vec2)
    ensures Normalized(v) == Zero() <==> v == Zero()
    ensures v != Zero() ==> Magnitude(Normalized(v)) == 1.0
    ensures var r := Normalized(v);
      (r.x >= 0.0 <==> v.x >= 0.0) && (r.y >= 0.0 <==> v.y >= 0.0)
    ensures var r := Normalized(v);
      -1.0 <= r.x <= 1.0 && -1.0 <= r.y <= 1.0
  {
    var m := Magnitude(v);
    if m != 0.0 {
      var r := Normalized(v);
      DividedComponent(v.x, m);
      DividedComponent(v.y, m);
      assert Abs(r.x) == 1.0 || Abs(r.y) == 1.0;
    }
  }

  lemma DivIsMulInverse(c: real, m: real)
    requires m != 0.0
    ensures c / m == c * (1.0 / m)
  {
  }

  /** Normalizing rescales by a positive factor (any factor fixes the zero vector). */
  lemma NormalizedRescales(v: Vec2) returns (k: real)
    ensures k > 0.0 && Normalized(v) == Mul(v, k)
  {
    if v == Zero() {
      k := 1.0;
    } else {
      var m := Magnitude(v);
      k := 1.0 / m;
      DivIsMulInverse(v.x, m);
      DivIsMulInverse(v.y, m);
    }
  }

  lemma AddSubCancel(a: Vec2, b: Vec2)
    ensures Sub(Add(a, b), b) == a
  {
  }

  lemma MulCommutes(v: Vec2, s: real)
    ensures MulLeft(s, v) == Mul(v, s)
  {
  }

  lemma DotCommutes(a: Vec2, b: Vec2)
    ensures Dot(a, b) == Dot(b, a)
  {
  }

  lemma LengthSquaredIsSelfDot(v: Vec2)
    ensures LengthSquared(v) == Dot(v, v)
  {
  }

  /** A vector object: the fields `x` and `y` that the compound assignments update in place. */
  class Vector2D {
    var x: real
    var y: real

    function Value(): Vec2
      reads this
    {
      Vec2(x, y)
    }

    /** `Vector2D()`. */
    constructor Default()
      ensures Value() == Zero()
    {
      x, y := 0.0, 0.0;
    }

    /** `Vector2D(x_, y_)`. */
    constructor (x_: real, y_: real)
      ensures Value() == Vec2(x_, y_)
    {
      x, y := x_, y_;
    }

    /** `*this += other`. */
    method AddAssign(other: Vec2)
      modifies this
      ensures Value() == Add(old(Value()), other)
    {
      x := x + other.x;
      y := y + other.y;
    }

    /** `*this -= other`. */
    method SubAssign(other: Vec2)
      modifies this
      ensures Value() == Sub(old(Value()), other)
    {
      x := x - other.x;
      y := y - other.y;
    }

    /** `*this *= scalar`. */
    method MulAssign(scalar: real)
      modifies this
      ensures Value() == Mul(old(Value()), scalar)
    {
      x := x * scalar;
      y := y * scalar;
    }
  }
}
