/**
  Scalar helpers shared by `Vector2D` and `Vector3D`: the absolute value and the maximum of
  two reals, from which the vectors' stand-in length is built.
*/
module VecMathCommon {

  function Abs(r: real): (a: real)
    ensures a >= 0.0 && (a == r || a == -r)
  {
    if r < 0.0 then -r else r
  }

  function Max(a: real, b: real): (m: real)
    ensures m >= a && m >= b && (m == a || m == b)
  {
    if a >= b then a else b
  }
}
