/**
  The working triangle of the software renderer (controller/Triangle.h): three vertices,
  three per-vertex normals and the averaged normal the constructor derives from them. The
  vectors of the viewer hold triangles by value, so `Triangle` is a datatype; the copy the
  renderer scales and translates in place is the class `WorkingTriangle`, whose vertices
  are a three-element array like the source's `std::array<Vertex, 3>`.
*/
module Triangles {
  import opened Wrappers
  import opened Vectors3D
  import opened VecMathCommon

  /** `Triangle::Vertex`. */
  datatype Vertex = Vertex(x: real, y: real, z: real)

  datatype Triangle = Triangle(
    v0: Vertex, v1: Vertex, v2: Vertex,
    n0: Vec3, n1: Vec3, n2: Vec3,
    averageNormal: Vec3)

  /** The sum of the three vertex normals, of which the averaged normal is a rescaling. */
  function NormalSum(n0: Vec3, n1: Vec3, n2: Vec3): Vec3 {
    Add(Add(n0, n1), n2)
  }

  /**
    The constructor: stores the vertices and normals as given and sets the averaged normal
    to `(vn1 + vn2 + vn3) / 3` normalized, which throws when the normals sum to zero.
  */
  function MakeTriangle(v0: Vertex, v1: Vertex, v2: Vertex, n0: Vec3, n1: Vec3, n2: Vec3): (r: Result<Triangle>)
    ensures r.Ok? <==> NormalSum(n0, n1, n2) != Zero()
    ensures r.Err? ==> r.error == RuntimeError("Cannot normalize a zero-length vector")
    ensures r.Ok? ==> r.value.v0 == v0 && r.value.v1 == v1 && r.value.v2 == v2
    ensures r.Ok? ==> r.value.n0 == n0 && r.value.n1 == n1 && r.value.n2 == n2
    ensures r.Ok? ==> r.value.averageNormal == Normalized(Div(NormalSum(n0, n1, n2), 3.0))
  {
    var avg := Div(NormalSum(n0, n1, n2), 3.0);
    ThirdIsZeroIffZero(NormalSum(n0, n1, n2));
    match Normalize(avg)
    case Err(e) => Err(e)
    case Ok(n) => Ok(Triangle(v0, v1, v2, n0, n1, n2, n))
  }

  /** A third of a vector is zero exactly when the vector is. */
  lemma ThirdIsZeroIffZero(s: Vec3)
    ensures Div(s, 3.0) == Zero() <==> s == Zero()
  {
    var avg := Div(s, 3.0);
    assert Mul(avg, 3.0) == s;
    assert avg.x == s.x / 3.0 && avg.y == s.y / 3.0 && avg.z == s.z / 3.0;
  }

  /**
    The averaged normal of a constructed triangle points the way the normal sum does: each
    component has the sign of the summed component and lies in [-1, 1].
  */
  lemma AverageNormalFollowsSum(v0: Vertex, v1: Vertex, v2: Vertex, n0: Vec3, n1: Vec3, n2: Vec3)
    requires MakeTriangle(v0, v1, v2, n0, n1, n2).Ok?
    ensures var a := MakeTriangle(v0, v1, v2, n0, n1, n2).value.averageNormal;
      var s := NormalSum(n0, n1, n2);
      (a.x >= 0.0 <==> s.x >= 0.0) && (a.y >= 0.0 <==> s.y >= 0.0) && (a.z >= 0.0 <==> s.z >= 0.0)
    ensures var a := MakeTriangle(v0, v1, v2, n0, n1, n2).value.averageNormal;
      -1.0 <= a.x <= 1.0 && -1.0 <= a.y <= 1.0 && -1.0 <= a.z <= 1.0
  {
    var s := NormalSum(n0, n1, n2);
    var avg := Div(s, 3.0);
    NormalizedProperties(avg);
    assert (avg.x >= 0.0 <==> s.x >= 0.0) && (avg.y >= 0.0 <==> s.y >= 0.0) && (avg.z >= 0.0 <==> s.z >= 0.0);
  }

  /** `translate(centerX, centerY)`: adds the integer offsets to every x and y. */
  function Translated(t: Triangle, cx: int, cy: int): (r: Triangle)
    ensures r.n0 == t.n0 && r.n1 == t.n1 && r.n2 == t.n2 && r.averageNormal == t.averageNormal
    ensures r.v0.z == t.v0.z && r.v1.z == t.v1.z && r.v2.z == t.v2.z
    ensures r.v0.x - t.v0.x == r.v1.x - t.v1.x == r.v2.x - t.v2.x == cx as real
    ensures r.v0.y - t.v0.y == r.v1.y - t.v1.y == r.v2.y - t.v2.y == cy as real
  {
    t.(v0 := Vertex(t.v0.x + cx as real, t.v0.y + cy as real, t.v0.z),
       v1 := Vertex(t.v1.x + cx as real, t.v1.y + cy as real, t.v1.z),
       v2 := Vertex(t.v2.x + cx as real, t.v2.y + cy as real, t.v2.z))
  }

  /** `scale(scaleFactor)`: multiplies every x and y; z, the normals and the averaged normal stay. */
  function Scaled(t: Triangle, f: real): (r: Triangle)
    ensures r.n0 == t.n0 && r.n1 == t.n1 && r.n2 == t.n2 && r.averageNormal == t.averageNormal
    ensures r.v0.z == t.v0.z && r.v1.z == t.v1.z && r.v2.z == t.v2.z
    ensures r.v0.x == f * t.v0.x && r.v1.x == f * t.v1.x && r.v2.x == f * t.v2.x
    ensures r.v0.y == f * t.v0.y && r.v1.y == f * t.v1.y && r.v2.y == f * t.v2.y
  {
    t.(v0 := Vertex(t.v0.x * f, t.v0.y * f, t.v0.z),
       v1 := Vertex(t.v1.x * f, t.v1.y * f, t.v1.z),
       v2 := Vertex(t.v2.x * f, t.v2.y * f, t.v2.z))
  }

  /** `isVisible()`: the averaged normal does not point away from the viewer on +z. */
  predicate IsVisible(t: Triangle) {
    t.averageNormal.z >= 0.0
  }

  /** A triangle from the constructor is visible exactly when its normals' z values sum to zero or more. */
  lemma VisibleIffNormalZSum(v0: Vertex, v1: Vertex, v2: Vertex, n0: Vec3, n1: Vec3, n2: Vec3)
    requires MakeTriangle(v0, v1, v2, n0, n1, n2).Ok?
    ensures IsVisible(MakeTriangle(v0, v1, v2, n0, n1, n2).value) <==> n0.z + n1.z + n2.z >= 0.0
  {
    AverageNormalFollowsSum(v0, v1, v2, n0, n1, n2);
  }

  /** `computeLightIntensity(light)`: the Lambert term `max(0, averageNormal . light)`. */
  function LightIntensity(t: Triangle, light: Vec3): (i: real)
    ensures i >= 0.0
    ensures i >= Dot(t.averageNormal, light)
    ensures i == 0.0 || i == Dot(t.averageNormal, light)
  {
    Max(0.0, Dot(t.averageNormal, light))
  }

  /** `getMaxZ()`: the largest vertex z. */
  function MaxZ(t: Triangle): real {
    Max(t.v0.z, Max(t.v1.z, t.v2.z))
  }

  /** The largest z bounds every vertex z and is one of them. */
  lemma MaxZBounds(t: Triangle)
    ensures MaxZ(t) >= t.v0.z && MaxZ(t) >= t.v1.z && MaxZ(t) >= t.v2.z
    ensures MaxZ(t) == t.v0.z || MaxZ(t) == t.v1.z || MaxZ(t) == t.v2.z
  {
  }

  /** Placing a triangle on screen changes neither its depth key, its visibility nor its shading. */
  lemma ScreenPlacementKeepsKeys(t: Triangle, f: real, cx: int, cy: int, light: Vec3)
    ensures MaxZ(Translated(Scaled(t, f), cx, cy)) == MaxZ(t)
    ensures IsVisible(Translated(Scaled(t, f), cx, cy)) == IsVisible(t)
    ensures LightIntensity(Translated(Scaled(t, f), cx, cy), light) == LightIntensity(t, light)
  {
  }

  /** `a < b`: `a` has the larger maximum z, so it sorts first. */
  predicate Less(a: Triangle, b: Triangle) {
    MaxZ(a) > MaxZ(b)
  }

  /** `<` is a strict weak order: irreflexive, transitive, and incomparability is transitive. */
  lemma LessIsStrictWeakOrder(a: Triangle, b: Triangle, c: Triangle)
    ensures !Less(a, a)
    ensures Less(a, b) && Less(b, c) ==> Less(a, c)
    ensures Less(a, b) ==> !Less(b, a)
    ensures !Less(a, b) && !Less(b, a) && !Less(b, c) && !Less(c, b) ==> !Less(a, c) && !Less(c, a)
  {
  }

  /**
    The triangle the renderer copies (`Triangle t(triangle)`) and then scales and translates
    in place.
  */
  class WorkingTriangle {
    var vertices: array<Vertex>
    var n0: Vec3
    var n1: Vec3
    var n2: Vec3
    var averageNormal: Vec3

    ghost predicate Valid()
      reads this
    {
      vertices.Length == 3
    }

    function Value(): Triangle
      requires Valid()
      reads this, vertices
    {
      Triangle(vertices[0], vertices[1], vertices[2], n0, n1, n2, averageNormal)
    }

    /** The copy constructor. */
    constructor Copy(t: Triangle)
      ensures Valid() && fresh(vertices)
      ensures Value() == t
    {
      vertices := new Vertex[3] [t.v0, t.v1, t.v2];
      n0, n1, n2 := t.n0, t.n1, t.n2;
      averageNormal := t.averageNormal;
    }

    /** `scale(scaleFactor)`. */
    method Scale(f: real)
      requires Valid()
      modifies vertices
      ensures Valid()
      ensures Value() == Scaled(old(Value()), f)
    {
      vertices[0] := vertices[0].(x := vertices[0].x * f, y := vertices[0].y * f);
      vertices[1] := vertices[1].(x := vertices[1].x * f, y := vertices[1].y * f);
      vertices[2] := vertices[2].(x := vertices[2].x * f, y := vertices[2].y * f);
    }

    /** `translate(centerX, centerY)`. */
    method Translate(cx: int, cy: int)
      requires Valid()
      modifies vertices
      ensures Valid()
      ensures Value() == Translated(old(Value()), cx, cy)
    {
      vertices[0] := vertices[0].(x := vertices[0].x + cx as real, y := vertices[0].y + cy as real);
      vertices[1] := vertices[1].(x := vertices[1].x + cx as real, y := vertices[1].y + cy as real);
      vertices[2] := vertices[2].(x := vertices[2].x + cx as real, y := vertices[2].y + cy as real);
    }
  }
}
