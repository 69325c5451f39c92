/**
  `Transformer::transformTriangles` (controller/Transformer.h): builds one working triangle
  per base triangle, in order, through the `Triangle` constructor.
*/
module Transformers {
  import opened Wrappers
  import opened Vectors3D
  import opened Triangles
  import L = TriangleLoaders

  function VertexOf(p: Vec3): (v: Vertex)
    ensures v.x == p.x && v.y == p.y && v.z == p.z
  {
    Vertex(p.x, p.y, p.z)
  }

  /** The constructor call of one loop pass: `Triangle triangle(v1, v2, v3, vn1, vn2, vn3)`. */
  function Build(b: L.BaseTriangle): Result<Triangle> {
    MakeTriangle(VertexOf(b.v1), VertexOf(b.v2), VertexOf(b.v3), b.vn1, b.vn2, b.vn3)
  }

  /**
    The working triangles of a list of base triangles: the constructor's exception as soon
    as one has normals summing to zero, and otherwise the i-th working triangle built from
    the i-th base triangle.
  */
  function Transformed(base: seq<L.BaseTriangle>): (r: Result<seq<Triangle>>)
    ensures r.Ok? <==> forall i :: 0 <= i < |base| ==> NormalSum(base[i].vn1, base[i].vn2, base[i].vn3) != Zero()
    ensures r.Err? ==> r.error == RuntimeError("Cannot normalize a zero-length vector")
    ensures r.Ok? ==> |r.value| == |base|
    ensures r.Ok? ==> forall i :: 0 <= i < |base| ==> Build(base[i]) == Ok(r.value[i])
    decreases |base|
  {
    if base == [] then Ok([])
    else
      var n := |base| - 1;
      assert forall i :: 0 <= i < n ==> base[..n][i] == base[i];
      match Transformed(base[..n])
      case Err(e) => Err(e)
      case Ok(ts) =>
        match Build(base[n])
        case Err(e) => Err(e)
        case Ok(t) => Ok(ts + [t])
  }

  /**
    A working triangle keeps the base triangle's positions and normals unchanged: the
    vertex fields come from `v1x..v3z` and the normals from `vn1x..vn3z`.
  */
  lemma FieldsCopied(base: seq<L.BaseTriangle>, i: int)
    requires Transformed(base).Ok? && 0 <= i < |base|
    ensures var t := Transformed(base).value[i];
      t.v0 == VertexOf(base[i].v1) && t.v1 == VertexOf(base[i].v2) && t.v2 == VertexOf(base[i].v3) &&
      t.n0 == base[i].vn1 && t.n1 == base[i].vn2 && t.n2 == base[i].vn3
  {
    assert Build(base[i]) == Ok(Transformed(base).value[i]);
  }

  /** `transformTriangles(baseTriangles)`: the loop that `push_back`s each constructed triangle. */
  method TransformTriangles(baseTriangles: seq<L.BaseTriangle>) returns (r: Result<seq<Triangle>>)
    ensures r == Transformed(baseTriangles)
  {
    var transformed: seq<Triangle> := [];
    var i := 0;
    while i < |baseTriangles|
      invariant 0 <= i <= |baseTriangles|
      invariant Transformed(baseTriangles[..i]) == Ok(transformed)
    {
      var b := baseTriangles[i];
      var v1 := Vertex(b.v1.x, b.v1.y, b.v1.z);
      var v2 := Vertex(b.v2.x, b.v2.y, b.v2.z);
      var v3 := Vertex(b.v3.x, b.v3.y, b.v3.z);
      var triangle := MakeTriangle(v1, v2, v3, b.vn1, b.vn2, b.vn3);
      assert triangle == Build(b);
      TransformedNext(baseTriangles, i, transformed);
      if triangle.Err? {
        TransformedErrPersists(baseTriangles, i + 1);
        return Err(triangle.error);
      }
      transformed := transformed + [triangle.value];
      i := i + 1;
    }
    assert baseTriangles[..i] == baseTriangles;
    return Ok(transformed);
  }

  /** One more loop pass: the next constructor call either throws or appends its triangle. */
  lemma TransformedNext(base: seq<L.BaseTriangle>, i: nat, ts: seq<Triangle>)
    requires i < |base| && Transformed(base[..i]) == Ok(ts)
    ensures Build(base[i]).Ok? ==> Transformed(base[..i + 1]) == Ok(ts + [Build(base[i]).value])
    ensures Build(base[i]).Err? ==> Transformed(base[..i + 1]) == Err(Build(base[i]).error)
  {
    var p := base[..i + 1];
    assert |p| - 1 == i && p[..i] == base[..i] && p[i] == base[i];
  }

  /** Once a prefix throws, the whole list throws the same exception. */
  lemma TransformedErrPersists(base: seq<L.BaseTriangle>, n: nat)
    requires n <= |base| && Transformed(base[..n]).Err?
    ensures Transformed(base) == Transformed(base[..n])
  {
    assert !(forall i :: 0 <= i < n ==> NormalSum(base[..n][i].vn1, base[..n][i].vn2, base[..n][i].vn3) != Zero());
    var k :| 0 <= k < n && NormalSum(base[..n][k].vn1, base[..n][k].vn2, base[..n][k].vn3) == Zero();
    assert base[..n][k] == base[k];
  }
}
