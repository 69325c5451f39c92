/**
  `OBJLoader` (model/loaders/OBJLoader.h), the loader behind `ILoader`: loads an OBJ file
  with `OBJModel::loadOBJ` and turns every three-corner face into a base triangle of nine
  position and nine normal components (`ILoader::Triangle`, model/loaders/ILoader.h).
*/
module TriangleLoaders {
  import opened Wrappers
  import opened Vectors3D
  import opened FsPaths
  import O = ObjModels

  /**
    `ILoader::Triangle`: the positions `v1x..v3z` and the normals `vn1x..vn3z`, grouped per
    vertex.
  */
  datatype BaseTriangle = BaseTriangle(v1: Vec3, v2: Vec3, v3: Vec3, vn1: Vec3, vn2: Vec3, vn3: Vec3)

  const InvalidFace := RuntimeError("Invalid vertex indices in face.")

  /** `vertices[i]` as three components. */
  function Position(d: O.ObjData, i: int): (p: Vec3)
    requires 0 <= i < |d.vertices|
    ensures p.x == d.vertices[i].x && p.y == d.vertices[i].y && p.z == d.vertices[i].z
  {
    Vec3(d.vertices[i].x, d.vertices[i].y, d.vertices[i].z)
  }

  /** `normals[i]` as three components. */
  function NormalOf(d: O.ObjData, i: int): (n: Vec3)
    requires 0 <= i < |d.normals|
    ensures n.x == d.normals[i].x && n.y == d.normals[i].y && n.z == d.normals[i].z
  {
    Vec3(d.normals[i].x, d.normals[i].y, d.normals[i].z)
  }

  predicate IsTriangle(f: O.Face) {
    |f.vertexIndices| == 3
  }

  predicate HasPositions(f: O.Face)
    requires IsTriangle(f)
  {
    f.vertexIndices[0].v.Some? && f.vertexIndices[1].v.Some? && f.vertexIndices[2].v.Some?
  }

  predicate HasNormals(f: O.Face)
    requires IsTriangle(f)
  {
    f.vertexIndices[0].vn.Some? && f.vertexIndices[1].vn.Some? && f.vertexIndices[2].vn.Some?
  }

  /** The face the conversion throws on: three corners, one of them without a position. */
  predicate Throws(f: O.Face) {
    IsTriangle(f) && !HasPositions(f)
  }

  /**
    The conversion may read this face: three corners, all positions present and in range,
    and, when all three normals are present, those in range too.
  */
  predicate Readable(d: O.ObjData, f: O.Face) {
    IsTriangle(f) && HasPositions(f) &&
    (forall k :: 0 <= k < 3 ==> 0 <= f.vertexIndices[k].v.value < |d.vertices|) &&
    (HasNormals(f) ==> forall k :: 0 <= k < 3 ==> 0 <= f.vertexIndices[k].vn.value < |d.normals|)
  }

  /**
    What the source asks of the parsed file: `vertices[...]` and `normals[...]` are read
    without a bounds check, so every face the loop builds a triangle from, that is every
    three-corner face with its positions before the first face that throws, must index
    existing entries. Faces after a throwing face are never read.
  */
  predicate IndicesValid(d: O.ObjData, faces: seq<O.Face>) {
    forall i ::
      (0 <= i < |faces| && IsTriangle(faces[i]) && HasPositions(faces[i]) &&
       (forall j :: 0 <= j < i ==> !Throws(faces[j]))) ==> Readable(d, faces[i])
  }

  lemma IndicesValidPrefix(d: O.ObjData, faces: seq<O.Face>, n: nat)
    requires n <= |faces| && IndicesValid(d, faces)
    ensures IndicesValid(d, faces[..n])
  {
    forall i | 0 <= i < n && IsTriangle(faces[..n][i]) && HasPositions(faces[..n][i]) &&
      (forall j :: 0 <= j < i ==> !Throws(faces[..n][j]))
      ensures Readable(d, faces[..n][i])
    {
      assert forall j :: 0 <= j < i ==> faces[..n][j] == faces[j];
    }
  }

  /**
    The base triangle of one face: positions copied from `vertices`, normals copied from
    `normals` when all three corners name one and all zero otherwise.
  */
  function TriangleOf(d: O.ObjData, f: O.Face): (t: BaseTriangle)
    requires Readable(d, f)
    ensures t.v1 == Position(d, f.vertexIndices[0].v.value)
    ensures t.v2 == Position(d, f.vertexIndices[1].v.value)
    ensures t.v3 == Position(d, f.vertexIndices[2].v.value)
    ensures HasNormals(f) ==>
      t.vn1 == NormalOf(d, f.vertexIndices[0].vn.value) &&
      t.vn2 == NormalOf(d, f.vertexIndices[1].vn.value) &&
      t.vn3 == NormalOf(d, f.vertexIndices[2].vn.value)
    ensures !HasNormals(f) ==> t.vn1 == Zero() && t.vn2 == Zero() && t.vn3 == Zero()
  {
    var c := f.vertexIndices;
    BaseTriangle(
      Position(d, c[0].v.value), Position(d, c[1].v.value), Position(d, c[2].v.value),
      if HasNormals(f) then NormalOf(d, c[0].vn.value) else Zero(),
      if HasNormals(f) then NormalOf(d, c[1].vn.value) else Zero(),
      if HasNormals(f) then NormalOf(d, c[2].vn.value) else Zero())
  }

  /** The faces `convertToTriangles` keeps, in order: those with exactly three corners. */
  function Triangular(faces: seq<O.Face>): (r: seq<O.Face>)
    ensures |r| <= |faces|
    ensures forall k :: 0 <= k < |r| ==> IsTriangle(r[k])
  {
    if faces == [] then []
    else Triangular(faces[..|faces| - 1]) + (if IsTriangle(faces[|faces| - 1]) then [faces[|faces| - 1]] else [])
  }

  /**
    `convertToTriangles` over the faces: the exception when some three-corner face lacks a
    position, and otherwise one base triangle per three-corner face, in face order.
  */
  function ConvertFaces(d: O.ObjData, faces: seq<O.Face>): (r: Result<seq<BaseTriangle>>)
    requires IndicesValid(d, faces)
    ensures r.Ok? <==> forall j :: 0 <= j < |faces| ==> !Throws(faces[j])
    ensures r.Err? ==> r.error == InvalidFace
    ensures r.Ok? ==> |r.value| == |Triangular(faces)|
    decreases |faces|
  {
    if faces == [] then Ok([])
    else
      var n := |faces| - 1;
      IndicesValidPrefix(d, faces, n);
      var prev := ConvertFaces(d, faces[..n]);
      var f := faces[n];
      if prev.Err? then prev
      else if !IsTriangle(f) then prev
      else if !HasPositions(f) then Err(InvalidFace)
      else
        assert forall j :: 0 <= j < n ==> faces[..n][j] == faces[j];
        Ok(prev.value + [TriangleOf(d, f)])
  }

  /**
    When nothing throws, triangle k is built from the k-th three-corner face: positions
    copied, normals copied or zero. Texture indices play no part.
  */
  lemma {:induction false} ConvertFacesContents(d: O.ObjData, faces: seq<O.Face>)
    requires IndicesValid(d, faces)
    requires ConvertFaces(d, faces).Ok?
    ensures forall k :: 0 <= k < |Triangular(faces)| ==> Readable(d, Triangular(faces)[k])
    ensures forall k :: 0 <= k < |Triangular(faces)| ==>
      ConvertFaces(d, faces).value[k] == TriangleOf(d, Triangular(faces)[k])
    decreases |faces|
  {
    if faces != [] {
      var n := |faces| - 1;
      IndicesValidPrefix(d, faces, n);
      assert forall j :: 0 <= j < n ==> faces[..n][j] == faces[j];
      ConvertFacesContents(d, faces[..n]);
    }
  }

  /** A file whose faces all have three corners with positions gives one triangle per face. */
  lemma AllTrianglesKept(d: O.ObjData, faces: seq<O.Face>)
    requires forall j :: 0 <= j < |faces| ==> Readable(d, faces[j])
    ensures IndicesValid(d, faces)
    ensures ConvertFaces(d, faces).Ok? && |ConvertFaces(d, faces).value| == |faces|
    ensures forall k :: 0 <= k < |faces| ==> ConvertFaces(d, faces).value[k] == TriangleOf(d, faces[k])
  {
    TriangularOfTriangles(faces);
    ConvertFacesContents(d, faces);
  }

  /** When every face has three corners, none is dropped. */
  lemma {:induction false} TriangularOfTriangles(faces: seq<O.Face>)
    requires forall j :: 0 <= j < |faces| ==> IsTriangle(faces[j])
    ensures Triangular(faces) == faces
  {
    if faces != [] {
      var n := |faces| - 1;
      assert forall j :: 0 <= j < n ==> faces[..n][j] == faces[j];
      TriangularOfTriangles(faces[..n]);
      assert faces[..n] + [faces[n]] == faces;
    }
  }

  /**
    One more pass of the conversion loop: a face without three corners is skipped, a
    three-corner face without positions throws, and any other face adds its triangle.
  */
  lemma ConvertFacesNext(d: O.ObjData, faces: seq<O.Face>, i: nat, ts: seq<BaseTriangle>)
    requires i < |faces| && IndicesValid(d, faces)
    requires IndicesValid(d, faces[..i]) && ConvertFaces(d, faces[..i]) == Ok(ts)
    ensures IndicesValid(d, faces[..i + 1])
    ensures !IsTriangle(faces[i]) ==> ConvertFaces(d, faces[..i + 1]) == Ok(ts)
    ensures Throws(faces[i]) ==> ConvertFaces(d, faces).Err? && ConvertFaces(d, faces).error == InvalidFace
    ensures IsTriangle(faces[i]) && HasPositions(faces[i]) ==>
      Readable(d, faces[i]) && ConvertFaces(d, faces[..i + 1]) == Ok(ts + [TriangleOf(d, faces[i])])
  {
    IndicesValidPrefix(d, faces, i + 1);
    var p := faces[..i + 1];
    assert |p| - 1 == i && p[..i] == faces[..i] && p[i] == faces[i];
    assert forall j :: 0 <= j < i ==> faces[..i][j] == faces[j];
  }

  /** `convertToTriangles(objModel)`: the `for` loop over the model's faces. */
  method ConvertToTriangles(objModel: O.OBJModel) returns (r: Result<seq<BaseTriangle>>)
    requires IndicesValid(objModel.Data(), objModel.GetFaces())
    ensures r == ConvertFaces(objModel.Data(), objModel.GetFaces())
  {
    var d := objModel.Data();
    var faces := objModel.GetFaces();
    var vertices := objModel.GetVertices();
    var normals := objModel.GetNormals();
    var triangles: seq<BaseTriangle> := [];
    var i := 0;
    while i < |faces|
      invariant 0 <= i <= |faces|
      invariant IndicesValid(d, faces[..i])
      invariant ConvertFaces(d, faces[..i]) == Ok(triangles)
    {
      ConvertFacesNext(d, faces, i, triangles);
      var face := faces[i];
      if |face.vertexIndices| != 3 {
        i := i + 1;
        continue;
      }
      var c0, c1, c2 := face.vertexIndices[0], face.vertexIndices[1], face.vertexIndices[2];
      if c0.v.None? || c1.v.None? || c2.v.None? {
        assert Throws(faces[i]);
        return Err(InvalidFace);
      }
      var triangle := ReadTriangle(vertices, normals, face, d);
      triangles := triangles + [triangle];
      i := i + 1;
    }
    assert faces[..i] == faces;
    return Ok(triangles);
  }

  /**
    The body of one pass for a three-corner face with its positions: `Triangle triangle{}`
    filled from `vertices[...]`, and from `normals[...]` when all three corners name a
    normal, zeros otherwise.
  */
  method ReadTriangle(vertices: seq<O.Vertex>, normals: seq<O.Normal>, face: O.Face, ghost d: O.ObjData)
    returns (t: BaseTriangle)
    requires vertices == d.vertices && normals == d.normals && Readable(d, face)
    ensures t == TriangleOf(d, face)
  {
    var c0, c1, c2 := face.vertexIndices[0], face.vertexIndices[1], face.vertexIndices[2];
    var p1, p2, p3 := vertices[c0.v.value], vertices[c1.v.value], vertices[c2.v.value];
    var v1, v2, v3 := Vec3(p1.x, p1.y, p1.z), Vec3(p2.x, p2.y, p2.z), Vec3(p3.x, p3.y, p3.z);
    var vn1, vn2, vn3 := Zero(), Zero(), Zero();
    if c0.vn.Some? && c1.vn.Some? && c2.vn.Some? {
      var n1, n2, n3 := normals[c0.vn.value], normals[c1.vn.value], normals[c2.vn.value];
      vn1, vn2, vn3 := Vec3(n1.x, n1.y, n1.z), Vec3(n2.x, n2.y, n2.z), Vec3(n3.x, n3.y, n3.z);
    }
    t := BaseTriangle(v1, v2, v3, vn1, vn2, vn3);
  }

  /** The message `loadModel` throws when `loadOBJ` gives no model. */
  function LoadFailure(filePath: string): Error {
    RuntimeError("Failed to load OBJ model from file: " + filePath)
  }

  /**
    What `loadModel(filePath)` asks of the file: when it opens and parses, its faces index
    existing vertices and normals.
  */
  predicate Loadable(fs: FileSystem, filePath: string) {
    filePath in fs && O.ParseLines(fs[filePath]).Ok? ==>
      IndicesValid(O.ParseLines(fs[filePath]).value, O.ParseLines(fs[filePath]).value.faces)
  }

  /**
    The face would be readable were its normals ignored: three corners whose positions are
    present and in range.
  */
  predicate PositionsOnly(d: O.ObjData, f: O.Face) {
    IsTriangle(f) && HasPositions(f) && forall c :: 0 <= c < 3 ==> 0 <= f.vertexIndices[c].v.value < |d.vertices|
  }

  /**
    The data of three vertices and one plain face `f i j k` over them: the face's positions
    are in range, it names normals, and there are none, so it is not safe to convert.
  */
  lemma PlainFaceUnreadable(p: (nat, nat, nat), q: (nat, nat, nat), r: (nat, nat, nat), i: nat, j: nat, k: nat)
    requires 1 <= i <= 3 && 1 <= j <= 3 && 1 <= k <= 3
    ensures var d := PlainTriangleData(p, q, r, i, j, k);
      PositionsOnly(d, d.faces[0]) && HasNormals(d.faces[0]) && !IndicesValid(d, d.faces)
  {
    var d := PlainTriangleData(p, q, r, i, j, k);
    var face := d.faces[0];
    assert face.vertexIndices[0] == O.PlainCornerOf(i);
    assert !Readable(d, face) by {
      assert face.vertexIndices[0].vn.value == i - 1;
    }
  }

  /** What `loadOBJ` makes of three `v` lines and one plain face line. */
  function PlainTriangleData(p: (nat, nat, nat), q: (nat, nat, nat), r: (nat, nat, nat), i: nat, j: nat, k: nat): O.ObjData {
    O.ObjData([O.VertexOfNumerals(p), O.VertexOfNumerals(q), O.VertexOfNumerals(r)], [], [],
      [O.Face([O.PlainCornerOf(i), O.PlainCornerOf(j), O.PlainCornerOf(k)])], "")
  }

  /**
    A file of three `v` lines and one plain face `f i j k` over them, with no `vn` line, is
    not loadable: the face's positions are in range, but as `loadOBJ` reads the corners they
    also name normals, and the file has none.
  */
  lemma PlainFaceNeedsNormals(fs: FileSystem, filePath: string, p: (nat, nat, nat), q: (nat, nat, nat),
                              r: (nat, nat, nat), i: nat, j: nat, k: nat)
    requires filePath in fs && O.PlainTriangleLines(fs[filePath], p, q, r, i, j, k)
    requires 1 <= i <= 3 && 1 <= j <= 3 && 1 <= k <= 3
    ensures O.ParseLines(fs[filePath]).Ok?
    ensures O.ParseLines(fs[filePath]).value.normals == [] && |O.ParseLines(fs[filePath]).value.faces| == 1
    ensures PositionsOnly(O.ParseLines(fs[filePath]).value, O.ParseLines(fs[filePath]).value.faces[0])
    ensures HasNormals(O.ParseLines(fs[filePath]).value.faces[0])
    ensures !Loadable(fs, filePath)
  {
    O.PlainTriangleFile(fs[filePath], p, q, r, i, j, k);
    PlainFaceUnreadable(p, q, r, i, j, k);
    assert O.ParseLines(fs[filePath]) == Ok(PlainTriangleData(p, q, r, i, j, k));
  }

  /** The outcome of `loadModel(filePath)`, as a value. */
  function Loaded(fs: FileSystem, filePath: string): Result<seq<BaseTriangle>>
    requires Loadable(fs, filePath)
  {
    if filePath !in fs then Err(LoadFailure(filePath))
    else match O.ParseLines(fs[filePath])
      case Err(e) => Err(e)
      case Ok(d) => ConvertFaces(d, d.faces)
  }

  /**
    `loadModel(filePath)`: the triangles of the file, the "Failed to load" exception when it
    cannot be opened, or the exception `loadOBJ` or the conversion throws.
  */
  method LoadModel(fs: FileSystem, filePath: string) returns (r: Result<seq<BaseTriangle>>)
    requires Loadable(fs, filePath)
    ensures filePath !in fs ==> r == Err(LoadFailure(filePath))
    ensures filePath in fs && O.ParseLines(fs[filePath]).Err? ==> r == Err(O.ParseLines(fs[filePath]).error)
    ensures filePath in fs && O.ParseLines(fs[filePath]).Ok? ==>
      r == ConvertFaces(O.ParseLines(fs[filePath]).value, O.ParseLines(fs[filePath]).value.faces)
    ensures r == Loaded(fs, filePath)
  {
    var objModel := O.OBJModel.LoadOBJ(fs, filePath);
    if objModel.Err? {
      return Err(objModel.error);
    }
    if objModel.value == null {
      return Err(LoadFailure(filePath));
    }
    r := ConvertToTriangles(objModel.value);
  }
}
