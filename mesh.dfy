/**
  `Mesh` (models/Mesh.h): the positions, normals and texture coordinates of one mesh, its
  faces as lists of indices into them, and the flat vertex list `processVertices` builds by
  looking every corner up. A lookup outside its list leaves the value-initialised zeros.
*/
module Meshes {

  /** `Mesh::Vertex`: a position, a normal and a texture coordinate. */
  datatype MeshVertex = MeshVertex(x: real, y: real, z: real, nx: real, ny: real, nz: real, u: real, v: real)

  /** `Vertex vertex{}`: every field zero. */
  function ZeroVertex(): MeshVertex {
    MeshVertex(0.0, 0.0, 0.0, 0.0, 0.0, 0.0, 0.0, 0.0)
  }

  /** `Mesh::Face`: three independent index lists; only the position list decides the corner count. */
  datatype Face = Face(vertexIndices: seq<nat>, normalIndices: seq<nat>, texCoordIndices: seq<nat>)

  /** `std::array<float, 3>`. */
  datatype Triple = Triple(e0: real, e1: real, e2: real)

  /** `std::array<float, 2>`. */
  datatype Pair = Pair(e0: real, e1: real)

  /** The fields of a `Mesh`. */
  datatype MeshData = MeshData(
    name: string,
    vertices: seq<MeshVertex>,
    faces: seq<Face>,
    positions: seq<Triple>,
    normals: seq<Triple>,
    texCoords: seq<Pair>)

  /** `Mesh(meshName)`: a named mesh with every list empty. */
  function NewMesh(name: string): (m: MeshData)
    ensures m.name == name && m.vertices == [] && m.faces == []
    ensures m.positions == [] && m.normals == [] && m.texCoords == []
  {
    MeshData(name, [], [], [], [], [])
  }

  /**
    The vertex `processVertices` builds for corner `i` of face `f`: the position of
    `vertexIndices[i]` when it is in range; the texture coordinate and the normal of
    `texCoordIndices[i]` and `normalIndices[i]` when the list is long enough and the index
    in range; zero for every part it cannot look up.
  */
  function CornerVertex(m: MeshData, f: Face, i: nat): (v: MeshVertex)
    requires i < |f.vertexIndices|
    ensures f.vertexIndices[i] < |m.positions| ==>
      Triple(v.x, v.y, v.z) == m.positions[f.vertexIndices[i]]
    ensures f.vertexIndices[i] >= |m.positions| ==> v.x == v.y == v.z == 0.0
    ensures i < |f.normalIndices| && f.normalIndices[i] < |m.normals| ==>
      Triple(v.nx, v.ny, v.nz) == m.normals[f.normalIndices[i]]
    ensures !(i < |f.normalIndices| && f.normalIndices[i] < |m.normals|) ==> v.nx == v.ny == v.nz == 0.0
    ensures i < |f.texCoordIndices| && f.texCoordIndices[i] < |m.texCoords| ==>
      Pair(v.u, v.v) == m.texCoords[f.texCoordIndices[i]]
    ensures !(i < |f.texCoordIndices| && f.texCoordIndices[i] < |m.texCoords|) ==> v.u == v.v == 0.0
  {
    var p := f.vertexIndices[i];
    var pos := if p < |m.positions| then m.positions[p] else Triple(0.0, 0.0, 0.0);
    var tex :=
      if i < |f.texCoordIndices| && f.texCoordIndices[i] < |m.texCoords| then m.texCoords[f.texCoordIndices[i]]
      else Pair(0.0, 0.0);
    var nor :=
      if i < |f.normalIndices| && f.normalIndices[i] < |m.normals| then m.normals[f.normalIndices[i]]
      else Triple(0.0, 0.0, 0.0);
    MeshVertex(pos.e0, pos.e1, pos.e2, nor.e0, nor.e1, nor.e2, tex.e0, tex.e1)
  }

  /** The vertices of one face, one per position index, in corner order. */
  function FaceVertices(m: MeshData, f: Face): (r: seq<MeshVertex>)
    ensures |r| == |f.vertexIndices|
    ensures forall i :: 0 <= i < |r| ==> r[i] == CornerVertex(m, f, i)
  {
    seq(|f.vertexIndices|, i requires 0 <= i < |f.vertexIndices| => CornerVertex(m, f, i))
  }

  /** Σ |face.vertexIndices| over the faces. */
  function CornerCount(faces: seq<Face>): nat {
    if faces == [] then 0
    else CornerCount(faces[..|faces| - 1]) + |faces[|faces| - 1].vertexIndices|
  }

  /** The vertices of the faces in face order, each face's in corner order. */
  function Flattened(m: MeshData, faces: seq<Face>): (r: seq<MeshVertex>)
    ensures |r| == CornerCount(faces)
  {
    if faces == [] then []
    else Flattened(m, faces[..|faces| - 1]) + FaceVertices(m, faces[|faces| - 1])
  }

  /** A mesh after `processVertices`: the old vertex list is dropped and rebuilt from the faces. */
  function Processed(m: MeshData): MeshData {
    m.(vertices := Flattened(m, m.faces))
  }

  /**
    Corner `i` of face `j` is the vertex at `CornerCount(faces[..j]) + i` of the flat list:
    the faces' vertices follow one another without gaps or reordering.
  */
  lemma {:induction false} FlattenedAt(m: MeshData, faces: seq<Face>, j: nat, i: nat)
    requires j < |faces| && i < |faces[j].vertexIndices|
    ensures CornerCount(faces[..j]) + i < |Flattened(m, faces)|
    ensures Flattened(m, faces)[CornerCount(faces[..j]) + i] == CornerVertex(m, faces[j], i)
  {
    var n := |faces| - 1;
    assert faces[..n + 1] == faces;
    if j == n {
      assert faces[..j] == faces[..n];
    } else {
      assert faces[..n][..j] == faces[..j];
      assert faces[..n][j] == faces[j];
      FlattenedAt(m, faces[..n], j, i);
    }
  }

  /** Only the position, normal and texture lists feed the flat vertices; the old vertices and the name do not. */
  lemma {:induction false} FlattenedIgnoresVertices(m: MeshData, m': MeshData, faces: seq<Face>)
    requires m.positions == m'.positions && m.normals == m'.normals && m.texCoords == m'.texCoords
    ensures Flattened(m, faces) == Flattened(m', faces)
  {
    if faces != [] {
      FlattenedIgnoresVertices(m, m', faces[..|faces| - 1]);
      var f := faces[|faces| - 1];
      assert FaceVertices(m, f) == FaceVertices(m', f);
    }
  }

  /** `processVertices` clears before it rebuilds, so running it again changes nothing. */
  lemma ProcessedIdempotent(m: MeshData)
    ensures Processed(Processed(m)) == Processed(m)
  {
    FlattenedIgnoresVertices(Processed(m), m, m.faces);
  }

  /** The flat list has Σ |face.vertexIndices| vertices, whatever the normal and texture lists hold. */
  lemma ProcessedCount(m: MeshData)
    ensures |Processed(m).vertices| == CornerCount(m.faces)
    ensures m.faces != [] && m.faces[0].vertexIndices != [] ==> Processed(m).vertices != []
  {
    if m.faces != [] && m.faces[0].vertexIndices != [] {
      FlattenedAt(m, m.faces, 0, 0);
    }
  }

  class Mesh {
    var name: string
    var vertices: seq<MeshVertex>
    var faces: seq<Face>
    var positions: seq<Triple>
    var normals: seq<Triple>
    var texCoords: seq<Pair>

    /** The fields, as a value. */
    function Value(): MeshData
      reads this
    {
      MeshData(name, vertices, faces, positions, normals, texCoords)
    }

    /** `Mesh(meshName)`. */
    constructor (meshName: string)
      ensures Value() == NewMesh(meshName)
    {
      name := meshName;
      vertices := [];
      faces := [];
      positions := [];
      normals := [];
      texCoords := [];
    }

    /** `addPosition(x, y, z)`: one more position; nothing else changes. */
    method AddPosition(x: real, y: real, z: real)
      modifies this
      ensures Value() == old(Value()).(positions := old(positions) + [Triple(x, y, z)])
    {
      positions := positions + [Triple(x, y, z)];
    }

    /** `addNormal(nx, ny, nz)`: one more normal; nothing else changes. */
    method AddNormal(nx: real, ny: real, nz: real)
      modifies this
      ensures Value() == old(Value()).(normals := old(normals) + [Triple(nx, ny, nz)])
    {
      normals := normals + [Triple(nx, ny, nz)];
    }

    /** `addTexCoord(u, v)`: one more texture coordinate; nothing else changes. */
    method AddTexCoord(u: real, v: real)
      modifies this
      ensures Value() == old(Value()).(texCoords := old(texCoords) + [Pair(u, v)])
    {
      texCoords := texCoords + [Pair(u, v)];
    }

    /** `addFace(face)`: one more face; nothing else changes. */
    method AddFace(face: Face)
      modifies this
      ensures Value() == old(Value()).(faces := old(faces) + [face])
    {
      faces := faces + [face];
    }

    /**
      `processVertices()`: clears `vertices`, then for each face and each of its position
      indices appends the looked-up vertex.
    */
    method ProcessVertices()
      modifies this
      ensures Value() == Processed(old(Value()))
    {
      ghost var m := Value();
      vertices := [];
      var j := 0;
      while j < |faces|
        invariant 0 <= j <= |m.faces|
        invariant Value() == m.(vertices := Flattened(m, m.faces[..j]))
      {
        assert m.faces[..j + 1][..j] == m.faces[..j];
        AppendFaceVertices(faces[j], m);
        j := j + 1;
      }
      assert m.faces[..j] == m.faces;
    }

    /** The inner loop of `processVertices` for one face. */
    method AppendFaceVertices(face: Face, ghost m: MeshData)
      requires positions == m.positions && normals == m.normals && texCoords == m.texCoords
      modifies this
      ensures Value() == old(Value()).(vertices := old(vertices) + FaceVertices(m, face))
    {
      var vertexCount := |face.vertexIndices|;
      var i := 0;
      while i < vertexCount
        invariant 0 <= i <= vertexCount
        invariant Value() == old(Value()).(vertices := old(vertices) + FaceVertices(m, face)[..i])
      {
        var vertex := ZeroVertex();
        var posIndex := face.vertexIndices[i];
        if posIndex < |positions| {
          vertex := vertex.(x := positions[posIndex].e0, y := positions[posIndex].e1, z := positions[posIndex].e2);
        }
        if i < |face.texCoordIndices| {
          var texIndex := face.texCoordIndices[i];
          if texIndex < |texCoords| {
            vertex := vertex.(u := texCoords[texIndex].e0, v := texCoords[texIndex].e1);
          }
        }
        if i < |face.normalIndices| {
          var normIndex := face.normalIndices[i];
          if normIndex < |normals| {
            vertex := vertex.(nx := normals[normIndex].e0, ny := normals[normIndex].e1, nz := normals[normIndex].e2);
          }
        }
        assert vertex == CornerVertex(m, face, i);
        assert FaceVertices(m, face)[..i + 1] == FaceVertices(m, face)[..i] + [vertex];
        vertices := vertices + [vertex];
        i := i + 1;
      }
      assert FaceVertices(m, face)[..i] == FaceVertices(m, face);
    }
  }
}
