/**
  `ObjLoader` (models/ObjLoader.h), the loader of the `Model3D` stack: reads an OBJ file
  into meshes. `o` and `g` lines close the current mesh (kept only when it has faces, after
  `processVertices`) and open a new one; `v`, `vn`, `vt` and `f` lines feed the current
  mesh. Face indices are kept per mesh, as three independent lists.
*/
module ObjMeshLoaders {
  import opened Wrappers
  import opened TextStreams
  import opened FsPaths
  import opened Meshes
  import opened Models3D
  import O = ObjModels

  /** `std::stoul(indexStr) - 1` in `unsigned long` arithmetic: index 0 wraps to 2^32 - 1. */
  function IndexValue(piece: string): (r: Result<nat>)
    ensures r.Ok? <==> StoUL(piece).Ok?
    ensures r.Ok? ==> r.value < ULongModulus
  {
    match StoUL(piece)
    case Err(e) => Err(e)
    case Ok(k) => Ok((k + ULongModulus - 1) % ULongModulus)
  }

  /** The entries one subtoken pushes: none when it is empty, else its index or the exception of `stoul`. */
  function Pushed(piece: string): (r: Result<seq<nat>>)
    ensures r.Ok? ==> |r.value| <= 1
    ensures r.Ok? && piece != [] ==> IndexValue(piece).Ok? && r.value == [IndexValue(piece).value]
  {
    if piece == [] then Ok([])
    else match IndexValue(piece)
      case Err(e) => Err(e)
      case Ok(k) => Ok([k])
  }

  /**
    `if (std::getline(vertexStream, indexStr, '/')) { if (!indexStr.empty()) ... }`: a
    getline that fails pushes nothing.
  */
  function PieceIndices(st: Stream): (r: (Stream, Result<seq<nat>>))
  {
    var (st', piece) := Getline(st, "", '/');
    (st', if st'.fail then Ok([]) else Pushed(piece))
  }

  /** The three pushes of one corner, in the order the source makes them; the first exception wins. */
  function Assemble(p: Result<seq<nat>>, t: Result<seq<nat>>, n: Result<seq<nat>>): (r: Result<Face>)
    ensures r.Ok? <==> p.Ok? && t.Ok? && n.Ok?
    ensures r.Ok? ==> r.value == Face(p.value, n.value, t.value)
    ensures r.Err? ==> r.error == (if p.Err? then p.error else if t.Err? then t.error else n.error)
  {
    if p.Err? then Err(p.error)
    else if t.Err? then Err(t.error)
    else if n.Err? then Err(n.error)
    else Ok(Face(p.value, n.value, t.value))
  }

  /** The position, texture and normal indices one corner token adds to the face. */
  function CornerIndices(token: string): Result<Face> {
    var (s1, p) := PieceIndices(Open(token));
    var (s2, t) := PieceIndices(s1);
    var (_, n) := PieceIndices(s2);
    Assemble(p, t, n)
  }

  /** A face whose three lists are those of `f` followed by those of `c`. */
  function Join(f: Face, c: Face): Face {
    Face(f.vertexIndices + c.vertexIndices, f.normalIndices + c.normalIndices, f.texCoordIndices + c.texCoordIndices)
  }

  /** The face an `f` line's corner tokens build, in order, or the first exception of `stoul`. */
  function FaceIndices(tokens: seq<string>): Result<Face> {
    if tokens == [] then Ok(Face([], [], []))
    else match FaceIndices(tokens[..|tokens| - 1])
      case Err(e) => Err(e)
      case Ok(f) =>
        match CornerIndices(tokens[|tokens| - 1])
        case Err(e) => Err(e)
        case Ok(c) => Ok(Join(f, c))
  }

  /** A corner adds at most one index to each list, so no list is longer than the corner count. */
  lemma {:induction false} FaceIndicesBounded(tokens: seq<string>)
    ensures FaceIndices(tokens).Ok? ==> var f := FaceIndices(tokens).value;
      |f.vertexIndices| <= |tokens| && |f.normalIndices| <= |tokens| && |f.texCoordIndices| <= |tokens|
  {
    if tokens != [] {
      FaceIndicesBounded(tokens[..|tokens| - 1]);
      var token := tokens[|tokens| - 1];
      var (s1, p) := PieceIndices(Open(token));
      var (s2, t) := PieceIndices(s1);
      var (_, n) := PieceIndices(s2);
      assert CornerIndices(token) == Assemble(p, t, n);
    }
  }

  /** A corner without a slash gives only a position index. */
  lemma CornerOnePiece(a: string)
    requires a != [] && forall i :: 0 <= i < |a| ==> a[i] != '/'
    ensures CornerIndices(a) == Assemble(Pushed(a), Ok([]), Ok([]))
  {
    O.IndexOfNoSlash(a);
    assert a[..|a|] == a;
  }

  /** A corner `a/b` gives a position and a texture index; a missing piece adds nothing. */
  lemma CornerTwoPieces(a: string, b: string)
    requires forall i :: 0 <= i < |a| ==> a[i] != '/'
    requires forall i :: 0 <= i < |b| ==> b[i] != '/'
    ensures CornerIndices(a + "/" + b) == Assemble(Pushed(a), Pushed(b), Ok([]))
  {
    O.GetlinePiece(a, b, "");
    if b != [] {
      O.IndexOfNoSlash(b);
      assert b[..|b|] == b;
    }
  }

  /** A corner `a/b/c` gives one index per non-empty piece, the last piece ending at its next slash. */
  lemma CornerThreePieces(a: string, b: string, c: string)
    requires forall i :: 0 <= i < |a| ==> a[i] != '/'
    requires forall i :: 0 <= i < |b| ==> b[i] != '/'
    ensures CornerIndices(a + "/" + b + "/" + c) == Assemble(Pushed(a), Pushed(b), Pushed(c[..IndexOf(c, '/')]))
  {
    assert a + "/" + b + "/" + c == a + "/" + (b + "/" + c);
    O.GetlinePiece(a, b + "/" + c, "");
    O.GetlinePiece(b, c, "");
    O.GetlineRest(c, "");
  }

  /** A numeral k from 1 to 2^32 - 1 gives the zero-based index k - 1. */
  lemma PushedNumeral(k: nat)
    requires 1 <= k < ULongModulus
    ensures Pushed(NatToString(k)) == Ok([k - 1])
  {
    StoULOfNatToString(k);
  }

  /** Index 0, which OBJ never uses, wraps to 2^32 - 1 and so is out of range of every list. */
  lemma PushedZero()
    ensures Pushed("0") == Ok([ULongModulus - 1])
  {
    StoULOfNatToString(0);
    assert NatToString(0) == "0";
  }

  /** The loop state: the meshes added to the model so far and the current mesh. */
  datatype LoadState = LoadState(meshes: seq<MeshData>, current: MeshData)

  /** `currentMesh = std::make_shared<Mesh>("default")` on an empty model. */
  function InitialLoad(): LoadState {
    LoadState([], NewMesh("default"))
  }

  /** The meshes after `if (!currentMesh->getFaces().empty()) { processVertices(); addMesh(currentMesh); }`. */
  function WithCurrent(s: LoadState): (r: seq<MeshData>)
    ensures s.current.faces != [] ==> r == s.meshes + [Processed(s.current)]
    ensures s.current.faces == [] ==> r == s.meshes
  {
    if s.current.faces != [] then s.meshes + [Processed(s.current)] else s.meshes
  }

  /** The name of the mesh an `o`/`g` line opens: its word, or `unnamed_<count>` after the commit. */
  function MeshName(iss: Stream, count: nat): (r: string)
    ensures ReadWord(iss).1.Some? ==> r == ReadWord(iss).1.value
    ensures ReadWord(iss).1.None? ==> r == "unnamed_" + NatToString(count)
  {
    match ReadWord(iss).1
    case Some(w) => w
    case None => "unnamed_" + NatToString(count)
  }

  /** A `v` line: one more position when its three numbers parse. */
  function PositionLine(m: MeshData, iss: Stream): (r: MeshData)
    ensures O.ReadReals3(iss).None? ==> r == m
    ensures O.ReadReals3(iss).Some? ==> var (x, y, z) := O.ReadReals3(iss).value;
      r == m.(positions := m.positions + [Triple(x, y, z)])
  {
    match O.ReadReals3(iss)
    case None => m
    case Some((x, y, z)) => m.(positions := m.positions + [Triple(x, y, z)])
  }

  /** A `vn` line: one more normal when its three numbers parse. */
  function NormalLine(m: MeshData, iss: Stream): (r: MeshData)
    ensures O.ReadReals3(iss).None? ==> r == m
    ensures O.ReadReals3(iss).Some? ==> var (x, y, z) := O.ReadReals3(iss).value;
      r == m.(normals := m.normals + [Triple(x, y, z)])
  {
    match O.ReadReals3(iss)
    case None => m
    case Some((x, y, z)) => m.(normals := m.normals + [Triple(x, y, z)])
  }

  /** A `vt` line: one more texture coordinate when its two numbers parse. */
  function TexCoordLine(m: MeshData, iss: Stream): (r: MeshData)
    ensures O.ReadReals2(iss).None? ==> r == m
    ensures O.ReadReals2(iss).Some? ==> var (u, v) := O.ReadReals2(iss).value;
      r == m.(texCoords := m.texCoords + [Pair(u, v)])
  {
    match O.ReadReals2(iss)
    case None => m
    case Some((u, v)) => m.(texCoords := m.texCoords + [Pair(u, v)])
  }

  /** An `f` line: its face is added when it has a position index; an index that does not parse throws. */
  function FaceLine(m: MeshData, iss: Stream): (r: Result<MeshData>)
    ensures r.Err? <==> FaceIndices(WordsFrom(iss)).Err?
    ensures r.Err? ==> r.error == FaceIndices(WordsFrom(iss)).error
    ensures r.Ok? ==> var face := FaceIndices(WordsFrom(iss)).value;
      r.value == if face.vertexIndices != [] then m.(faces := m.faces + [face]) else m
  {
    match FaceIndices(WordsFrom(iss))
    case Err(e) => Err(e)
    case Ok(face) => Ok(if face.vertexIndices != [] then m.(faces := m.faces + [face]) else m)
  }

  /** The effect of one line on the loop state; only an `f` line can throw. */
  function MeshLine(s: LoadState, line: string): Result<LoadState> {
    var (iss, token) := Keyword(line);
    MeshStep(s, iss, token)
  }

  /** The effect of a line with this keyword, the stream left after the keyword being `iss`. */
  function MeshStep(s: LoadState, iss: Stream, token: string): Result<LoadState> {
    if token == "v" then Ok(s.(current := PositionLine(s.current, iss)))
    else if token == "vn" then Ok(s.(current := NormalLine(s.current, iss)))
    else if token == "vt" then Ok(s.(current := TexCoordLine(s.current, iss)))
    else if token == "f" then
      match FaceLine(s.current, iss)
      case Err(e) => Err(e)
      case Ok(m) => Ok(s.(current := m))
    else if token == "o" || token == "g" then
      var meshes := WithCurrent(s);
      Ok(LoadState(meshes, NewMesh(MeshName(iss, |meshes|))))
    else Ok(s)
  }

  /**
    One line: `o`/`g` commits the current mesh when it has faces and opens a fresh, empty one;
    every other line leaves the model's meshes alone and changes at most one list of the
    current mesh, by appending one element; an `f` line appends its face exactly when the
    face has a position index; a line with another keyword changes nothing.
  */
  lemma MeshLineEffect(s: LoadState, line: string)
    ensures var kw := Keyword(line).1;
      kw != "f" ==> MeshLine(s, line).Ok?
    ensures var kw := Keyword(line).1;
      kw == "f" ==> (MeshLine(s, line).Err? <==> FaceIndices(WordsFrom(Keyword(line).0)).Err?)
    ensures var kw := Keyword(line).1; var r := MeshLine(s, line);
      kw == "f" && r.Ok? ==>
        var face := FaceIndices(WordsFrom(Keyword(line).0)).value;
        r.value == (if face.vertexIndices != [] then s.(current := s.current.(faces := s.current.faces + [face])) else s)
    ensures var kw := Keyword(line).1; var r := MeshLine(s, line);
      (kw == "o" || kw == "g") ==>
        r.value.meshes == WithCurrent(s) &&
        r.value.current == NewMesh(MeshName(Keyword(line).0, |WithCurrent(s)|))
    ensures var kw := Keyword(line).1; var r := MeshLine(s, line);
      kw != "o" && kw != "g" && r.Ok? ==>
        r.value.meshes == s.meshes && r.value.current.name == s.current.name &&
        r.value.current.vertices == s.current.vertices &&
        (r.value.current.positions == s.current.positions || (kw == "v" && |r.value.current.positions| == |s.current.positions| + 1)) &&
        (r.value.current.normals == s.current.normals || (kw == "vn" && |r.value.current.normals| == |s.current.normals| + 1)) &&
        (r.value.current.texCoords == s.current.texCoords || (kw == "vt" && |r.value.current.texCoords| == |s.current.texCoords| + 1)) &&
        (r.value.current.faces == s.current.faces || kw == "f")
    ensures var kw := Keyword(line).1;
      kw != "v" && kw != "vn" && kw != "vt" && kw != "f" && kw != "o" && kw != "g" ==> MeshLine(s, line) == Ok(s)
  {
    var (iss, kw) := Keyword(line);
    MeshStepEffect(s, iss, kw);
  }

  /** `MeshLineEffect` for a given keyword and the stream after it. */
  lemma MeshStepEffect(s: LoadState, iss: Stream, kw: string)
    ensures kw != "f" ==> MeshStep(s, iss, kw).Ok?
    ensures kw == "f" ==> (MeshStep(s, iss, kw).Err? <==> FaceIndices(WordsFrom(iss)).Err?)
    ensures var r := MeshStep(s, iss, kw);
      kw == "f" && r.Ok? ==>
        var face := FaceIndices(WordsFrom(iss)).value;
        r.value == (if face.vertexIndices != [] then s.(current := s.current.(faces := s.current.faces + [face])) else s)
    ensures var r := MeshStep(s, iss, kw);
      (kw == "o" || kw == "g") ==>
        r.value.meshes == WithCurrent(s) && r.value.current == NewMesh(MeshName(iss, |WithCurrent(s)|))
    ensures var r := MeshStep(s, iss, kw);
      kw != "o" && kw != "g" && r.Ok? ==>
        r.value.meshes == s.meshes && r.value.current.name == s.current.name &&
        r.value.current.vertices == s.current.vertices &&
        (r.value.current.positions == s.current.positions || (kw == "v" && |r.value.current.positions| == |s.current.positions| + 1)) &&
        (r.value.current.normals == s.current.normals || (kw == "vn" && |r.value.current.normals| == |s.current.normals| + 1)) &&
        (r.value.current.texCoords == s.current.texCoords || (kw == "vt" && |r.value.current.texCoords| == |s.current.texCoords| + 1)) &&
        (r.value.current.faces == s.current.faces || kw == "f")
    ensures kw != "v" && kw != "vn" && kw != "vt" && kw != "f" && kw != "o" && kw != "g" ==> MeshStep(s, iss, kw) == Ok(s)
  {
  }

  /** A mesh as the model holds it: it has faces and its vertices are the flattened faces. */
  predicate Committed(m: MeshData) {
    m.faces != [] && m.vertices == Flattened(m, m.faces)
  }

  /** Only an `o`/`g` line changes the model's meshes, and then by the commit of the current mesh. */
  lemma MeshLineMeshes(s: LoadState, line: string)
    requires MeshLine(s, line).Ok?
    ensures var kw := Keyword(line).1;
      MeshLine(s, line).value.meshes == if kw == "o" || kw == "g" then WithCurrent(s) else s.meshes
  {
    var (iss, kw) := Keyword(line);
    MeshStepEffect(s, iss, kw);
  }

  /** Every line keeps every mesh the model holds committed. */
  lemma MeshLineKeepsCommitted(s: LoadState, line: string)
    requires forall k :: 0 <= k < |s.meshes| ==> Committed(s.meshes[k])
    requires MeshLine(s, line).Ok?
    ensures var s' := MeshLine(s, line).value;
      forall k :: 0 <= k < |s'.meshes| ==> Committed(s'.meshes[k])
  {
    MeshLineMeshes(s, line);
    if s.current.faces != [] {
      ProcessedCommitted(s.current);
    }
  }

  /** A mesh with faces is committed once processed. */
  lemma ProcessedCommitted(m: MeshData)
    requires m.faces != []
    ensures Committed(Processed(m))
  {
    ProcessedIdempotent(m);
  }

  /** The state after reading the lines: every mesh it holds is committed. */
  lemma {:induction false} FoldKeepsCommitted(lines: seq<string>)
    requires FoldLines(MeshLine, InitialLoad(), lines).Ok?
    ensures var s := FoldLines(MeshLine, InitialLoad(), lines).value;
      forall k :: 0 <= k < |s.meshes| ==> Committed(s.meshes[k])
  {
    if lines != [] {
      var n := |lines| - 1;
      FoldKeepsCommitted(lines[..n]);
      MeshLineKeepsCommitted(FoldLines(MeshLine, InitialLoad(), lines[..n]).value, lines[n]);
    }
  }

  /**
    The meshes of a file's lines: the loop's meshes and then the last mesh when it has
    faces; the first exception of `stoul` aborts the load.
  */
  function LoadedMeshes(lines: seq<string>): Result<seq<MeshData>> {
    match FoldLines(MeshLine, InitialLoad(), lines)
    case Err(e) => Err(e)
    case Ok(s) => Ok(WithCurrent(s))
  }

  /** Every mesh of a loaded model has faces and vertices built from them; none is empty. */
  lemma LoadedMeshesCommitted(lines: seq<string>)
    requires LoadedMeshes(lines).Ok?
    ensures forall k :: 0 <= k < |LoadedMeshes(lines).value| ==> Committed(LoadedMeshes(lines).value[k])
  {
    FoldKeepsCommitted(lines);
    var s := FoldLines(MeshLine, InitialLoad(), lines).value;
    if s.current.faces != [] {
      ProcessedIdempotent(s.current);
    }
  }

  /** What `loadModel(filePath)` throws when the file does not open. */
  function OpenFailure(filePath: string): Error {
    RuntimeError("Failed to open file: " + filePath)
  }

  /** The model `loadModel(filePath)` returns: named by the path's stem, holding the file's meshes. */
  function LoadedModel(fs: FileSystem, filePath: string): (r: Result<(string, seq<MeshData>)>)
    ensures filePath !in fs ==> r == Err(OpenFailure(filePath))
    ensures filePath in fs ==> (r.Ok? <==> LoadedMeshes(fs[filePath]).Ok?)
    ensures r.Ok? ==> r.value == (Stem(filePath), LoadedMeshes(fs[filePath]).value)
  {
    if filePath !in fs then Err(OpenFailure(filePath))
    else match LoadedMeshes(fs[filePath])
      case Err(e) => Err(e)
      case Ok(meshes) => Ok((Stem(filePath), meshes))
  }

  class ObjLoader {
    constructor ()
    {
    }

    /** `supportsExtension(extension)`: exactly `.obj`, case included. */
    predicate SupportsExtension(extension: string)
    {
      extension == ".obj"
    }

    /**
      `loadModel(filePath)`: throws when the file does not open or an index does not
      parse; otherwise a new model named by the file's stem with the file's meshes.
    */
    method LoadModel(fs: FileSystem, filePath: string) returns (r: Result<Model3D>)
      ensures r.Ok? <==> LoadedModel(fs, filePath).Ok?
      ensures r.Err? ==> r.error == LoadedModel(fs, filePath).error
      ensures r.Ok? ==> fresh(r.value) && (r.value.name, r.value.meshes) == LoadedModel(fs, filePath).value
    {
      if filePath !in fs {
        return Err(OpenFailure(filePath));
      }
      var lines := fs[filePath];
      var modelName := Stem(filePath);
      var model := new Model3D(modelName);
      var currentMesh := new Mesh("default");
      var i := 0;
      while i < |lines|
        invariant 0 <= i <= |lines|
        invariant fresh(model) && fresh(currentMesh) && model.name == modelName
        invariant FoldLines(MeshLine, InitialLoad(), lines[..i]) == Ok(LoadState(model.meshes, currentMesh.Value()))
      {
        FoldLinesNext(MeshLine, InitialLoad(), lines, i, LoadState(model.meshes, currentMesh.Value()));
        var outcome;
        currentMesh, outcome := ReadMeshLine(model, currentMesh, lines[i]);
        if outcome.Fail? {
          FoldLinesErrPersists(MeshLine, InitialLoad(), lines, i + 1);
          return Err(outcome.error);
        }
        i := i + 1;
      }
      assert lines[..i] == lines;
      if currentMesh.faces != [] {
        currentMesh.ProcessVertices();
        model.AddMesh(currentMesh.Value());
      }
      return Ok(model);
    }
  }

  /** `while (iss >> vertexData)`: the corners of an `f` line, pushed onto three index lists. */
  method ReadFace(iss: Stream) returns (r: Result<Face>)
    ensures r == FaceIndices(WordsFrom(iss))
  {
    var face := Face([], [], []);
    var st := iss;
    ghost var done: seq<string> := [];
    while true
      invariant WordsFrom(iss) == done + WordsFrom(st)
      invariant FaceIndices(done) == Ok(face)
      decreases |st.rest|
    {
      var p := ReadWord(st);
      WordsFromStep(st);
      if p.1.None? {
        assert done + WordsFrom(st) == done;
        return Ok(face);
      }
      var vertexData := p.1.value;
      ghost var rest := WordsFrom(p.0);
      ConsAssoc(done, vertexData, rest);
      var corner := CornerIndices(vertexData);
      FaceIndicesNext(done, vertexData, face);
      if corner.Err? {
        FaceIndicesErrPersists(done + [vertexData], rest);
        return Err(corner.error);
      }
      face := Join(face, corner.value);
      done := done + [vertexData];
      st := p.0;
    }
  }

  /** Moving one element across a concatenation. */
  lemma ConsAssoc<T>(a: seq<T>, x: T, b: seq<T>)
    ensures a + ([x] + b) == (a + [x]) + b
  {
  }

  /** `while (iss >> w)` reads the next word and then the rest, or stops at once. */
  lemma WordsFromStep(st: Stream)
    ensures ReadWord(st).1.None? ==> WordsFrom(st) == []
    ensures ReadWord(st).1.Some? ==> WordsFrom(st) == [ReadWord(st).1.value] + WordsFrom(ReadWord(st).0)
  {
  }

  /** One more corner extends the face by its indices, or throws. */
  lemma FaceIndicesNext(done: seq<string>, token: string, face: Face)
    requires FaceIndices(done) == Ok(face)
    ensures CornerIndices(token).Err? ==> FaceIndices(done + [token]) == Err(CornerIndices(token).error)
    ensures CornerIndices(token).Ok? ==> FaceIndices(done + [token]) == Ok(Join(face, CornerIndices(token).value))
  {
    assert (done + [token])[..|done|] == done;
  }

  /** Once a prefix of the corners has thrown, the whole face throws the same exception. */
  lemma {:induction false} FaceIndicesErrPersists(tokens: seq<string>, more: seq<string>)
    requires FaceIndices(tokens).Err?
    ensures FaceIndices(tokens + more) == FaceIndices(tokens)
    decreases |more|
  {
    if more != [] {
      var n := |more| - 1;
      FaceIndicesErrPersists(tokens, more[..n]);
      assert (tokens + more)[..|tokens + more| - 1] == tokens + more[..n];
    } else {
      assert tokens + more == tokens;
    }
  }

  /** The body of the line loop: feeds `currentMesh`, or closes it and returns a new one. */
  method ReadMeshLine(model: Model3D, currentMesh: Mesh, line: string) returns (mesh: Mesh, r: Outcome)
    modifies model, currentMesh
    ensures mesh == currentMesh || fresh(mesh)
    ensures model.name == old(model.name)
    ensures var next := MeshLine(LoadState(old(model.meshes), old(currentMesh.Value())), line);
      (r.Fail? <==> next.Err?) &&
      (r.Fail? ==> r.error == next.error) &&
      (r.Pass? ==> next.value == LoadState(model.meshes, mesh.Value()))
  {
    var (iss, token) := Keyword(line);
    mesh, r := currentMesh, Pass;
    if token == "v" {
      var xyz := O.ReadReals3(iss);
      if xyz.Some? {
        currentMesh.AddPosition(xyz.value.0, xyz.value.1, xyz.value.2);
      }
    } else if token == "vn" {
      var n := O.ReadReals3(iss);
      if n.Some? {
        currentMesh.AddNormal(n.value.0, n.value.1, n.value.2);
      }
    } else if token == "vt" {
      var uv := O.ReadReals2(iss);
      if uv.Some? {
        currentMesh.AddTexCoord(uv.value.0, uv.value.1);
      }
    } else if token == "f" {
      var face := ReadFace(iss);
      if face.Err? {
        return currentMesh, Fail(face.error);
      }
      if face.value.vertexIndices != [] {
        currentMesh.AddFace(face.value);
      }
    } else if token == "o" || token == "g" {
      if currentMesh.faces != [] {
        currentMesh.ProcessVertices();
        model.AddMesh(currentMesh.Value());
      }
      var meshName := "";
      var word := ReadWord(iss).1;
      if word.Some? {
        meshName := word.value;
      }
      if meshName == "" {
        meshName := "unnamed_" + NatToString(|model.meshes|);
      }
      mesh := new Mesh(meshName);
    }
  }
}
