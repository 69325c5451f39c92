/**
  `OBJModel` (model/obj/OBJModel.h): reads a Wavefront OBJ file line by line into vectors of
  vertices, normals, texture coordinates and faces, and the name of its material library.
  Each line's first word selects the record; a record whose numbers do not parse is
  skipped, an index that `std::stoi` rejects aborts the whole load.
*/
module ObjModels {
  import opened Wrappers
  import opened TextStreams
  import opened FsPaths

  datatype Vertex = Vertex(x: real, y: real, z: real)
  datatype Normal = Normal(x: real, y: real, z: real)
  datatype TexCoord = TexCoord(u: real, v: real)

  /** One face corner: the zero-based position, texture and normal indices, each optional. */
  datatype Corner = Corner(v: Option<int>, vt: Option<int>, vn: Option<int>)

  datatype Face = Face(vertexIndices: seq<Corner>)

  /** Everything `loadOBJ` collects. */
  datatype ObjData = ObjData(
    vertices: seq<Vertex>,
    normals: seq<Normal>,
    texCoords: seq<TexCoord>,
    faces: seq<Face>,
    mtlLib: string)

  function EmptyData(): ObjData {
    ObjData([], [], [], [], "")
  }

  /** `iss >> a >> b >> c` into floats, and whether the stream is still not failed afterwards. */
  function ReadReals3(st: Stream): (r: Option<(real, real, real)>)
  {
    var (s1, a) := ReadReal(st);
    var (s2, b) := ReadReal(s1);
    var (s3, c) := ReadReal(s2);
    if s3.fail then None else Some((a.value, b.value, c.value))
  }

  /** `iss >> a >> b` into floats. */
  function ReadReals2(st: Stream): (r: Option<(real, real)>)
  {
    var (s1, a) := ReadReal(st);
    var (s2, b) := ReadReal(s1);
    if s2.fail then None else Some((a.value, b.value))
  }

  /**
    The three subtokens of a face corner as the source reads them: `subToken` is declared
    once per corner and `std::getline(tss, subToken, '/')` is called three times. A getline
    on a stream that already reached its end fails without erasing `subToken`, so a corner
    with fewer than two slashes repeats its last piece.
  */
  function SubtokensAsWritten(token: string): (string, string, string)
  {
    var (s1, a) := Getline(Open(token), "", '/');
    var (s2, b) := Getline(s1, a, '/');
    var (_, c) := Getline(s2, b, '/');
    (a, b, c)
  }

  /** The three subtokens as intended: a piece that getline cannot read is empty. */
  function Subtokens(token: string): (string, string, string)
  {
    var (s1, a) := Getline(Open(token), "", '/');
    var (s2, b) := Getline(s1, "", '/');
    var (_, c) := Getline(s2, "", '/');
    (a, b, c)
  }

  /** One index subtoken: empty gives no index, otherwise `std::stoi(subToken) - 1`, which may throw. */
  function ParseIndex(sub: string): (r: Result<Option<int>>)
    ensures sub == [] ==> r == Ok(None)
    ensures sub != [] ==> (r.Ok? <==> StoI(sub).Ok?)
    ensures sub != [] && r.Ok? ==> r.value == Some(StoI(sub).value - 1)
    ensures r.Err? ==> r.error == StoI(sub).error
  {
    if sub == [] then Ok(None)
    else match StoI(sub)
      case Err(e) => Err(e)
      case Ok(k) => Ok(Some(k - 1))
  }

  /** The corner the three subtokens give; the first `std::stoi` that throws decides the exception. */
  function CornerOfSubtokens(a: string, b: string, c: string): (r: Result<Corner>)
    ensures r.Ok? <==> ParseIndex(a).Ok? && ParseIndex(b).Ok? && ParseIndex(c).Ok?
    ensures r.Ok? ==> r.value == Corner(ParseIndex(a).value, ParseIndex(b).value, ParseIndex(c).value)
  {
    match ParseIndex(a)
    case Err(e) => Err(e)
    case Ok(v) =>
      match ParseIndex(b)
      case Err(e) => Err(e)
      case Ok(vt) =>
        match ParseIndex(c)
        case Err(e) => Err(e)
        case Ok(vn) => Ok(Corner(v, vt, vn))
  }

  /** A face corner as the source parses it, stale subtokens included. */
  function CornerAsWritten(token: string): Result<Corner> {
    var (a, b, c) := SubtokensAsWritten(token);
    CornerOfSubtokens(a, b, c)
  }

  /** A face corner as intended: missing pieces give absent indices. */
  function CornerOf(token: string): Result<Corner> {
    var (a, b, c) := Subtokens(token);
    CornerOfSubtokens(a, b, c)
  }

  /** The results of parsing each token in order; the first token that throws aborts. */
  function ParseEach<T>(parse: string -> Result<T>, tokens: seq<string>): Result<seq<T>> {
    if tokens == [] then Ok([])
    else match parse(tokens[0])
      case Err(e) => Err(e)
      case Ok(c) =>
        match ParseEach(parse, tokens[1..])
        case Err(e) => Err(e)
        case Ok(cs) => Ok([c] + cs)
  }

  /**
    The corners of the tokens of an `f` line, in order, each read as the source reads it
    (stale subtokens included); the first corner that throws aborts.
  */
  function ParseCorners(tokens: seq<string>): Result<seq<Corner>> {
    ParseEach(CornerAsWritten, tokens)
  }

  /** The face an `f` line with these tokens gives. */
  function FaceOf(tokens: seq<string>): Result<Face> {
    match ParseCorners(tokens)
    case Err(e) => Err(e)
    case Ok(cs) => Ok(Face(cs))
  }

  /** A face has one corner per token, each the corner its token gives, unless one of them throws. */
  lemma FaceOfEach(tokens: seq<string>)
    ensures FaceOf(tokens).Ok? <==> forall i :: 0 <= i < |tokens| ==> CornerAsWritten(tokens[i]).Ok?
    ensures FaceOf(tokens).Ok? ==> |FaceOf(tokens).value.vertexIndices| == |tokens|
    ensures FaceOf(tokens).Ok? ==>
      forall i :: 0 <= i < |tokens| ==> FaceOf(tokens).value.vertexIndices[i] == CornerAsWritten(tokens[i]).value
  {
    ParseEachAll(CornerAsWritten, tokens);
  }

  /** Parsing succeeds exactly when every token parses, and then gives one result per token, in order. */
  lemma {:induction false} ParseEachAll<T>(parse: string -> Result<T>, tokens: seq<string>)
    ensures ParseEach(parse, tokens).Ok? <==> forall i :: 0 <= i < |tokens| ==> parse(tokens[i]).Ok?
    ensures ParseEach(parse, tokens).Ok? ==> |ParseEach(parse, tokens).value| == |tokens|
    ensures ParseEach(parse, tokens).Ok? ==>
      forall i :: 0 <= i < |tokens| ==> ParseEach(parse, tokens).value[i] == parse(tokens[i]).value
  {
    if tokens != [] {
      ParseEachAll(parse, tokens[1..]);
      assert forall i :: 1 <= i < |tokens| ==> tokens[i] == tokens[1..][i - 1];
    }
  }

  /** A `v` record: a vertex is appended only when all three numbers parse. */
  function VertexRecord(d: ObjData, st: Stream): ObjData {
    match ReadReals3(st)
    case None => d
    case Some((x, y, z)) => d.(vertices := d.vertices + [Vertex(x, y, z)])
  }

  /** A `vn` record. */
  function NormalRecord(d: ObjData, st: Stream): ObjData {
    match ReadReals3(st)
    case None => d
    case Some((x, y, z)) => d.(normals := d.normals + [Normal(x, y, z)])
  }

  /** A `vt` record: two numbers. */
  function TexCoordRecord(d: ObjData, st: Stream): ObjData {
    match ReadReals2(st)
    case None => d
    case Some((u, v)) => d.(texCoords := d.texCoords + [TexCoord(u, v)])
  }

  /** An `f` record: one face, whatever its number of corners, or the exception of an index. */
  function FaceRecord(d: ObjData, st: Stream): Result<ObjData> {
    match FaceOf(WordsFrom(st))
    case Err(e) => Err(e)
    case Ok(f) => Ok(d.(faces := d.faces + [f]))
  }

  /** An `mtllib` record: the name replaces the previous one only when a word can be read. */
  function MtlLibRecord(d: ObjData, st: Stream): ObjData {
    match ReadWord(st).1
    case None => d
    case Some(name) => d.(mtlLib := name)
  }

  /** The effect of one line of the file on what has been collected so far. */
  function ParseLine(d: ObjData, line: string): Result<ObjData> {
    var (st, kw) := Keyword(line);
    ParseRecord(d, st, kw)
  }

  /** The record a line with keyword `kw` gives, `st` being the stream left after the keyword. */
  function ParseRecord(d: ObjData, st: Stream, kw: string): Result<ObjData> {
    if kw == "v" then Ok(VertexRecord(d, st))
    else if kw == "vn" then Ok(NormalRecord(d, st))
    else if kw == "vt" then Ok(TexCoordRecord(d, st))
    else if kw == "f" then FaceRecord(d, st)
    else if kw == "mtllib" then Ok(MtlLibRecord(d, st))
    else Ok(d)
  }

  /** The lines of a file read in order, from an empty model; the first exception aborts. */
  function ParseLines(lines: seq<string>): Result<ObjData> {
    FoldLines(ParseLine, EmptyData(), lines)
  }

  /** The five keywords `loadOBJ` recognises. */
  predicate IsRecordKeyword(kw: string) {
    kw == "v" || kw == "vn" || kw == "vt" || kw == "f" || kw == "mtllib"
  }

  /** `b` extends `a` by at most one element. */
  predicate GrowsByAtMostOne<T(==)>(a: seq<T>, b: seq<T>) {
    (b == a) || (|b| == |a| + 1 && b[..|a|] == a)
  }

  /**
    A line changes at most one of the collections and only by appending one element (or,
    for `mtllib`, replaces the library name); only an `f` line can throw; a line that does
    not start with one of the five keywords changes nothing.
  */
  lemma ParseLineEffect(d: ObjData, line: string)
    ensures var kw := Keyword(line).1;
      kw != "f" ==> ParseLine(d, line).Ok?
    ensures var kw := Keyword(line).1;
      !IsRecordKeyword(kw) ==> ParseLine(d, line) == Ok(d)
    ensures ParseLine(d, line).Ok? ==> var r := ParseLine(d, line).value;
      GrowsByAtMostOne(d.vertices, r.vertices) && GrowsByAtMostOne(d.normals, r.normals) &&
      GrowsByAtMostOne(d.texCoords, r.texCoords) && GrowsByAtMostOne(d.faces, r.faces)
    ensures ParseLine(d, line).Ok? ==> var r := ParseLine(d, line).value; var kw := Keyword(line).1;
      (r.vertices != d.vertices ==> kw == "v") && (r.normals != d.normals ==> kw == "vn") &&
      (r.texCoords != d.texCoords ==> kw == "vt") && (r.mtlLib != d.mtlLib ==> kw == "mtllib") &&
      (kw == "f" <==> |r.faces| == |d.faces| + 1)
  {
    var (st, kw) := Keyword(line);
    ParseRecordEffect(d, st, kw);
  }

  /** `ParseLineEffect` for a given keyword and the stream after it. */
  lemma ParseRecordEffect(d: ObjData, st: Stream, kw: string)
    ensures kw != "f" ==> ParseRecord(d, st, kw).Ok?
    ensures !IsRecordKeyword(kw) ==> ParseRecord(d, st, kw) == Ok(d)
    ensures ParseRecord(d, st, kw).Ok? ==> var r := ParseRecord(d, st, kw).value;
      GrowsByAtMostOne(d.vertices, r.vertices) && GrowsByAtMostOne(d.normals, r.normals) &&
      GrowsByAtMostOne(d.texCoords, r.texCoords) && GrowsByAtMostOne(d.faces, r.faces)
    ensures ParseRecord(d, st, kw).Ok? ==> var r := ParseRecord(d, st, kw).value;
      (r.vertices != d.vertices ==> kw == "v") && (r.normals != d.normals ==> kw == "vn") &&
      (r.texCoords != d.texCoords ==> kw == "vt") && (r.mtlLib != d.mtlLib ==> kw == "mtllib") &&
      (kw == "f" <==> |r.faces| == |d.faces| + 1)
  {
    if kw == "v" {
      assert ParseRecord(d, st, kw) == Ok(VertexRecord(d, st));
      if ReadReals3(st).Some? {
        AppendGrows(d.vertices, VertexRecord(d, st).vertices[|d.vertices|]);
      }
    } else if kw == "vn" {
      assert ParseRecord(d, st, kw) == Ok(NormalRecord(d, st));
      if ReadReals3(st).Some? {
        AppendGrows(d.normals, NormalRecord(d, st).normals[|d.normals|]);
      }
    } else if kw == "vt" {
      assert ParseRecord(d, st, kw) == Ok(TexCoordRecord(d, st));
      if ReadReals2(st).Some? {
        AppendGrows(d.texCoords, TexCoordRecord(d, st).texCoords[|d.texCoords|]);
      }
    } else if kw == "f" {
      assert ParseRecord(d, st, kw) == FaceRecord(d, st);
      if FaceRecord(d, st).Ok? {
        AppendGrows(d.faces, FaceRecord(d, st).value.faces[|d.faces|]);
      }
    } else if kw == "mtllib" {
      assert ParseRecord(d, st, kw) == Ok(MtlLibRecord(d, st));
    }
  }

  /** Appending one element grows a sequence by exactly that element. */
  lemma AppendGrows<T>(a: seq<T>, x: T)
    ensures GrowsByAtMostOne(a, a + [x])
  {
    assert (a + [x])[..|a|] == a;
  }

  /**
    A `v` line whose three numbers parse appends exactly that vertex; otherwise the line is
    skipped. `vn` and `vt` lines behave alike with normals and (two-number) texture
    coordinates.
  */
  lemma NumericRecords(d: ObjData, st: Stream)
    ensures ReadReals3(st).Some? ==> var (x, y, z) := ReadReals3(st).value;
      VertexRecord(d, st) == d.(vertices := d.vertices + [Vertex(x, y, z)]) &&
      NormalRecord(d, st) == d.(normals := d.normals + [Normal(x, y, z)])
    ensures ReadReals3(st).None? ==> VertexRecord(d, st) == d && NormalRecord(d, st) == d
    ensures ReadReals2(st).Some? ==> var (u, v) := ReadReals2(st).value;
      TexCoordRecord(d, st) == d.(texCoords := d.texCoords + [TexCoord(u, v)])
    ensures ReadReals2(st).None? ==> TexCoordRecord(d, st) == d
  {
  }

  /** Every `f` line appends one face with one corner per token, or throws the first corner's exception. */
  lemma FaceLine(d: ObjData, st: Stream)
    ensures FaceRecord(d, st).Ok? <==> forall i :: 0 <= i < |WordsFrom(st)| ==> CornerAsWritten(WordsFrom(st)[i]).Ok?
    ensures FaceRecord(d, st).Ok? ==> var r := FaceRecord(d, st).value;
      r == d.(faces := d.faces + [r.faces[|d.faces|]]) &&
      |r.faces[|d.faces|].vertexIndices| == |WordsFrom(st)|
  {
    var ws := WordsFrom(st);
    FaceOfEach(ws);
    match FaceOf(ws)
    case Err(_) =>
    case Ok(f) =>
      assert FaceRecord(d, st) == Ok(d.(faces := d.faces + [f]));
  }

  class OBJModel {
    var vertices: seq<Vertex>
    var normals: seq<Normal>
    var texCoords: seq<TexCoord>
    var faces: seq<Face>
    var mtlLib: string

    function Data(): ObjData
      reads this
    {
      ObjData(vertices, normals, texCoords, faces, mtlLib)
    }

    constructor ()
      ensures Data() == EmptyData()
    {
      vertices, normals, texCoords, faces, mtlLib := [], [], [], [], "";
    }

    function GetFaces(): (r: seq<Face>)
      reads this
      ensures r == Data().faces
    {
      faces
    }

    function GetVertices(): (r: seq<Vertex>)
      reads this
      ensures r == Data().vertices
    {
      vertices
    }

    function GetNormals(): (r: seq<Normal>)
      reads this
      ensures r == Data().normals
    {
      normals
    }

    /** `iss >> v.x >> v.y >> v.z` and the `push_back` when it succeeded. */
    method ReadVertex(iss: Stream)
      modifies this
      ensures Data() == VertexRecord(old(Data()), iss)
    {
      var v := ReadReals3(iss);
      if v.Some? {
        vertices := vertices + [Vertex(v.value.0, v.value.1, v.value.2)];
      }
    }

    method ReadNormal(iss: Stream)
      modifies this
      ensures Data() == NormalRecord(old(Data()), iss)
    {
      var n := ReadReals3(iss);
      if n.Some? {
        normals := normals + [Normal(n.value.0, n.value.1, n.value.2)];
      }
    }

    method ReadTexCoord(iss: Stream)
      modifies this
      ensures Data() == TexCoordRecord(old(Data()), iss)
    {
      var t := ReadReals2(iss);
      if t.Some? {
        texCoords := texCoords + [TexCoord(t.value.0, t.value.1)];
      }
    }

    method ReadFaceRecord(iss: Stream) returns (r: Outcome)
      modifies this
      ensures r.Pass? ==> FaceRecord(old(Data()), iss) == Ok(Data())
      ensures r.Fail? ==> FaceRecord(old(Data()), iss) == Err(r.error)
    {
      var f := ReadFace(iss);
      if f.Err? {
        return Fail(f.error);
      }
      faces := faces + [f.value];
      r := Pass;
    }

    method ReadMtlLib(iss: Stream)
      modifies this
      ensures Data() == MtlLibRecord(old(Data()), iss)
    {
      var mtlFile := ReadWord(iss).1;
      if mtlFile.Some? {
        mtlLib := mtlFile.value;
      }
    }

    /** One pass of the `while (std::getline(file, line))` loop: the line's record, or the exception of its face. */
    method ReadLine(line: string) returns (r: Outcome)
      modifies this
      ensures r.Pass? ==> ParseLine(old(Data()), line) == Ok(Data())
      ensures r.Fail? ==> ParseLine(old(Data()), line) == Err(r.error)
    {
      var kw := Keyword(line);
      var iss := kw.0;
      var type_ := kw.1;
      r := Pass;
      if type_ == "v" {
        ReadVertex(iss);
      } else if type_ == "vn" {
        ReadNormal(iss);
      } else if type_ == "vt" {
        ReadTexCoord(iss);
      } else if type_ == "f" {
        r := ReadFaceRecord(iss);
      } else if type_ == "mtllib" {
        ReadMtlLib(iss);
      }
    }

    /**
      `loadOBJ(filepath)`: `null` when the file cannot be opened, the exception of the first
      index that `std::stoi` rejects, and otherwise a new model holding what the lines give.
    */
    static method LoadOBJ(fs: FileSystem, filepath: string) returns (r: Result<OBJModel?>)
      ensures filepath !in fs ==> r == Ok(null)
      ensures filepath in fs ==> (r.Err? <==> ParseLines(fs[filepath]).Err?)
      ensures filepath in fs && r.Err? ==> r.error == ParseLines(fs[filepath]).error
      ensures filepath in fs && r.Ok? ==> r.value != null && fresh(r.value)
      ensures filepath in fs && r.Ok? ==> r.value.Data() == ParseLines(fs[filepath]).value
    {
      if filepath !in fs {
        return Ok(null);
      }
      var lines := fs[filepath];
      var model := new OBJModel();
      var i := 0;
      while i < |lines|
        invariant 0 <= i <= |lines|
        invariant fresh(model)
        invariant FoldLines(ParseLine, EmptyData(), lines[..i]) == Ok(model.Data())
      {
        ghost var before := model.Data();
        FoldLinesNext(ParseLine, EmptyData(), lines, i, before);
        var res := model.ReadLine(lines[i]);
        if res.Fail? {
          assert FoldLines(ParseLine, EmptyData(), lines[..i + 1]) == Err(res.error);
          FoldLinesErrPersists(ParseLine, EmptyData(), lines, i + 1);
          return Err(res.error);
        }
        assert FoldLines(ParseLine, EmptyData(), lines[..i + 1]) == Ok(model.Data());
        i := i + 1;
      }
      assert lines[..i] == lines;
      return Ok(model);
    }
  }


  /** The words of a stream are the word a `>>` reads and then the words after it. */
  lemma WordsFromStep(st: Stream)
    requires ReadWord(st).1.Some?
    ensures WordsFrom(st) == [ReadWord(st).1.value] + WordsFrom(ReadWord(st).0)
  {
  }

  /** A stream a `>>` cannot read a word from has no words. */
  lemma WordsFromStop(st: Stream)
    requires ReadWord(st).1.None?
    ensures WordsFrom(st) == []
  {
  }

  /** `corners` followed by the corners of a result, or that result's exception. */
  function Prepend(corners: seq<Corner>, r: Result<seq<Corner>>): Result<seq<Corner>> {
    match r
    case Err(e) => Err(e)
    case Ok(cs) => Ok(corners + cs)
  }

  lemma PrependNil(r: Result<seq<Corner>>)
    ensures Prepend([], r) == r
  {
    if r.Ok? {
      assert [] + r.value == r.value;
    }
  }

  lemma PrependAssoc(a: seq<Corner>, b: seq<Corner>, r: Result<seq<Corner>>)
    ensures Prepend(a, Prepend(b, r)) == Prepend(a + b, r)
  {
    if r.Ok? {
      assert a + (b + r.value) == (a + b) + r.value;
    }
  }

  /** The corners of a stream's words: those of the word a `>>` reads, then those of the rest. */
  lemma ParseCornersStep(st: Stream)
    requires ReadWord(st).1.Some?
    ensures ParseCorners(WordsFrom(st)) ==
      match CornerAsWritten(ReadWord(st).1.value)
      case Err(e) => Err(e)
      case Ok(c) => Prepend([c], ParseCorners(WordsFrom(ReadWord(st).0)))
  {
    var ws := WordsFrom(st);
    WordsFromStep(st);
    assert ws[0] == ReadWord(st).1.value;
    assert ws[1..] == WordsFrom(ReadWord(st).0);
  }

  /** The `while (iss >> token)` loop of an `f` line: one corner per token, in order. */
  method ReadFace(iss: Stream) returns (r: Result<Face>)
    ensures r == FaceOf(WordsFrom(iss))
  {
    var corners: seq<Corner> := [];
    var tss := iss;
    PrependNil(ParseCorners(WordsFrom(iss)));
    while true
      invariant ParseCorners(WordsFrom(iss)) == Prepend(corners, ParseCorners(WordsFrom(tss)))
      decreases |tss.rest|
    {
      var p := ReadWord(tss);
      if p.1.None? {
        WordsFromStop(tss);
        break;
      }
      var token := p.1.value;
      var c := ReadCorner(token);
      ParseCornersStep(tss);
      if c.Err? {
        return Err(c.error);
      }
      PrependAssoc(corners, [c.value], ParseCorners(WordsFrom(p.0)));
      corners := corners + [c.value];
      tss := p.0;
    }
    assert corners + [] == corners;
    return Ok(Face(corners));
  }

  /**
    The body of that loop for one token: one `subToken` and three `std::getline` calls on
    it, each piece read going through `ReadIndex`.
  */
  method ReadCorner(token: string) returns (c: Result<Corner>)
    ensures c == CornerAsWritten(token)
  {
    ghost var (a, b, d) := SubtokensAsWritten(token);
    var tss := Open(token);
    var subToken := "";
    var got := Getline(tss, subToken, '/');
    tss, subToken := got.0, got.1;
    assert subToken == a;
    var v := ReadIndex(subToken);
    if v.Err? {
      return Err(v.error);
    }
    got := Getline(tss, subToken, '/');
    tss, subToken := got.0, got.1;
    assert subToken == b;
    var vt := ReadIndex(subToken);
    if vt.Err? {
      return Err(vt.error);
    }
    got := Getline(tss, subToken, '/');
    subToken := got.1;
    assert subToken == d;
    var vn := ReadIndex(subToken);
    if vn.Err? {
      return Err(vn.error);
    }
    return Ok(Corner(v.value, vt.value, vn.value));
  }

  /** `if (!subToken.empty()) index = std::stoi(subToken) - 1;` */
  method ReadIndex(subToken: string) returns (r: Result<Option<int>>)
    ensures r == ParseIndex(subToken)
  {
    r := Ok(None);
    if subToken != [] {
      var k := StoI(subToken);
      if k.Err? {
        return Err(k.error);
      }
      r := Ok(Some(k.value - 1));
    }
  }

  /** The index of the first `/` in `a + "/" + rest` is `|a|` when `a` has no slash. */
  lemma {:induction false} IndexOfAfterPiece(a: string, rest: string)
    requires forall i :: 0 <= i < |a| ==> a[i] != '/'
    ensures IndexOf(a + "/" + rest, '/') == |a|
  {
    if a != [] {
      assert (a + "/" + rest)[1..] == a[1..] + "/" + rest;
      IndexOfAfterPiece(a[1..], rest);
    }
  }

  /** A token without a slash is one piece, which getline reads whole. */
  lemma {:induction false} IndexOfNoSlash(a: string)
    requires forall i :: 0 <= i < |a| ==> a[i] != '/'
    ensures IndexOf(a, '/') == |a|
  {
    if a != [] {
      IndexOfNoSlash(a[1..]);
    }
  }

  /** On a good stream at `a/rest`, getline reads the piece `a` and stops after its slash. */
  lemma GetlinePiece(a: string, rest: string, str: string)
    requires forall i :: 0 <= i < |a| ==> a[i] != '/'
    ensures Getline(Stream(a + "/" + rest, false, false), str, '/') == (Stream(rest, false, false), a)
  {
    var t := a + "/" + rest;
    IndexOfAfterPiece(a, rest);
    assert t[|a| + 1..] == rest;
    assert t[..|a|] == a;
  }

  /** The subtokens of `a/b/c`, read either way, are `a`, `b` and `c` up to its next slash. */
  lemma TwoSlashSubtokens(a: string, b: string, c: string)
    requires forall i :: 0 <= i < |a| ==> a[i] != '/'
    requires forall i :: 0 <= i < |b| ==> b[i] != '/'
    ensures SubtokensAsWritten(a + "/" + b + "/" + c) == (a, b, c[..IndexOf(c, '/')])
    ensures Subtokens(a + "/" + b + "/" + c) == (a, b, c[..IndexOf(c, '/')])
  {
    assert a + "/" + b + "/" + c == a + "/" + (b + "/" + c);
    GetlinePiece(a, b + "/" + c, "");
    GetlinePiece(b, c, "");
    GetlinePiece(b, c, a);
    GetlineRest(c, "");
    GetlineRest(c, b);
  }

  /** On a good stream at `c`, getline reads `c` up to its first slash, whatever `str` held. */
  lemma GetlineRest(c: string, str: string)
    ensures Getline(Stream(c, false, false), str, '/').1 == c[..IndexOf(c, '/')]
  {
    if c != [] && IndexOf(c, '/') == |c| {
      assert c[..|c|] == c;
    }
  }

  /**
    A corner `a/b/c` with two slashes: both readings take `a` and `b` as the first two
    subtokens and the text up to the next slash of `c` as the third, so the stale-token
    rule never applies and the two corners coincide.
  */
  lemma TwoSlashCorner(a: string, b: string, c: string)
    requires forall i :: 0 <= i < |a| ==> a[i] != '/'
    requires forall i :: 0 <= i < |b| ==> b[i] != '/'
    ensures CornerAsWritten(a + "/" + b + "/" + c) == CornerOf(a + "/" + b + "/" + c)
    ensures CornerOf(a + "/" + b + "/" + c) == CornerOfSubtokens(a, b, c[..IndexOf(c, '/')])
  {
    TwoSlashSubtokens(a, b, c);
  }

  /**
    As the viewer intends it, a corner with no slash gives only a position index and a
    corner `a/b` a position and a texture index: missing pieces are absent indices.
  */
  lemma CornerOfShortTokens(a: string, b: string)
    requires forall i :: 0 <= i < |a| ==> a[i] != '/'
    requires forall i :: 0 <= i < |b| ==> b[i] != '/'
    ensures Subtokens(a) == (a, "", "")
    ensures Subtokens(a + "/" + b) == (a, b, "")
    ensures ParseIndex(a).Ok? ==> CornerOf(a) == Ok(Corner(ParseIndex(a).value, None, None))
  {
    IndexOfNoSlash(a);
    if a != [] {
      assert a[..|a|] == a;
    }
    IndexOfAfterPiece(a, b);
    var t := a + "/" + b;
    assert t[..|a|] == a && t[|a| + 1..] == b;
    IndexOfNoSlash(b);
    if b != [] {
      assert b[..|b|] == b;
    }
  }

  /**
    As the source reads them, a corner with no slash repeats its one piece as all three
    subtokens, and a corner `a/b` repeats `b` as the third.
  */
  lemma StaleSubtokens(a: string, b: string)
    requires forall i :: 0 <= i < |a| ==> a[i] != '/'
    requires forall i :: 0 <= i < |b| ==> b[i] != '/'
    ensures SubtokensAsWritten(a) == (a, a, a)
    ensures SubtokensAsWritten(a + "/" + b) == (a, b, b)
  {
    IndexOfNoSlash(a);
    if a != [] {
      assert a[..|a|] == a;
    }
    GetlinePiece(a, b, "");
    IndexOfNoSlash(b);
    if b != [] {
      assert b[..|b|] == b;
    }
  }

  /** A subtoken that `std::stoi` reads as `k` gives the zero-based index `k - 1`. */
  lemma ParseIndexOfInt(sub: string, k: int)
    requires sub != [] && StoI(sub) == Ok(k)
    ensures ParseIndex(sub) == Ok(Some(k - 1))
  {
  }

  /** The one-digit numerals the examples use. */
  lemma StoIOfDigit(d: char)
    requires IsDigit(d)
    ensures StoI([d]) == Ok(DigitValue(d))
  {
    StoIOfDigits([d]);
    assert [d][..0] == [];
  }

  /**
    The corner as written, for a corner without a slash, repeats its only subtoken: `5`
    reads as position, texture and normal index 4, where the intended reading is
    (4, absent, absent).
  */
  lemma StaleSubtokenNoSlash()
    ensures CornerAsWritten("5") == Ok(Corner(Some(4), Some(4), Some(4)))
    ensures CornerOf("5") == Ok(Corner(Some(4), None, None))
  {
    assert IndexOf("5", '/') == 1;
    assert Getline(Open("5"), "", '/') == (Stream([], true, false), "5");
    assert SubtokensAsWritten("5") == ("5", "5", "5");
    CornerOfShortTokens("5", "");
    StoIOfDigit('5');
    ParseIndexOfInt("5", 5);
  }

  /** The corner as written for `5/6` is (4, 5, 5), where the intended reading is (4, 5, absent). */
  lemma StaleSubtokenOneSlash()
    ensures CornerAsWritten("5/6") == Ok(Corner(Some(4), Some(5), Some(5)))
    ensures CornerOf("5/6") == Ok(Corner(Some(4), Some(5), None))
  {
    assert "5/6" == "5" + "/" + "6";
    IndexOfAfterPiece("5", "6");
    assert "5/6"[2..] == "6" && "5/6"[..1] == "5";
    assert IndexOf("6", '/') == 1;
    assert Getline(Open("5/6"), "", '/') == (Stream("6", false, false), "5");
    assert Getline(Stream("6", false, false), "5", '/') == (Stream([], true, false), "6");
    assert SubtokensAsWritten("5/6") == ("5", "6", "6");
    CornerOfShortTokens("5", "6");
    StoIOfDigit('5');
    ParseIndexOfInt("5", 5);
    StoIOfDigit('6');
    ParseIndexOfInt("6", 6);
  }

  /**
    As the source reads it, a plain numeral corner `k` (no slash) names vertex `k - 1` as its
    position, and also as its texture and normal index.
  */
  lemma PlainCorner(k: nat)
    requires 1 <= k <= IntMax
    ensures CornerAsWritten(NatToString(k)) == Ok(Corner(Some(k - 1), Some(k - 1), Some(k - 1)))
  {
    var t := NatToString(k);
    StaleSubtokens(t, "");
    StoIOfNatToString(k);
    ParseIndexOfInt(t, k);
  }

  /** A line that starts with the word `w` is the record `w` names, read from the rest of the line. */
  lemma ParseLineOfWord(d: ObjData, w: string, rest: string)
    requires w != [] && forall i :: 0 <= i < |w| ==> !IsSpace(w[i])
    requires rest == [] || IsSpace(rest[0])
    ensures ParseLine(d, w + rest) == ParseRecord(d, Stream(rest, rest == [], false), w)
  {
    KeywordOf(w, rest);
  }

  /** `iss >> x >> y >> z` on three blank-separated numerals reads the numbers they denote. */
  lemma ReadReals3OfNumerals(st: Stream, a: nat, b: nat, c: nat)
    requires st == Stream(" " + NatToString(a) + (" " + NatToString(b) + (" " + NatToString(c))), false, false)
    ensures ReadReals3(st) == Some((a as real, b as real, c as real))
  {
    var tail2 := " " + NatToString(c);
    var tail1 := " " + NatToString(b) + tail2;
    var s1 := Stream(tail1, false, false);
    var s2 := Stream(tail2, false, false);
    assert ReadReal(st) == (s1, Got(a as real)) by {
      ReadRealOfNumeral(st, a, tail1);
    }
    assert ReadReal(s1) == (s2, Got(b as real)) by {
      ReadRealOfNumeral(s1, b, tail2);
    }
    assert ReadReal(s2) == (Stream([], true, false), Got(c as real)) by {
      assert tail2 == " " + NatToString(c) + [];
      ReadRealOfNumeral(s2, c, []);
    }
  }

  /** A line of a keyword and three decimal numerals, one blank before each. */
  function NumeralLine(kw: string, a: nat, b: nat, c: nat): string {
    kw + (" " + NatToString(a) + (" " + NatToString(b) + (" " + NatToString(c))))
  }

  /** The most common face line, `f 1 2 3`, is such a line. */
  lemma PlainFaceSpelling()
    ensures NumeralLine("f", 1, 2, 3) == "f 1 2 3"
  {
    assert NatToString(1) == "1" && NatToString(2) == "2" && NatToString(3) == "3";
  }

  /** A `v` line whose three numbers read appends the vertex they make. */
  lemma VertexLineOf(d: ObjData, rest: string, x: real, y: real, z: real)
    requires rest != [] && IsSpace(rest[0])
    requires ReadReals3(Stream(rest, false, false)) == Some((x, y, z))
    ensures ParseLine(d, "v" + rest) == Ok(d.(vertices := d.vertices + [Vertex(x, y, z)]))
  {
    ParseLineOfWord(d, "v", rest);
  }

  /** A `v` line of three numerals appends the vertex they denote. */
  lemma VertexLineOfNumerals(d: ObjData, a: nat, b: nat, c: nat)
    ensures ParseLine(d, NumeralLine("v", a, b, c)) ==
      Ok(d.(vertices := d.vertices + [Vertex(a as real, b as real, c as real)]))
  {
    var rest := " " + NatToString(a) + (" " + NatToString(b) + (" " + NatToString(c)));
    ReadReals3OfNumerals(Stream(rest, false, false), a, b, c);
    VertexLineOf(d, rest, a as real, b as real, c as real);
  }

  /** An `f` line whose tokens read as the face `f` appends `f`. */
  lemma FaceLineOf(d: ObjData, rest: string, f: Face)
    requires rest != [] && IsSpace(rest[0])
    requires FaceOf(WordsFrom(Stream(rest, false, false))) == Ok(f)
    ensures ParseLine(d, "f" + rest) == Ok(d.(faces := d.faces + [f]))
  {
    ParseLineOfWord(d, "f", rest);
  }

  /** A numeral is one word: it holds no white space and no slash. */
  lemma NumeralIsWord(k: nat)
    ensures forall i :: 0 <= i < |NatToString(k)| ==> !IsSpace(NatToString(k)[i]) && NatToString(k)[i] != '/'
  {
  }

  /** The words after a blank and the word `w` are `w` and the words after it. */
  lemma WordsAfterBlank(st: Stream, w: string, rest: string)
    requires st.Good() && st.rest == " " + w + rest
    requires w != [] && forall i :: 0 <= i < |w| ==> !IsSpace(w[i])
    requires rest == [] || IsSpace(rest[0])
    ensures WordsFrom(st) == [w] + WordsFrom(Stream(rest, rest == [], false))
  {
    ReadWordAfterBlank(st, w, rest);
  }

  /** The words of a blank and one word are that word. */
  lemma WordsOfOne(z: string)
    requires z != [] && forall i :: 0 <= i < |z| ==> !IsSpace(z[i])
    ensures WordsFrom(Stream(" " + z, false, false)) == [z]
  {
    assert " " + z == " " + z + [];
    WordsAfterBlank(Stream(" " + z, false, false), z, []);
    assert WordsFrom(Stream([], true, false)) == [];
  }

  /** The words of two blank-separated words are those words. */
  lemma WordsOfTwo(y: string, z: string)
    requires y != [] && forall i :: 0 <= i < |y| ==> !IsSpace(y[i])
    requires z != [] && forall i :: 0 <= i < |z| ==> !IsSpace(z[i])
    ensures WordsFrom(Stream(" " + y + (" " + z), false, false)) == [y, z]
  {
    WordsOfOne(z);
    WordsAfterBlank(Stream(" " + y + (" " + z), false, false), y, " " + z);
  }

  /** The words of three blank-separated words are those words. */
  lemma WordsOfThree(x: string, y: string, z: string)
    requires x != [] && forall i :: 0 <= i < |x| ==> !IsSpace(x[i])
    requires y != [] && forall i :: 0 <= i < |y| ==> !IsSpace(y[i])
    requires z != [] && forall i :: 0 <= i < |z| ==> !IsSpace(z[i])
    ensures WordsFrom(Stream(" " + x + (" " + y + (" " + z)), false, false)) == [x, y, z]
  {
    var tail := " " + y + (" " + z);
    WordsOfTwo(y, z);
    WordsAfterBlank(Stream(" " + x + tail, false, false), x, tail);
  }

  /** Three tokens that each read as a corner make the face of those corners, in order. */
  lemma FaceOfThree(x: string, y: string, z: string, cx: Corner, cy: Corner, cz: Corner)
    requires CornerAsWritten(x) == Ok(cx) && CornerAsWritten(y) == Ok(cy) && CornerAsWritten(z) == Ok(cz)
    ensures FaceOf([x, y, z]) == Ok(Face([cx, cy, cz]))
  {
    var tokens := [x, y, z];
    FaceOfEach(tokens);
    assert tokens[0] == x && tokens[1] == y && tokens[2] == z;
    assert FaceOf(tokens).Ok?;
    var cs := FaceOf(tokens).value.vertexIndices;
    assert cs[0] == cx && cs[1] == cy && cs[2] == cz;
    assert cs == [cx, cy, cz];
  }

  /**
    An `f` line of three plain numerals gives one face whose corners, as the source reads
    them, name the same index for position, texture and normal.
  */
  lemma PlainFaceLine(d: ObjData, a: nat, b: nat, c: nat)
    requires 1 <= a <= IntMax && 1 <= b <= IntMax && 1 <= c <= IntMax
    ensures ParseLine(d, NumeralLine("f", a, b, c)) ==
      Ok(d.(faces := d.faces + [Face([
        Corner(Some(a - 1), Some(a - 1), Some(a - 1)),
        Corner(Some(b - 1), Some(b - 1), Some(b - 1)),
        Corner(Some(c - 1), Some(c - 1), Some(c - 1))])]))
  {
    var ta, tb, tc := NatToString(a), NatToString(b), NatToString(c);
    NumeralIsWord(a);
    NumeralIsWord(b);
    NumeralIsWord(c);
    WordsOfThree(ta, tb, tc);
    PlainCorner(a);
    PlainCorner(b);
    PlainCorner(c);
    var f := Face([
      Corner(Some(a - 1), Some(a - 1), Some(a - 1)),
      Corner(Some(b - 1), Some(b - 1), Some(b - 1)),
      Corner(Some(c - 1), Some(c - 1), Some(c - 1))]);
    FaceOfThree(ta, tb, tc, f.vertexIndices[0], f.vertexIndices[1], f.vertexIndices[2]);
    FaceLineOf(d, " " + ta + (" " + tb + (" " + tc)), f);
  }

  /** `lines` is three `v` lines of numerals and one plain `f i j k` line, with no `vn` line. */
  predicate PlainTriangleLines(lines: seq<string>, p: (nat, nat, nat), q: (nat, nat, nat), r: (nat, nat, nat), i: nat, j: nat, k: nat) {
    |lines| == 4 && lines[0] == NumeralLine("v", p.0, p.1, p.2) && lines[1] == NumeralLine("v", q.0, q.1, q.2) &&
    lines[2] == NumeralLine("v", r.0, r.1, r.2) && lines[3] == NumeralLine("f", i, j, k)
  }

  /** The vertex a `v` line of these numerals gives. */
  function VertexOfNumerals(p: (nat, nat, nat)): Vertex {
    Vertex(p.0 as real, p.1 as real, p.2 as real)
  }

  /** The corner a plain numeral `k` gives as the code reads it. */
  function PlainCornerOf(k: nat): Corner {
    Corner(Some(k - 1), Some(k - 1), Some(k - 1))
  }

  /** Folding one more `v` line of numerals onto a parsed prefix appends its vertex. */
  lemma FoldVertexLine(lines: seq<string>, n: nat, d: ObjData, p: (nat, nat, nat), d': ObjData)
    requires n < |lines| && lines[n] == NumeralLine("v", p.0, p.1, p.2)
    requires FoldLines(ParseLine, EmptyData(), lines[..n]) == Ok(d)
    requires d' == d.(vertices := d.vertices + [VertexOfNumerals(p)])
    ensures FoldLines(ParseLine, EmptyData(), lines[..n + 1]) == Ok(d')
  {
    VertexLineOfNumerals(d, p.0, p.1, p.2);
    FoldLinesNext(ParseLine, EmptyData(), lines, n, d);
  }

  /** Folding one more plain `f i j k` line onto a parsed prefix appends its face. */
  lemma FoldPlainFaceLine(lines: seq<string>, n: nat, d: ObjData, i: nat, j: nat, k: nat, d': ObjData)
    requires 1 <= i <= IntMax && 1 <= j <= IntMax && 1 <= k <= IntMax
    requires n < |lines| && lines[n] == NumeralLine("f", i, j, k)
    requires FoldLines(ParseLine, EmptyData(), lines[..n]) == Ok(d)
    requires d' == d.(faces := d.faces + [Face([PlainCornerOf(i), PlainCornerOf(j), PlainCornerOf(k)])])
    ensures FoldLines(ParseLine, EmptyData(), lines[..n + 1]) == Ok(d')
  {
    PlainFaceLine(d, i, j, k);
    FoldLinesNext(ParseLine, EmptyData(), lines, n, d);
  }

  /** A leading `v` line of numerals parses to its vertex. */
  lemma OneVertexLine(lines: seq<string>, p: (nat, nat, nat))
    requires 1 <= |lines| && lines[0] == NumeralLine("v", p.0, p.1, p.2)
    ensures FoldLines(ParseLine, EmptyData(), lines[..1]) == Ok(ObjData([VertexOfNumerals(p)], [], [], [], ""))
  {
    assert FoldLines(ParseLine, EmptyData(), lines[..0]) == Ok(EmptyData()) by {
      assert lines[..0] == [];
    }
    assert [] + [VertexOfNumerals(p)] == [VertexOfNumerals(p)];
    FoldVertexLine(lines, 0, EmptyData(), p, ObjData([VertexOfNumerals(p)], [], [], [], ""));
  }

  /** Two leading `v` lines of numerals parse to their two vertices, in order. */
  lemma TwoVertexLines(lines: seq<string>, p: (nat, nat, nat), q: (nat, nat, nat))
    requires 2 <= |lines| && lines[0] == NumeralLine("v", p.0, p.1, p.2)
    requires lines[1] == NumeralLine("v", q.0, q.1, q.2)
    ensures FoldLines(ParseLine, EmptyData(), lines[..2]) ==
      Ok(ObjData([VertexOfNumerals(p), VertexOfNumerals(q)], [], [], [], ""))
  {
    OneVertexLine(lines, p);
    assert [VertexOfNumerals(p)] + [VertexOfNumerals(q)] == [VertexOfNumerals(p), VertexOfNumerals(q)];
    FoldVertexLine(lines, 1, ObjData([VertexOfNumerals(p)], [], [], [], ""), q,
      ObjData([VertexOfNumerals(p), VertexOfNumerals(q)], [], [], [], ""));
  }

  /** Three leading `v` lines of numerals parse to their three vertices, in order. */
  lemma ThreeVertexLines(lines: seq<string>, p: (nat, nat, nat), q: (nat, nat, nat), r: (nat, nat, nat))
    requires 3 <= |lines|
    requires lines[0] == NumeralLine("v", p.0, p.1, p.2) && lines[1] == NumeralLine("v", q.0, q.1, q.2)
    requires lines[2] == NumeralLine("v", r.0, r.1, r.2)
    ensures FoldLines(ParseLine, EmptyData(), lines[..3]) ==
      Ok(ObjData([VertexOfNumerals(p), VertexOfNumerals(q), VertexOfNumerals(r)], [], [], [], ""))
  {
    TwoVertexLines(lines, p, q);
    assert [VertexOfNumerals(p), VertexOfNumerals(q)] + [VertexOfNumerals(r)] ==
      [VertexOfNumerals(p), VertexOfNumerals(q), VertexOfNumerals(r)];
    FoldVertexLine(lines, 2, ObjData([VertexOfNumerals(p), VertexOfNumerals(q)], [], [], [], ""), r,
      ObjData([VertexOfNumerals(p), VertexOfNumerals(q), VertexOfNumerals(r)], [], [], [], ""));
  }

  /** The four lines of a plain triangle file, folded one by one. */
  lemma PlainTriangleFold(lines: seq<string>, p: (nat, nat, nat), q: (nat, nat, nat), r: (nat, nat, nat), i: nat, j: nat, k: nat)
    requires PlainTriangleLines(lines, p, q, r, i, j, k)
    requires 1 <= i <= IntMax && 1 <= j <= IntMax && 1 <= k <= IntMax
    ensures FoldLines(ParseLine, EmptyData(), lines[..4]) == Ok(ObjData(
      [VertexOfNumerals(p), VertexOfNumerals(q), VertexOfNumerals(r)], [], [],
      [Face([PlainCornerOf(i), PlainCornerOf(j), PlainCornerOf(k)])], ""))
  {
    var vertices := [VertexOfNumerals(p), VertexOfNumerals(q), VertexOfNumerals(r)];
    var face := Face([PlainCornerOf(i), PlainCornerOf(j), PlainCornerOf(k)]);
    ThreeVertexLines(lines, p, q, r);
    assert [] + [face] == [face];
    FoldPlainFaceLine(lines, 3, ObjData(vertices, [], [], [], ""), i, j, k, ObjData(vertices, [], [], [face], ""));
  }

  /**
    A file of three `v` lines and a plain face such as `f 1 2 3`, with no `vn` line, loads
    with no normals; as the code reads the face, its corners still name normals.
  */
  lemma PlainTriangleFile(lines: seq<string>, p: (nat, nat, nat), q: (nat, nat, nat), r: (nat, nat, nat), i: nat, j: nat, k: nat)
    requires PlainTriangleLines(lines, p, q, r, i, j, k)
    requires 1 <= i <= IntMax && 1 <= j <= IntMax && 1 <= k <= IntMax
    ensures ParseLines(lines) == Ok(ObjData(
      [VertexOfNumerals(p), VertexOfNumerals(q), VertexOfNumerals(r)], [], [],
      [Face([PlainCornerOf(i), PlainCornerOf(j), PlainCornerOf(k)])], ""))
  {
    PlainTriangleFold(lines, p, q, r, i, j, k);
    assert lines[..4] == lines;
  }

  /** A corner `a/b/c` whose last piece has no slash reads `a`, `b` and `c` as its subtokens. */
  lemma ThreePieceCorner(a: string, b: string, c: string)
    requires forall i :: 0 <= i < |a| ==> a[i] != '/'
    requires forall i :: 0 <= i < |b| ==> b[i] != '/'
    requires forall i :: 0 <= i < |c| ==> c[i] != '/'
    ensures CornerOf(a + "/" + b + "/" + c) == CornerOfSubtokens(a, b, c)
  {
    TwoSlashCorner(a, b, c);
    assert c[..IndexOf(c, '/')] == c by {
      IndexOfNoSlash(c);
      assert c[..|c|] == c;
    }
  }

  /** A corner `a//c`, such as `2//3`, has a position and a normal index but no texture index. */
  lemma CornerWithoutTexture(a: string, c: string)
    requires a != [] && c != []
    requires forall i :: 0 <= i < |a| ==> a[i] != '/'
    requires forall i :: 0 <= i < |c| ==> c[i] != '/'
    requires StoI(a).Ok? && StoI(c).Ok?
    ensures CornerOf(a + "/" + "" + "/" + c) == Ok(Corner(Some(StoI(a).value - 1), None, Some(StoI(c).value - 1)))
  {
    ThreePieceCorner(a, "", c);
  }

  /** `3/3/` gives position 2, texture 2 and no normal index. */
  lemma CornerEmptyLast()
    ensures CornerOf("3/3/") == Ok(Corner(Some(2), Some(2), None))
  {
    StoIOfDigit('3');
    ParseIndexOfInt("3", 3);
    assert CornerOfSubtokens("3", "3", "") == Ok(Corner(Some(2), Some(2), None));
    TwoSlashCorner("3", "3", "");
    assert "3" + "/" + "3" + "/" + "" == "3/3/";
  }

  /**
    A corner without a slash whose first character is no white space, sign or digit makes
    `std::stoi` throw under either reading, and with it the whole `f` line.
  */
  lemma NonNumericCornerThrows(token: string)
    requires token != [] && !IsSpace(token[0]) && !IsSign(token[0]) && !IsDigit(token[0])
    requires forall i :: 0 <= i < |token| ==> token[i] != '/'
    ensures CornerAsWritten(token) == Err(InvalidArgument("invalid stoi argument"))
    ensures CornerOf(token) == Err(InvalidArgument("invalid stoi argument"))
  {
    StoIOfNonNumeric(token);
    CornerOfShortTokens(token, "");
    StaleSubtokens(token, "");
  }
}
