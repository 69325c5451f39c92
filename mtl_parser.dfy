/**
  `MTLParser::loadMTL` (MTLParser.h) with the `Material` record of model/obj/Material.h:
  reads a material library line by line into a table keyed by material name. One material
  is open at a time; `newmtl` stores it and renames it, and every other keyword sets one of
  its fields. The open material is never reset, so each material starts from the fields of
  the one before it.
*/
module MtlParsers {
  import opened Wrappers
  import opened TextStreams
  import opened FsPaths

  /** `Material::Color`. */
  datatype Rgb = Rgb(r: real, g: real, b: real)

  datatype Material = Material(
    name: string,
    ambientColor: Rgb,
    diffuseColor: Rgb,
    specularColor: Rgb,
    shininess: real,
    dissolve: real,
    illum: bool,
    textureMap: string)

  /** A default-constructed `Material`. */
  function DefaultMaterial(): Material {
    Material("", Rgb(0.2, 0.2, 0.2), Rgb(0.8, 0.8, 0.8), Rgb(0.0, 0.0, 0.0), 0.0, 1.0, false, "")
  }

  /** `iss >> c.r >> c.g >> c.b`: each component read, zeroed or left, as the stream allows. */
  function ReadRgb(iss: Stream, c: Rgb): Rgb {
    var (s1, r) := ReadReal(iss);
    var (s2, g) := ReadReal(s1);
    var (_, b) := ReadReal(s2);
    Rgb(Store(c.r, r), Store(c.g, g), Store(c.b, b))
  }

  /** `iss >> x` for one float field. */
  function ReadScalar(iss: Stream, x: real): real {
    Store(x, ReadReal(iss).1)
  }

  /**
    `int illumValue; iss >> illumValue;` and the flag `illumValue > 0`. When the line has
    nothing after the keyword the extraction leaves `illumValue` uninitialised; `unset`
    stands for whatever it then holds. A value too large for `int` is stored saturated,
    which keeps its sign and so the flag.
  */
  function IllumFlag(iss: Stream, unset: int): bool {
    var value := match ReadInt(iss).1
      case Untouched => unset
      case Zeroed => 0
      case Got(k) => k;
    value > 0
  }

  /** `(*materials)[m.name] = m` when the name is not empty. */
  function Commit(materials: map<string, Material>, m: Material): (r: map<string, Material>)
    ensures m.name != "" ==> r == materials[m.name := m]
    ensures m.name == "" ==> r == materials
  {
    if m.name != "" then materials[m.name := m] else materials
  }

  /** The parser's state between lines: the table so far and the open material. */
  datatype MtlState = MtlState(materials: map<string, Material>, current: Material)

  /** `newmtl`: the open material is committed, then renamed by `iss >> currentMaterial.name`. */
  function NewmtlRecord(s: MtlState, iss: Stream): MtlState {
    var name := ReadWord(iss).1;
    MtlState(Commit(s.materials, s.current), if name.Some? then s.current.(name := name.value) else s.current)
  }

  /** `map_Kd`: the word after the keyword, or the empty `texturePath` when there is none. */
  function TextureRecord(m: Material, iss: Stream): Material {
    var path := ReadWord(iss).1;
    m.(textureMap := if path.Some? then path.value else "")
  }

  /** The open material after a line other than `newmtl`. */
  function FieldRecord(m: Material, key: string, iss: Stream, unset: int): Material {
    if key == "Ka" then m.(ambientColor := ReadRgb(iss, m.ambientColor))
    else if key == "Kd" then m.(diffuseColor := ReadRgb(iss, m.diffuseColor))
    else if key == "Ks" then m.(specularColor := ReadRgb(iss, m.specularColor))
    else if key == "Ns" then m.(shininess := ReadScalar(iss, m.shininess))
    else if key == "d" || key == "Tr" then m.(dissolve := ReadScalar(iss, m.dissolve))
    else if key == "illum" then m.(illum := IllumFlag(iss, unset))
    else if key == "map_Kd" then TextureRecord(m, iss)
    else m
  }

  /** One pass of the `while (std::getline(file, line))` loop. */
  function MtlLine(s: MtlState, line: string, unset: int): MtlState {
    var (iss, key) := Keyword(line);
    if key == "newmtl" then NewmtlRecord(s, iss)
    else s.(current := FieldRecord(s.current, key, iss, unset))
  }

  /** The loop step as the line fold takes it; it never throws. */
  function MtlStep(unset: int): (MtlState, string) -> Result<MtlState> {
    (s: MtlState, line: string) => Ok(MtlLine(s, line, unset))
  }

  function InitialState(): MtlState {
    MtlState(map[], DefaultMaterial())
  }

  /** The state after the given lines, starting from an empty table and a default material. */
  function ParsedMtl(lines: seq<string>, unset: int): MtlState {
    match FoldLines(MtlStep(unset), InitialState(), lines)
    case Ok(s) => s
    case Err(_) => InitialState()
  }

  /** No line of a material library throws. */
  lemma {:induction false} MtlFoldOk(lines: seq<string>, unset: int)
    ensures FoldLines(MtlStep(unset), InitialState(), lines).Ok?
    decreases |lines|
  {
    if lines != [] {
      var n := |lines| - 1;
      MtlFoldOk(lines[..n], unset);
      var d := FoldLines(MtlStep(unset), InitialState(), lines[..n]).value;
      assert MtlStep(unset)(d, lines[n]).Ok?;
    }
  }

  /** The state after `i + 1` lines is one more loop pass. */
  lemma ParsedMtlNext(lines: seq<string>, unset: int, i: nat)
    requires i < |lines|
    ensures ParsedMtl(lines[..i + 1], unset) == MtlLine(ParsedMtl(lines[..i], unset), lines[i], unset)
  {
    MtlFoldOk(lines[..i], unset);
    var d := ParsedMtl(lines[..i], unset);
    FoldLinesNext(MtlStep(unset), InitialState(), lines, i, d);
    assert MtlStep(unset)(d, lines[i]) == Ok(MtlLine(d, lines[i], unset));
  }

  /** The table `loadMTL` returns for a file of these lines: the state's table with the open material committed. */
  function MaterialTable(lines: seq<string>, unset: int): map<string, Material> {
    var s := ParsedMtl(lines, unset);
    Commit(s.materials, s.current)
  }

  /**
    `newmtl name` stores the open material under its name when that is not empty, and the
    next material is the same record with only its name replaced (kept when the line has no
    name): every other field carries over.
  */
  lemma NewmtlCommitsAndCarriesOver(s: MtlState, line: string, unset: int)
    requires Keyword(line).1 == "newmtl"
    ensures MtlLine(s, line, unset).materials == Commit(s.materials, s.current)
    ensures MtlLine(s, line, unset).current == s.current.(name := MtlLine(s, line, unset).current.name)
    ensures var w := ReadWord(Keyword(line).0).1;
      MtlLine(s, line, unset).current.name == if w.Some? then w.value else s.current.name
  {
  }

  /**
    Every line other than `newmtl` leaves the table and the open material's name alone and
    changes at most the one field its keyword names; any other keyword changes nothing.
  */
  lemma FieldLines(s: MtlState, line: string, unset: int)
    requires Keyword(line).1 != "newmtl"
    ensures var r := MtlLine(s, line, unset);
      r.materials == s.materials && r.current.name == s.current.name
    ensures var r := MtlLine(s, line, unset); var key := Keyword(line).1;
      (key != "Ka" ==> r.current.ambientColor == s.current.ambientColor) &&
      (key != "Kd" ==> r.current.diffuseColor == s.current.diffuseColor) &&
      (key != "Ks" ==> r.current.specularColor == s.current.specularColor) &&
      (key != "Ns" ==> r.current.shininess == s.current.shininess) &&
      (key != "d" && key != "Tr" ==> r.current.dissolve == s.current.dissolve) &&
      (key != "illum" ==> r.current.illum == s.current.illum) &&
      (key != "map_Kd" ==> r.current.textureMap == s.current.textureMap)
    ensures var key := Keyword(line).1;
      key !in {"Ka", "Kd", "Ks", "Ns", "d", "Tr", "illum", "map_Kd"} ==> MtlLine(s, line, unset) == s
    ensures var (iss, key) := Keyword(line); var m := s.current;
      (key == "Ka" ==> MtlLine(s, line, unset).current == m.(ambientColor := ReadRgb(iss, m.ambientColor))) &&
      (key == "Kd" ==> MtlLine(s, line, unset).current == m.(diffuseColor := ReadRgb(iss, m.diffuseColor))) &&
      (key == "Ks" ==> MtlLine(s, line, unset).current == m.(specularColor := ReadRgb(iss, m.specularColor))) &&
      (key == "Ns" ==> MtlLine(s, line, unset).current == m.(shininess := ReadScalar(iss, m.shininess))) &&
      (key == "map_Kd" ==> MtlLine(s, line, unset).current == TextureRecord(m, iss))
  {
    var (iss, key) := Keyword(line);
    FieldRecordEffect(s.current, key, iss, unset);
  }

  /** What one field keyword does to the open material, for any keyword and rest of line. */
  lemma FieldRecordEffect(m: Material, key: string, iss: Stream, unset: int)
    ensures var r := FieldRecord(m, key, iss, unset);
      r.name == m.name &&
      (key != "Ka" ==> r.ambientColor == m.ambientColor) &&
      (key != "Kd" ==> r.diffuseColor == m.diffuseColor) &&
      (key != "Ks" ==> r.specularColor == m.specularColor) &&
      (key != "Ns" ==> r.shininess == m.shininess) &&
      (key != "d" && key != "Tr" ==> r.dissolve == m.dissolve) &&
      (key != "illum" ==> r.illum == m.illum) &&
      (key != "map_Kd" ==> r.textureMap == m.textureMap)
    ensures key !in {"Ka", "Kd", "Ks", "Ns", "d", "Tr", "illum", "map_Kd"} ==> FieldRecord(m, key, iss, unset) == m
    ensures key == "Ka" ==> FieldRecord(m, key, iss, unset) == m.(ambientColor := ReadRgb(iss, m.ambientColor))
    ensures key == "Kd" ==> FieldRecord(m, key, iss, unset) == m.(diffuseColor := ReadRgb(iss, m.diffuseColor))
    ensures key == "Ks" ==> FieldRecord(m, key, iss, unset) == m.(specularColor := ReadRgb(iss, m.specularColor))
    ensures key == "Ns" ==> FieldRecord(m, key, iss, unset) == m.(shininess := ReadScalar(iss, m.shininess))
    ensures key == "d" || key == "Tr" ==> FieldRecord(m, key, iss, unset) == m.(dissolve := ReadScalar(iss, m.dissolve))
    ensures key == "illum" ==> FieldRecord(m, key, iss, unset) == m.(illum := IllumFlag(iss, unset))
    ensures key == "map_Kd" ==> FieldRecord(m, key, iss, unset) == TextureRecord(m, iss)
  {
  }

  /**
    `Ka`, `Kd` and `Ks` followed by three numerals set the colour to those numbers, whatever
    it held before.
  */
  lemma ReadRgbOfNumerals(iss: Stream, c: Rgb, a: nat, b: nat, d: nat, rest: string)
    requires iss.Good()
    requires iss.rest == " " + NatToString(a) + (" " + NatToString(b) + (" " + NatToString(d) + rest))
    requires rest == [] || IsSpace(rest[0])
    ensures ReadRgb(iss, c) == Rgb(a as real, b as real, d as real)
  {
    var tail2 := " " + NatToString(d) + rest;
    var tail1 := " " + NatToString(b) + tail2;
    var s1 := Stream(tail1, false, false);
    var s2 := Stream(tail2, false, false);
    assert ReadReal(iss) == (s1, Got(a as real)) by {
      ReadRealOfNumeral(iss, a, tail1);
    }
    assert ReadReal(s1) == (s2, Got(b as real)) by {
      ReadRealOfNumeral(s1, b, tail2);
    }
    assert ReadReal(s2).1 == Got(d as real) by {
      ReadRealOfNumeral(s2, d, rest);
    }
  }

  /** `d` and `Tr` are the same keyword: both read the dissolve value and touch nothing else. */
  lemma DissolveLine(s: MtlState, line: string, unset: int)
    requires Keyword(line).1 == "d" || Keyword(line).1 == "Tr"
    ensures MtlLine(s, line, unset) ==
      s.(current := s.current.(dissolve := ReadScalar(Keyword(line).0, s.current.dissolve)))
  {
    var (iss, key) := Keyword(line);
    FieldRecordEffect(s.current, key, iss, unset);
  }

  /**
    `illum k` sets the flag exactly when `k > 0`; a value that does not parse clears it; a
    line with nothing after the keyword takes the flag from the uninitialised value.
  */
  lemma IllumFlagMeaning(iss: Stream, unset: int)
    ensures ReadInt(iss).1.Got? ==> IllumFlag(iss, unset) == (ReadInt(iss).1.value > 0)
    ensures ReadInt(iss).1.Zeroed? ==> !IllumFlag(iss, unset)
    ensures ReadInt(iss).1.Untouched? ==> IllumFlag(iss, unset) == (unset > 0)
  {
  }

  /** An `illum` line changes only the flag, to the one `IllumFlag` reads. */
  lemma IllumLine(s: MtlState, line: string, unset: int)
    requires Keyword(line).1 == "illum"
    ensures MtlLine(s, line, unset) == s.(current := s.current.(illum := IllumFlag(Keyword(line).0, unset)))
  {
    var (iss, key) := Keyword(line);
    FieldRecordEffect(s.current, key, iss, unset);
  }

  /** A table entry is always stored under its own name, and never under the empty name. */
  predicate KeyedByName(materials: map<string, Material>) {
    "" !in materials && forall k :: k in materials ==> materials[k].name == k
  }

  lemma {:induction false} ParsedKeyedByName(lines: seq<string>, unset: int)
    ensures KeyedByName(ParsedMtl(lines, unset).materials)
    decreases |lines|
  {
    if lines != [] {
      var n := |lines| - 1;
      var before := ParsedMtl(lines[..n], unset);
      ParsedKeyedByName(lines[..n], unset);
      var after := MtlLine(before, lines[n], unset);
      MtlLineKeyed(before, lines[n], unset);
      assert ParsedMtl(lines, unset) == after by {
        ParsedMtlNext(lines, unset, n);
        assert lines[..n + 1] == lines;
      }
    }
  }

  /** The returned table, with the last material committed, is keyed by name as well. */
  lemma MaterialTableKeyed(lines: seq<string>, unset: int)
    ensures KeyedByName(MaterialTable(lines, unset))
  {
    var s := ParsedMtl(lines, unset);
    ParsedKeyedByName(lines, unset);
    CommitKeyed(s.materials, s.current);
  }

  /** Committing a material keeps every entry under its own, non-empty name. */
  lemma CommitKeyed(materials: map<string, Material>, m: Material)
    requires KeyedByName(materials)
    ensures KeyedByName(Commit(materials, m))
  {
  }

  /** One line keeps every table entry under its own, non-empty name. */
  lemma MtlLineKeyed(s: MtlState, line: string, unset: int)
    requires KeyedByName(s.materials)
    ensures KeyedByName(MtlLine(s, line, unset).materials)
  {
    var (iss, key) := Keyword(line);
    if key == "newmtl" {
      CommitKeyed(s.materials, s.current);
    } else {
      FieldRecordEffect(s.current, key, iss, unset);
    }
  }

  /**
    The table changes only at a `newmtl` line, and then only by the commit of the open
    material, which overwrites an earlier entry under the same name.
  */
  lemma {:induction false} TableGrowsByCommits(lines: seq<string>, unset: int)
    requires lines != []
    ensures var before := ParsedMtl(lines[..|lines| - 1], unset);
      var after := ParsedMtl(lines, unset);
      after.materials == before.materials ||
      (Keyword(lines[|lines| - 1]).1 == "newmtl" && after.materials == Commit(before.materials, before.current))
  {
    var before := ParsedMtl(lines[..|lines| - 1], unset);
    if Keyword(lines[|lines| - 1]).1 == "newmtl" {
      NewmtlCommitsAndCarriesOver(before, lines[|lines| - 1], unset);
    } else {
      FieldLines(before, lines[|lines| - 1], unset);
    }
  }

  /** The body of the loop for one line, on the locals `materials` and `currentMaterial`. */
  method ReadMaterialLine(materials: map<string, Material>, currentMaterial: Material, line: string, unset: int)
    returns (materials': map<string, Material>, currentMaterial': Material)
    ensures MtlState(materials', currentMaterial') == MtlLine(MtlState(materials, currentMaterial), line, unset)
  {
    var (iss, key) := Keyword(line);
    materials', currentMaterial' := materials, currentMaterial;
    if key == "newmtl" {
      if currentMaterial.name != "" {
        materials' := materials[currentMaterial.name := currentMaterial];
      }
      var name := ReadWord(iss).1;
      if name.Some? {
        currentMaterial' := currentMaterial.(name := name.value);
      }
    } else if key == "Ka" {
      currentMaterial' := currentMaterial.(ambientColor := ReadRgb(iss, currentMaterial.ambientColor));
    } else if key == "Kd" {
      currentMaterial' := currentMaterial.(diffuseColor := ReadRgb(iss, currentMaterial.diffuseColor));
    } else if key == "Ks" {
      currentMaterial' := currentMaterial.(specularColor := ReadRgb(iss, currentMaterial.specularColor));
    } else if key == "Ns" {
      currentMaterial' := currentMaterial.(shininess := ReadScalar(iss, currentMaterial.shininess));
    } else if key == "d" || key == "Tr" {
      currentMaterial' := currentMaterial.(dissolve := ReadScalar(iss, currentMaterial.dissolve));
    } else if key == "illum" {
      currentMaterial' := currentMaterial.(illum := IllumFlag(iss, unset));
    } else if key == "map_Kd" {
      var texturePath := "";
      var word := ReadWord(iss).1;
      if word.Some? {
        texturePath := word.value;
      }
      currentMaterial' := currentMaterial.(textureMap := texturePath);
    }
  }

  /**
    `loadMTL(filepath)`: `null` when the file cannot be opened, and otherwise the table of
    its materials with the last open one committed.
  */
  method LoadMTL(fs: FileSystem, filepath: string, unset: int) returns (r: Option<map<string, Material>>)
    ensures filepath !in fs ==> r == None
    ensures filepath in fs ==> r == Some(MaterialTable(fs[filepath], unset))
  {
    if filepath !in fs {
      return None;
    }
    var lines := fs[filepath];
    var materials: map<string, Material> := map[];
    var currentMaterial := DefaultMaterial();
    var i := 0;
    while i < |lines|
      invariant 0 <= i <= |lines|
      invariant ParsedMtl(lines[..i], unset) == MtlState(materials, currentMaterial)
    {
      ghost var before := MtlState(materials, currentMaterial);
      materials, currentMaterial := ReadMaterialLine(materials, currentMaterial, lines[i], unset);
      assert ParsedMtl(lines[..i + 1], unset) == MtlState(materials, currentMaterial) by {
        ParsedMtlNext(lines, unset, i);
      }
      i := i + 1;
    }
    assert lines[..i] == lines;
    if currentMaterial.name != "" {
      materials := materials[currentMaterial.name := currentMaterial];
    }
    return Some(materials);
  }
}
