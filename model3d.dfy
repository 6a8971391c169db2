/** The current 3D model writers: `get_WrlModel` reads the material blocks and the
    `usemtl` sections of an OBJ-like text, renumbers the vertices of each section from zero,
    and writes one VRML `Shape` per section; `get_StepModel` stores the STEP bytes as they
    come. Both then append a KicadModTree `Model` node to the footprint, the WRL writer only
    when the footprint holds no model yet. */
module Model3d {
  import opened Wrappers
  import opened Text
  import opened Numeric
  import opened Records
  import opened FootprintTypes

  // ---------------------------------------------------------------------------
  // Materials
  // ---------------------------------------------------------------------------

  /** One entry of the `materials` dict: the keys a block may set, each absent until set. */
  datatype Material = Material(
    ambient: Option<seq<string>>,
    diffuse: Option<seq<string>>,
    specular: Option<seq<string>>,
    transparency: Option<string>)

  const NoKeys: Material := Material(None, None, None, None)

  /** One line of a `newmtl … endmtl` block applied to the id and the material read so far.
      A line touches only the entry its prefix names; `newmtl` and `d` take the second
      space-separated word and raise without one, and an empty line raises at `value[0]`. */
  function MaterialLine(acc: (string, Material), value: string): (r: Result<(string, Material)>)
    ensures r.Err? <==> value == [] || ((StartsWith(value, "newmtl") || value[0] == 'd') && ' ' !in value)
    ensures r.Err? ==> r.msg == IndexError
    ensures r.Ok? && StartsWith(value, "newmtl") ==> |Split(value, " ")| >= 2 && r.value == (Split(value, " ")[1], acc.1)
    ensures r.Ok? && !StartsWith(value, "newmtl") ==> r.value.0 == acc.0
    ensures r.Ok? && r.value.1.ambient != acc.1.ambient ==> StartsWith(value, "Ka")
    ensures r.Ok? && r.value.1.diffuse != acc.1.diffuse ==> StartsWith(value, "Kd")
    ensures r.Ok? && r.value.1.specular != acc.1.specular ==> StartsWith(value, "Ks")
    ensures r.Ok? && r.value.1.transparency != acc.1.transparency ==> value[0] == 'd'
    ensures StartsWith(value, "Kd") ==> r == Ok((acc.0, acc.1.(diffuse := Some(Split(value, " ")[1..]))))
  {
    var parts := Split(value, " ");
    SplitCharCount(value, ' ');
    if StartsWith(value, "newmtl") then
      var id :- Field(parts, 1);
      Ok((id, acc.1))
    else if StartsWith(value, "Ka") then Ok((acc.0, acc.1.(ambient := Some(parts[1..]))))
    else if StartsWith(value, "Kd") then Ok((acc.0, acc.1.(diffuse := Some(parts[1..]))))
    else if StartsWith(value, "Ks") then Ok((acc.0, acc.1.(specular := Some(parts[1..]))))
    else if |value| == 0 then Err(IndexError)
    else if value[0] == 'd' then
      var t :- Field(parts, 1);
      Ok((acc.0, acc.1.(transparency := Some(t))))
    else Ok(acc)
  }

  /** The id and the material of one block, read line by line from an empty id. */
  function MaterialBlock(block: string): Result<(string, Material)> {
    Replay(MaterialLine, ("", NoKeys), Split(block, "\n"))
  }

  /** `materials[material_id] = material`. */
  function AddBlock(m: map<string, Material>, block: string): Result<map<string, Material>> {
    var b :- MaterialBlock(block);
    Ok(m[b.0 := b.1])
  }

  /** The `materials` dict built from the blocks in order. */
  function MaterialsOf(blocks: seq<string>): Result<map<string, Material>> {
    Replay(AddBlock, map[], blocks)
  }

  /** Every block of a dict that was built is read without an exception, and its id is a key. */
  lemma {:induction false} BlockRead(blocks: seq<string>, k: nat)
    requires MaterialsOf(blocks).Ok? && k < |blocks|
    ensures MaterialBlock(blocks[k]).Ok?
    ensures MaterialBlock(blocks[k]).value.0 in MaterialsOf(blocks).value
  {
    var n := |blocks| - 1;
    if k < n {
      assert blocks[..n][k] == blocks[k];
      BlockRead(blocks[..n], k);
    }
  }

  /** A block whose id no later block repeats decides the entry of that id: a later block
      with the same id overwrites an earlier one. */
  lemma {:induction false} LastBlockWins(blocks: seq<string>, k: nat)
    requires MaterialsOf(blocks).Ok? && k < |blocks| && MaterialBlock(blocks[k]).Ok?
    requires forall j :: k < j < |blocks| && MaterialBlock(blocks[j]).Ok? ==>
      MaterialBlock(blocks[j]).value.0 != MaterialBlock(blocks[k]).value.0
    ensures var b := MaterialBlock(blocks[k]).value;
      b.0 in MaterialsOf(blocks).value && MaterialsOf(blocks).value[b.0] == b.1
  {
    var n := |blocks| - 1;
    if k < n {
      assert blocks[..n][k] == blocks[k];
      forall j | k < j < n && MaterialBlock(blocks[..n][j]).Ok?
        ensures MaterialBlock(blocks[..n][j]).value.0 != MaterialBlock(blocks[..n][k]).value.0
      {
        assert blocks[..n][j] == blocks[j];
      }
      LastBlockWins(blocks[..n], k);
    }
  }

  /** Every key of the dict is the id of some block. */
  lemma {:induction false} MaterialKeys(blocks: seq<string>)
    requires MaterialsOf(blocks).Ok?
    ensures forall id :: id in MaterialsOf(blocks).value ==>
      exists k :: 0 <= k < |blocks| && MaterialBlock(blocks[k]).Ok? && MaterialBlock(blocks[k]).value.0 == id
  {
    if |blocks| > 0 {
      var n := |blocks| - 1;
      MaterialKeys(blocks[..n]);
      forall id | id in MaterialsOf(blocks).value
        ensures exists k :: 0 <= k < |blocks| && MaterialBlock(blocks[k]).Ok? && MaterialBlock(blocks[k]).value.0 == id
      {
        if id != MaterialBlock(blocks[n]).value.0 {
          var k :| 0 <= k < n && MaterialBlock(blocks[..n][k]).Ok? && MaterialBlock(blocks[..n][k]).value.0 == id;
          assert blocks[..n][k] == blocks[k];
        }
      }
    }
  }

  /** The material loop: each block is read line by line into `material_id` and `material`,
      then stored under its id. */
  method ReadMaterials(blocks: seq<string>) returns (r: Result<map<string, Material>>)
    ensures r == MaterialsOf(blocks)
  {
    var materials: map<string, Material> := map[];
    var i := 0;
    while i < |blocks|
      invariant 0 <= i <= |blocks|
      invariant MaterialsOf(blocks[..i]) == Ok(materials)
    {
      ReplayNext(AddBlock, map[], blocks, i);
      var lines := Split(blocks[i], "\n");
      var materialId := "";
      var material := NoKeys;
      var j := 0;
      while j < |lines|
        invariant 0 <= j <= |lines|
        invariant Replay(MaterialLine, ("", NoKeys), lines[..j]) == Ok((materialId, material))
      {
        ReplayNext(MaterialLine, ("", NoKeys), lines, j);
        var value := lines[j];
        var parts := Split(value, " ");
        if StartsWith(value, "newmtl") {
          if |parts| < 2 {
            ReplayErrPersists(MaterialLine, ("", NoKeys), lines, j + 1);
            ReplayErrPersists(AddBlock, map[], blocks, i + 1);
            return Err(IndexError);
          }
          materialId := parts[1];
        } else if StartsWith(value, "Ka") {
          material := material.(ambient := Some(parts[1..]));
        } else if StartsWith(value, "Kd") {
          material := material.(diffuse := Some(parts[1..]));
        } else if StartsWith(value, "Ks") {
          material := material.(specular := Some(parts[1..]));
        } else if |value| == 0 || (value[0] == 'd' && |parts| < 2) {
          ReplayErrPersists(MaterialLine, ("", NoKeys), lines, j + 1);
          ReplayErrPersists(AddBlock, map[], blocks, i + 1);
          return Err(IndexError);
        } else if value[0] == 'd' {
          material := material.(transparency := Some(parts[1]));
        }
        j := j + 1;
      }
      assert lines[..j] == lines;
      materials := materials[materialId := material];
      i := i + 1;
    }
    assert blocks[..i] == blocks;
    return Ok(materials);
  }

  // ---------------------------------------------------------------------------
  // Renumbering the vertices of one section
  // ---------------------------------------------------------------------------

  /** The loop state of one `usemtl` section: `link_dict`, `points` and `coordIndex`
      (`index_counter` is the length of `points`). */
  datatype Section = Section(link: map<int, nat>, points: seq<string>, coordIndex: seq<string>)

  const Fresh: Section := Section(map[], [], [])

  /** The renumbering is consistent: one point per renumbered vertex, each local number
      below the counter and naming the point taken from `vertices[index - 1]`, and no two
      vertices sharing a local number. */
  predicate Indexed(s: Section, vertices: seq<string>) {
    |s.link| == |s.points| &&
    (forall i :: i in s.link ==> s.link[i] < |s.points| && PyAt(vertices, i - 1) == Some(s.points[s.link[i]])) &&
    (forall i, j :: i in s.link && j in s.link && i != j ==> s.link[i] != s.link[j])
  }

  /** `b` gives every index of `a` the same local number. */
  predicate Keeps(a: map<int, nat>, b: map<int, nat>) {
    forall i :: i in a ==> i in b && b[i] == a[i]
  }

  lemma KeepsAt(a: map<int, nat>, b: map<int, nat>, i: int)
    requires Keeps(a, b) && i in a
    ensures i in b && b[i] == a[i]
  {
  }

  /** `t` keeps every local number and every point of `s`, and its records. */
  predicate Grown(s: Section, t: Section) {
    Keeps(s.link, t.link) &&
    |s.points| <= |t.points| && t.points[..|s.points|] == s.points && t.coordIndex == s.coordIndex
  }

  /** One index of a face: a vertex seen before keeps its local number; a new one gets the
      next number and its point is appended, raising when `vertices[index - 1]` is out of range. */
  function Visit(s: Section, index: int, vertices: seq<string>): (r: Result<(Section, string)>)
    ensures index in s.link ==> r == Ok((s, NatToString(s.link[index])))
    ensures r.Ok? <==> index in s.link || PyAt(vertices, index - 1).Some?
    ensures r.Err? ==> r.msg == IndexError
    ensures r.Ok? ==> Grown(s, r.value.0) && index in r.value.0.link &&
                      r.value.1 == NatToString(r.value.0.link[index])
    ensures r.Ok? && index !in s.link ==> r.value.0.link[index] == |s.points| && |r.value.0.points| == |s.points| + 1
    ensures r.Ok? ==> forall i :: i in r.value.0.link ==> i in s.link || i == index
    ensures r.Ok? && Indexed(s, vertices) ==> Indexed(r.value.0, vertices)
  {
    if index in s.link then Ok((s, NatToString(s.link[index])))
    else
      var v :- Need(PyAt(vertices, index - 1), IndexError);
      var n := |s.points|;
      Ok((Section(s.link[index := n], s.points + [v], s.coordIndex), NatToString(n)))
  }

  /** The `face_index` list of one face and the state after it, index by index: each entry
      is the local number the index has once the face is done. */
  function FaceIndex(s: Section, face: seq<int>, vertices: seq<string>): (r: Result<(Section, seq<string>)>)
    decreases |face|
    ensures r.Err? ==> r.msg == IndexError
    ensures r.Ok? ==> Grown(s, r.value.0) && |r.value.1| == |face|
    ensures r.Ok? ==> forall k :: 0 <= k < |face| ==>
      face[k] in r.value.0.link && r.value.1[k] == NatToString(r.value.0.link[face[k]])
    ensures r.Ok? ==> forall i :: i in r.value.0.link ==> i in s.link || i in face
  {
    if |face| == 0 then Ok((s, []))
    else
      var n := |face| - 1;
      var p :- FaceIndex(s, face[..n], vertices);
      var q :- Visit(p.0, face[n], vertices);
      Ok((q.0, p.1 + [q.1]))
  }

  /** Index `i` can be renumbered in `s`: it has a number already or names a vertex. */
  predicate Known(s: Section, vertices: seq<string>, i: int) {
    i in s.link || PyAt(vertices, i - 1).Some?
  }

  /** One more index of a face: the visit of that index after the indices before it. */
  lemma FaceIndexNext(s: Section, face: seq<int>, vertices: seq<string>, j: nat)
    requires j < |face| && FaceIndex(s, face[..j], vertices).Ok?
    ensures var p := FaceIndex(s, face[..j], vertices).value;
      FaceIndex(s, face[..j + 1], vertices) ==
        match Visit(p.0, face[j], vertices)
        case Err(m) => Err(m)
        case Ok(q) => Ok((q.0, p.1 + [q.1]))
  {
    assert face[..j + 1][..j] == face[..j];
  }

  /** A face raises exactly when one of its indices is new to the section and out of range
      of `vertices`. */
  lemma {:induction false} FaceIndexRaises(s: Section, face: seq<int>, vertices: seq<string>)
    ensures FaceIndex(s, face, vertices).Ok? <==> forall k :: 0 <= k < |face| ==> Known(s, vertices, face[k])
    decreases |face|
  {
    if |face| > 0 {
      var n := |face| - 1;
      var init := face[..n];
      FaceIndexRaises(s, init, vertices);
      var p := FaceIndex(s, init, vertices);
      if p.Err? {
        var k :| 0 <= k < n && !Known(s, vertices, init[k]);
        assert !Known(s, vertices, face[k]);
      } else {
        var t := p.value.0;
        assert FaceIndex(s, face, vertices).Ok? <==> Visit(t, face[n], vertices).Ok?;
        if face[n] in t.link && face[n] !in s.link {
          var k :| 0 <= k < n && init[k] == face[n];
          assert Known(s, vertices, face[n]) by { assert Known(s, vertices, init[k]); }
        }
        assert Known(t, vertices, face[n]) <==> Known(s, vertices, face[n]);
        forall k | 0 <= k < n ensures Known(s, vertices, face[k]) { assert face[k] == init[k]; }
      }
    }
  }

  /** Renumbering a face keeps the renumbering consistent. */
  lemma {:induction false} FaceIndexIndexed(s: Section, face: seq<int>, vertices: seq<string>)
    requires Indexed(s, vertices) && FaceIndex(s, face, vertices).Ok?
    ensures Indexed(FaceIndex(s, face, vertices).value.0, vertices)
    decreases |face|
  {
    if |face| > 0 {
      FaceIndexIndexed(s, face[..|face| - 1], vertices);
    }
  }

  /** `coordIndex.append(",".join(face_index) + ",")` after `face_index.append("-1")`. */
  function Record(faceIndex: seq<string>): string {
    Join(",", faceIndex + ["-1"]) + ","
  }

  /** `[int(index) for index in tokens]`. */
  function Ints(tokens: seq<string>, py: Py): (r: Result<seq<int>>)
    decreases |tokens|
    ensures r.Err? ==> r.msg == IntError
    ensures r.Ok? ==> |r.value| == |tokens| && forall k :: 0 <= k < |tokens| ==> py.toInt(tokens[k]) == Some(r.value[k])
  {
    if |tokens| == 0 then Ok([])
    else
      var n := |tokens| - 1;
      var init :- Ints(tokens[..n], py);
      var last :- Int(py, tokens[n]);
      Ok(init + [last])
  }

  /** The indices of a face line: `//` removed, split on spaces, the leading `f` dropped. */
  function FaceOf(line: string, py: Py): Result<seq<int>> {
    Ints(Split(Replace(line, "//", ""), " ")[1..], py)
  }

  /** One line of a section: an empty line is skipped; any other line is a face whose
      indices are renumbered and whose record is appended. */
  function FaceLine(s: Section, line: string, vertices: seq<string>, py: Py): Result<Section> {
    if |line| == 0 then Ok(s)
    else
      var face :- FaceOf(line, py);
      var p :- FaceIndex(s, face, vertices);
      Ok(p.0.(coordIndex := p.0.coordIndex + [Record(p.1)]))
  }

  function FaceStepper(vertices: seq<string>, py: Py): (Section, string) -> Result<Section> {
    (s: Section, line: string) => FaceLine(s, line, vertices, py)
  }

  /** The lines after the material line of a section, renumbered from a fresh state. */
  function SectionOf(lines: seq<string>, vertices: seq<string>, py: Py): Result<Section> {
    Replay(FaceStepper(vertices, py), Fresh, lines)
  }

  /** The faces of the non-empty lines, in order. */
  function Faces(lines: seq<string>, py: Py): Result<seq<seq<int>>> {
    if |lines| == 0 then Ok([])
    else
      var n := |lines| - 1;
      var init :- Faces(lines[..n], py);
      if |lines[n]| == 0 then Ok(init)
      else
        var face :- FaceOf(lines[n], py);
        Ok(init + [face])
  }

  predicate AllIn(link: map<int, nat>, face: seq<int>) {
    forall j :: 0 <= j < |face| ==> face[j] in link
  }

  /** The local numbers of a face under `link`, as decimal strings. */
  function Names(link: map<int, nat>, face: seq<int>): seq<string>
    requires AllIn(link, face)
  {
    seq(|face|, j requires 0 <= j < |face| => NatToString(link[face[j]]))
  }

  /** One record per face, in order, each listing the local numbers of its vertices. */
  predicate Recorded(s: Section, faces: seq<seq<int>>) {
    |s.coordIndex| == |faces| &&
    forall k :: 0 <= k < |faces| ==> AllIn(s.link, faces[k]) && s.coordIndex[k] == Record(Names(s.link, faces[k]))
  }

  /** Numbers kept by a larger map give the same names. */
  lemma NamesKept(a: map<int, nat>, b: map<int, nat>, face: seq<int>)
    requires AllIn(a, face) && Keeps(a, b)
    ensures AllIn(b, face) && Names(b, face) == Names(a, face)
  {
    forall j | 0 <= j < |face|
      ensures face[j] in b && b[face[j]] == a[face[j]]
    {
      KeepsAt(a, b, face[j]);
    }
    assert forall j :: 0 <= j < |face| ==> Names(b, face)[j] == Names(a, face)[j];
  }

  /** After a section every face line has one record, in order: its local numbers as the
      section ends, then `-1` and a trailing comma; the renumbering is consistent. */
  lemma {:induction false} SectionRecords(lines: seq<string>, vertices: seq<string>, py: Py)
    requires SectionOf(lines, vertices, py).Ok?
    ensures Faces(lines, py).Ok?
    ensures Indexed(SectionOf(lines, vertices, py).value, vertices)
    ensures Recorded(SectionOf(lines, vertices, py).value, Faces(lines, py).value)
  {
    if |lines| > 0 {
      var n := |lines| - 1;
      SectionRecords(lines[..n], vertices, py);
      var prev := SectionOf(lines[..n], vertices, py).value;
      var faces := Faces(lines[..n], py).value;
      if |lines[n]| > 0 {
        var face := FaceOf(lines[n], py).value;
        var p := FaceIndex(prev, face, vertices).value;
        FaceIndexIndexed(prev, face, vertices);
        var s := SectionOf(lines, vertices, py).value;
        assert s == p.0.(coordIndex := p.0.coordIndex + [Record(p.1)]);
        forall k | 0 <= k < |faces|
          ensures AllIn(s.link, faces[k]) && Names(s.link, faces[k]) == Names(prev.link, faces[k])
        {
          NamesKept(prev.link, s.link, faces[k]);
        }
        assert AllIn(s.link, face);
        assert Names(s.link, face) == p.1;
        assert Faces(lines, py).value == faces + [face];
      }
    }
  }

  /** A face whose first indices already raise raises as a whole. */
  lemma FaceIndexStops(s: Section, face: seq<int>, vertices: seq<string>, j: nat)
    requires j < |face| && FaceIndex(s, face[..j + 1], vertices).Err?
    ensures FaceIndex(s, face, vertices) == Err(IndexError)
  {
    var init := face[..j + 1];
    FaceIndexRaises(s, init, vertices);
    var k :| 0 <= k < |init| && !Known(s, vertices, init[k]);
    assert !Known(s, vertices, face[k]);
    FaceIndexRaises(s, face, vertices);
  }

  /** One index of a face: the number `link_dict` has for it, or the next `index_counter`
      with its vertex appended to `points`. */
  method VisitIndex(linkDict: map<int, nat>, points: seq<string>, indexCounter: nat, coordIndex: seq<string>,
                    index: int, vertices: seq<string>) returns (r: Result<(map<int, nat>, seq<string>, nat, string)>)
    requires indexCounter == |points|
    ensures var v := Visit(Section(linkDict, points, coordIndex), index, vertices);
      (r.Ok? <==> v.Ok?) && (r.Err? ==> r.msg == IndexError) &&
      (r.Ok? ==> v.value == (Section(r.value.0, r.value.1, coordIndex), r.value.3) && r.value.2 == |r.value.1|)
  {
    if index !in linkDict {
      var vertex := PyAt(vertices, index - 1);
      if vertex.None? {
        return Err(IndexError);
      }
      return Ok((linkDict[index := indexCounter], points + [vertex.value], indexCounter + 1, NatToString(indexCounter)));
    }
    return Ok((linkDict, points, indexCounter, NatToString(linkDict[index])));
  }

  /** The loop over the indices of one face: `link_dict`, `index_counter`, `points` and
      `face_index` updated index by index. */
  method NumberFace(s: Section, face: seq<int>, vertices: seq<string>) returns (r: Result<(Section, seq<string>)>)
    ensures r == FaceIndex(s, face, vertices)
  {
    var linkDict: map<int, nat> := s.link;
    var points := s.points;
    var indexCounter: nat := |points|;
    var faceIndex: seq<string> := [];
    var j := 0;
    while j < |face|
      invariant 0 <= j <= |face|
      invariant FaceIndex(s, face[..j], vertices) == Ok((Section(linkDict, points, s.coordIndex), faceIndex))
      invariant indexCounter == |points|
    {
      FaceIndexNext(s, face, vertices, j);
      var v := VisitIndex(linkDict, points, indexCounter, s.coordIndex, face[j], vertices);
      if v.Err? {
        FaceIndexStops(s, face, vertices, j);
        return Err(IndexError);
      }
      linkDict, points, indexCounter := v.value.0, v.value.1, v.value.2;
      faceIndex := faceIndex + [v.value.3];
      j := j + 1;
    }
    assert face[..j] == face;
    return Ok((Section(linkDict, points, s.coordIndex), faceIndex));
  }

  /** The loop over the lines of one section: every non-empty line is a face whose indices
      are renumbered and whose record is appended to `coordIndex`. */
  method Reindex(lines: seq<string>, vertices: seq<string>, py: Py) returns (r: Result<Section>)
    ensures r == SectionOf(lines, vertices, py)
  {
    var s := Fresh;
    var i := 0;
    while i < |lines|
      invariant 0 <= i <= |lines|
      invariant SectionOf(lines[..i], vertices, py) == Ok(s)
    {
      ReplayNext(FaceStepper(vertices, py), Fresh, lines, i);
      var line := lines[i];
      if |line| > 0 {
        var parsed := FaceOf(line, py);
        if parsed.Err? {
          ReplayErrPersists(FaceStepper(vertices, py), Fresh, lines, i + 1);
          return Err(parsed.msg);
        }
        var numbered := NumberFace(s, parsed.value, vertices);
        if numbered.Err? {
          ReplayErrPersists(FaceStepper(vertices, py), Fresh, lines, i + 1);
          return Err(numbered.msg);
        }
        var faceIndex := numbered.value.1;
        s := numbered.value.0;
        s := s.(coordIndex := s.coordIndex + [Record(faceIndex)]);
      }
      i := i + 1;
    }
    assert lines[..i] == lines;
    return Ok(s);
  }

  // ---------------------------------------------------------------------------
  // Shapes and the WRL text
  // ---------------------------------------------------------------------------

  /** `points.insert(-1, points[-1])`: the last point is written twice; an empty section
      raises at `points[-1]`. */
  function DuplicateLast(points: seq<string>): (r: Result<seq<string>>)
    ensures r.Ok? <==> |points| > 0
    ensures r.Err? ==> r.msg == IndexError
    ensures r.Ok? ==> |r.value| == |points| + 1 && r.value[..|points|] == points &&
                      r.value[|points|] == points[|points| - 1]
  {
    if |points| == 0 then Err(IndexError)
    else
      var n := |points| - 1;
      Ok(points[..n] + [points[n]] + points[n..])
  }

  const DiffuseMissing: string := "KeyError: 'diffuseColor'"
  const SpecularMissing: string := "KeyError: 'specularColor'"
  const TransparencyMissing: string := "KeyError: 'transparency'"
  const MaterialMissing: string := "KeyError: material id"

  /** The `Shape` node of one section; the three material entries are looked up in the order
      the template names them, and the first one missing raises. */
  function ShapeText(m: Material, points: seq<string>, coordIndex: seq<string>): (r: Result<string>)
    ensures r.Ok? <==> m.diffuse.Some? && m.specular.Some? && m.transparency.Some?
    ensures m.diffuse.None? ==> r == Err(DiffuseMissing)
    ensures m.diffuse.Some? && m.specular.None? ==> r == Err(SpecularMissing)
    ensures m.diffuse.Some? && m.specular.Some? && m.transparency.None? ==> r == Err(TransparencyMissing)
  {
    var diffuse :- Need(m.diffuse, DiffuseMissing);
    var specular :- Need(m.specular, SpecularMissing);
    var transparency :- Need(m.transparency, TransparencyMissing);
    Ok("\nShape{\n\tappearance Appearance {\n\t\tmaterial  Material \t{ \n\t\t\tdiffuseColor " + Join(" ", diffuse)
       + " \n\t\t\tspecularColor " + Join(" ", specular)
       + "\n\t\t\tambientIntensity 0.2\n\t\t\ttransparency " + transparency
       + "\n\t\t\tshininess 0.5\n\t\t}\n\t}\n\tgeometry IndexedFaceSet {\n\t\tccw TRUE \n\t\tsolid FALSE"
       + "\n\t\tcoord DEF co Coordinate {\n\t\t\tpoint [\n\t\t\t\t" + Join(", ", points)
       + "\n\t\t\t]\n\t\t}\n\t\tcoordIndex [\n\t\t\t" + Concat(coordIndex) + "\n\t\t]\n\t}\n}")
  }

  /** One `usemtl` section: the material named by its first line with the spaces removed
      (KeyError when there is none), the faces renumbered, the last point doubled. */
  function ShapeOf(section: string, materials: map<string, Material>, vertices: seq<string>, py: Py): (r: Result<string>)
    ensures RemoveChar(Split(section, "\n")[0], ' ') !in materials ==> r == Err(MaterialMissing)
    ensures r.Ok? ==> var m := materials[RemoveChar(Split(section, "\n")[0], ' ')];
      m.diffuse.Some? && m.specular.Some? && m.transparency.Some?
    ensures r.Ok? ==> (SectionOf(Split(section, "\n")[1..], vertices, py).Ok? &&
                       |SectionOf(Split(section, "\n")[1..], vertices, py).value.points| > 0)
  {
    var lines := Split(section, "\n");
    var key := RemoveChar(lines[0], ' ');
    if key !in materials then Err(MaterialMissing)
    else
      var s :- SectionOf(lines[1..], vertices, py);
      var points :- DuplicateLast(s.points);
      ShapeText(materials[key], points, s.coordIndex)
  }

  /** The body of the section loop, on the loop's own variables. */
  method ShapeOn(section: string, materials: map<string, Material>, vertices: seq<string>, py: Py)
    returns (r: Result<string>)
    ensures r == ShapeOf(section, materials, vertices, py)
  {
    var lines := Split(section, "\n");
    var key := RemoveChar(lines[0], ' ');
    if key !in materials {
      return Err(MaterialMissing);
    }
    var material := materials[key];
    var s := Reindex(lines[1..], vertices, py);
    if s.Err? {
      return Err(s.msg);
    }
    var points := DuplicateLast(s.value.points);
    if points.Err? {
      return Err(points.msg);
    }
    r := ShapeText(material, points.value, s.value.coordIndex);
  }

  const WrlHeader: string :=
    "#VRML V2.0 utf8\n#created by JLC2KiCad_lib using the JLCPCB library\n"
    + "#for more info see https://github.com/TousstNicolas/JLC2KICAD_lib\n"

  /** `re.findall("newmtl .*?endmtl", text, re.DOTALL)`. */
  function MaterialBlocks(text: string): seq<string> {
    FindAllSpans(text, Lit("newmtl "), "endmtl", 0)
  }

  /** `text.split("usemtl")[1:]`. */
  function Sections(text: string): seq<string> {
    Split(text, "usemtl")[1..]
  }

  function Shaper(materials: map<string, Material>, vertices: seq<string>, py: Py): string -> Result<string> {
    (section: string) => ShapeOf(section, materials, vertices, py)
  }

  /** `acc += f(x)`, stopping at the first exception. */
  function Appender(f: string -> Result<string>): (string, string) -> Result<string> {
    (acc: string, x: string) => (var t :- f(x); Ok(acc + t))
  }

  /** The WRL text: the header, then the shape of each section in order. */
  function WrlText(text: string, vertices: seq<string>, py: Py): Result<string> {
    var materials :- MaterialsOf(MaterialBlocks(text));
    Replay(Appender(Shaper(materials, vertices, py)), WrlHeader, Sections(text))
  }

  /** `f` applied to each item in order, stopping at the first exception. */
  function Collect(f: string -> Result<string>, xs: seq<string>): (r: Result<seq<string>>)
    ensures r.Ok? ==> |r.value| == |xs| && forall k :: 0 <= k < |xs| ==> f(xs[k]) == Ok(r.value[k])
  {
    if |xs| == 0 then Ok([])
    else
      var n := |xs| - 1;
      var init :- Collect(f, xs[..n]);
      var last :- f(xs[n]);
      Ok(init + [last])
  }

  /** One step of the appender: the piece's exception, or the piece appended. */
  lemma AppenderStep(f: string -> Result<string>, acc: string, x: string)
    ensures f(x).Err? ==> Appender(f)(acc, x) == Err(f(x).msg)
    ensures f(x).Ok? ==> Appender(f)(acc, x) == Ok(acc + f(x).value)
  {
  }

  /** Appending piece by piece is appending the concatenation of all the pieces. */
  lemma {:induction false} AppendsAll(f: string -> Result<string>, acc: string, xs: seq<string>)
    ensures Collect(f, xs).Err? ==> Replay(Appender(f), acc, xs) == Err(Collect(f, xs).msg)
    ensures Collect(f, xs).Ok? ==> Replay(Appender(f), acc, xs) == Ok(acc + Concat(Collect(f, xs).value))
  {
    if |xs| == 0 {
      assert acc + Concat([]) == acc;
    } else {
      var n := |xs| - 1;
      AppendsAll(f, acc, xs[..n]);
      var c := Collect(f, xs[..n]);
      if c.Ok? {
        var before := acc + Concat(c.value);
        assert Replay(Appender(f), acc, xs) == Appender(f)(before, xs[n]);
        AppenderStep(f, before, xs[n]);
        if f(xs[n]).Ok? {
          var t := f(xs[n]).value;
          ConcatAppend(c.value, [t]);
          assert Concat([t]) == t;
          assert Collect(f, xs) == Ok(c.value + [t]);
          assert before + t == acc + (Concat(c.value) + t);
        }
      }
    }
  }

  /** The WRL text holds exactly one shape per `usemtl` section, in file order, after the
      header. */
  lemma OneShapePerSection(text: string, vertices: seq<string>, py: Py)
    requires WrlText(text, vertices, py).Ok?
    ensures MaterialsOf(MaterialBlocks(text)).Ok?
    ensures var shapes := Collect(Shaper(MaterialsOf(MaterialBlocks(text)).value, vertices, py), Sections(text));
      shapes.Ok? && |shapes.value| == |Sections(text)| &&
      (forall k :: 0 <= k < |shapes.value| ==>
         ShapeOf(Sections(text)[k], MaterialsOf(MaterialBlocks(text)).value, vertices, py) == Ok(shapes.value[k])) &&
      WrlText(text, vertices, py).value == WrlHeader + Concat(shapes.value)
  {
    AppendsAll(Shaper(MaterialsOf(MaterialBlocks(text)).value, vertices, py), WrlHeader, Sections(text));
  }

  // ---------------------------------------------------------------------------
  // The Model node
  // ---------------------------------------------------------------------------

  /** The path written into the `Model` node: with a base variable, quoted and led by a
      variable reference (`$VAR` as given, anything else wrapped as `$(VAR)`); without one,
      the bare relative path. */
  function PathName(base: string, dir: string, name: string, ext: string): (r: string)
    ensures base == "" ==> r == dir + "/" + name + ext
    ensures base != "" ==> |r| >= |base| + |dir| + |name| + |ext| + 4 && r[0] == '"' && r[1] == '$' && r[|r| - 1] == '"'
    ensures base != "" ==> r[|r| - 1 - (|dir| + |name| + |ext| + 2)..|r| - 1] == "/" + dir + "/" + name + ext
    ensures base != "" && base[0] == '$' ==> r[1..|base| + 1] == base
    ensures base != "" && base[0] != '$' ==> r[1..|base| + 4] == "$(" + base + ")"
  {
    var rel := "/" + dir + "/" + name + ext;
    if base == "" then dir + "/" + name + ext
    else
      var head := if base[0] == '$' then base else "$(" + base + ")";
      var r := "\"" + head + rel + "\"";
      assert r[1..|head| + 1] == head;
      assert r[|r| - 1 - |rel|..|r| - 1] == rel;
      r
  }

  /** Where the model file is written. */
  function FilePathOf(info: FootprintInfo, ext: string): string {
    info.outputDir + "/" + info.footprintLib + "/" + info.modelDir + "/" + info.footprintName + ext
  }

  /** The model offset in KiCad units: the head position relative to the footprint origin,
      divided by 100, with y flipped; the height divided by 100. */
  function Translation(origin: Point, tx: real, ty: real, z: real): (r: Vec3)
    ensures r.x * 100.0 + origin.x == tx
    ensures origin.y - r.y * 100.0 == ty
    ensures r.z * 100.0 == z
  {
    Vec3((tx - origin.x) / 100.0, -(ty - origin.y) / 100.0, z / 100.0)
  }

  /** `[-float(a) for a in pieces]`. */
  function Negated(pieces: seq<string>, py: Py): (r: Result<seq<real>>)
    decreases |pieces|
    ensures r.Err? ==> r.msg == FloatError
    ensures r.Ok? ==> |r.value| == |pieces|
    ensures r.Ok? ==> forall k :: 0 <= k < |pieces| ==>
      py.toFloat(pieces[k]).Some? && r.value[k] + py.toFloat(pieces[k]).value == 0.0
  {
    if |pieces| == 0 then Ok([])
    else
      var n := |pieces| - 1;
      var init :- Negated(pieces[..n], py);
      var a :- Float(py, pieces[n]);
      Ok(init + [-a])
  }

  /** The rotation of the model: one negated angle per comma-separated piece. */
  function Rotation(rotation: string, py: Py): (r: Result<seq<real>>)
    ensures r.Err? ==> r.msg == FloatError
    ensures r.Ok? ==> |r.value| == |Split(rotation, ",")| == Count(rotation, ',') + 1
    ensures r.Ok? ==> forall k :: 0 <= k < |r.value| ==>
      py.toFloat(Split(rotation, ",")[k]).Some? && r.value[k] == -py.toFloat(Split(rotation, ",")[k]).value
  {
    SplitCharCount(rotation, ',');
    Negated(Split(rotation, ","), py)
  }

  /** `Model(filename=path, at=[...], rotate=[...])`: the height is parsed before the rotation. */
  function ModelNode(path: string, origin: Point, tx: real, ty: real, tz: string, rotation: string, py: Py): (r: Result<Node>)
    ensures r.Ok? ==> r.value.Model? && r.value.filename == path
  {
    var z :- Float(py, tz);
    var rotate :- Rotation(rotation, py);
    Ok(Model(path, Translation(origin, tx, ty, z), rotate))
  }

  // ---------------------------------------------------------------------------
  // The two writers
  // ---------------------------------------------------------------------------

  datatype ModelFile = ModelFile(path: string, content: string)

  /** What a writer leaves behind besides the footprint: the file it wrote, if any, and the
      exception it raised, if any. A non-ok response writes nothing and raises nothing. */
  datatype Outcome = Outcome(written: Option<ModelFile>, raised: Option<string>)

  /** `get_StepModel` on the footprint's nodes: the bytes are stored as they come and the
      model is appended whatever the footprint already holds. */
  function StepEffect(ok: bool, content: string, info: FootprintInfo, children: seq<Node>,
                      tx: real, ty: real, tz: string, rotation: string, py: Py): (Outcome, seq<Node>)
  {
    if !ok then (Outcome(None, None), children)
    else
      var file := Some(ModelFile(FilePathOf(info, ".step"), content));
      match ModelNode(PathName(info.modelBaseVariable, info.modelDir, info.footprintName, ".step"),
                      info.origin, tx, ty, tz, rotation, py)
      case Err(m) => (Outcome(file, Some(m)), children)
      case Ok(n) => (Outcome(file, None), children + [n])
  }

  /** `get_WrlModel` on the footprint's nodes: the WRL text is written first; the height is
      parsed before the duplicate check, the rotation only when the model is appended. */
  function WrlEffect(ok: bool, text: string, vertices: seq<string>, info: FootprintInfo, children: seq<Node>,
                     tx: real, ty: real, tz: string, rotation: string, py: Py): (Outcome, seq<Node>)
  {
    if !ok then (Outcome(None, None), children)
    else
      match WrlText(text, vertices, py)
      case Err(m) => (Outcome(None, Some(m)), children)
      case Ok(content) =>
        var file := Some(ModelFile(FilePathOf(info, ".wrl"), content));
        if py.toFloat(tz).None? then (Outcome(file, Some(FloatError)), children)
        else if HasModel(children) then (Outcome(file, None), children)
        else
          match ModelNode(PathName(info.modelBaseVariable, info.modelDir, info.footprintName, ".wrl"),
                          info.origin, tx, ty, tz, rotation, py)
          case Err(m) => (Outcome(file, Some(m)), children)
          case Ok(n) => (Outcome(file, None), children + [n])
  }

  /** The number of `Model` nodes among the direct children. */
  function ModelCount(ns: seq<Node>): (c: nat)
    ensures c == 0 <==> !HasModel(ns)
    ensures c <= |ns|
  {
    if |ns| == 0 then 0
    else ModelCount(ns[..|ns| - 1]) + (if ns[|ns| - 1].Model? then 1 else 0)
  }

  /** The STEP writer appends its model whenever it finishes, even next to another one. */
  lemma StepAddsModel(ok: bool, content: string, info: FootprintInfo, children: seq<Node>,
                      tx: real, ty: real, tz: string, rotation: string, py: Py)
    requires ok
    ensures var e := StepEffect(ok, content, info, children, tx, ty, tz, rotation, py);
      e.0.written == Some(ModelFile(FilePathOf(info, ".step"), content)) &&
      (e.0.raised.None? <==> py.toFloat(tz).Some? && Rotation(rotation, py).Ok?) &&
      (e.0.raised.None? ==> ModelCount(e.1) == ModelCount(children) + 1 && e.1[..|children|] == children) &&
      (e.0.raised.Some? ==> e.1 == children)
  {
    var node := ModelNode(PathName(info.modelBaseVariable, info.modelDir, info.footprintName, ".step"),
                          info.origin, tx, ty, tz, rotation, py);
    if node.Ok? {
      var after := children + [node.value];
      assert after[..|after| - 1] == children;
      assert ModelCount(after) == ModelCount(children) + 1;
    }
  }

  /** The WRL writer never adds a second model: a footprint with a model keeps its nodes, and
      one without gains at most one. */
  lemma WrlNoDuplicate(ok: bool, text: string, vertices: seq<string>, info: FootprintInfo, children: seq<Node>,
                       tx: real, ty: real, tz: string, rotation: string, py: Py)
    ensures var after := WrlEffect(ok, text, vertices, info, children, tx, ty, tz, rotation, py).1;
      (HasModel(children) ==> after == children) &&
      (!HasModel(children) ==> ModelCount(after) <= 1 && |after| >= |children| && after[..|children|] == children)
  {
    WrlGrows(ok, text, vertices, info, children, tx, ty, tz, rotation, py);
    var after := WrlEffect(ok, text, vertices, info, children, tx, ty, tz, rotation, py).1;
    if after != children {
      assert after[..|after| - 1] == children;
    }
  }

  /** The WRL writer leaves the nodes alone or appends one model to a footprint without one. */
  lemma WrlGrows(ok: bool, text: string, vertices: seq<string>, info: FootprintInfo, children: seq<Node>,
                 tx: real, ty: real, tz: string, rotation: string, py: Py)
    ensures var after := WrlEffect(ok, text, vertices, info, children, tx, ty, tz, rotation, py).1;
      after == children || (!HasModel(children) && exists n: Node :: n.Model? && after == children + [n])
  {
    if ok && WrlText(text, vertices, py).Ok? && py.toFloat(tz).Some? && !HasModel(children) {
      var node := ModelNode(PathName(info.modelBaseVariable, info.modelDir, info.footprintName, ".wrl"),
                            info.origin, tx, ty, tz, rotation, py);
      if node.Ok? {
        assert WrlEffect(ok, text, vertices, info, children, tx, ty, tz, rotation, py).1 == children + [node.value];
      }
    }
  }

  /** A WRL model requested after a STEP model that was appended leaves the nodes alone. */
  lemma StepThenWrl(content: string, text: string, vertices: seq<string>, info: FootprintInfo, children: seq<Node>,
                    tx: real, ty: real, tz: string, rotation: string, py: Py)
    requires StepEffect(true, content, info, children, tx, ty, tz, rotation, py).0.raised.None?
    ensures var afterStep := StepEffect(true, content, info, children, tx, ty, tz, rotation, py).1;
      WrlEffect(true, text, vertices, info, afterStep, tx, ty, tz, rotation, py).1 == afterStep
  {
    var node := ModelNode(PathName(info.modelBaseVariable, info.modelDir, info.footprintName, ".step"),
                          info.origin, tx, ty, tz, rotation, py);
    var afterStep := children + [node.value];
    assert afterStep[|children|].Model?;
    WrlNoDuplicate(true, text, vertices, info, afterStep, tx, ty, tz, rotation, py);
  }

  /** `get_StepModel` on the objects. */
  method GetStepModel(ok: bool, content: string, info: FootprintInfo, km: KicadMod,
                      tx: real, ty: real, tz: string, rotation: string, py: Py) returns (out: Outcome)
    modifies km
    ensures (out, km.children) == StepEffect(ok, content, info, old(km.children), tx, ty, tz, rotation, py)
    ensures km.attribute == old(km.attribute)
  {
    if !ok {
      return Outcome(None, None);
    }
    var file := Some(ModelFile(FilePathOf(info, ".step"), content));
    var pathName := PathName(info.modelBaseVariable, info.modelDir, info.footprintName, ".step");
    var z := py.toFloat(tz);
    if z.None? {
      return Outcome(file, Some(FloatError));
    }
    var at := Translation(info.origin, tx, ty, z.value);
    var rotate := Rotation(rotation, py);
    if rotate.Err? {
      return Outcome(file, Some(rotate.msg));
    }
    km.Append(Model(pathName, at, rotate.value));
    return Outcome(file, None);
  }

  /** The text part of `get_WrlModel`: the material loop, then the section loop
      accumulating `wrl_content`. */
  method WrlTextOn(text: string, vertices: seq<string>, py: Py) returns (r: Result<string>)
    ensures r == WrlText(text, vertices, py)
  {
    var materials := ReadMaterials(MaterialBlocks(text));
    if materials.Err? {
      return Err(materials.msg);
    }
    var shapes := Sections(text);
    ghost var step := Appender(Shaper(materials.value, vertices, py));
    var wrlContent := WrlHeader;
    var i := 0;
    while i < |shapes|
      invariant 0 <= i <= |shapes|
      invariant Replay(step, WrlHeader, shapes[..i]) == Ok(wrlContent)
    {
      ReplayNext(step, WrlHeader, shapes, i);
      var shape := ShapeOn(shapes[i], materials.value, vertices, py);
      if shape.Err? {
        ReplayErrPersists(step, WrlHeader, shapes, i + 1);
        return Err(shape.msg);
      }
      wrlContent := wrlContent + shape.value;
      i := i + 1;
    }
    assert shapes[..i] == shapes;
    return Ok(wrlContent);
  }

  /** `get_WrlModel` on the objects: the text written first, then the guarded append. */
  method GetWrlModel(ok: bool, text: string, vertices: seq<string>, info: FootprintInfo, km: KicadMod,
                     tx: real, ty: real, tz: string, rotation: string, py: Py) returns (out: Outcome)
    modifies km
    ensures (out, km.children) == WrlEffect(ok, text, vertices, info, old(km.children), tx, ty, tz, rotation, py)
    ensures km.attribute == old(km.attribute)
  {
    if !ok {
      return Outcome(None, None);
    }
    var wrlContent := WrlTextOn(text, vertices, py);
    if wrlContent.Err? {
      return Outcome(None, Some(wrlContent.msg));
    }
    var file := Some(ModelFile(FilePathOf(info, ".wrl"), wrlContent.value));
    var pathName := PathName(info.modelBaseVariable, info.modelDir, info.footprintName, ".wrl");
    var z := py.toFloat(tz);
    if z.None? {
      return Outcome(file, Some(FloatError));
    }
    var at := Translation(info.origin, tx, ty, z.value);
    if HasModel(km.children) {
      return Outcome(file, None);
    }
    var rotate := Rotation(rotation, py);
    if rotate.Err? {
      return Outcome(file, Some(rotate.msg));
    }
    km.Append(Model(pathName, at, rotate.value));
    return Outcome(file, None);
  }
}
