/** The older 3D model writer kept at the top of the repository (`get_3Dmodel`): one pass
    over the lines of the model sorts each line by its prefix and collects vertices, faces
    and colour changes; the colours are then written once per vertex into a single VRML
    `Group`, and a `Model` node is appended to the footprint without any duplicate check. */
module LegacyModel3d {
  import opened Wrappers
  import opened Text
  import opened Numeric
  import opened Records
  import opened FootprintTypes
  import opened Model3d

  /** Python's `str(round(x, 4))` and `str(x)` on floats, which the model keeps abstract. */
  datatype Fmt = Fmt(rounded: real -> string, plain: real -> string)

  // ---------------------------------------------------------------------------
  // The line loop
  // ---------------------------------------------------------------------------

  datatype Kind = VertexLine | FaceLine | ColourLine | Ignored | Unsupported

  /** The prefix tests of the line loop, in their order. */
  function Classify(line: string): (k: Kind)
  {
    if |line| > 0 && line[0] == 'v' then VertexLine
    else if |line| > 0 && line[0] == 'f' then FaceLine
    else if |line| > 0 && StartsWith(line, "Kd") then ColourLine
    else if |line| > 0 && StartsWith(line, "Ka") then Ignored
    else if |line| > 0 && StartsWith(line, "Ks") then Ignored
    else if |line| > 0 && line[0] == 'd' then Ignored
    else if (|line| > 0 && StartsWith(line, "newmtl")) || StartsWith(line, "endmtl") || StartsWith(line, "usemtl") then Ignored
    else if |line| == 0 then Ignored
    else Unsupported
  }

  /** What each kind of line is: `v` and `f` by first character, `Kd` for a colour change;
      `Ka`, `Ks`, `d`, the material keywords and empty lines are passed over; anything else
      draws a warning. A line starting with `v` is a vertex even when it reads `vn`. */
  lemma ClassifyCases(line: string)
    ensures Classify(line) == VertexLine <==> line != [] && line[0] == 'v'
    ensures Classify(line) == FaceLine <==> line != [] && line[0] == 'f'
    ensures Classify(line) == ColourLine <==> StartsWith(line, "Kd")
    ensures Classify(line) == Ignored <==>
      (line == [] || line[0] == 'd' || StartsWith(line, "Ka") || StartsWith(line, "Ks") ||
       StartsWith(line, "newmtl") || StartsWith(line, "endmtl") || StartsWith(line, "usemtl"))
  {
  }

  const UnpackError: string := "ValueError: wrong number of values to unpack"

  /** `_, x, y, z = line.split(" ")`: exactly four space-separated pieces, which give the
      line back when joined. */
  function Unpack(line: string): (r: Result<seq<string>>)
    ensures r.Ok? <==> Count(line, ' ') == 3
    ensures r.Err? ==> r.msg == UnpackError
    ensures r.Ok? ==> |r.value| == 4 && Join(" ", r.value) == line
    ensures r.Ok? ==> forall k :: 0 <= k < 4 ==> ' ' !in r.value[k]
  {
    SplitCharCount(line, ' ');
    JoinSplit(line, " ");
    var parts := Split(line, " ");
    if |parts| == 4 then Ok(parts) else Err(UnpackError)
  }

  /** The three numbers after the keyword of a `v` or `Kd` line, parsed with `float()`. */
  function Coords(line: string, py: Py): (r: Result<(real, real, real)>)
    ensures r.Ok? <==> Unpack(line).Ok? && py.toFloat(Unpack(line).value[1]).Some? &&
                       py.toFloat(Unpack(line).value[2]).Some? && py.toFloat(Unpack(line).value[3]).Some?
    ensures r.Ok? ==> r.value == (py.toFloat(Unpack(line).value[1]).value, py.toFloat(Unpack(line).value[2]).value,
                                  py.toFloat(Unpack(line).value[3]).value)
  {
    var p :- Unpack(line);
    var x :- Float(py, p[1]);
    var y :- Float(py, p[2]);
    var z :- Float(py, p[3]);
    Ok((x, y, z))
  }

  /** `str(int(t[:-2]) - 1)`: the 1-based OBJ index without its two-character suffix, made
      0-based. */
  function ZeroBased(t: string, py: Py): (r: Result<string>)
    ensures r.Ok? <==> py.toInt(PyPrefix(t, -2)).Some?
    ensures r.Ok? ==> r.value == IntToString(py.toInt(PyPrefix(t, -2)).value - 1)
  {
    var i :- Int(py, PyPrefix(t, -2));
    Ok(IntToString(i - 1))
  }

  /** The three 0-based indices of an `f` line. */
  function FaceIndices(line: string, py: Py): (r: Result<seq<string>>)
    ensures r.Ok? ==> Unpack(line).Ok? && |r.value| == 3
    ensures r.Ok? ==> forall k :: 0 <= k < 3 ==> ZeroBased(Unpack(line).value[k + 1], py) == Ok(r.value[k])
  {
    var p :- Unpack(line);
    var a :- ZeroBased(p[1], py);
    var b :- ZeroBased(p[2], py);
    var c :- ZeroBased(p[3], py);
    Ok([a, b, c])
  }

  /** A vertex in 2.54 units, its coordinates rounded and separated by spaces. */
  function VertexText(c: (real, real, real), fmt: Fmt): string {
    Join(" ", [fmt.rounded(c.0 / 2.54), fmt.rounded(c.1 / 2.54), fmt.rounded(c.2 / 2.54)])
  }

  /** The complemented colour components, as text. */
  function Complement(c: (real, real, real), fmt: Fmt): seq<string> {
    [fmt.plain(1.0 - c.0), fmt.plain(1.0 - c.1), fmt.plain(1.0 - c.2)]
  }

  /** A colour change: the vertices read since the previous one, and the complemented
      components as text. */
  datatype Change = Change(count: int, rgb: seq<string>)

  /** The loop state: `vertices`, `faces`, `color_change`, `vertices_counter`, `last_change`. */
  datatype Scan = Scan(vertices: seq<string>, faces: seq<string>, changes: seq<Change>, counter: int, lastChange: int)

  const Start: Scan := Scan([], [], [], 0, 0)

  /** One line of the model. A vertex adds its coordinates (in 2.54 units) and counts; a face
      adds its three 0-based indices and `-1`; a colour change records the vertices since the
      last one and the complemented colour, and moves the mark. */
  function ScanLine(st: Scan, line: string, py: Py, fmt: Fmt): (r: Result<Scan>)
    ensures Classify(line) == Ignored || Classify(line) == Unsupported ==> r == Ok(st)
    ensures r.Ok? && Classify(line) == VertexLine ==>
      r.value.counter == st.counter + 1 && |r.value.vertices| == |st.vertices| + 1 &&
      r.value.vertices[..|st.vertices|] == st.vertices && r.value == st.(vertices := r.value.vertices, counter := r.value.counter)
    ensures r.Ok? && Classify(line) == FaceLine ==>
      FaceIndices(line, py).Ok? && r.value == st.(faces := st.faces + [Join(", ", FaceIndices(line, py).value + ["-1"])])
    ensures r.Ok? && Classify(line) == ColourLine ==>
      |r.value.changes| == |st.changes| + 1 && r.value.changes[..|st.changes|] == st.changes &&
      r.value.changes[|st.changes|].count == st.counter - st.lastChange && |r.value.changes[|st.changes|].rgb| == 3 &&
      r.value == st.(changes := r.value.changes, lastChange := st.counter)
  {
    match Classify(line)
    case VertexLine =>
      var c :- Coords(line, py);
      Ok(st.(vertices := st.vertices + [VertexText(c, fmt)], counter := st.counter + 1))
    case FaceLine =>
      var f :- FaceIndices(line, py);
      Ok(st.(faces := st.faces + [Join(", ", f + ["-1"])]))
    case ColourLine =>
      var c :- Coords(line, py);
      Ok(st.(changes := st.changes + [Change(st.counter - st.lastChange, Complement(c, fmt))], lastChange := st.counter))
    case _ => Ok(st)
  }

  function ScanStepper(py: Py, fmt: Fmt): (Scan, string) -> Result<Scan> {
    (st: Scan, line: string) => ScanLine(st, line, py, fmt)
  }

  /** The line loop over the whole model, stopping at the first exception. */
  function ScanOf(lines: seq<string>, py: Py, fmt: Fmt): Result<Scan> {
    Replay(ScanStepper(py, fmt), Start, lines)
  }

  /** The number of lines of one kind. */
  function Tally(lines: seq<string>, k: Kind): nat {
    if |lines| == 0 then 0
    else Tally(lines[..|lines| - 1], k) + (if Classify(lines[|lines| - 1]) == k then 1 else 0)
  }

  /** The vertices the recorded changes account for. */
  function Sum(cs: seq<Change>): int {
    if |cs| == 0 then 0 else Sum(cs[..|cs| - 1]) + cs[|cs| - 1].count
  }

  /** The counters agree with the lists: `vertices_counter` is the number of vertices, the
      mark lies between zero and it, and the changes account for exactly the vertices before
      the mark, none of them negatively. */
  predicate Consistent(st: Scan) {
    st.counter == |st.vertices| && 0 <= st.lastChange <= st.counter && Sum(st.changes) == st.lastChange &&
    forall k :: 0 <= k < |st.changes| ==> st.changes[k].count >= 0
  }

  /** After the loop: one vertex per `v` line, one face per `f` line, one change per `Kd`
      line, and consistent counters. */
  lemma {:induction false} ScanCounts(lines: seq<string>, py: Py, fmt: Fmt)
    requires ScanOf(lines, py, fmt).Ok?
    ensures var st := ScanOf(lines, py, fmt).value;
      Consistent(st) && |st.vertices| == Tally(lines, VertexLine) && |st.faces| == Tally(lines, FaceLine) &&
      |st.changes| == Tally(lines, ColourLine)
  {
    if |lines| > 0 {
      var n := |lines| - 1;
      ScanCounts(lines[..n], py, fmt);
      var prev := ScanOf(lines[..n], py, fmt).value;
      var st := ScanOf(lines, py, fmt).value;
      assert st == ScanLine(prev, lines[n], py, fmt).value;
      if Classify(lines[n]) == ColourLine {
        assert st.changes[..|st.changes| - 1] == prev.changes;
      }
    }
  }

  /** The body of the line loop on its five variables (`vertices`, `faces`, `color_change`,
      `vertices_counter`, `last_change`), gathered in one `Scan`. */
  method ReadLine(st: Scan, line: string, py: Py, fmt: Fmt) returns (r: Result<Scan>)
    ensures r == ScanLine(st, line, py, fmt)
  {
    var vertices, faces, colorChange := st.vertices, st.faces, st.changes;
    var verticesCounter, lastChange := st.counter, st.lastChange;
    var kind := Classify(line);
    if kind == VertexLine {
      var c := Coords(line, py);
      if c.Err? {
        return Err(c.msg);
      }
      vertices := vertices + [VertexText(c.value, fmt)];
      verticesCounter := verticesCounter + 1;
    } else if kind == FaceLine {
      var f := FaceIndices(line, py);
      if f.Err? {
        return Err(f.msg);
      }
      faces := faces + [Join(", ", f.value + ["-1"])];
    } else if kind == ColourLine {
      var c := Coords(line, py);
      if c.Err? {
        return Err(c.msg);
      }
      colorChange := colorChange + [Change(verticesCounter - lastChange, Complement(c.value, fmt))];
      lastChange := verticesCounter;
    }
    return Ok(Scan(vertices, faces, colorChange, verticesCounter, lastChange));
  }

  /** The line loop. */
  method ScanLines(lines: seq<string>, py: Py, fmt: Fmt) returns (r: Result<Scan>)
    ensures r == ScanOf(lines, py, fmt)
  {
    var st := Start;
    var i := 0;
    while i < |lines|
      invariant 0 <= i <= |lines|
      invariant ScanOf(lines[..i], py, fmt) == Ok(st)
    {
      ReplayNext(ScanStepper(py, fmt), Start, lines, i);
      var next := ReadLine(st, lines[i], py, fmt);
      if next.Err? {
        ReplayErrPersists(ScanStepper(py, fmt), Start, lines, i + 1);
        return next;
      }
      st := next.value;
      i := i + 1;
    }
    assert lines[..i] == lines;
    return Ok(st);
  }

  // ---------------------------------------------------------------------------
  // The colour list
  // ---------------------------------------------------------------------------

  /** One entry of the colour list: the three components and a comma. */
  function ChangeLine(c: Change): string {
    Join(" ", c.rgb) + ",\n"
  }

  /** Python's `s * n`: empty for `n <= 0`. */
  function Repeat(s: string, n: int): string
    decreases n
  {
    if n <= 0 then "" else s + Repeat(s, n - 1)
  }

  function Times(n: int): nat {
    if n <= 0 then 0 else n
  }

  /** The colour list entry by entry: the line of each change, repeated `count` times. */
  function Expanded(cs: seq<Change>): seq<string> {
    if |cs| == 0 then []
    else
      var c := cs[|cs| - 1];
      Expanded(cs[..|cs| - 1]) + seq(Times(c.count), _ => ChangeLine(c))
  }

  /** Repeating a string is concatenating that many copies of it. */
  lemma {:induction false} RepeatCopies(s: string, n: int)
    ensures Repeat(s, n) == Concat(seq(Times(n), _ => s))
    decreases n
  {
    if n > 0 {
      RepeatCopies(s, n - 1);
      assert seq(Times(n), _ => s) == [s] + seq(Times(n - 1), _ => s);
    }
  }

  /** With no negative count, the list has one entry per vertex the changes account for. */
  lemma {:induction false} ExpandedLength(cs: seq<Change>)
    requires forall k :: 0 <= k < |cs| ==> cs[k].count >= 0
    ensures |Expanded(cs)| == Sum(cs)
  {
    if |cs| > 0 {
      ExpandedLength(cs[..|cs| - 1]);
    }
  }

  /** Each change is written exactly `count` times, in the order of the changes: entries
      `Sum(cs[..k])` up to `Sum(cs[..k + 1])` are the line of change `k`. */
  lemma {:induction false} ExpandedAt(cs: seq<Change>, k: nat, m: int)
    requires forall j :: 0 <= j < |cs| ==> cs[j].count >= 0
    requires k < |cs| && Sum(cs[..k]) <= m < Sum(cs[..k]) + cs[k].count
    ensures 0 <= m < |Expanded(cs)| && Expanded(cs)[m] == ChangeLine(cs[k])
  {
    var n := |cs| - 1;
    ExpandedLength(cs[..n]);
    ExpandedLength(cs);
    if k < n {
      assert cs[..n][..k] == cs[..k];
      ExpandedAt(cs[..n], k, m);
      assert Sum(cs[..n]) >= Sum(cs[..k + 1]) by {
        SumMonotone(cs[..n], k + 1);
        assert cs[..n][..k + 1] == cs[..k + 1];
      }
      assert cs[..k + 1][..k] == cs[..k];
    } else {
      assert cs[..k] == cs[..n];
    }
  }

  /** Sums of prefixes grow with the prefix when no count is negative. */
  lemma {:induction false} SumMonotone(cs: seq<Change>, i: nat)
    requires forall j :: 0 <= j < |cs| ==> cs[j].count >= 0
    requires i <= |cs|
    ensures Sum(cs[..i]) <= Sum(cs)
    decreases |cs| - i
  {
    if i < |cs| {
      var n := |cs| - 1;
      assert cs[..n][..i] == cs[..i];
      SumMonotone(cs[..n], i);
    } else {
      assert cs[..i] == cs;
    }
  }

  /** The colour loop: `wrl_color_change += line * count` for each change. */
  method ColourList(changes: seq<Change>) returns (text: string)
    ensures text == Concat(Expanded(changes))
  {
    text := "";
    var i := 0;
    while i < |changes|
      invariant 0 <= i <= |changes|
      invariant text == Concat(Expanded(changes[..i]))
    {
      var change := changes[i];
      assert changes[..i + 1][..i] == changes[..i];
      RepeatCopies(ChangeLine(change), change.count);
      ConcatAppend(Expanded(changes[..i]), seq(Times(change.count), _ => ChangeLine(change)));
      text := text + Repeat(Join(" ", change.rgb) + ",\n", change.count);
      i := i + 1;
    }
    assert changes[..i] == changes;
  }

  // ---------------------------------------------------------------------------
  // The file and the Model node
  // ---------------------------------------------------------------------------

  /** `translationX, translationY, translationZ = 0, 0, float(translationZ) / 3.048`. */
  function LegacyTranslation(z: real): (r: Vec3)
    ensures r.x == 0.0 && r.y == 0.0 && r.z * 3.048 == z
  {
    Vec3(0.0, 0.0, z / 3.048)
  }

  /** The text up to the first vertex, around the height; the two zero offsets are Python
      ints, written `0`. */
  const HeaderBefore: string :=
    "#VRML V2.0 utf8\n#created by JLC2KiCad_lib using the JLCPCB library\n"
    + "#for more info see https://github.com/TousstNicolas/JLC2KICAD_lib\n\nGroup {\n\ttranslation 0 0 "

  const HeaderAfter: string :=
    "\n\tchildren [\n\t\tShape {\n\t\t\tappearance Appearance {\n\t\t\t\tmaterial Material {\n"
    + "\t\t\t\t\tdiffuseColor 1.0 1.0 1.0\n\t\t\t\t\tambientIntensity 0.2\n\t\t\t\t\tspecularColor 0.8 0.8 0.8\n"
    + "\t\t\t\t\tshininess 0.4\n\t\t\t\t\ttransparency 0\n\t\t\t\t}\n\t\t\t}\n\t\t\tgeometry IndexedFaceSet {\n"
    + "\t\t\t\tccw TRUE\n\t\t\t\tsolid FALSE\n\t\t\t\tcoord DEF co Coordinate {\n\t\t\t\t\tpoint [\n\t\t\t\t\t\t"

  function Header(z: string): string {
    HeaderBefore + z + HeaderAfter
  }

  const VerticesToFaces: string := ",\n\t\t\t\t\t]\n\t\t\t\t}\n\t\t\t\tcoordIndex [\n\t\t\t\t\t"
  const FacesToColours: string := "\n\t\t\t\t]\n\t\t\t\tcolorPerVertex TRUE\n\t\t\t\tcolor Color {\n\t\t\t\t\tcolor [\n"
  const Footer: string := "\t\t\t\t]\n\t\t\t\t}\n\t\t\t}\n\t\t}\n\t]\n}"

  /** The file: the header, the vertices, the faces, then the colour list. */
  function Content(z: real, st: Scan, colours: string, fmt: Fmt): string {
    Header(fmt.plain(LegacyTranslation(z).z)) + Join(",\n", st.vertices) + VerticesToFaces
    + Join(",\n", st.faces) + FacesToColours + colours + Footer
  }

  /** Where the file is written: a fixed `packages3d` folder of the library. */
  function LegacyPath(info: FootprintInfo): string {
    info.outputDir + "/" + info.footprintLib + "/packages3d/" + info.footprintName + ".wrl"
  }

  /** `get_3Dmodel` on the footprint's nodes. The height is parsed before the loop; the file
      is written once the loop is done; the rotation is parsed when the model is appended,
      whatever the footprint already holds. `moduleDir` is the folder of the module file. */
  function LegacyEffect(text: string, info: FootprintInfo, children: seq<Node>, tz: string, rotation: string,
                        moduleDir: string, py: Py, fmt: Fmt): (Outcome, seq<Node>)
  {
    match Float(py, tz)
    case Err(m) => (Outcome(None, Some(m)), children)
    case Ok(z) =>
      match ScanOf(Split(text, "\n"), py, fmt)
      case Err(m) => (Outcome(None, Some(m)), children)
      case Ok(st) =>
        var file := Some(ModelFile(LegacyPath(info), Content(z, st, Concat(Expanded(st.changes)), fmt)));
        match Rotation(rotation, py)
        case Err(m) => (Outcome(file, Some(m)), children)
        case Ok(rotate) => (Outcome(file, None), children + [Model(moduleDir + "\\" + LegacyPath(info), Vec3(0.0, 0.0, 0.0), rotate)])
  }

  /** Whenever the writer finishes, the file holds one point per `v` line and exactly as
      many colour entries as vertices were read before the last `Kd` line, and one more
      model is appended, even next to another one. */
  lemma LegacyWrites(text: string, info: FootprintInfo, children: seq<Node>, tz: string, rotation: string,
                     moduleDir: string, py: Py, fmt: Fmt)
    requires LegacyEffect(text, info, children, tz, rotation, moduleDir, py, fmt).0.raised.None?
    ensures ScanOf(Split(text, "\n"), py, fmt).Ok?
    ensures var st := ScanOf(Split(text, "\n"), py, fmt).value;
      |st.vertices| == Tally(Split(text, "\n"), VertexLine) && |Expanded(st.changes)| == st.lastChange <= |st.vertices|
    ensures var after := LegacyEffect(text, info, children, tz, rotation, moduleDir, py, fmt).1;
      |after| == |children| + 1 && after[..|children|] == children && after[|children|].Model? &&
      ModelCount(after) == ModelCount(children) + 1
  {
    var st := ScanOf(Split(text, "\n"), py, fmt).value;
    ScanCounts(Split(text, "\n"), py, fmt);
    ExpandedLength(st.changes);
    var after := LegacyEffect(text, info, children, tz, rotation, moduleDir, py, fmt).1;
    assert after[..|after| - 1] == children;
  }

  /** `get_3Dmodel` on the objects. */
  method Get3dModel(text: string, info: FootprintInfo, km: KicadMod, tz: string, rotation: string,
                    moduleDir: string, py: Py, fmt: Fmt) returns (out: Outcome)
    modifies km
    ensures (out, km.children) == LegacyEffect(text, info, old(km.children), tz, rotation, moduleDir, py, fmt)
    ensures km.attribute == old(km.attribute)
  {
    var z := py.toFloat(tz);
    if z.None? {
      return Outcome(None, Some(FloatError));
    }
    var scan := ScanLines(Split(text, "\n"), py, fmt);
    if scan.Err? {
      return Outcome(None, Some(scan.msg));
    }
    var st := scan.value;
    var wrlColorChange := ColourList(st.changes);
    var filename := LegacyPath(info);
    var file := Some(ModelFile(filename, Content(z.value, st, wrlColorChange, fmt)));
    var rotate := Rotation(rotation, py);
    if rotate.Err? {
      return Outcome(file, Some(rotate.msg));
    }
    km.Append(Model(moduleDir + "\\" + filename, Vec3(0.0, 0.0, 0.0), rotate.value));
    return Outcome(file, None);
  }
}
