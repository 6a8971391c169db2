/** The footprint writer (`JLC2KiCadLib/footprint/footprint.py`): the component record gives
    a name, a datasheet link, the shape records and an origin; each record is split on `~`
    and handed to its handler, which adds nodes to the footprint and widens the bounds;
    then the mount attribute is set, every node is moved under a translation that puts the
    origin at (0, 0), the bounds follow, and three placeholder texts are placed around
    them. The functions state the outcome on values; `CreateFootprint` builds it on the two
    objects, record by record. */
module Footprint {
  import opened Wrappers
  import opened Text
  import opened Numeric
  import opened Records
  import opened FootprintTypes
  import opened FootprintHandlers

  // ---------------------------------------------------------------------------
  // The component record
  // ---------------------------------------------------------------------------

  /** What the component lookup gives: the title, the shape records, the head x and y, and
      the datasheet link when the record has one. */
  datatype Component = Component(title: string, shape: seq<string>, x: real, y: real, link: Option<string>)

  /** The four values `get_footprint_info` returns. */
  datatype Info = Info(name: string, datasheet: Option<string>, shape: seq<string>, origin: Point)

  /** The title with every space, `/`, `(` and `)` turned into `_`, character by character. */
  function Sanitise(title: string): (r: string)
    ensures |r| == |title|
    ensures forall k :: 0 <= k < |r| ==>
      r[k] == if title[k] in {' ', '/', '(', ')'} then '_' else title[k]
  {
    var a := Replace(title, " ", "_");
    ReplaceCharAt(title, ' ', '_');
    var b := Replace(a, "/", "_");
    ReplaceCharAt(a, '/', '_');
    var c := Replace(b, "(", "_");
    ReplaceCharAt(b, '(', '_');
    var d := Replace(c, ")", "_");
    ReplaceCharAt(c, ')', '_');
    d
  }

  /** The footprint name: the sanitised title, or `NoName` when the title is empty. */
  function FootprintName(title: string): (r: string)
    ensures r != ""
    ensures forall c :: c in r ==> c !in {' ', '/', '(', ')'}
    ensures title == "" ==> r == "NoName"
    ensures title != "" ==> (|r| == |title| &&
      forall k :: 0 <= k < |r| ==> r[k] == title[k] || (r[k] == '_' && title[k] in {' ', '/', '(', ')'}))
  {
    var s := Sanitise(title);
    if s == "" then "NoName"
    else
      assert forall c :: c in s ==> c !in {' ', '/', '(', ')'} by {
        forall c | c in s ensures c !in {' ', '/', '(', ')'} {
          var k :| 0 <= k < |s| && s[k] == c;
        }
      }
      s
  }

  /** `get_footprint_info` on the lookup's outcome (None when the request fails). A failed
      lookup gives an empty name (the `NoName` rule is not reached), no link, no records and
      the origin (0, 0); a missing link becomes "". */
  function FootprintInfoOf(response: Option<Component>): (r: Info)
    ensures response.None? ==> r == Info("", None, [], Point(0.0, 0.0))
    ensures response.Some? ==> (r.name == FootprintName(response.value.title) &&
      r.shape == response.value.shape && r.origin == Point(response.value.x, response.value.y))
    ensures response.Some? ==> (r.datasheet.Some? &&
      (r.datasheet.value != "" ==> response.value.link == r.datasheet))
    ensures response.Some? && response.value.link.None? ==> r.datasheet == Some("")
  {
    match response
    case None => Info("", None, [], Point(0.0, 0.0))
    case Some(c) =>
      var link := match c.link case Some(l) => l case None => "";
      Info(FootprintName(c.title), Some(link), c.shape, Point(c.x, c.y))
  }

  // ---------------------------------------------------------------------------
  // Dispatch
  // ---------------------------------------------------------------------------

  /** The tags of the handler table. */
  const Handled: set<string> := {"TRACK", "PAD", "ARC", "CIRCLE", "SOLIDREGION", "SVGNODE", "VIA", "RECT", "HOLE", "TEXT"}

  /** The tag of a record: its first `~`-separated token, empty or not. */
  function Tag(line: string): string {
    Split(line, "~")[0]
  }

  /** A record that changes nothing: an unknown tag (skipped with a warning), a solid region
      (a no-op) or a via (only a warning). */
  predicate Inert(line: string) {
    Tag(line) !in Handled || Tag(line) == "SOLIDREGION" || Tag(line) == "VIA"
  }

  /** The split keeps empty tokens, so the fields keep their positions: one token more than
      there are `~`, none of them holding a `~`. */
  function Args(line: string): (args: seq<string>)
    ensures |args| == Count(line, '~') + 1
    ensures forall k :: 0 <= k < |args| ==> '~' !in args[k]
    ensures args[0] == Tag(line)
  {
    SplitCharCount(line, '~');
    Split(line, "~")
  }

  /** A handler that appends its node when it made one. */
  function AddSome(st: Fp, n: Option<Node>): Fp {
    match n
    case None => st
    case Some(node) => Add(st, node)
  }

  /** One record on the (nodes, bounds) pair: the handler of its tag on the fields after the
      tag. An exception escapes to the caller. `load3d` is the 3D model loader the SVGNODE
      handler calls (`get_3Dmodel`): it raises, or gives the model node it appends, if any. */
  function Step(st: Fp, line: string, load3d: seq<string> -> Result<Option<Node>>, py: Py): (r: Result<Fp>)
    ensures Inert(line) ==> r == Ok(st)
    ensures Tag(line) == "SVGNODE" ==> (r.Ok? <==> load3d(Args(line)[1..]).Ok?)
    ensures Tag(line) == "SVGNODE" && r.Ok? ==> r.value == AddSome(st, load3d(Args(line)[1..]).value)
  {
    var args := Args(line);
    var data := args[1..];
    var tag := args[0];
    if tag == "TRACK" then Track(st, data, py)
    else if tag == "PAD" then PadStep(st, data, py)
    else if tag == "ARC" then Ok(AddSome(st, ArcNode(data, py)))
    else if tag == "CIRCLE" then
      var n :- CircleNodeOf(data, py);
      Ok(AddSome(st, n))
    else if tag == "RECT" then
      var n :- RectNode(data, py);
      Ok(Add(st, n))
    else if tag == "HOLE" then
      var n :- HoleNode(data, py);
      Ok(Add(st, n))
    else if tag == "TEXT" then Ok(AddSome(st, TextNode(data, py)))
    else if tag == "SVGNODE" then
      var n :- load3d(data);
      Ok(AddSome(st, n))
    else Ok(st)
  }

  function Stepper(load3d: seq<string> -> Result<Option<Node>>, py: Py): (Fp, string) -> Result<Fp> {
    (st: Fp, line: string) => Step(st, line, load3d, py)
  }

  /** The record loop: every record in order, stopping at the first exception. */
  function Run(st: Fp, lines: seq<string>, load3d: seq<string> -> Result<Option<Node>>, py: Py): Result<Fp> {
    Replay(Stepper(load3d, py), st, lines)
  }

  /** `r` keeps every node of `st` in front and bounds at least as wide. */
  predicate Extends(st: Fp, r: Fp) {
    |r.children| >= |st.children| && r.children[..|st.children|] == st.children && Grows(st.box, r.box)
  }

  /** No handler removes or reorders a node or shrinks the bounds. */
  lemma StepExtends(st: Fp, line: string, load3d: seq<string> -> Result<Option<Node>>, py: Py)
    requires Step(st, line, load3d, py).Ok?
    ensures Extends(st, Step(st, line, load3d, py).value)
  {
    var r := Step(st, line, load3d, py).value;
    var tag := Tag(line);
    if tag == "PAD" {
      PadBounds(st, Split(line, "~")[1..], py);
    } else if tag != "TRACK" && r != st {
      assert |r.children| == |st.children| + 1 && r.box == st.box;
      assert r.children[..|st.children|] == st.children;
    }
  }

  /** The record loop only ever appends nodes and widens the bounds. */
  lemma {:induction false} RunExtends(st: Fp, lines: seq<string>, load3d: seq<string> -> Result<Option<Node>>, py: Py)
    requires Run(st, lines, load3d, py).Ok?
    ensures Extends(st, Run(st, lines, load3d, py).value)
    decreases |lines|
  {
    if |lines| > 0 {
      var n := |lines| - 1;
      var prev := Run(st, lines[..n], load3d, py);
      assert prev.Ok?;
      RunExtends(st, lines[..n], load3d, py);
      StepExtends(prev.value, lines[n], load3d, py);
      var r := Run(st, lines, load3d, py).value;
      assert r == Step(prev.value, lines[n], load3d, py).value;
      assert r.children[..|st.children|] == r.children[..|prev.value.children|][..|st.children|];
    }
  }

  /** An unknown, solid-region or via record can be removed wherever it stands: the records
      after it are processed as if it were not there. */
  lemma InertSkipped(st: Fp, xs: seq<string>, u: string, ys: seq<string>, load3d: seq<string> -> Result<Option<Node>>, py: Py)
    requires Inert(u)
    ensures Run(st, xs + [u] + ys, load3d, py) == Run(st, xs + ys, load3d, py)
  {
    forall s: Fp
      ensures Stepper(load3d, py)(s, u) == Ok(s)
    {
    }
    ReplaySkips(Stepper(load3d, py), st, xs, u, ys);
  }

  // ---------------------------------------------------------------------------
  // After the loop
  // ---------------------------------------------------------------------------

  /** The mount attribute: through hole when some node is a plated through-hole pad. */
  function Attribute(ns: seq<Node>): (a: string)
    ensures a == "through_hole" <==> HasThtPad(ns)
    ensures a == "through_hole" || a == "smd"
  {
    if HasThtPad(ns) then "through_hole" else "smd"
  }

  /** The origin in millimetres: what the bounds lose and what the translation undoes. */
  function Offset(origin: Point): (d: Point)
    ensures d.x * 3.937 == origin.x && d.y * 3.937 == origin.y
  {
    Point(Mil2mm(origin.x), Mil2mm(origin.y))
  }

  /** The reference above the bounds, the `${REFERENCE}` user text at their centre and the
      value (the footprint name) below them, all three on the vertical through the centre. */
  function Placeholders(b: Box, name: string): (ts: seq<Node>)
    ensures |ts| == 3 && ts[0].Text? && ts[1].Text? && ts[2].Text?
    ensures ts[0].text == "REF**" && ts[0].kind == "reference" && ts[0].layer == "F.SilkS"
    ensures ts[1].text == "${REFERENCE}" && ts[1].kind == "user" && ts[1].layer == "F.Fab"
    ensures ts[2].text == name && ts[2].kind == "value" && ts[2].layer == "F.Fab"
    ensures ts[0].at.x == ts[1].at.x == ts[2].at.x
    ensures ts[0].at.x - b.minX == b.maxX - ts[0].at.x
    ensures ts[1].at.y - b.minY == b.maxY - ts[1].at.y
    ensures b.minX <= b.maxX && b.minY <= b.maxY ==> Inside(b, ts[1].at)
    ensures forall p :: Inside(b, p) ==> ts[0].at.y + 2.0 <= p.y <= ts[2].at.y - 2.0
  {
    var cx := (b.minX + b.maxX) / 2.0;
    [Text("reference", "REF**", Point(cx, b.minY - 2.0), "F.SilkS"),
     Text("user", "${REFERENCE}", Point(cx, (b.minY + b.maxY) / 2.0), "F.Fab"),
     Text("value", name, Point(cx, b.maxY + 2.0), "F.Fab")]
  }

  /** After the loop: every node under one translation by minus the origin, the bounds
      moved by the same offset, then the three texts around the moved bounds. */
  function Finish(st: Fp, origin: Point, name: string): (r: Fp)
    ensures |r.children| == 4 && r.children[1..] == Placeholders(r.box, name)
    ensures r.children[0] == Translated(Point(-Offset(origin).x, -Offset(origin).y), st.children)
    ensures r.box == ShiftBox(st.box, Offset(origin))
  {
    var d := Offset(origin);
    var b := ShiftBox(st.box, d);
    Fp([Translated(Point(-d.x, -d.y), st.children)] + Placeholders(b, name), b)
  }

  /** The translation and the bounds move together: a point the bounds held before is held,
      once moved by the translation, by the new bounds, and no other point is; and the
      translation is minus the origin in millimetres. */
  lemma FinishMovesTogether(st: Fp, origin: Point, name: string, p: Point)
    ensures var r := Finish(st, origin, name); var t := r.children[0].shift;
      t.x * 3.937 == -origin.x && t.y * 3.937 == -origin.y &&
      (Inside(st.box, p) <==> Inside(r.box, Point(p.x + t.x, p.y + t.y)))
  {
    var d := Offset(origin);
    ShiftBoxInside(st.box, d, p);
    assert Point(p.x + -d.x, p.y + -d.y) == Point(p.x - d.x, p.y - d.y);
  }

  // ---------------------------------------------------------------------------
  // create_footprint
  // ---------------------------------------------------------------------------

  /** The path the footprint is checked at and written to. */
  function FilePath(outputDir: string, footprintLib: string, name: string): string {
    outputDir + "/" + footprintLib + "/" + name + ".kicad_mod"
  }

  /** The written footprint file: its path, the fields of the footprint and its nodes. */
  datatype FootprintFile = FootprintFile(path: string, name: string, description: string, tags: string,
                                         attribute: string, children: seq<Node>)

  /** What `create_footprint` returns (`"<lib>:<name>"` and the datasheet link) and the file
      it writes, if any. */
  datatype Created = Created(link: string, datasheet: Option<string>, file: Option<FootprintFile>)

  /** The file written for decoded nodes and bounds `st`: the quoted name, the description
      and tags built from the name, the attribute from the pads, and the finished nodes. */
  function Written(path: string, name: string, componentId: string, st: Fp, origin: Point): (f: FootprintFile)
    ensures f.path == path && f.name == "\"" + name + "\""
    ensures f.description == name + " footprint" && f.tags == name + " footprint " + componentId
    ensures f.attribute == "through_hole" <==> HasThtPad(st.children)
    ensures f.attribute == "smd" <==> !HasThtPad(st.children)
    ensures |f.children| == 4 && f.children[0] == Translated(Point(-Offset(origin).x, -Offset(origin).y), st.children)
    ensures f.children[1..] == Placeholders(ShiftBox(st.box, Offset(origin)), name)
  {
    FootprintFile(path, "\"" + name + "\"", name + " footprint", name + " footprint " + componentId,
                  Attribute(st.children), Finish(st, origin, name).children)
  }

  /** `create_footprint` after `get_footprint_info` gave `info`: returns early when skipping
      an existing file; otherwise runs the records from empty nodes and the sentinel bounds,
      and writes the finished footprint. An exception in any record is the outcome. */
  function Create(info: Info, componentId: string, footprintLib: string, outputDir: string,
                  skipExisting: bool, isFile: string -> bool, load3d: seq<string> -> Result<Option<Node>>, py: Py)
    : (r: Result<Created>)
    ensures r.Ok? ==> r.value.link == footprintLib + ":" + info.name && r.value.datasheet == info.datasheet
    ensures (r.Ok? && r.value.file.None?) <==> skipExisting && isFile(FilePath(outputDir, footprintLib, info.name))
    ensures r.Err? <==> !(skipExisting && isFile(FilePath(outputDir, footprintLib, info.name))) &&
                        Run(Fp([], Sentinel), info.shape, load3d, py).Err?
    ensures r.Ok? && r.value.file.Some? ==> (Run(Fp([], Sentinel), info.shape, load3d, py).Ok? &&
      r.value.file.value == Written(FilePath(outputDir, footprintLib, info.name), info.name, componentId,
                                    Run(Fp([], Sentinel), info.shape, load3d, py).value, info.origin))
  {
    var link := footprintLib + ":" + info.name;
    var path := FilePath(outputDir, footprintLib, info.name);
    if skipExisting && isFile(path) then Ok(Created(link, info.datasheet, None))
    else
      var st :- Run(Fp([], Sentinel), info.shape, load3d, py);
      Ok(Created(link, info.datasheet, Some(Written(path, info.name, componentId, st, info.origin))))
  }

  /** The names `model3d.py` binds at module level: what it imports and the functions it
      defines. `get_3Dmodel` is not one of them. */
  const Model3dNames: set<string> := {"logging", "os", "re", "requests", "Model", "mil2mm", "get_StepModel",
                                      "get_WrlModel", "ensure_footprint_lib_directories_exist"}

  /** `from .model3d import name`: ImportError when the module does not bind the name. */
  function ImportFrom(defined: set<string>, name: string): (r: Result<()>)
    ensures r.Ok? <==> name in defined
    ensures r.Err? ==> r.msg == "ImportError: cannot import name '" + name + "'"
  {
    if name in defined then Ok(()) else Err("ImportError: cannot import name '" + name + "'")
  }

  /** `create_footprint` behind the handler module's `from .model3d import get_3Dmodel`, for a
      model module that binds the names `defined`: the import raises unless the loader is
      among them, and then the footprint is created with it. */
  function CreateImporting(defined: set<string>, info: Info, componentId: string, footprintLib: string,
                           outputDir: string, skipExisting: bool, isFile: string -> bool,
                           load3d: seq<string> -> Result<Option<Node>>, py: Py)
    : (r: Result<Created>)
    ensures "get_3Dmodel" !in defined ==> r == Err("ImportError: cannot import name 'get_3Dmodel'")
    ensures "get_3Dmodel" in defined ==> r == Create(info, componentId, footprintLib, outputDir, skipExisting, isFile, load3d, py)
  {
    var _ :- ImportFrom(defined, "get_3Dmodel");
    Create(info, componentId, footprintLib, outputDir, skipExisting, isFile, load3d, py)
  }

  /** As the repository stands no footprint is ever created: `model3d.py` does not bind the
      loader, so the import raises whatever the component, the options and the records. */
  lemma AsWrittenNeverCreates(info: Info, componentId: string, footprintLib: string, outputDir: string,
                              skipExisting: bool, isFile: string -> bool,
                              load3d: seq<string> -> Result<Option<Node>>, py: Py)
    ensures CreateImporting(Model3dNames, info, componentId, footprintLib, outputDir, skipExisting, isFile, load3d, py)
            == Err("ImportError: cannot import name 'get_3Dmodel'")
  {
  }

  /** Skipping happens before any record is decoded: the outcome is the same whatever the
      records are, even records that would raise. */
  lemma SkipIgnoresRecords(info: Info, shape: seq<string>, componentId: string, footprintLib: string,
                           outputDir: string, isFile: string -> bool, load3d: seq<string> -> Result<Option<Node>>, py: Py)
    requires isFile(FilePath(outputDir, footprintLib, info.name))
    ensures Create(info, componentId, footprintLib, outputDir, true, isFile, load3d, py) ==
            Create(info.(shape := shape), componentId, footprintLib, outputDir, true, isFile, load3d, py)
    ensures Create(info, componentId, footprintLib, outputDir, true, isFile, load3d, py).Ok?
  {
  }

  /** A footprint whose records widen nothing (no track, no retained pad) keeps the sentinel
      bounds, which `Finish` moves by the origin; with the origin at (0, 0) the reference text
      goes to y = 9998 and the value to y = -9998: far away, and in the reverse order from the
      one they take around a real outline, where the reference has the smaller y. */
  lemma SentinelTexts(name: string)
    ensures Placeholders(Sentinel, name)[0].at == Point(0.0, 9998.0)
    ensures Placeholders(Sentinel, name)[2].at == Point(0.0, -9998.0)
  {
  }

  // ---------------------------------------------------------------------------
  // The loop on the objects
  // ---------------------------------------------------------------------------

  /** `handlers.get(model)(args[1:], kicad_mod, footprint_info)`, or nothing for an unknown
      tag. */
  method Dispatch(km: KicadMod, info: FootprintInfo, line: string, load3d: seq<string> -> Result<Option<Node>>, py: Py)
    returns (r: Result<()>)
    modifies km, info
    ensures var t := Step(old(Snap(km, info)), line, load3d, py);
      (r.Ok? <==> t.Ok?) && (t.Ok? ==> Snap(km, info) == t.value) && (t.Err? ==> r == Err(t.msg))
    ensures km.attribute == old(km.attribute)
  {
    var args := Args(line);
    var data := args[1..];
    var tag := args[0];
    if tag == "TRACK" {
      r := TrackOn(km, info, data, py);
    } else if tag == "PAD" {
      r := PadOn(km, info, data, py);
    } else if tag == "ARC" || tag == "TEXT" {
      var n := if tag == "ARC" then ArcNode(data, py) else TextNode(data, py);
      if n.Some? {
        km.Append(n.value);
      }
      r := Ok(());
    } else if tag == "CIRCLE" {
      var n := CircleNodeOf(data, py);
      if n.Err? {
        return Err(n.msg);
      }
      if n.value.Some? {
        km.Append(n.value.value);
      }
      r := Ok(());
    } else if tag == "RECT" || tag == "HOLE" {
      var n := if tag == "RECT" then RectNode(data, py) else HoleNode(data, py);
      if n.Err? {
        return Err(n.msg);
      }
      km.Append(n.value);
      r := Ok(());
    } else if tag == "SVGNODE" {
      var n := load3d(data);
      if n.Err? {
        return Err(n.msg);
      }
      if n.value.Some? {
        km.Append(n.value.value);
      }
      r := Ok(());
    } else {
      r := Ok(());
    }
  }

  /** `create_footprint` on the objects: the early return, the record loop, then the
      attribute, the translation, the shift of the bounds and the three texts. */
  method CreateFootprint(response: Option<Component>, componentId: string, footprintLib: string,
                         outputDir: string, modelBaseVariable: string, modelDir: string,
                         skipExisting: bool, models: string, isFile: string -> bool,
                         load3d: seq<string> -> Result<Option<Node>>, py: Py)
    returns (r: Result<Created>)
    ensures r == Create(FootprintInfoOf(response), componentId, footprintLib, outputDir, skipExisting, isFile, load3d, py)
  {
    var found := FootprintInfoOf(response);
    var name := found.name;
    var link := footprintLib + ":" + name;
    var path := FilePath(outputDir, footprintLib, name);
    if skipExisting && isFile(path) {
      return Ok(Created(link, found.datasheet, None));
    }
    var km := new KicadMod("\"" + name + "\"", name + " footprint", name + " footprint " + componentId);
    var info := new FootprintInfo(name, outputDir, footprintLib, modelBaseVariable, modelDir, found.origin, models);
    var res := RunOn(km, info, found.shape, load3d, py);
    if res.Err? {
      return Err(res.msg);
    }
    FinishOn(km, info, name);
    r := Ok(Created(link, found.datasheet, Some(FootprintFile(path, km.name, km.description, km.tags,
                                                              km.attribute, km.children))));
  }

  /** The `for line in footprint_shape` loop: one record handled per round. */
  method RunOn(km: KicadMod, info: FootprintInfo, lines: seq<string>, load3d: seq<string> -> Result<Option<Node>>, py: Py)
    returns (r: Result<()>)
    modifies km, info
    ensures var t := Run(old(Snap(km, info)), lines, load3d, py);
      (r.Ok? <==> t.Ok?) && (t.Ok? ==> Snap(km, info) == t.value) && (t.Err? ==> r == Err(t.msg))
    ensures km.attribute == old(km.attribute)
  {
    ghost var st0 := Snap(km, info);
    var i := 0;
    while i < |lines|
      invariant 0 <= i <= |lines|
      invariant Run(st0, lines[..i], load3d, py) == Ok(Snap(km, info))
      invariant km.attribute == old(km.attribute)
    {
      ReplayNext(Stepper(load3d, py), st0, lines, i);
      var res := Dispatch(km, info, lines[i], load3d, py);
      if res.Err? {
        ReplayErrPersists(Stepper(load3d, py), st0, lines, i + 1);
        return Err(res.msg);
      }
      i := i + 1;
    }
    assert lines[..i] == lines;
    return Ok(());
  }

  /** The steps after the loop, on the objects: the attribute from the pads, the translation
      by minus the origin, the four bounds moved by the origin, then the three texts. */
  method FinishOn(km: KicadMod, info: FootprintInfo, name: string)
    modifies km, info
    ensures Snap(km, info) == Finish(old(Snap(km, info)), info.origin, name)
    ensures km.attribute == Attribute(old(km.children))
  {
    ghost var st := Snap(km, info);
    if HasThtPad(km.children) {
      km.SetAttribute("through_hole");
    } else {
      km.SetAttribute("smd");
    }
    var d := Offset(info.origin);
    km.Insert(Point(-d.x, -d.y));
    info.Shift(d);
    var cx := (info.minX + info.maxX) / 2.0;
    km.Append(Text("reference", "REF**", Point(cx, info.minY - 2.0), "F.SilkS"));
    km.Append(Text("user", "${REFERENCE}", Point(cx, (info.minY + info.maxY) / 2.0), "F.Fab"));
    km.Append(Text("value", name, Point(cx, info.maxY + 2.0), "F.Fab"));
    assert km.children == [Translated(Point(-d.x, -d.y), st.children)] + Placeholders(info.Bounds(), name);
  }
}
