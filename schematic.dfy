/** The current schematic writer (`create_schematic` and `update_library` in
    JLC2KiCadLib/schematic): it fetches every unit of a component, replays each shape record
    through the schematic handler table into one `kicad_schematic` object, wraps the result
    in a library block and upserts that block into a `.kicad_sym` library under `Schematic/`.
    Fetched records and the library files are inputs; see README. */
module Schematic {
  import opened Wrappers
  import opened Text
  import opened Numeric
  import opened Drawing
  import opened SchematicHandlers
  import opened Records

  const Footer: string := "\n)"

  /** `seek(-2, 2)` on a file shorter than the footer. */
  const SeekError: string := "OSError: [Errno 22] Invalid argument"

  // ---------------------------------------------------------------------------
  // The kicad_schematic object and the handler table
  // ---------------------------------------------------------------------------

  /** The three attributes of `kicad_schematic` the handlers update. */
  datatype SchState = SchState(drawing: seq<Item>, namesHide: string, numbersHide: string)

  /** Both hide flags start empty. */
  function Initial(): SchState {
    SchState([], "", "")
  }

  /** A handler whose body is inside `try`: its shape is drawn, or the exception is logged
      and nothing is drawn. */
  function Attempt(st: SchState, s: Result<Shape>): SchState {
    if s.Ok? then st.(drawing := st.drawing + [Drawn(s.value)]) else st
  }

  /** A hide flag after a pin: kept, or set from "" to the hidden value. */
  predicate FlagStep(before: string, after: string, hidden: string) {
    after == before || (before == "" && after == hidden)
  }

  /** `handlers.get(tag)(args[1:], kicad_schematic)`: the effect of one record. An unknown tag
      changes nothing; only the pin handler can raise, because every other one catches its
      exceptions; a handler appends at most one drawn item; and only a pin touches the hide
      flags, and then only by setting an empty one. */
  function Handle(st: SchState, tag: string, data: seq<string>, py: Py): (r: Result<SchState>)
    ensures tag !in Tags ==> r == Ok(st)
    ensures r.Err? ==> tag == "P"
    ensures tag == "P" ==> (r.Ok? <==> DecodePinBase(Realign(data), PackageFrame, py).Ok?)
    ensures r.Ok? ==> |st.drawing| <= |r.value.drawing| <= |st.drawing| + 1
    ensures r.Ok? ==> r.value.drawing[..|st.drawing|] == st.drawing
    ensures r.Ok? ==> forall k :: |st.drawing| <= k < |r.value.drawing| ==> r.value.drawing[k].Drawn?
    ensures r.Ok? ==> FlagStep(st.namesHide, r.value.namesHide, NamesHidden) &&
                      FlagStep(st.numbersHide, r.value.numbersHide, NumbersHidden)
    ensures r.Ok? && tag != "P" ==> r.value.namesHide == st.namesHide && r.value.numbersHide == st.numbersHide
    ensures r.Ok? && tag == "P" ==> |r.value.drawing| == |st.drawing| + 1
  {
    if tag == "R" then Ok(Attempt(st, DecodeRect(data, PackageFrame, py)))
    else if tag == "E" then Ok(Attempt(st, DecodeCircle(data, PackageFrame, py)))
    else if tag == "P" then
      var p :- DecodePin(st.namesHide, st.numbersHide, data, py);
      Ok(SchState(st.drawing + [Drawn(p.pin)], p.namesHide, p.numbersHide))
    else if tag == "T" then Ok(Attempt(st, DecodeText(data, PackageFrame, py)))
    else if tag == "PL" then Ok(Attempt(st, DecodePolyline(data, PackageFrame, py)))
    else if tag == "PG" then Ok(Attempt(st, DecodePolygon(data, PackageFrame, py)))
    else if tag == "PT" then Ok(Attempt(st, DecodeTriangle(data, PackageFrame, py)))
    else if tag == "A" then Ok(Attempt(st, DecodeArc(data, py)))
    else Ok(st)
  }

  /** One shape record: a line without a token raises IndexError at `args[0]`. */
  function Step(st: SchState, line: string, py: Py): (r: Result<SchState>)
    ensures Tokens(line) == [] ==> r == Err(IndexError)
    ensures Tokens(line) != [] ==> r == Handle(st, Tokens(line)[0], Tokens(line)[1..], py)
  {
    var args := Tokens(line);
    if |args| == 0 then Err(IndexError)
    else Handle(st, args[0], args[1..], py)
  }

  /** The record step with the Python built-ins fixed. */
  function Stepper(py: Py): (SchState, string) -> Result<SchState> {
    (st: SchState, line: string) => Step(st, line, py)
  }

  /** The state after the records `lines`, in order, or the first exception. */
  function RunLines(st: SchState, lines: seq<string>, py: Py): Result<SchState> {
    Replay(Stepper(py), st, lines)
  }

  lemma RunLinesNext(st: SchState, lines: seq<string>, i: nat, py: Py)
    requires i < |lines| && RunLines(st, lines[..i], py).Ok?
    ensures RunLines(st, lines[..i + 1], py) == Step(RunLines(st, lines[..i], py).value, lines[i], py)
  {
    ReplayNext(Stepper(py), st, lines, i);
  }

  lemma RunLinesErrPersists(st: SchState, lines: seq<string>, m: nat, py: Py)
    requires m <= |lines| && RunLines(st, lines[..m], py).Err?
    ensures RunLines(st, lines, py) == RunLines(st, lines[..m], py)
  {
    ReplayErrPersists(Stepper(py), st, lines, m);
  }

  /** `r` is `st` with drawn items appended and each hide flag kept or set from "". */
  ghost predicate Extends(st: SchState, r: SchState) {
    |st.drawing| <= |r.drawing| && r.drawing[..|st.drawing|] == st.drawing &&
    (forall k :: |st.drawing| <= k < |r.drawing| ==> r.drawing[k].Drawn?) &&
    FlagStep(st.namesHide, r.namesHide, NamesHidden) && FlagStep(st.numbersHide, r.numbersHide, NumbersHidden)
  }

  lemma ExtendsTrans(a: SchState, b: SchState, c: SchState)
    requires Extends(a, b) && Extends(b, c)
    ensures Extends(a, c)
  {
    assert c.drawing[..|a.drawing|] == b.drawing[..|a.drawing|];
  }

  ghost predicate Grows(step: (SchState, string) -> Result<SchState>) {
    forall st: SchState, line: string :: step(st, line).Ok? ==> Extends(st, step(st, line).value)
  }

  lemma {:induction false} ReplayGrows(step: (SchState, string) -> Result<SchState>, st: SchState, lines: seq<string>)
    requires Grows(step) && Replay(step, st, lines).Ok?
    ensures Extends(st, Replay(step, st, lines).value)
    decreases |lines|
  {
    if |lines| > 0 {
      var init := lines[..|lines| - 1];
      ReplayGrows(step, st, init);
      var p := Replay(step, st, init).value;
      ExtendsTrans(st, p, step(p, lines[|lines| - 1]).value);
    } else {
      assert st.drawing[..|st.drawing|] == st.drawing;
    }
  }

  lemma StepperGrows(py: Py)
    ensures Grows(Stepper(py))
  {
    forall st: SchState, line: string | Stepper(py)(st, line).Ok?
      ensures Extends(st, Stepper(py)(st, line).value)
    {
      var r := Step(st, line, py).value;
      assert r.drawing[..|st.drawing|] == st.drawing;
    }
  }

  /** Over a whole record list the drawing only grows by drawn items, a hide flag is set
      only while it is empty, and a set flag is never cleared. */
  lemma RunLinesMonotone(st: SchState, lines: seq<string>, py: Py)
    requires RunLines(st, lines, py).Ok?
    ensures var r := RunLines(st, lines, py).value;
      |st.drawing| <= |r.drawing| && r.drawing[..|st.drawing|] == st.drawing &&
      (forall k :: |st.drawing| <= k < |r.drawing| ==> r.drawing[k].Drawn?) &&
      (st.namesHide != "" ==> r.namesHide == st.namesHide) && r.namesHide in {st.namesHide, NamesHidden} &&
      (st.numbersHide != "" ==> r.numbersHide == st.numbersHide) && r.numbersHide in {st.numbersHide, NumbersHidden}
  {
    StepperGrows(py);
    ReplayGrows(Stepper(py), st, lines);
  }

  /** Records whose tag has no handler leave the state as it was. */
  lemma UnknownTagsSkipped(st: SchState, lines: seq<string>, py: Py)
    requires forall k :: 0 <= k < |lines| ==> Tokens(lines[k]) != [] && Tokens(lines[k])[0] !in Tags
    ensures RunLines(st, lines, py) == Ok(st)
  {
    forall k | 0 <= k < |lines|
      ensures Stepper(py)(st, lines[k]) == Ok(st)
    {
    }
    ReplayInert(Stepper(py), st, lines);
  }

  /** The `kicad_schematic` object of `create_schematic`. */
  class KicadSchematic {
    var drawing: seq<Item>
    var pinNamesHide: string
    var pinNumbersHide: string

    constructor ()
      ensures State() == Initial()
    {
      drawing := [];
      pinNamesHide := "";
      pinNumbersHide := "";
    }

    function State(): SchState
      reads this
    {
      SchState(drawing, pinNamesHide, pinNumbersHide)
    }

    /** `drawing += ...` for a unit header or its closing parenthesis. */
    method Append(item: Item)
      modifies this
      ensures State() == old(State()).(drawing := old(drawing) + [item])
    {
      drawing := drawing + [item];
    }

    /** Dispatch of one record to its handler, updating the object in place. */
    method Apply(tag: string, data: seq<string>, py: Py) returns (r: Result<()>)
      modifies this
      ensures r.Ok? <==> Handle(old(State()), tag, data, py).Ok?
      ensures r.Ok? ==> State() == Handle(old(State()), tag, data, py).value
      ensures r.Err? ==> State() == old(State())
    {
      if tag == "P" {
        var fields := Realign(data);
        var base := DecodePinBase(fields, PackageFrame, py);
        if base.Err? {
          return Err(base.msg);
        }
        var labels := PinLabels(pinNamesHide, pinNumbersHide, fields, PackageFrame, 1.0, py);
        pinNamesHide := labels.namesHide;
        pinNumbersHide := labels.numbersHide;
        drawing := drawing + [Drawn(PinShape(base.value, labels.nameSize, labels.numberSize))];
        return Ok(());
      }
      var s: Result<Shape>;
      if tag in {"PL", "PG", "PT"} {
        s := PolygonShape(tag, data, PackageFrame, py);
      } else if tag == "R" {
        s := DecodeRect(data, PackageFrame, py);
      } else if tag == "E" {
        s := DecodeCircle(data, PackageFrame, py);
      } else if tag == "T" {
        s := DecodeText(data, PackageFrame, py);
      } else if tag == "A" {
        s := DecodeArc(data, py);
      } else {
        return Ok(());
      }
      if s.Ok? {
        drawing := drawing + [Drawn(s.value)];
      }
      return Ok(());
    }

    /** The record loop of one unit: every line is tokenised and dispatched in order. */
    method DrawLines(lines: seq<string>, py: Py) returns (r: Result<()>)
      modifies this
      ensures r.Ok? <==> RunLines(old(State()), lines, py).Ok?
      ensures r.Ok? ==> State() == RunLines(old(State()), lines, py).value
    {
      var i := 0;
      while i < |lines|
        invariant 0 <= i <= |lines|
        invariant RunLines(old(State()), lines[..i], py) == Ok(State())
      {
        RunLinesNext(old(State()), lines, i, py);
        var args := Tokens(lines[i]);
        if |args| == 0 {
          RunLinesErrPersists(old(State()), lines, i + 1, py);
          return Err(IndexError);
        }
        var step := Apply(args[0], args[1..], py);
        if step.Err? {
          RunLinesErrPersists(old(State()), lines, i + 1, py);
          return step;
        }
        i := i + 1;
      }
      assert lines[..i] == lines;
      return Ok(());
    }
  }

  // ---------------------------------------------------------------------------
  // Titles and the library block
  // ---------------------------------------------------------------------------

  /** The component title with `/`, space and `.` replaced by `_`: none of the three remains,
      and a title without them is kept as it is. */
  function SanitiseTitle(title: string): (r: string)
    ensures '/' !in r && ' ' !in r && '.' !in r
    ensures '/' !in title && ' ' !in title && '.' !in title ==> r == title
    ensures forall c :: c in r ==> c in title || c == '_'
  {
    var slash := Replace(title, "/", "_");
    var space := Replace(slash, " ", "_");
    Replace(space, ".", "_")
  }

  /** The library block of a component (`template_lib_component`). */
  function Block(name: string, st: SchState, prefix: string, footprint: string, datasheet: string,
                 componentId: string, render: Shape -> string): (b: string)
    ensures PrefixAt(b, 0, Opening(name))
  {
    assert (Opening(name) + BlockBody(name, st, prefix, footprint, datasheet, componentId, render) + Closer)[..|Opening(name)|] == Opening(name);
    Opening(name) + BlockBody(name, st, prefix, footprint, datasheet, componentId, render) + Closer
  }

  /** The block between its opening and its closing parenthesis: the hide flags, the six
      fixed properties and the drawing. */
  function BlockBody(name: string, st: SchState, prefix: string, footprint: string, datasheet: string,
                     componentId: string, render: Shape -> string): string
  {
    Concat([
      st.namesHide + " " + st.numbersHide + " (in_bom yes) (on_board yes)\n",
      "    " + Property("Reference", prefix, "0", "0 1.27 0", ")") + "\n",
      "    " + Property("Value", name, "1", "0 -2.54 0", ")") + "\n",
      "    " + Property("Footprint", footprint, "2", "0 -10.16 0", " italic) hide") + "\n",
      "    " + Property("Datasheet", datasheet, "3", "-2.286 0.127 0", ") (justify left) hide") + "\n",
      "    " + Property("ki_keywords", componentId, "6", "0 0 0", ") hide") + "\n",
      "    " + Property("LCSC", componentId, "4", "0 0 0", ") hide"),
      DrawingText(st.drawing, render)])
  }

  // ---------------------------------------------------------------------------
  // update_library
  // ---------------------------------------------------------------------------

  /** The presence test as written: the name followed by the names-hide flag. */
  function PinKey(name: string): string {
    "symbol \"" + name + "\" (pin_names"
  }

  /** `update_library` as written: a content holding `PinKey` has its first match of
      `  (symbol "<name>" (pin_names …\n  )` replaced; any other content loses its last two
      characters (the footer's place) and gets block and footer. */
  function UpdateLibraryAsWritten(content: string, name: string, block: string): (r: Result<string>)
    ensures r.Err? <==> !Contains(content, PinKey(name)) && |content| < |Footer|
    ensures Contains(content, PinKey(name)) ==>
      r == Ok(SubFirst(content, Lit("  (symbol \"" + name + "\" (pin_names "), Closer, block))
    ensures !Contains(content, PinKey(name)) && |content| >= |Footer| ==>
      r == Ok(content[..|content| - |Footer|] + block + Footer)
  {
    if Contains(content, PinKey(name)) then
      Ok(SubFirst(content, Lit("  (symbol \"" + name + "\" (pin_names "), Closer, block))
    else if |content| < |Footer| then Err(SeekError)
    else Ok(content[..|content| - |Footer|] + block + Footer)
  }

  /** `update_library` with the presence test and the pattern keyed on the name alone. */
  function UpdateLibrary(content: string, name: string, block: string): (r: Result<string>)
    ensures r.Err? <==> !Contains(content, Key(name)) && |content| < |Footer|
    ensures Contains(content, Key(name)) ==> r == Ok(SubFirst(content, Opener(name), Closer, block))
  {
    if Contains(content, Key(name)) then Ok(SubFirst(content, Opener(name), Closer, block))
    else if |content| < |Footer| then Err(SeekError)
    else Ok(content[..|content| - |Footer|] + block + Footer)
  }

  /** Replacing keeps everything outside the first matching span. */
  lemma ReplaceKeepsOutside(content: string, name: string, block: string)
    requires Contains(content, Key(name))
    requires LazySpan(content, Opener(name), Closer, 0).Some?
    ensures var (i, j) := LazySpan(content, Opener(name), Closer, 0).value;
      var r := UpdateLibrary(content, name, block).value;
      r[..i] == content[..i] && r[i..i + |block|] == block && r[i + |block|..] == content[j..]
  {
  }

  /** Inserting into a file that ends with the footer puts the block just before it. */
  lemma InsertBeforeFooter(p: string, name: string, block: string)
    requires !Contains(p + Footer, Key(name))
    ensures UpdateLibrary(p + Footer, name, block) == Ok(p + block + Footer)
  {
    assert (p + Footer)[..|p|] == p;
  }

  /** A new library file, header then footer, gets exactly header, block, footer. */
  lemma FreshLibrary(name: string, block: string)
    ensures UpdateLibrary(LibraryHeader + Footer, name, block) == Ok(LibraryHeader + block + Footer)
  {
    LibraryHeaderUnquoted();
    assert '"' !in Footer;
    assert Key(name)[7] == '"';
    AbsentByChar(LibraryHeader + Footer, Key(name), '"');
    InsertBeforeFooter(LibraryHeader, name, block);
  }

  /** After inserting, the presence test of a rerun succeeds, so a rerun replaces the block
      instead of adding a second one. */
  lemma InsertedIsFound(content: string, name: string, block: string)
    requires !Contains(content, Key(name)) && |content| >= |Footer|
    requires PrefixAt(block, 0, Opening(name))
    ensures Contains(UpdateLibrary(content, name, block).value, Key(name))
  {
    var p := content[..|content| - |Footer|];
    KeyInBlock(name, block);
    PrefixAtConcat(p, block, Footer, 3, Key(name));
  }

  /** The pair `_n` of `pin_names`: it does not occur in a block whose hide flags are empty
      when the names and values do not hold `_`. */
  lemma PropertyUnpaired(kind: string, value: string, id: string, at: string, effects: string)
    requires Unpaired(kind, '_', 'n') && '_' !in value && '_' !in id && '_' !in at && '_' !in effects
    ensures Unpaired(Property(kind, value, id, at, effects), '_', 'n')
  {
    UnpairedWithout(value, '_', 'n');
    UnpairedWithout(id, '_', 'n');
    UnpairedWithout(at, '_', 'n');
    UnpairedWithout(effects, '_', 'n');
    UnpairedWithout("(property \"", '_', 'n');
    UnpairedWithout("\" \"", '_', 'n');
    UnpairedWithout("\" (id ", '_', 'n');
    UnpairedWithout(") (at ", '_', 'n');
    UnpairedWithout(")\n", '_', 'n');
    UnpairedWithout("      (effects (font (size 1.27 1.27)", '_', 'n');
    UnpairedWithout(")\n", '_', 'n');
    UnpairedWithout("    )", '_', 'n');
    UnpairedConcat("(property \"", kind, '_', 'n');
    UnpairedConcat("(property \"" + kind, "\" \"", '_', 'n');
    UnpairedConcat("(property \"" + kind + "\" \"", value, '_', 'n');
    UnpairedConcat("(property \"" + kind + "\" \"" + value, "\" (id ", '_', 'n');
    UnpairedConcat("(property \"" + kind + "\" \"" + value + "\" (id ", id, '_', 'n');
    UnpairedConcat("(property \"" + kind + "\" \"" + value + "\" (id " + id, ") (at ", '_', 'n');
    UnpairedConcat("(property \"" + kind + "\" \"" + value + "\" (id " + id + ") (at ", at, '_', 'n');
    UnpairedConcat("(property \"" + kind + "\" \"" + value + "\" (id " + id + ") (at " + at, ")\n", '_', 'n');
    UnpairedConcat("(property \"" + kind + "\" \"" + value + "\" (id " + id + ") (at " + at + ")\n", "      (effects (font (size 1.27 1.27)", '_', 'n');
    UnpairedConcat("(property \"" + kind + "\" \"" + value + "\" (id " + id + ") (at " + at + ")\n" + "      (effects (font (size 1.27 1.27)", effects, '_', 'n');
    UnpairedConcat("(property \"" + kind + "\" \"" + value + "\" (id " + id + ") (at " + at + ")\n" + "      (effects (font (size 1.27 1.27)" + effects, ")\n", '_', 'n');
    UnpairedConcat("(property \"" + kind + "\" \"" + value + "\" (id " + id + ") (at " + at + ")\n" + "      (effects (font (size 1.27 1.27)" + effects + ")\n", "    )", '_', 'n');
  }

  /** One property line of the block. */
  lemma LineUnpaired(kind: string, value: string, id: string, at: string, effects: string, tail: string)
    requires Unpaired(kind, '_', 'n') && '_' !in value && '_' !in id && '_' !in at && '_' !in effects
    requires '_' !in tail
    ensures Unpaired("    " + Property(kind, value, id, at, effects) + tail, '_', 'n')
  {
    PropertyUnpaired(kind, value, id, at, effects);
    UnpairedWithout("    ", '_', 'n');
    UnpairedWithout(tail, '_', 'n');
    UnpairedConcat("    ", Property(kind, value, id, at, effects), '_', 'n');
    UnpairedConcat("    " + Property(kind, value, id, at, effects), tail, '_', 'n');
  }

  /** The header of one unit. */
  lemma UnitHeaderUnpaired(n: string)
    requires '_' !in n || Unpaired(n, '_', 'n')
    ensures Unpaired("\n    (symbol \"" + n + "\"", '_', 'n')
  {
    if '_' !in n {
      UnpairedWithout(n, '_', 'n');
    }
    UnpairedConcat("\n    (symbol \"", n, '_', 'n');
    UnpairedConcat("\n    (symbol \"" + n, "\"", '_', 'n');
  }

  lemma {:induction false} DrawingUnpaired(items: seq<Item>, render: Shape -> string)
    requires forall k :: 0 <= k < |items| && items[k].UnitOpen? ==> '_' !in items[k].name || Unpaired(items[k].name, '_', 'n')
    requires forall s: Shape :: Unpaired(render(s), '_', 'n')
    ensures Unpaired(DrawingText(items, render), '_', 'n')
    decreases |items|
  {
    if |items| > 0 {
      DrawingUnpaired(items[1..], render);
      match items[0]
      case UnitOpen(n) =>
        UnitHeaderUnpaired(n);
        UnpairedConcat("\n    (symbol \"" + n + "\"", DrawingText(items[1..], render), '_', 'n');
      case Drawn(s) =>
        UnpairedConcat(render(s), DrawingText(items[1..], render), '_', 'n');
      case UnitClose =>
        UnpairedConcat("\n    )", DrawingText(items[1..], render), '_', 'n');
    }
  }

  lemma HeaderUnpaired()
    ensures Unpaired(LibraryHeader + Footer, '_', 'n')
  {
    assert Unpaired("(kicad_symbol_lib ", '_', 'n');
    assert Unpaired("(version 20210201) ", '_', 'n');
    assert Unpaired("(generator TousstNicolas/", '_', 'n');
    assert Unpaired("JLC2KiCad_lib)\n", '_', 'n');
    UnpairedConcat("(kicad_symbol_lib ", "(version 20210201) ", '_', 'n');
    UnpairedConcat("(kicad_symbol_lib " + "(version 20210201) ", "(generator TousstNicolas/", '_', 'n');
    UnpairedConcat("(kicad_symbol_lib " + "(version 20210201) " + "(generator TousstNicolas/", "JLC2KiCad_lib)\n", '_', 'n');
    UnpairedConcat(LibraryHeader, Footer, '_', 'n');
  }

  lemma FlagsUnpaired()
    ensures Unpaired("" + " " + "" + " (in_bom yes) (on_board yes)\n", '_', 'n')
  {
    assert "" + " " + "" + " (in_bom yes) (on_board yes)\n" == "  (in" + "_bom yes) (on" + "_board yes)\n";
    assert Unpaired("  (in", '_', 'n') && Unpaired("_bom yes) (on", '_', 'n') && Unpaired("_board yes)\n", '_', 'n');
    UnpairedConcat("  (in", "_bom yes) (on", '_', 'n');
    UnpairedConcat("  (in" + "_bom yes) (on", "_board yes)\n", '_', 'n');
  }

  lemma BodyUnpaired(name: string, drawing: seq<Item>, prefix: string, footprint: string, datasheet: string,
                     componentId: string, render: Shape -> string)
    requires '_' !in name && '_' !in prefix && '_' !in footprint && '_' !in datasheet && '_' !in componentId
    requires forall k :: 0 <= k < |drawing| && drawing[k].UnitOpen? ==> '_' !in drawing[k].name || Unpaired(drawing[k].name, '_', 'n')
    requires forall s: Shape :: Unpaired(render(s), '_', 'n')
    ensures Unpaired(BlockBody(name, SchState(drawing, "", ""), prefix, footprint, datasheet, componentId, render), '_', 'n')
  {
    var st := SchState(drawing, "", "");
    var parts := [
      st.namesHide + " " + st.numbersHide + " (in_bom yes) (on_board yes)\n",
      "    " + Property("Reference", prefix, "0", "0 1.27 0", ")") + "\n",
      "    " + Property("Value", name, "1", "0 -2.54 0", ")") + "\n",
      "    " + Property("Footprint", footprint, "2", "0 -10.16 0", " italic) hide") + "\n",
      "    " + Property("Datasheet", datasheet, "3", "-2.286 0.127 0", ") (justify left) hide") + "\n",
      "    " + Property("ki_keywords", componentId, "6", "0 0 0", ") hide") + "\n",
      "    " + Property("LCSC", componentId, "4", "0 0 0", ") hide"),
      DrawingText(st.drawing, render)];
    FlagsUnpaired();
    assert Unpaired(parts[0], '_', 'n');
    LineUnpaired("Reference", prefix, "0", "0 1.27 0", ")", "\n");
    assert Unpaired(parts[1], '_', 'n');
    LineUnpaired("Value", name, "1", "0 -2.54 0", ")", "\n");
    assert Unpaired(parts[2], '_', 'n');
    LineUnpaired("Footprint", footprint, "2", "0 -10.16 0", " italic) hide", "\n");
    assert Unpaired(parts[3], '_', 'n');
    LineUnpaired("Datasheet", datasheet, "3", "-2.286 0.127 0", ") (justify left) hide", "\n");
    assert Unpaired(parts[4], '_', 'n');
    assert Unpaired("ki_keywords", '_', 'n');
    LineUnpaired("ki_keywords", componentId, "6", "0 0 0", ") hide", "\n");
    assert Unpaired(parts[5], '_', 'n');
    LineUnpaired("LCSC", componentId, "4", "0 0 0", ") hide", "");
    assert "    " + Property("LCSC", componentId, "4", "0 0 0", ") hide") + "" == parts[6];
    assert Unpaired(parts[6], '_', 'n');
    DrawingUnpaired(drawing, render);
    assert Unpaired(parts[7], '_', 'n');
    UnpairedConcatAll(parts, '_', 'n');
  }

  lemma BlockUnpaired(name: string, drawing: seq<Item>, prefix: string, footprint: string, datasheet: string,
                      componentId: string, render: Shape -> string)
    requires '_' !in name && '_' !in prefix && '_' !in footprint && '_' !in datasheet && '_' !in componentId
    requires forall k :: 0 <= k < |drawing| && drawing[k].UnitOpen? ==> '_' !in drawing[k].name || Unpaired(drawing[k].name, '_', 'n')
    requires forall s: Shape :: Unpaired(render(s), '_', 'n')
    ensures Unpaired(Block(name, SchState(drawing, "", ""), prefix, footprint, datasheet, componentId, render), '_', 'n')
  {
    var body := BlockBody(name, SchState(drawing, "", ""), prefix, footprint, datasheet, componentId, render);
    BodyUnpaired(name, drawing, prefix, footprint, datasheet, componentId, render);
    UnpairedWithout(Opening(name), '_', 'n');
    UnpairedWithout(Closer, '_', 'n');
    UnpairedConcat(Opening(name), body, '_', 'n');
    UnpairedConcat(Opening(name) + body, Closer, '_', 'n');
  }

  /** As written, a block whose hide flags are still empty (no pin hid its name or number)
      is not recognised: a fresh library gets the block, and a rerun with the same block
      appends a second copy instead of replacing the first. */
  lemma RerunAppendsAgain(name: string, drawing: seq<Item>, prefix: string, footprint: string, datasheet: string,
                          componentId: string, render: Shape -> string)
    requires '_' !in name && '_' !in prefix && '_' !in footprint && '_' !in datasheet && '_' !in componentId
    requires forall k :: 0 <= k < |drawing| && drawing[k].UnitOpen? ==> '_' !in drawing[k].name || Unpaired(drawing[k].name, '_', 'n')
    requires forall s: Shape :: Unpaired(render(s), '_', 'n')
    ensures var b := Block(name, SchState(drawing, "", ""), prefix, footprint, datasheet, componentId, render);
      UpdateLibraryAsWritten(LibraryHeader + Footer, name, b) == Ok(LibraryHeader + b + Footer) &&
      UpdateLibraryAsWritten(LibraryHeader + b + Footer, name, b) == Ok(LibraryHeader + b + b + Footer)
  {
    var b := Block(name, SchState(drawing, "", ""), prefix, footprint, datasheet, componentId, render);
    var key := PinKey(name);
    assert key[8 + |name| + 6] == '_' && key[8 + |name| + 7] == 'n';
    HeaderUnpaired();
    AbsentByPair(LibraryHeader + Footer, key, '_', 'n', 8 + |name| + 6);
    assert (LibraryHeader + Footer)[..|LibraryHeader|] == LibraryHeader;
    BlockUnpaired(name, drawing, prefix, footprint, datasheet, componentId, render);
    UnpairedConcat(LibraryHeader, b, '_', 'n');
    UnpairedConcat(LibraryHeader + b, Footer, '_', 'n');
    AbsentByPair(LibraryHeader + b + Footer, key, '_', 'n', 8 + |name| + 6);
    assert (LibraryHeader + b + Footer)[..|LibraryHeader + b|] == LibraryHeader + b;
  }

  // ---------------------------------------------------------------------------
  // create_schematic
  // ---------------------------------------------------------------------------

  /** What the API returns for one uuid. */
  datatype Component = Component(title: string, pre: string, shape: seq<string>)

  /** The arguments of `create_schematic` other than the uuids. */
  datatype Request = Request(footprint: string, datasheet: string, library: string,
                             outputDir: string, componentId: string)

  /** The local variables of the uuid loop. */
  datatype Acc = Acc(name: string, prefix: Option<string>, file: Option<string>, sch: SchState)

  function Start(): Acc {
    Acc("", None, None, Initial())
  }

  function LibraryFile(req: Request): string {
    req.outputDir + "/Schematic/" + req.library + ".kicad_sym"
  }

  /** The variables every round sets, before the skip test. */
  function Named(acc: Acc, c: Component): Acc {
    acc.(name := NameOf(acc.name, SanitiseTitle(c.title)), prefix := Some(RemoveChar(c.pre, '?')))
  }

  /** A drawn unit: its header `(symbol "<title>_0"`, its records and its closing parenthesis. */
  function DrawUnit(acc: Acc, unit: string, c: Component, req: Request, py: Py): Result<Flow<Acc>> {
    var headed := acc.sch.(drawing := acc.sch.drawing + [UnitOpen(unit + "_0")]);
    var drawn :- RunLines(headed, c.shape, py);
    Ok(Running(acc.(file := Some(LibraryFile(req)), sch := drawn.(drawing := drawn.drawing + [UnitClose]))))
  }

  /** One round of the uuid loop. */
  function UnitStep(acc: Acc, uuids: seq<string>, k: nat, fetched: Option<Component>, req: Request, py: Py): Result<Flow<Acc>>
    requires k < |uuids|
  {
    match fetched
    case None => Ok(Stopped)
    case Some(c) =>
      if Skipped(uuids, k) then Ok(Running(Named(acc, c)))
      else DrawUnit(Named(acc, c), UnitTitle(acc.name, SanitiseTitle(c.title)), c, req, py)
  }

  function Rounds(uuids: seq<string>, fetch: string -> Option<Component>, req: Request, py: Py): (Acc, nat) -> Result<Flow<Acc>> {
    (acc: Acc, i: nat) => if i < |uuids| then UnitStep(acc, uuids, i, fetch(uuids[i]), req, py) else Ok(Stopped)
  }

  /** The loop state after the first `k` uuids. */
  function UnitsUpTo(uuids: seq<string>, k: nat, fetch: string -> Option<Component>, req: Request, py: Py): Result<Flow<Acc>>
    requires k <= |uuids|
  {
    Iterate(Rounds(uuids, fetch, req, py), Start(), k)
  }

  lemma UnitsHalt(uuids: seq<string>, m: nat, n: nat, fetch: string -> Option<Component>, req: Request, py: Py)
    requires m <= n <= |uuids|
    requires !UnitsUpTo(uuids, m, fetch, req, py).Ok? || UnitsUpTo(uuids, m, fetch, req, py).value.Stopped?
    ensures UnitsUpTo(uuids, n, fetch, req, py) == UnitsUpTo(uuids, m, fetch, req, py)
  {
    IterateHalts(Rounds(uuids, fetch, req, py), Start(), m, n);
  }

  lemma UnitsNext(uuids: seq<string>, k: nat, fetch: string -> Option<Component>, req: Request, py: Py, acc: Acc)
    requires k < |uuids|
    requires UnitsUpTo(uuids, k, fetch, req, py) == Ok(Running(acc))
    ensures UnitsUpTo(uuids, k + 1, fetch, req, py) == UnitStep(acc, uuids, k, fetch(uuids[k]), req, py)
  {
    assert Rounds(uuids, fetch, req, py)(acc, k) == UnitStep(acc, uuids, k, fetch(uuids[k]), req, py);
  }

  /** A drawn unit keeps what was drawn before, then opens `(symbol "<unit>_0"`, then ends
      with the closing parenthesis; it binds the file name and keeps the component name. */
  lemma DrawUnitFrames(acc: Acc, unit: string, c: Component, req: Request, py: Py)
    requires DrawUnit(acc, unit, c, req, py).Ok?
    ensures var flow := DrawUnit(acc, unit, c, req, py).value; var d := flow.acc.sch.drawing;
      flow.Running? && |d| >= |acc.sch.drawing| + 2 && d[..|acc.sch.drawing|] == acc.sch.drawing &&
      d[|acc.sch.drawing|] == UnitOpen(unit + "_0") && d[|d| - 1] == UnitClose &&
      flow.acc.name == acc.name && flow.acc.prefix == acc.prefix && flow.acc.file == Some(LibraryFile(req))
  {
    var headed := acc.sch.(drawing := acc.sch.drawing + [UnitOpen(unit + "_0")]);
    RunLinesMonotone(headed, c.shape, py);
    var drawn := RunLines(headed, c.shape, py).value;
    assert drawn.drawing[|acc.sch.drawing|] == headed.drawing[|acc.sch.drawing|];
    assert drawn.drawing[..|acc.sch.drawing|] == headed.drawing[..|acc.sch.drawing|];
  }

  /** The first uuid names the component after its sanitised title; drawn on its own, its
      unit is headed `<title>_0_0`, and with two or more uuids it is not drawn at all. */
  lemma FirstUnit(uuids: seq<string>, fetch: string -> Option<Component>, req: Request, py: Py)
    requires |uuids| > 0 && fetch(uuids[0]).Some?
    requires UnitsUpTo(uuids, 1, fetch, req, py).Ok?
    ensures var c := fetch(uuids[0]).value; var acc := UnitsUpTo(uuids, 1, fetch, req, py).value.acc;
      UnitsUpTo(uuids, 1, fetch, req, py).value.Running? &&
      acc.name == SanitiseTitle(c.title) && acc.prefix == Some(RemoveChar(c.pre, '?')) &&
      (|uuids| >= 2 ==> acc.sch == Initial() && acc.file == None) &&
      (|uuids| == 1 ==> |acc.sch.drawing| >= 2 && acc.sch.drawing[0] == UnitOpen(SanitiseTitle(c.title) + "_0" + "_0") &&
                        acc.sch.drawing[|acc.sch.drawing| - 1] == UnitClose && acc.file == Some(LibraryFile(req)))
  {
    UnitsNext(uuids, 0, fetch, req, py, Start());
    var c := fetch(uuids[0]).value;
    if |uuids| == 1 {
      DrawUnitFrames(Named(Start(), c), UnitTitle("", SanitiseTitle(c.title)), c, req, py);
    }
  }

  /** A drawn unit adds exactly one unit header. */
  lemma DrawUnitOpensOne(acc: Acc, unit: string, c: Component, req: Request, py: Py)
    requires DrawUnit(acc, unit, c, req, py).Ok?
    ensures DrawUnit(acc, unit, c, req, py).value.Running?
    ensures Opens(DrawUnit(acc, unit, c, req, py).value.acc.sch.drawing) == Opens(acc.sch.drawing) + 1
  {
    var headed := acc.sch.(drawing := acc.sch.drawing + [UnitOpen(unit + "_0")]);
    var drawn := RunLines(headed, c.shape, py).value;
    RunLinesMonotone(headed, c.shape, py);
    var added := drawn.drawing[|headed.drawing|..];
    assert drawn.drawing == headed.drawing + added;
    OpensDrawn(added);
    OpensConcat(acc.sch.drawing, [UnitOpen(unit + "_0")]);
    OpensConcat(headed.drawing, added);
    OpensConcat(drawn.drawing, [UnitClose]);
  }

  lemma RoundOpens(acc: Acc, uuids: seq<string>, k: nat, fetched: Option<Component>, req: Request, py: Py)
    requires k < |uuids|
    requires UnitStep(acc, uuids, k, fetched, req, py).Ok? && UnitStep(acc, uuids, k, fetched, req, py).value.Running?
    ensures Opens(UnitStep(acc, uuids, k, fetched, req, py).value.acc.sch.drawing) ==
            Opens(acc.sch.drawing) + (if Skipped(uuids, k) then 0 else 1)
  {
    var c := fetched.value;
    if !Skipped(uuids, k) {
      DrawUnitOpensOne(Named(acc, c), UnitTitle(acc.name, SanitiseTitle(c.title)), c, req, py);
    }
  }

  ghost predicate CountsOpens(step: (Acc, nat) -> Result<Flow<Acc>>, uuids: seq<string>) {
    forall acc: Acc, i: nat :: i < |uuids| && step(acc, i).Ok? && step(acc, i).value.Running? ==>
      Opens(step(acc, i).value.acc.sch.drawing) == Opens(acc.sch.drawing) + (if Skipped(uuids, i) then 0 else 1)
  }

  lemma {:induction false} IterateCounted(step: (Acc, nat) -> Result<Flow<Acc>>, start: Acc, uuids: seq<string>, k: nat)
    requires k <= |uuids| && CountsOpens(step, uuids) && Opens(start.sch.drawing) == 0
    requires Iterate(step, start, k).Ok? && Iterate(step, start, k).value.Running?
    ensures Opens(Iterate(step, start, k).value.acc.sch.drawing) == DrawnUnits(uuids, k)
  {
    if k > 0 {
      IterateRunningBefore(step, start, k);
      IterateCounted(step, start, uuids, k - 1);
    }
  }

  lemma RoundsCountOpens(uuids: seq<string>, fetch: string -> Option<Component>, req: Request, py: Py)
    ensures CountsOpens(Rounds(uuids, fetch, req, py), uuids)
  {
    forall acc: Acc, i: nat | i < |uuids| && Rounds(uuids, fetch, req, py)(acc, i).Ok? && Rounds(uuids, fetch, req, py)(acc, i).value.Running?
      ensures Opens(Rounds(uuids, fetch, req, py)(acc, i).value.acc.sch.drawing) ==
              Opens(acc.sch.drawing) + (if Skipped(uuids, i) then 0 else 1)
    {
      RoundOpens(acc, uuids, i, fetch(uuids[i]), req, py);
    }
  }

  /** Each drawn unit contributes exactly one unit header. */
  lemma UnitsCounted(uuids: seq<string>, k: nat, fetch: string -> Option<Component>, req: Request, py: Py)
    requires k <= |uuids|
    requires UnitsUpTo(uuids, k, fetch, req, py).Ok? && UnitsUpTo(uuids, k, fetch, req, py).value.Running?
    ensures Opens(UnitsUpTo(uuids, k, fetch, req, py).value.acc.sch.drawing) == DrawnUnits(uuids, k)
  {
    RoundsCountOpens(uuids, fetch, req, py);
    IterateCounted(Rounds(uuids, fetch, req, py), Start(), uuids, k);
  }

  /** The library files after the component is written: a library that does not exist yet
      is created as header and footer first. */
  function Outcome(flow: Flow<Acc>, req: Request, disk: map<string, string>, render: Shape -> string): (r: Result<map<string, string>>)
    ensures flow.Stopped? ==> r == Ok(disk)
  {
    match flow
    case Stopped => Ok(disk)
    case Running(acc) =>
      if acc.prefix.None? || acc.file.None? then Err(NameError)
      else
        var block := Block(acc.name, acc.sch, acc.prefix.value, req.footprint, req.datasheet, req.componentId, render);
        var file := acc.file.value;
        var content := if file in disk then disk[file] else LibraryHeader + Footer;
        var updated :- UpdateLibrary(content, acc.name, block);
        Ok(disk[file := updated])
  }

  /** `create_schematic` as a function of the fetched records and the library files. */
  function CreateSchematicSpec(uuids: seq<string>, fetch: string -> Option<Component>, req: Request,
                               disk: map<string, string>, render: Shape -> string, py: Py): Result<map<string, string>>
  {
    var flow :- UnitsUpTo(uuids, |uuids|, fetch, req, py);
    Outcome(flow, req, disk, render)
  }

  /** With no uuid at all the prefix is never bound and the template raises NameError. */
  lemma NoUuids(fetch: string -> Option<Component>, req: Request, disk: map<string, string>,
                render: Shape -> string, py: Py)
    ensures CreateSchematicSpec([], fetch, req, disk, render, py) == Err(NameError)
  {
  }

  /** A new library file holds exactly header, block and footer. */
  lemma NewFileIsHeaderBlockFooter(acc: Acc, req: Request, disk: map<string, string>, render: Shape -> string)
    requires acc.prefix.Some? && acc.file.Some? && acc.file.value !in disk
    ensures Outcome(Running(acc), req, disk, render) ==
      Ok(disk[acc.file.value := LibraryHeader + Block(acc.name, acc.sch, acc.prefix.value, req.footprint,
                                                      req.datasheet, req.componentId, render) + Footer])
  {
    FreshLibrary(acc.name, Block(acc.name, acc.sch, acc.prefix.value, req.footprint, req.datasheet, req.componentId, render));
  }

  /** One drawn unit, appended to the schematic object in place. */
  method DrawUnitInto(sch: KicadSchematic, acc: Acc, unit: string, c: Component, req: Request, py: Py)
    returns (r: Result<Acc>)
    requires acc.sch == sch.State()
    modifies sch
    ensures r.Ok? <==> DrawUnit(acc, unit, c, req, py).Ok?
    ensures r.Ok? ==> DrawUnit(acc, unit, c, req, py) == Ok(Running(r.value)) && r.value.sch == sch.State()
  {
    sch.Append(UnitOpen(unit + "_0"));
    var drawn := sch.DrawLines(c.shape, py);
    if drawn.Err? {
      return Err(drawn.msg);
    }
    sch.Append(UnitClose);
    r := Ok(acc.(file := Some(LibraryFile(req)), sch := sch.State()));
  }

  /** One uuid of the loop, folded into the schematic object. */
  method Round(sch: KicadSchematic, acc: Acc, uuids: seq<string>, k: nat, fetch: string -> Option<Component>, req: Request, py: Py)
    returns (r: Result<Flow<Acc>>)
    requires k < |uuids| && acc.sch == sch.State()
    requires UnitsUpTo(uuids, k, fetch, req, py) == Ok(Running(acc))
    modifies sch
    ensures r == UnitsUpTo(uuids, k + 1, fetch, req, py)
    ensures r.Ok? && r.value.Running? ==> r.value.acc.sch == sch.State()
  {
    UnitsNext(uuids, k, fetch, req, py, acc);
    var fetched := fetch(uuids[k]);
    if fetched.None? {
      return Ok(Stopped);
    }
    var c := fetched.value;
    var title := SanitiseTitle(c.title);
    var named := acc.(prefix := Some(RemoveChar(c.pre, '?')));
    if acc.name == "" {
      named := named.(name := title);
      title := title + "_0";
    }
    assert named == Named(acc, c) && title == UnitTitle(acc.name, SanitiseTitle(c.title));
    if Skipped(uuids, k) {
      r := Ok(Running(named));
    } else {
      var drawn := DrawUnitInto(sch, named, title, c, req, py);
      if drawn.Err? {
        return Err(DrawUnit(named, title, c, req, py).msg);
      }
      r := Ok(Running(drawn.value));
    }
  }

  /** The uuid loop of `create_schematic`, drawing into `sch`. */
  method RunUnits(sch: KicadSchematic, uuids: seq<string>, fetch: string -> Option<Component>, req: Request, py: Py)
    returns (flow: Result<Flow<Acc>>)
    requires sch.State() == Initial()
    modifies sch
    ensures flow == UnitsUpTo(uuids, |uuids|, fetch, req, py)
    ensures flow.Ok? && flow.value.Running? ==> flow.value.acc.sch == sch.State()
  {
    flow := Ok(Running(Start()));
    var k: nat := 0;
    while k < |uuids| && flow.Ok? && flow.value.Running?
      invariant 0 <= k <= |uuids|
      invariant UnitsUpTo(uuids, k, fetch, req, py) == flow
      invariant flow.Ok? && flow.value.Running? ==> flow.value.acc.sch == sch.State()
    {
      flow := Round(sch, flow.value.acc, uuids, k, fetch, req, py);
      k := k + 1;
    }
    if k < |uuids| {
      UnitsHalt(uuids, k, |uuids|, fetch, req, py);
    }
  }

  /** `create_schematic`: the uuid loop over one `kicad_schematic` object, then the library
      update. */
  method CreateSchematic(uuids: seq<string>, fetch: string -> Option<Component>, req: Request,
                         disk: map<string, string>, render: Shape -> string, py: Py)
    returns (r: Result<map<string, string>>)
    ensures r == CreateSchematicSpec(uuids, fetch, req, disk, render, py)
  {
    var sch := new KicadSchematic();
    var flow := RunUnits(sch, uuids, fetch, req, py);
    if flow.Err? {
      return Err(flow.msg);
    }
    r := Outcome(flow.value, req, disk, render);
  }
}
