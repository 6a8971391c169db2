/** The legacy schematic writer (`schematic/schematic.py`): it fetches every unit of a
    component, replays its shape records through the legacy handler table into one
    `kicad_schematic` object, counts the units in `part`, wraps the drawing in an EESchema
    `DEF … ENDDEF` block and upserts that block into a `.lib` library under `Schematic/`.
    Fetched records and the library files are inputs; see README. */
module LegacySchematic {
  import opened Wrappers
  import opened Text
  import opened Numeric
  import opened Drawing
  import opened SchematicHandlers
  import opened Records
  import Legacy = LegacySchematicHandlers

  /** `data["result"]` on a response that is not a component. */
  const FetchError: string := "KeyError: 'result'"

  /** `seek(-17, 2)` on a file shorter than the footer. */
  const SeekError: string := "OSError: [Errno 22] Invalid argument"

  // ---------------------------------------------------------------------------
  // The kicad_schematic object and the handler table
  // ---------------------------------------------------------------------------

  /** The attributes of the legacy `kicad_schematic`: the drawn shapes and the unit count,
      with the two hide flags the pin handler reads (see README, Findings). */
  datatype LegState = LegState(drawing: seq<Shape>, part: nat, namesHide: string, numbersHide: string)

  function Initial(): LegState {
    LegState([], 0, "", "")
  }

  function Draw(st: LegState, s: Shape): LegState {
    st.(drawing := st.drawing + [s])
  }

  /** A handler whose body is inside `try`: its shape is drawn, or nothing is. */
  function Attempt(st: LegState, s: Result<Shape>): LegState {
    if s.Ok? then Draw(st, s.value) else st
  }

  /** One record through the legacy table. The rectangle, pin and arc handlers have no `try`
      (a pin only around its label block), and the triangle handler rewrites field 0 before
      its `try`, so those four can raise; an unknown tag changes nothing; a handler draws at
      most one shape; the unit count is never touched. */
  function Handle(st: LegState, tag: string, data: seq<string>, py: Py): (r: Result<LegState>)
    ensures tag !in Legacy.LegacyTags ==> r == Ok(st)
    ensures r.Err? ==> tag in {"R", "P", "PT", "A"}
    ensures tag == "R" ==> (r.Ok? <==> DecodeRect(data, Legacy.LegacyFrame, py).Ok?)
    ensures tag == "P" ==> (r.Ok? <==> DecodePinBase(data, Legacy.LegacyFrame, py).Ok?)
    ensures tag == "PT" ==> (r.Ok? <==> |data| > 0)
    ensures tag == "A" ==> (r.Ok? <==> Legacy.DecodeArc(data, py).Ok?)
    ensures r.Ok? ==> r.value.part == st.part
    ensures r.Ok? ==> |st.drawing| <= |r.value.drawing| <= |st.drawing| + 1 && r.value.drawing[..|st.drawing|] == st.drawing
    ensures r.Ok? && tag in {"R", "P", "A"} ==> |r.value.drawing| == |st.drawing| + 1
    ensures r.Ok? ==> (r.value.namesHide == st.namesHide || (st.namesHide == "" && r.value.namesHide == NamesHidden)) &&
                      (r.value.numbersHide == st.numbersHide || (st.numbersHide == "" && r.value.numbersHide == NumbersHidden))
  {
    if tag == "R" then
      var s :- DecodeRect(data, Legacy.LegacyFrame, py);
      Ok(Draw(st, s))
    else if tag == "E" then Ok(Attempt(st, DecodeCircle(data, Legacy.LegacyFrame, py)))
    else if tag == "P" then
      var p :- Legacy.DecodePin(st.namesHide, st.numbersHide, data, py);
      Ok(LegState(st.drawing + [p.pin], st.part, p.namesHide, p.numbersHide))
    else if tag == "T" then Ok(Attempt(st, DecodeText(data, Legacy.LegacyFrame, py)))
    else if tag == "PL" then Ok(Attempt(st, DecodePolyline(data, Legacy.LegacyFrame, py)))
    else if tag == "PG" then Ok(Attempt(st, Legacy.DecodePolygon(data, py)))
    else if tag == "PT" then
      if |data| == 0 then Err(IndexError) else Ok(Attempt(st, Legacy.DecodeTriangle(data, py)))
    else if tag == "A" then
      var s :- Legacy.DecodeArc(data, py);
      Ok(Draw(st, s))
    else Ok(st)
  }

  /** One shape record: a line without a token raises IndexError at `args[0]`. */
  function Step(st: LegState, line: string, py: Py): (r: Result<LegState>)
    ensures Tokens(line) == [] ==> r == Err(IndexError)
    ensures Tokens(line) != [] ==> r == Handle(st, Tokens(line)[0], Tokens(line)[1..], py)
  {
    var args := Tokens(line);
    if |args| == 0 then Err(IndexError)
    else Handle(st, args[0], args[1..], py)
  }

  function Stepper(py: Py): (LegState, string) -> Result<LegState> {
    (st: LegState, line: string) => Step(st, line, py)
  }

  /** The state after the records `lines`, in order, or the first exception. */
  function RunLines(st: LegState, lines: seq<string>, py: Py): Result<LegState> {
    Replay(Stepper(py), st, lines)
  }

  lemma RunLinesNext(st: LegState, lines: seq<string>, i: nat, py: Py)
    requires i < |lines| && RunLines(st, lines[..i], py).Ok?
    ensures RunLines(st, lines[..i + 1], py) == Step(RunLines(st, lines[..i], py).value, lines[i], py)
  {
    ReplayNext(Stepper(py), st, lines, i);
  }

  lemma RunLinesErrPersists(st: LegState, lines: seq<string>, m: nat, py: Py)
    requires m <= |lines| && RunLines(st, lines[..m], py).Err?
    ensures RunLines(st, lines, py) == RunLines(st, lines[..m], py)
  {
    ReplayErrPersists(Stepper(py), st, lines, m);
  }

  /** `r` is `st` with shapes appended and the same unit count. */
  ghost predicate Extends(st: LegState, r: LegState) {
    |st.drawing| <= |r.drawing| && r.drawing[..|st.drawing|] == st.drawing && r.part == st.part
  }

  lemma {:induction false} RunLinesExtends(st: LegState, lines: seq<string>, py: Py)
    requires RunLines(st, lines, py).Ok?
    ensures Extends(st, RunLines(st, lines, py).value)
    decreases |lines|
  {
    if |lines| > 0 {
      var init := lines[..|lines| - 1];
      RunLinesExtends(st, init, py);
      var p := RunLines(st, init, py).value;
      var r := Step(p, lines[|lines| - 1], py).value;
      assert r.drawing[..|p.drawing|] == p.drawing;
      assert r.drawing[..|st.drawing|] == p.drawing[..|st.drawing|];
    } else {
      assert st.drawing[..|st.drawing|] == st.drawing;
    }
  }

  /** A record list keeps the shapes drawn before it and the unit count. */
  lemma RunLinesMonotone(st: LegState, lines: seq<string>, py: Py)
    requires RunLines(st, lines, py).Ok?
    ensures var r := RunLines(st, lines, py).value;
      |st.drawing| <= |r.drawing| && r.drawing[..|st.drawing|] == st.drawing && r.part == st.part
  {
    RunLinesExtends(st, lines, py);
  }

  /** Records whose tag has no handler leave the state as it was. */
  lemma UnknownTagsSkipped(st: LegState, lines: seq<string>, py: Py)
    requires forall k :: 0 <= k < |lines| ==> Tokens(lines[k]) != [] && Tokens(lines[k])[0] !in Legacy.LegacyTags
    ensures RunLines(st, lines, py) == Ok(st)
  {
    forall k | 0 <= k < |lines|
      ensures Stepper(py)(st, lines[k]) == Ok(st)
    {
    }
    ReplayInert(Stepper(py), st, lines);
  }

  /** The `kicad_schematic` object of the legacy `create_schematic`. */
  class KicadSchematic {
    var drawing: seq<Shape>
    var part: nat
    var pinNamesHide: string
    var pinNumbersHide: string

    constructor ()
      ensures State() == Initial()
    {
      drawing := [];
      part := 0;
      pinNamesHide := "";
      pinNumbersHide := "";
    }

    function State(): LegState
      reads this
    {
      LegState(drawing, part, pinNamesHide, pinNumbersHide)
    }

    /** `kicad_schematic.part += 1` at the head of every round. */
    method NextPart()
      modifies this
      ensures State() == old(State()).(part := old(part) + 1)
    {
      part := part + 1;
    }

    /** Dispatch of one record to its handler, updating the object in place. */
    method Apply(tag: string, data: seq<string>, py: Py) returns (r: Result<()>)
      modifies this
      ensures r.Ok? <==> Handle(old(State()), tag, data, py).Ok?
      ensures r.Ok? ==> State() == Handle(old(State()), tag, data, py).value
      ensures r.Err? ==> Handle(old(State()), tag, data, py) == Err(r.msg) && State() == old(State())
    {
      if tag == "P" {
        var base := DecodePinBase(data, Legacy.LegacyFrame, py);
        if base.Err? {
          return Err(base.msg);
        }
        var labels := PinLabels(pinNamesHide, pinNumbersHide, data, Legacy.LegacyFrame, 0.6, py);
        pinNamesHide := labels.namesHide;
        pinNumbersHide := labels.numbersHide;
        drawing := drawing + [PinShape(base.value, labels.nameSize, labels.numberSize)];
        return Ok(());
      }
      var s: Result<Shape>;
      if tag == "R" || tag == "A" {
        s := if tag == "R" then DecodeRect(data, Legacy.LegacyFrame, py) else Legacy.DecodeArc(data, py);
        if s.Err? {
          return Err(s.msg);
        }
      } else if tag == "PT" {
        if |data| == 0 {
          return Err(IndexError);
        }
        s := Legacy.DecodeTriangle(data, py);
      } else if tag == "E" {
        s := DecodeCircle(data, Legacy.LegacyFrame, py);
      } else if tag == "T" {
        s := DecodeText(data, Legacy.LegacyFrame, py);
      } else if tag == "PL" {
        s := DecodePolyline(data, Legacy.LegacyFrame, py);
      } else if tag == "PG" {
        s := Legacy.DecodePolygon(data, py);
      } else {
        return Ok(());
      }
      if s.Ok? {
        drawing := drawing + [s.value];
      }
      return Ok(());
    }

    /** The record loop of one unit: every line is tokenised and dispatched in order. */
    method DrawLines(lines: seq<string>, py: Py) returns (r: Result<()>)
      modifies this
      ensures r.Ok? <==> RunLines(old(State()), lines, py).Ok?
      ensures r.Ok? ==> State() == RunLines(old(State()), lines, py).value
      ensures r.Err? ==> RunLines(old(State()), lines, py) == Err(r.msg)
    {
      var i := 0;
      while i < |lines|
        invariant 0 <= i <= |lines|
        invariant RunLines(old(State()), lines[..i], py) == Ok(State())
      {
        RunLinesNext(old(State()), lines, i, py);
        var args := Tokens(lines[i]);
        if |args| == 0 {
          RunLinesErrPersists(old(State()), lines, i + 1, py);
          return Err(IndexError);
        }
        var step := Apply(args[0], args[1..], py);
        if step.Err? {
          RunLinesErrPersists(old(State()), lines, i + 1, py);
          return step;
        }
        i := i + 1;
      }
      assert lines[..i] == lines;
      return Ok(());
    }
  }

  // ---------------------------------------------------------------------------
  // The library file and its block
  // ---------------------------------------------------------------------------

  /** The first lines of a new `.lib` library (`template_lib_header`). */
  const Header: string := "EESchema-LIBRARY Version 2.4 " + "\n# encoding utf-8\n" + "# created by JLC2KiCad_lib " +
                          "using the JLCPCB library\n" + "# for more info see " + "https://github.com/" +
                          "TousstNicolas/JLC2KICAD_lib"

  /** `template_lib_footer`: 17 characters. */
  const Footer: string := "\n#\n# End Library\n"

  /** The rendering of the drawn shapes, one after the other. */
  function ShapesText(shapes: seq<Shape>, render: Shape -> string): string
    decreases |shapes|
  {
    if |shapes| == 0 then "" else render(shapes[0]) + ShapesText(shapes[1..], render)
  }

  /** The comment header and the start of the `DEF` line of a block. */
  function Opening(title: string): string {
    "\n#\n# " + title + "\n#\nDEF " + title + " "
  }

  /** `template_lib_component`: comment header, `DEF` line with the unit count, the four
      fields, the drawing and `ENDDEF`. */
  function Block(title: string, prefix: string, part: nat, footprint: string, datasheet: string,
                 drawing: seq<Shape>, render: Shape -> string): (b: string)
    ensures PrefixAt(b, 0, Opening(title))
    ensures |b| >= |Opening(title)| + 6 && PrefixAt(b, |b| - 6, "ENDDEF")
  {
    var fields := Concat([prefix, " 0 40 Y Y ", NatToString(part), " F N\nF0 \"", prefix,
                          "\" 0 50 50 H V C C N N\nF1 \"", title, "\" 0 -100 50 H V C C N N\nF2 \"",
                          footprint, "\" 0 -400 50 H I C CIN\nF3 \"", datasheet, "\" -90 5 50 H I L CNN\nDRAW"]);
    var b := Opening(title) + (fields + ShapesText(drawing, render)) + "\nENDDRAW\nENDDEF";
    assert b[..|Opening(title)|] == Opening(title);
    assert b[|b| - 6..] == "ENDDEF";
    b
  }

  // ---------------------------------------------------------------------------
  // update_library
  // ---------------------------------------------------------------------------

  /** The regex `.#.# <title>.*?ENDDEF` (DOTALL) up to the title. */
  function OpenerAsWritten(title: string): seq<PChar> {
    [Any, Ch('#'), Any, Ch('#'), Ch(' ')] + Lit(title)
  }

  /** The presence test as written: `DEF <title>`, with nothing after the title. */
  function KeyAsWritten(title: string): string {
    "DEF " + title
  }

  /** `update_library` as written: a content holding `DEF <title>` has its first match of
      `.#.# <title>.*?ENDDEF` replaced; any other content loses its last 17 characters (the
      footer's place) and gets block and footer. */
  function UpdateLibraryAsWritten(content: string, title: string, block: string): (r: Result<string>)
    ensures r.Err? <==> !Contains(content, KeyAsWritten(title)) && |content| < |Footer|
    ensures Contains(content, KeyAsWritten(title)) ==> r == Ok(SubFirst(content, OpenerAsWritten(title), "ENDDEF", block))
    ensures !Contains(content, KeyAsWritten(title)) && |content| >= |Footer| ==>
      r == Ok(content[..|content| - |Footer|] + block + Footer)
  {
    if Contains(content, KeyAsWritten(title)) then Ok(SubFirst(content, OpenerAsWritten(title), "ENDDEF", block))
    else if |content| < |Footer| then Err(SeekError)
    else Ok(content[..|content| - |Footer|] + block + Footer)
  }

  /** The presence test ending with the space that closes the name on the `DEF` line. */
  function Key(title: string): string {
    "DEF " + title + " "
  }

  /** The pattern with the newline that closes the name on the comment line. */
  function Opener(title: string): seq<PChar> {
    [Any, Ch('#'), Any, Ch('#'), Ch(' ')] + Lit(title + "\n")
  }

  /** `update_library` with presence test and pattern closed after the name. */
  function UpdateLibrary(content: string, title: string, block: string): (r: Result<string>)
    ensures r.Err? <==> !Contains(content, Key(title)) && |content| < |Footer|
    ensures Contains(content, Key(title)) ==> r == Ok(SubFirst(content, Opener(title), "ENDDEF", block))
  {
    if Contains(content, Key(title)) then Ok(SubFirst(content, Opener(title), "ENDDEF", block))
    else if |content| < |Footer| then Err(SeekError)
    else Ok(content[..|content| - |Footer|] + block + Footer)
  }

  /** Replacing keeps everything outside the first matching span. */
  lemma ReplaceKeepsOutside(content: string, title: string, block: string)
    requires Contains(content, Key(title))
    requires LazySpan(content, Opener(title), "ENDDEF", 0).Some?
    ensures var (i, j) := LazySpan(content, Opener(title), "ENDDEF", 0).value;
      var r := UpdateLibrary(content, title, block).value;
      r[..i] == content[..i] && r[i..i + |block|] == block && r[i + |block|..] == content[j..]
  {
  }

  /** Inserting into a file that ends with the footer puts the block just before it. */
  lemma InsertBeforeFooter(p: string, title: string, block: string)
    requires !Contains(p + Footer, Key(title))
    ensures UpdateLibrary(p + Footer, title, block) == Ok(p + block + Footer)
  {
    assert (p + Footer)[..|p|] == p;
  }

  lemma HeaderFrontUnpaired()
    ensures Unpaired("EESchema-LIBRARY Version 2.4 " + "\n# encoding utf-8\n" + "# created by JLC2KiCad_lib " +
                     "using the JLCPCB library\n", 'D', 'E')
  {
    var a := "EESchema-LIBRARY Version 2.4 ";
    var b := "\n# encoding utf-8\n";
    var c := "# created by JLC2KiCad_lib ";
    var d := "using the JLCPCB library\n";
    assert 'D' !in a && 'D' !in b && 'D' !in c && 'D' !in d;
    UnpairedWithout(a + b + c + d, 'D', 'E');
  }

  /** Neither header nor footer holds a `D` followed by `E`. */
  lemma HeaderFooterUnpaired()
    ensures Unpaired(Header + Footer, 'D', 'E')
  {
    var front := "EESchema-LIBRARY Version 2.4 " + "\n# encoding utf-8\n" + "# created by JLC2KiCad_lib " +
                 "using the JLCPCB library\n";
    var e := "# for more info see ";
    var f := "https://github.com/";
    var g := "TousstNicolas/JLC2KICAD_lib";
    HeaderFrontUnpaired();
    UnpairedWithout(e, 'D', 'E');
    UnpairedWithout(f, 'D', 'E');
    assert Unpaired(g, 'D', 'E');
    UnpairedWithout(Footer, 'D', 'E');
    UnpairedConcat(front, e, 'D', 'E');
    UnpairedConcat(front + e, f, 'D', 'E');
    UnpairedConcat(front + e + f, g, 'D', 'E');
    UnpairedConcat(Header, Footer, 'D', 'E');
  }

  /** A new library file, header then footer, gets exactly header, block, footer. */
  lemma FreshLibrary(title: string, block: string)
    ensures UpdateLibrary(Header + Footer, title, block) == Ok(Header + block + Footer)
  {
    HeaderFooterUnpaired();
    AbsentByPair(Header + Footer, Key(title), 'D', 'E', 0);
    InsertBeforeFooter(Header, title, block);
  }

  /** After inserting, the presence test of a rerun succeeds, so a rerun replaces the block
      instead of adding a second one. */
  lemma InsertedIsFound(content: string, title: string, block: string)
    requires !Contains(content, Key(title)) && |content| >= |Footer|
    requires PrefixAt(block, 0, Opening(title))
    ensures Contains(UpdateLibrary(content, title, block).value, Key(title))
  {
    var p := content[..|content| - |Footer|];
    var o := Opening(title);
    assert o == "\n#\n# " + title + "\n#\n" + Key(title);
    assert PrefixAt(o, 8 + |title|, Key(title));
    assert block[8 + |title|..8 + |title| + |Key(title)|] == o[8 + |title|..8 + |title| + |Key(title)|];
    PrefixAtConcat(p, block, Footer, 8 + |title|, Key(title));
  }

  // ---------------------------------------------------------------------------
  // A title that is a prefix of another
  // ---------------------------------------------------------------------------

  /** Every `#` of `s` has two more characters after it, and the second is not `#`. */
  ghost predicate HashGap(s: string) {
    forall i :: 0 <= i < |s| && s[i] == '#' ==> i + 2 < |s| && s[i + 2] != '#'
  }

  lemma NoHashGap(s: string)
    requires '#' !in s
    ensures HashGap(s)
  {
  }

  lemma HashGapConcat(x: string, y: string)
    requires HashGap(x) && HashGap(y)
    ensures HashGap(x + y)
  {
    var s := x + y;
    forall i | 0 <= i < |s| && s[i] == '#'
      ensures i + 2 < |s| && s[i + 2] != '#'
    {
      if i < |x| {
        assert x[i] == '#';
        assert s[i + 2] == x[i + 2];
      } else {
        assert y[i - |x|] == '#';
        assert s[i + 2] == y[i - |x| + 2];
      }
    }
  }

  lemma EncodingHashGap()
    ensures HashGap("\n# encoding utf-8\n")
  {
  }

  lemma CreatedHashGap()
    ensures HashGap("# created by JLC2KiCad_lib ")
  {
  }

  lemma InfoHashGap()
    ensures HashGap("# for more info see ")
  {
  }

  lemma HeaderFrontHashGap()
    ensures HashGap("EESchema-LIBRARY Version 2.4 " + "\n# encoding utf-8\n" + "# created by JLC2KiCad_lib " +
                    "using the JLCPCB library\n")
  {
    var a := "EESchema-LIBRARY Version 2.4 ";
    var b := "\n# encoding utf-8\n";
    var c := "# created by JLC2KiCad_lib ";
    var d := "using the JLCPCB library\n";
    NoHashGap(a);
    EncodingHashGap();
    CreatedHashGap();
    NoHashGap(d);
    HashGapConcat(a, b);
    HashGapConcat(a + b, c);
    HashGapConcat(a + b + c, d);
  }

  lemma HeaderHashGap()
    ensures HashGap(Header)
  {
    var front := "EESchema-LIBRARY Version 2.4 " + "\n# encoding utf-8\n" + "# created by JLC2KiCad_lib " +
                 "using the JLCPCB library\n";
    var e := "# for more info see ";
    var f := "https://github.com/";
    var g := "TousstNicolas/JLC2KICAD_lib";
    HeaderFrontHashGap();
    InfoHashGap();
    NoHashGap(f);
    NoHashGap(g);
    HashGapConcat(front, e);
    HashGapConcat(front + e, f);
    HashGapConcat(front + e + f, g);
  }

  /** Neither pattern matches inside the header of a library whose next character is a
      newline: each needs `#` two characters before another `#`. */
  lemma NoMatchInHeader(b: string, post: string, pat: seq<PChar>, j: nat)
    requires |b| > 0 && b[0] == '\n' && |pat| > 3 && pat[1] == Ch('#') && pat[3] == Ch('#')
    requires j < |Header|
    ensures !MatchAt(Header + b + post, j, pat)
  {
    HeaderHashGap();
    var s := Header + b + post;
    if j + 3 < |s| {
      if j + 1 == |Header| {
        assert s[j + 1] == b[0];
      } else if Header[j + 1] == '#' {
        assert s[j + 3] == Header[j + 3];
      } else {
        assert s[j + 1] == Header[j + 1];
      }
    }
  }

  /** A literal found in `s` at `i` is matched there by the regex that may replace some of
      its characters with `.`. */
  lemma MatchLooser(s: string, i: nat, lit: string, pat: seq<PChar>)
    requires PrefixAt(s, i, lit) && |pat| == |lit|
    requires forall k :: 0 <= k < |pat| && pat[k].Ch? ==> pat[k].c == lit[k]
    ensures MatchAt(s, i, pat)
  {
    forall k | 0 <= k < |pat| && pat[k].Ch?
      ensures s[i + k] == pat[k].c
    {
      assert s[i..i + |lit|][k] == lit[k];
    }
  }

  /** The comment header of the other block holds `\n#\n# <title>` and its `DEF` line holds
      `DEF <title>`, because `title` is a prefix of `other`. */
  lemma OpeningOfLonger(title: string, other: string)
    requires |title| < |other| && other[..|title|] == title
    ensures PrefixAt(Opening(other), 0, "\n#\n# " + title)
    ensures PrefixAt(Opening(other), 8 + |other|, KeyAsWritten(title))
  {
    var o := Opening(other);
    assert o == "\n#\n# " + other + "\n#\n" + "DEF " + other + " ";
    assert o[..5 + |title|] == "\n#\n# " + title;
    assert o[8 + |other|..8 + |other| + 4 + |title|] == "DEF " + title;
  }

  /** In a library `Header + b + Footer` whose block `b` starts with the opening of `other`,
      the as-written pattern of `title` first matches at the start of `b`. */
  lemma FirstMatchAtBlock(title: string, other: string, b: string)
    requires |title| < |other| && other[..|title|] == title
    requires PrefixAt(b, 0, Opening(other))
    ensures var content := Header + b + Footer;
      MatchAt(content, |Header|, OpenerAsWritten(title)) &&
      forall i: nat :: i < |Header| ==> !MatchAt(content, i, OpenerAsWritten(title))
  {
    var content := Header + b + Footer;
    var pat := OpenerAsWritten(title);
    var lit := "\n#\n# " + title;
    OpeningOfLonger(title, other);
    PrefixKept(b, Opening(other), 0, lit);
    PrefixAtConcat(Header, b, Footer, 0, lit);
    MatchLooser(content, |Header|, lit, pat);
    assert b[0] == '\n';
    forall i: nat | i < |Header|
      ensures !MatchAt(content, i, pat)
    {
      NoMatchInHeader(b, Footer, pat, i);
    }
  }

  /** No `ENDDEF` starts inside the opening of a block whose title has no `N`. */
  lemma NoEndInOpening(other: string, pre: string, b: string, post: string, m: nat)
    requires 'N' !in other && PrefixAt(b, 0, Opening(other))
    requires |pre| <= m && m + 1 < |pre| + |Opening(other)|
    ensures !PrefixAt(pre + b + post, m, "ENDDEF")
  {
    var o := Opening(other);
    assert o == "\n#\n# " + other + "\n#\nDEF " + other + " ";
    assert 'N' !in o;
    assert (pre + b + post)[m + 1] == b[m + 1 - |pre|] == o[m + 1 - |pre|];
  }

  /** The lazy span from the first match at `h` ends with the first `ENDDEF` after the
      pattern, which lies no later than `e` and not before `o`. */
  lemma SpanBetween(content: string, pat: seq<PChar>, h: nat, e: nat, o: nat) returns (j: nat)
    requires MatchAt(content, h, pat) && forall i: nat :: i < h ==> !MatchAt(content, i, pat)
    requires PrefixAt(content, e, "ENDDEF") && h + |pat| <= e
    requires forall m: nat :: h + |pat| <= m && m + 1 < o ==> !PrefixAt(content, m, "ENDDEF")
    ensures LazySpan(content, pat, "ENDDEF", 0) == Some((h, j)) && o <= j <= e + 6
  {
    var span := LazySpan(content, pat, "ENDDEF", 0);
    assert span.Some?;
    var (i, k) := span.value;
    j := k;
  }

  /** The span the as-written update replaces in `Header + b + Footer` when `b` is the
      block of a longer title: it starts at `b` and ends after the opening of `b`, at the
      latest with `b` itself. */
  lemma OverwriteSpan(title: string, other: string, b: string) returns (j: nat)
    requires |title| < |other| && other[..|title|] == title && 'N' !in other
    requires PrefixAt(b, 0, Opening(other)) && |b| >= |Opening(other)| + 6 && PrefixAt(b, |b| - 6, "ENDDEF")
    ensures var content := Header + b + Footer;
      LazySpan(content, OpenerAsWritten(title), "ENDDEF", 0) == Some((|Header|, j)) &&
      |Header| + |Opening(other)| <= j <= |Header| + |b|
  {
    var content := Header + b + Footer;
    var pat := OpenerAsWritten(title);
    var h := |Header|;
    FirstMatchAtBlock(title, other, b);
    PrefixAtConcat(Header, b, Footer, |b| - 6, "ENDDEF");
    forall m: nat | h + |pat| <= m && m + 1 < h + |Opening(other)|
      ensures !PrefixAt(content, m, "ENDDEF")
    {
      NoEndInOpening(other, Header, b, Footer, m);
    }
    j := SpanBetween(content, pat, h, h + |b| - 6, h + |Opening(other)|);
  }

  /** The as-written update of `Header + b + Footer` with a block `b` of a longer title. */
  lemma OverwritesBlock(title: string, other: string, b: string, block: string) returns (j: nat)
    requires |title| < |other| && other[..|title|] == title && 'N' !in other
    requires PrefixAt(b, 0, Opening(other)) && |b| >= |Opening(other)| + 6 && PrefixAt(b, |b| - 6, "ENDDEF")
    ensures Contains(Header + b + Footer, KeyAsWritten(title))
    ensures |Header| + |Opening(other)| <= j <= |Header| + |b|
    ensures UpdateLibraryAsWritten(Header + b + Footer, title, block) == Ok(Header + block + (Header + b + Footer)[j..])
  {
    var content := Header + b + Footer;
    OpeningOfLonger(title, other);
    PrefixKept(b, Opening(other), 8 + |other|, KeyAsWritten(title));
    PrefixAtConcat(Header, b, Footer, 8 + |other|, KeyAsWritten(title));
    j := OverwriteSpan(title, other, b);
    assert content[..|Header|] == Header;
  }

  /** As written, adding a component whose title is a proper prefix of the title of a block
      already in the library (`R1` next to `R10`) finds `DEF <title>` inside that block and
      replaces it from its start: at least its comment header and its `DEF` line are lost. */
  lemma ShorterTitleOverwrites(title: string, other: string, prefix: string, part: nat, footprint: string,
                               datasheet: string, drawing: seq<Shape>, render: Shape -> string, block: string)
    returns (j: nat)
    requires |title| < |other| && other[..|title|] == title && 'N' !in other
    ensures var b := Block(other, prefix, part, footprint, datasheet, drawing, render);
      Contains(Header + b + Footer, KeyAsWritten(title)) &&
      |Header| + |Opening(other)| <= j <= |Header| + |b| &&
      UpdateLibraryAsWritten(Header + b + Footer, title, block) == Ok(Header + block + (Header + b + Footer)[j..])
  {
    var b := Block(other, prefix, part, footprint, datasheet, drawing, render);
    j := OverwritesBlock(title, other, b, block);
  }

  /** With the closed key, the `DEF` line of a block names exactly one title: the key of
      `title` sits where the other block's key does only when the titles are equal. */
  lemma KeyNamesOneBlock(title: string, other: string)
    requires ' ' !in title && ' ' !in other
    ensures PrefixAt(Opening(other), 8 + |other|, Key(title)) <==> title == other
  {
    var o := Opening(other);
    var at := 8 + |other|;
    assert o == "\n#\n# " + other + "\n#\n" + Key(other);
    if |title| < |other| {
      assert o[at + 4 + |title|] == other[|title|];
      assert Key(title)[4 + |title|] == ' ';
      assert o[at..at + |Key(title)|][4 + |title|] != Key(title)[4 + |title|];
    } else if |title| == |other| {
      assert o[at..at + |Key(title)|] == Key(other);
      assert Key(title)[4..4 + |title|] == title && Key(other)[4..4 + |other|] == other;
    }
  }

  /** With the closed pattern, the comment header of a block matches only its own title. */
  lemma OpenerNamesOneBlock(title: string, other: string)
    requires '\n' !in title && '\n' !in other
    ensures MatchAt(Opening(other), 0, Opener(title)) <==> title == other
  {
    var o := Opening(other);
    var pat := Opener(title);
    var lit := "\n#\n# " + title + "\n";
    assert o == "\n#\n# " + other + "\n" + "#\nDEF " + other + " ";
    assert |pat| == |lit| && forall k :: 0 <= k < |pat| && pat[k].Ch? ==> pat[k].c == lit[k];
    if |title| < |other| {
      assert pat[5 + |title|] == Ch('\n') && o[5 + |title|] == other[|title|];
    } else if |title| > |other| {
      assert o[5 + |other|] == '\n';
      assert pat[5 + |other|] == Ch(title[|other|]) && title[|other|] != '\n';
    } else if title == other {
      assert o[..|lit|] == lit;
      MatchLooser(o, 0, lit, pat);
    } else {
      var k :| 0 <= k < |title| && title[k] != other[k];
      assert pat[5 + k] == Ch(title[k]) && o[5 + k] == other[k];
    }
  }

  // ---------------------------------------------------------------------------
  // create_schematic
  // ---------------------------------------------------------------------------

  /** What the API returns for one uuid: title, reference prefix and shape records. */
  datatype Component = Component(title: string, pre: string, shape: seq<string>)

  /** The arguments of `create_schematic` other than the uuids. */
  datatype Request = Request(footprint: string, datasheet: string, library: string, outputDir: string)

  /** The loop variables: the title and prefix of the latest uuid, and the object. */
  datatype Acc = Acc(title: Option<string>, prefix: string, sch: LegState)

  function Start(): Acc {
    Acc(None, "", Initial())
  }

  function LibraryFile(req: Request): string {
    req.outputDir + "/Schematic/" + req.library + ".lib"
  }

  /** One uuid: count it, fetch it, take its title (`/` as `_`) and prefix (without `?`),
      then draw its records into the shared object. */
  function UnitStep(acc: Acc, uuid: string, fetch: string -> Option<Component>, py: Py): (r: Result<Acc>)
    ensures fetch(uuid).None? ==> r == Err(FetchError)
    ensures r.Ok? ==> var c := fetch(uuid).value;
      r.value.title == Some(Replace(c.title, "/", "_")) && r.value.prefix == RemoveChar(c.pre, '?') &&
      r.value.sch.part == acc.sch.part + 1
  {
    var counted := acc.sch.(part := acc.sch.part + 1);
    match fetch(uuid)
    case None => Err(FetchError)
    case Some(c) =>
      var drawn :- RunLines(counted, c.shape, py);
      RunLinesMonotone(counted, c.shape, py);
      Ok(Acc(Some(Replace(c.title, "/", "_")), RemoveChar(c.pre, '?'), drawn))
  }

  function UnitStepper(fetch: string -> Option<Component>, py: Py): (Acc, string) -> Result<Acc> {
    (acc: Acc, uuid: string) => UnitStep(acc, uuid, fetch, py)
  }

  /** The loop state after the uuids `uuids`, or the first exception. */
  function Units(uuids: seq<string>, fetch: string -> Option<Component>, py: Py): Result<Acc> {
    Replay(UnitStepper(fetch, py), Start(), uuids)
  }

  /** After the loop `part` is the number of uuids, and the title and prefix are those of
      the last one. */
  lemma {:induction false} UnitsCounted(uuids: seq<string>, fetch: string -> Option<Component>, py: Py)
    requires Units(uuids, fetch, py).Ok?
    ensures Units(uuids, fetch, py).value.sch.part == |uuids|
    ensures |uuids| == 0 <==> Units(uuids, fetch, py).value.title.None?
    ensures |uuids| > 0 ==> var c := fetch(uuids[|uuids| - 1]).value;
      Units(uuids, fetch, py).value.title == Some(Replace(c.title, "/", "_")) &&
      Units(uuids, fetch, py).value.prefix == RemoveChar(c.pre, '?')
    decreases |uuids|
  {
    if |uuids| > 0 {
      var init := uuids[..|uuids| - 1];
      UnitsCounted(init, fetch, py);
    }
  }

  /** The library files after the component is written: a library that does not exist yet
      is created as header and footer first. */
  function Outcome(acc: Acc, req: Request, disk: map<string, string>, render: Shape -> string): (r: Result<map<string, string>>)
    ensures acc.title.None? ==> r == Err(NameError)
    ensures r.Ok? ==> LibraryFile(req) in r.value && r.value.Keys == disk.Keys + {LibraryFile(req)}
  {
    match acc.title
    case None => Err(NameError)
    case Some(title) =>
      var block := Block(title, acc.prefix, acc.sch.part, req.footprint, req.datasheet, acc.sch.drawing, render);
      var file := LibraryFile(req);
      var content := if file in disk then disk[file] else Header + Footer;
      var updated :- UpdateLibrary(content, title, block);
      Ok(disk[file := updated])
  }

  /** `create_schematic` as a function of the fetched records and the library files. */
  function CreateSchematicSpec(uuids: seq<string>, fetch: string -> Option<Component>, req: Request,
                               disk: map<string, string>, render: Shape -> string, py: Py): Result<map<string, string>>
  {
    var acc :- Units(uuids, fetch, py);
    Outcome(acc, req, disk, render)
  }

  /** With no uuid at all the title is never bound and the template raises NameError. */
  lemma NoUuids(fetch: string -> Option<Component>, req: Request, disk: map<string, string>,
                render: Shape -> string, py: Py)
    ensures CreateSchematicSpec([], fetch, req, disk, render, py) == Err(NameError)
  {
  }

  /** A new library file holds exactly header, block and footer, and the block's `DEF` line
      counts every uuid. */
  lemma NewFileIsHeaderBlockFooter(uuids: seq<string>, fetch: string -> Option<Component>, req: Request,
                                   disk: map<string, string>, render: Shape -> string, py: Py)
    requires Units(uuids, fetch, py).Ok? && |uuids| > 0 && LibraryFile(req) !in disk
    ensures var acc := Units(uuids, fetch, py).value;
      acc.sch.part == |uuids| &&
      CreateSchematicSpec(uuids, fetch, req, disk, render, py) ==
        Ok(disk[LibraryFile(req) := Header + Block(acc.title.value, acc.prefix, |uuids|, req.footprint,
                                                   req.datasheet, acc.sch.drawing, render) + Footer])
  {
    UnitsCounted(uuids, fetch, py);
    var acc := Units(uuids, fetch, py).value;
    FreshLibrary(acc.title.value, Block(acc.title.value, acc.prefix, acc.sch.part, req.footprint,
                                        req.datasheet, acc.sch.drawing, render));
  }

  /** One round of the uuid loop on the shared object: count the unit, fetch it, take its
      title and prefix, then draw its records. */
  method UnitOn(sch: KicadSchematic, title: Option<string>, prefix: string, uuid: string,
                fetch: string -> Option<Component>, py: Py) returns (r: Result<(string, string)>)
    modifies sch
    ensures var t := UnitStep(Acc(title, prefix, old(sch.State())), uuid, fetch, py);
      (r.Ok? <==> t.Ok?) && (r.Ok? ==> t.value == Acc(Some(r.value.0), r.value.1, sch.State())) &&
      (r.Err? ==> t == Err(r.msg))
  {
    sch.NextPart();
    var fetched := fetch(uuid);
    if fetched.None? {
      return Err(FetchError);
    }
    var c := fetched.value;
    var drawn := sch.DrawLines(c.shape, py);
    if drawn.Err? {
      return Err(drawn.msg);
    }
    return Ok((Replace(c.title, "/", "_"), RemoveChar(c.pre, '?')));
  }

  /** `create_schematic`: the uuid loop over one `kicad_schematic` object, then the library
      update. */
  method CreateSchematic(uuids: seq<string>, fetch: string -> Option<Component>, req: Request,
                         disk: map<string, string>, render: Shape -> string, py: Py)
    returns (r: Result<map<string, string>>)
    ensures r == CreateSchematicSpec(uuids, fetch, req, disk, render, py)
  {
    var sch := new KicadSchematic();
    var title: Option<string> := None;
    var prefix := "";
    var i := 0;
    while i < |uuids|
      invariant 0 <= i <= |uuids|
      invariant Units(uuids[..i], fetch, py) == Ok(Acc(title, prefix, sch.State()))
    {
      ReplayNext(UnitStepper(fetch, py), Start(), uuids, i);
      var u := UnitOn(sch, title, prefix, uuids[i], fetch, py);
      if u.Err? {
        ReplayErrPersists(UnitStepper(fetch, py), Start(), uuids, i + 1);
        return Err(u.msg);
      }
      title, prefix := Some(u.value.0), u.value.1;
      i := i + 1;
    }
    assert uuids[..i] == uuids;
    r := Outcome(Acc(title, prefix, sch.State()), req, disk, render);
  }
}
