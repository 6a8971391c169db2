/** The symbol writer (`create_symbol` and `update_library`): it fetches every
    unit of a component, replays each shape record through the handler table into one
    `kicad_symbol` object, wraps the result in a library block and upserts that block into a
    `.kicad_sym` library. Fetched records and the library files are inputs; see README. */
module Symbol {
  import opened Wrappers
  import opened Text
  import opened Numeric
  import opened Drawing
  import opened SymbolHandlers
  import opened Records

  const Footer: string := ")\n"

  /** The value attributes copied into the block, in this order. */
  const ValueTypes: seq<string> := ["Resistance", "Capacitance", "Inductance", "Frequency"]

  // ---------------------------------------------------------------------------
  // The kicad_symbol object and the handler table
  // ---------------------------------------------------------------------------

  /** The three attributes of `kicad_symbol` the handlers update. */
  datatype SymState = SymState(drawing: seq<Item>, namesHide: string, numbersHide: string)

  function Initial(): SymState {
    SymState([], NamesHidden, NumbersHidden)
  }

  function Draw(st: SymState, s: Shape): SymState {
    st.(drawing := st.drawing + [Drawn(s)])
  }

  function DrawSome(st: SymState, o: Option<Shape>): SymState {
    match o
    case None => st
    case Some(s) => Draw(st, s)
  }

  /** `handlers.get(tag)(data=..., translation=head, kicad_symbol=...)`: the effect of one record.
      An unknown tag changes nothing; a handler appends at most one drawn item, and only a
      pin can touch the hide flags, and then only by clearing them. */
  function Handle(st: SymState, tag: string, data: seq<string>, head: Point, py: Py): (r: Result<SymState>)
    ensures tag !in Tags ==> r == Ok(st)
    ensures r.Ok? ==> |st.drawing| <= |r.value.drawing| <= |st.drawing| + 1
    ensures r.Ok? ==> r.value.drawing[..|st.drawing|] == st.drawing
    ensures r.Ok? ==> forall k :: |st.drawing| <= k < |r.value.drawing| ==> r.value.drawing[k].Drawn?
    ensures r.Ok? ==> r.value.namesHide in {st.namesHide, ""} && r.value.numbersHide in {st.numbersHide, ""}
    ensures r.Ok? && tag != "P" ==> r.value.namesHide == st.namesHide && r.value.numbersHide == st.numbersHide
    ensures r.Ok? && tag in {"R", "E", "P", "T", "PL", "PG", "PT"} ==> |r.value.drawing| == |st.drawing| + 1
  {
    if tag == "R" then
      var s :- DecodeRect(data, head, py);
      Ok(Draw(st, s))
    else if tag == "E" then
      var s :- DecodeCircle(data, head, py);
      Ok(Draw(st, s))
    else if tag == "P" then
      var p :- DecodePin(data, head, py);
      Ok(SymState(st.drawing + [Drawn(p.pin)],
                  if p.showNames then "" else st.namesHide,
                  if p.showNumbers then "" else st.numbersHide))
    else if tag == "T" then
      var s :- DecodeText(data, head, py);
      Ok(Draw(st, s))
    else if tag == "PL" then
      var s :- DecodePolyline(data, head, py);
      Ok(Draw(st, s))
    else if tag == "PG" then
      var s :- DecodePolygon(data, head, py);
      Ok(Draw(st, s))
    else if tag == "PT" then
      var s :- DecodeTriangle(data, head, py);
      Ok(Draw(st, s))
    else if tag == "A" then
      var o :- DecodeArc(data, head, py);
      Ok(DrawSome(st, o))
    else if tag == "AR" then
      var o :- DecodeArrow(data, head, py);
      Ok(DrawSome(st, o))
    else Ok(st)
  }

  /** One shape record: a line without a token raises IndexError at `args[0]`. */
  function Step(st: SymState, line: string, head: Point, py: Py): (r: Result<SymState>)
    ensures Tokens(line) == [] ==> r == Err(IndexError)
    ensures Tokens(line) != [] ==> r == Handle(st, Tokens(line)[0], Tokens(line)[1..], head, py)
  {
    var args := Tokens(line);
    if |args| == 0 then Err(IndexError)
    else Handle(st, args[0], args[1..], head, py)
  }

  /** The record step of one unit, with its origin and the Python built-ins fixed. */
  function Stepper(head: Point, py: Py): (SymState, string) -> Result<SymState> {
    (st: SymState, line: string) => Step(st, line, head, py)
  }

  /** The state after the records `lines`, in order, or the first exception. */
  function RunLines(st: SymState, lines: seq<string>, head: Point, py: Py): Result<SymState> {
    Replay(Stepper(head, py), st, lines)
  }

  /** One more record: the step applied to the state after the records before it. */
  lemma RunLinesNext(st: SymState, lines: seq<string>, i: nat, head: Point, py: Py)
    requires i < |lines| && RunLines(st, lines[..i], head, py).Ok?
    ensures RunLines(st, lines[..i + 1], head, py) == Step(RunLines(st, lines[..i], head, py).value, lines[i], head, py)
  {
    ReplayNext(Stepper(head, py), st, lines, i);
  }

  /** An exception stops the record loop: no later record changes the outcome. */
  lemma RunLinesErrPersists(st: SymState, lines: seq<string>, m: nat, head: Point, py: Py)
    requires m <= |lines| && RunLines(st, lines[..m], head, py).Err?
    ensures RunLines(st, lines, head, py) == RunLines(st, lines[..m], head, py)
  {
    ReplayErrPersists(Stepper(head, py), st, lines, m);
  }

  /** `r` is `st` with drawn items appended and the hide flags kept or cleared to "". */
  ghost predicate Extends(st: SymState, r: SymState) {
    |st.drawing| <= |r.drawing| && r.drawing[..|st.drawing|] == st.drawing &&
    (forall k :: |st.drawing| <= k < |r.drawing| ==> r.drawing[k].Drawn?) &&
    r.namesHide in {st.namesHide, ""} && r.numbersHide in {st.numbersHide, ""}
  }

  lemma ExtendsTrans(a: SymState, b: SymState, c: SymState)
    requires Extends(a, b) && Extends(b, c)
    ensures Extends(a, c)
  {
    assert c.drawing[..|a.drawing|] == b.drawing[..|a.drawing|];
  }

  ghost predicate Grows(step: (SymState, string) -> Result<SymState>) {
    forall st: SymState, line: string :: step(st, line).Ok? ==> Extends(st, step(st, line).value)
  }

  lemma {:induction false} ReplayGrows(step: (SymState, string) -> Result<SymState>, st: SymState, lines: seq<string>)
    requires Grows(step) && Replay(step, st, lines).Ok?
    ensures Extends(st, Replay(step, st, lines).value)
    decreases |lines|
  {
    if |lines| > 0 {
      var init := lines[..|lines| - 1];
      ReplayGrows(step, st, init);
      var p := Replay(step, st, init).value;
      ExtendsTrans(st, p, step(p, lines[|lines| - 1]).value);
    } else {
      assert st.drawing[..|st.drawing|] == st.drawing;
    }
  }

  /** Every record step keeps earlier items and only clears flags. */
  lemma StepperGrows(head: Point, py: Py)
    ensures Grows(Stepper(head, py))
  {
    forall st: SymState, line: string | Stepper(head, py)(st, line).Ok?
      ensures Extends(st, Stepper(head, py)(st, line).value)
    {
      var r := Step(st, line, head, py).value;
      assert r.drawing[..|st.drawing|] == st.drawing;
    }
  }

  /** Over a whole record list the drawing only grows by drawn items, and the hide flags are
      either kept or cleared to "" (never set again). */
  lemma RunLinesMonotone(st: SymState, lines: seq<string>, head: Point, py: Py)
    requires RunLines(st, lines, head, py).Ok?
    ensures var r := RunLines(st, lines, head, py).value;
      |st.drawing| <= |r.drawing| && r.drawing[..|st.drawing|] == st.drawing &&
      (forall k :: |st.drawing| <= k < |r.drawing| ==> r.drawing[k].Drawn?) &&
      r.namesHide in {st.namesHide, ""} && r.numbersHide in {st.numbersHide, ""}
  {
    StepperGrows(head, py);
    ReplayGrows(Stepper(head, py), st, lines);
  }

  /** Records whose tag has no handler leave the state as it was. */
  lemma UnknownTagsSkipped(st: SymState, lines: seq<string>, head: Point, py: Py)
    requires forall k :: 0 <= k < |lines| ==> Tokens(lines[k]) != [] && Tokens(lines[k])[0] !in Tags
    ensures RunLines(st, lines, head, py) == Ok(st)
  {
    forall k | 0 <= k < |lines|
      ensures Stepper(head, py)(st, lines[k]) == Ok(st)
    {
    }
    ReplayInert(Stepper(head, py), st, lines);
  }

  /** The `kicad_symbol` object of `create_symbol`. */
  class KicadSymbol {
    var drawing: seq<Item>
    var pinNamesHide: string
    var pinNumbersHide: string

    constructor ()
      ensures State() == Initial()
    {
      drawing := [];
      pinNamesHide := NamesHidden;
      pinNumbersHide := NumbersHidden;
    }

    function State(): SymState
      reads this
    {
      SymState(drawing, pinNamesHide, pinNumbersHide)
    }

    /** `drawing += ...` for a unit header or its closing parenthesis. */
    method Append(item: Item)
      modifies this
      ensures State() == old(State()).(drawing := old(drawing) + [item])
    {
      drawing := drawing + [item];
    }

    /** Dispatch of one record to its handler, updating the object in place. */
    method Apply(tag: string, data: seq<string>, head: Point, py: Py) returns (r: Result<()>)
      modifies this
      ensures r.Ok? <==> Handle(old(State()), tag, data, head, py).Ok?
      ensures r.Ok? ==> State() == Handle(old(State()), tag, data, head, py).value
      ensures r.Err? ==> State() == old(State())
    {
      if tag == "P" {
        var p := DecodePin(data, head, py);
        if p.Err? {
          return Err(p.msg);
        }
        if p.value.showNames {
          pinNamesHide := "";
        }
        if p.value.showNumbers {
          pinNumbersHide := "";
        }
        drawing := drawing + [Drawn(p.value.pin)];
        return Ok(());
      }
      if tag in {"PL", "PG", "PT", "AR"} {
        r := ApplyPolygon(tag, data, head, py);
        return;
      }
      var s: Result<Option<Shape>>;
      if tag == "R" {
        s := Lift(DecodeRect(data, head, py));
      } else if tag == "E" {
        s := Lift(DecodeCircle(data, head, py));
      } else if tag == "T" {
        s := Lift(DecodeText(data, head, py));
      } else if tag == "A" {
        s := DecodeArc(data, head, py);
      } else {
        s := Ok(None);
      }
      if s.Err? {
        return Err(s.msg);
      }
      if s.value.Some? {
        drawing := drawing + [Drawn(s.value.value)];
      }
      return Ok(());
    }

    /** The handlers that pair coordinates in a loop: PL, PG, PT and AR. */
    method ApplyPolygon(tag: string, data: seq<string>, head: Point, py: Py) returns (r: Result<()>)
      requires tag in {"PL", "PG", "PT", "AR"}
      modifies this
      ensures r.Ok? <==> Handle(old(State()), tag, data, head, py).Ok?
      ensures r.Ok? ==> State() == Handle(old(State()), tag, data, head, py).value
      ensures r.Err? ==> State() == old(State())
    {
      if |data| == 0 {
        return Err(IndexError);
      }
      if tag == "PL" {
        var ts := Split(data[0], " ");
        var pts := PolyPoints(ts, HalfUp(|ts|), ToMmAt(head), py);
        if pts.Err? {
          return Err(pts.msg);
        }
        drawing := drawing + [Drawn(Polyline(pts.value, NoFill))];
        return Ok(());
      }
      if tag == "AR" {
        if |data| <= 5 {
          return Err(IndexError);
        }
        var ts := ArrowTokens(data[5]);
        var pts := PolyPoints(ts, |ts| / 2, ToMmAt(head), py);
        if pts.Err? {
          return Err(pts.msg);
        }
        if |pts.value| > 0 {
          drawing := drawing + [Drawn(Polyline(pts.value + [pts.value[0]], Background))];
        }
        return Ok(());
      }
      var field := if tag == "PT" then TriangleField(data[0]) else data[0];
      assert tag == "PT" ==> DecodeTriangle(data, head, py) == DecodePolygon(data[0 := field], head, py);
      var ts := NonEmpty(Split(field, " "));
      var pts := PolyPoints(ts, HalfUp(|ts|), ToMmAt(head), py);
      if pts.Err? {
        return Err(pts.msg);
      }
      if |pts.value| == 0 {
        return Err(IndexError);
      }
      drawing := drawing + [Drawn(Polyline(pts.value + [pts.value[0]], Background))];
      return Ok(());
    }

    /** The record loop of one unit: every line is tokenised and dispatched in order. */
    method DrawLines(lines: seq<string>, head: Point, py: Py) returns (r: Result<()>)
      modifies this
      ensures r.Ok? <==> RunLines(old(State()), lines, head, py).Ok?
      ensures r.Ok? ==> State() == RunLines(old(State()), lines, head, py).value
    {
      var i := 0;
      while i < |lines|
        invariant 0 <= i <= |lines|
        invariant RunLines(old(State()), lines[..i], head, py) == Ok(State())
      {
        RunLinesNext(old(State()), lines, i, head, py);
        var args := Tokens(lines[i]);
        if |args| == 0 {
          RunLinesErrPersists(old(State()), lines, i + 1, head, py);
          return Err(IndexError);
        }
        var step := Apply(args[0], args[1..], head, py);
        if step.Err? {
          RunLinesErrPersists(old(State()), lines, i + 1, head, py);
          return step;
        }
        i := i + 1;
      }
      assert lines[..i] == lines;
      return Ok(());
    }
  }

  function Lift(r: Result<Shape>): (o: Result<Option<Shape>>)
    ensures o.Ok? <==> r.Ok?
    ensures o.Ok? ==> o.value == Some(r.value)
  {
    match r
    case Ok(s) => Ok(Some(s))
    case Err(m) => Err(m)
  }

  // ---------------------------------------------------------------------------
  // Titles, value properties and the library block
  // ---------------------------------------------------------------------------

  /** The replacements applied to a component title, in order. */
  const TitleReplacements: seq<(string, string)> :=
    [(" ", "_"), (".", "_"), ("/", "{slash}"), ("\\", "{backslash}"),
     ("<", "{lt}"), (">", "{gt}"), (":", "{colon}"), ("\"", "{dblquote}")]

  /** `s.replace(p0, r0).replace(p1, r1)...` */
  function ReplaceEach(s: string, subs: seq<(string, string)>): string
    requires forall k :: 0 <= k < |subs| ==> subs[k].0 != []
    decreases |subs|
  {
    if |subs| == 0 then s else ReplaceEach(Replace(s, subs[0].0, subs[0].1), subs[1..])
  }

  /** A character that neither the input nor any replacement holds never appears. */
  lemma {:induction false} ReplaceEachAvoids(s: string, subs: seq<(string, string)>, c: char)
    requires forall k :: 0 <= k < |subs| ==> subs[k].0 != [] && c !in subs[k].1
    requires c !in s
    ensures c !in ReplaceEach(s, subs)
    decreases |subs|
  {
    if |subs| > 0 {
      ReplaceEachAvoids(Replace(s, subs[0].0, subs[0].1), subs[1..], c);
    }
  }

  /** The characters the title replacements insert. */
  predicate Inserted(c: char) {
    ('a' <= c <= 'z') || c == '{' || c == '}' || c == '_'
  }

  /** A one-character pattern is gone once replaced when no later replacement inserts it. */
  lemma {:induction false} ReplaceEachRemoves(s: string, subs: seq<(string, string)>, k: nat)
    requires forall j :: 0 <= j < |subs| ==> subs[j].0 != []
    requires forall j :: 0 <= j < |subs| ==> forall ch :: ch in subs[j].1 ==> Inserted(ch)
    requires k < |subs| && |subs[k].0| == 1 && !Inserted(subs[k].0[0])
    ensures subs[k].0[0] !in ReplaceEach(s, subs)
    decreases |subs|
  {
    if k == 0 {
      ReplaceEachAvoids(Replace(s, subs[0].0, subs[0].1), subs[1..], subs[0].0[0]);
    } else {
      ReplaceEachRemoves(Replace(s, subs[0].0, subs[0].1), subs[1..], k - 1);
    }
  }

  /** Without any pattern character the input comes back unchanged. */
  lemma {:induction false} ReplaceEachIdentity(s: string, subs: seq<(string, string)>)
    requires forall k :: 0 <= k < |subs| ==> subs[k].0 != [] && subs[k].0[0] !in s
    ensures ReplaceEach(s, subs) == s
    decreases |subs|
  {
    if |subs| > 0 {
      ReplaceEachIdentity(Replace(s, subs[0].0, subs[0].1), subs[1..]);
    }
  }

  /** The component title made safe for a KiCad symbol name: none of space, `.`, `/`, `\`,
      `<`, `>`, `:` and `"` remains, and a title without them is kept as it is. */
  function SanitiseTitle(title: string): (r: string)
    ensures forall c :: c in TitleForbidden ==> c !in r
    ensures (forall c :: c in TitleForbidden ==> c !in title) ==> r == title
  {
    TitleReplacementsAct(title);
    PatternsNonEmpty();
    ReplaceEach(title, TitleReplacements)
  }

  lemma PatternsNonEmpty()
    ensures forall k :: 0 <= k < |TitleReplacements| ==> TitleReplacements[k].0 != []
  {
    PatternsAreForbidden();
  }

  /** The characters a symbol name must not hold. */
  const TitleForbidden: string := " ./\\<>:\""

  lemma TitleReplacementsAct(title: string)
    ensures forall c :: c in TitleForbidden ==> c !in ReplaceEach(title, TitleReplacements)
    ensures (forall c :: c in TitleForbidden ==> c !in title) ==> ReplaceEach(title, TitleReplacements) == title
  {
    TitleForbiddenGone(title);
    if forall c :: c in TitleForbidden ==> c !in title {
      TitleKept(title);
    }
  }

  /** The forbidden characters are the first characters of the patterns, in order. */
  lemma PatternsAreForbidden()
    ensures |TitleForbidden| == 8
    ensures forall k :: 0 <= k < 8 ==> TitleReplacements[k].0[0] == TitleForbidden[k]
  {
    var firsts := seq(8, k requires 0 <= k < 8 => TitleReplacements[k].0[0]);
    assert firsts == TitleForbidden;
  }

  lemma TitleForbiddenGone(title: string)
    ensures forall c :: c in TitleForbidden ==> c !in ReplaceEach(title, TitleReplacements)
  {
    var r := ReplaceEach(title, TitleReplacements);
    ForbiddenAtIndexRemoved(title, r);
    NoneAtIndex(TitleForbidden, r);
  }

  lemma ForbiddenAtIndexRemoved(title: string, r: string)
    requires r == ReplaceEach(title, TitleReplacements)
    ensures forall k :: 0 <= k < |TitleForbidden| ==> TitleForbidden[k] !in r
  {
    TitlePatternsRemoved(title);
    PatternsAreForbidden();
  }

  lemma NoneAtIndex(s: string, t: string)
    requires forall k :: 0 <= k < |s| ==> s[k] !in t
    ensures forall c :: c in s ==> c !in t
  {
  }

  lemma TitleKept(title: string)
    requires forall c :: c in TitleForbidden ==> c !in title
    ensures ReplaceEach(title, TitleReplacements) == title
  {
    PatternsAreForbidden();
    forall k | 0 <= k < 8
      ensures TitleReplacements[k].0[0] !in title
    {
      assert TitleForbidden[k] in TitleForbidden;
    }
    ReplaceEachIdentity(title, TitleReplacements);
  }

  lemma TitlePatternsRemoved(title: string)
    ensures forall k :: 0 <= k < 8 ==> TitleReplacements[k].0[0] !in ReplaceEach(title, TitleReplacements)
  {
    var subs := TitleReplacements;
    assert forall k :: 0 <= k < |subs| ==> |subs[k].0| == 1 && !Inserted(subs[k].0[0]);
    assert forall j :: 0 <= j < |subs| ==> forall ch :: ch in subs[j].1 ==> Inserted(ch);
    forall k | 0 <= k < |subs|
      ensures subs[k].0[0] !in ReplaceEach(title, subs)
    {
      ReplaceEachRemoves(title, subs, k);
    }
  }

  /** The (type, value) pairs of `supported_value_types` present in the attributes, in order. */
  function TypeValues(params: map<string, string>, types: seq<string>): (r: seq<(string, string)>)
    ensures |r| <= |types|
    ensures forall k :: 0 <= k < |r| ==> r[k].0 in params && r[k].1 == params[r[k].0] && r[k].0 in types
    ensures forall t :: t in types ==> (t in params <==> exists k :: 0 <= k < |r| && r[k].0 == t)
  {
    if |types| == 0 then []
    else
      var rest := TypeValues(params, types[1..]);
      if types[0] in params then
        var r := [(types[0], params[types[0]])] + rest;
        assert forall t :: t in types[1..] && t in params ==> exists k :: 0 <= k < |r| && r[k].0 == t by {
          forall t | t in types[1..] && t in params
            ensures exists k :: 0 <= k < |r| && r[k].0 == t
          {
            var k :| 0 <= k < |rest| && rest[k].0 == t;
            assert r[k + 1].0 == t;
          }
        }
        assert r[0].0 == types[0];
        r
      else rest
  }

  /** The loop collecting value attributes. */
  method CollectTypeValues(params: map<string, string>) returns (tv: seq<(string, string)>)
    ensures tv == TypeValues(params, ValueTypes)
  {
    tv := [];
    var i := |ValueTypes|;
    while i > 0
      invariant 0 <= i <= |ValueTypes|
      invariant tv == TypeValues(params, ValueTypes[i..])
    {
      i := i - 1;
      assert ValueTypes[i..][1..] == ValueTypes[i + 1..];
      if ValueTypes[i] in params {
        tv := [(ValueTypes[i], params[ValueTypes[i]])] + tv;
      }
    }
  }

  function PropertyText(kind: string, value: string, id: int): string {
    Property(kind, value, IntToString(id), "0 0 0", ") hide")
  }

  /** The properties in order, numbered from `start`. */
  function PropertyLines(start: int, tv: seq<(string, string)>): (r: seq<string>)
    ensures |r| == |tv|
    ensures forall k :: 0 <= k < |tv| ==> r[k] == PropertyText(tv[k].0, tv[k].1, start + k)
    decreases |tv|
  {
    if |tv| == 0 then []
    else [PropertyText(tv[0].0, tv[0].1, start)] + PropertyLines(start + 1, tv[1..])
  }

  /** `get_type_values_properties`: the properties joined by newlines; none gives "". */
  function TypeValuesProperties(start: int, tv: seq<(string, string)>): (r: string)
    ensures tv == [] ==> r == ""
    ensures |tv| == 1 ==> r == PropertyText(tv[0].0, tv[0].1, start)
  {
    Join("\n", PropertyLines(start, tv))
  }

  /** The library block of a component (`template_lib_component`). */
  function Block(name: string, st: SymState, prefix: string, footprint: string, datasheet: string,
                 componentId: string, tv: seq<(string, string)>, render: Shape -> string): (b: string)
    ensures PrefixAt(b, 0, Opening(name))
    ensures |b| >= 5 && b[|b| - 5..] == "\n  )\n"
  {
    Framed(Opening(name), BlockBody(name, st, prefix, footprint, datasheet, componentId, tv, render), "\n  )\n");
    Opening(name) + BlockBody(name, st, prefix, footprint, datasheet, componentId, tv, render) + "\n  )\n"
  }

  lemma Framed(o: string, body: string, c: string)
    ensures PrefixAt(o + body + c, 0, o)
    ensures (o + body + c)[|o + body + c| - |c|..] == c
  {
    assert (o + body + c)[..|o|] == o;
  }

  /** The block between its opening and its closing parenthesis: flags, the six fixed
      properties, the value properties and the drawing. */
  function BlockBody(name: string, st: SymState, prefix: string, footprint: string, datasheet: string,
                     componentId: string, tv: seq<(string, string)>, render: Shape -> string): string
  {
    Concat([
      st.namesHide + " " + st.numbersHide + " (in_bom yes) (on_board yes)\n",
      "    " + Property("Reference", prefix, "0", "0 1.27 0", ")") + "\n",
      "    " + Property("Value", name, "1", "0 -2.54 0", ")") + "\n",
      "    " + Property("Footprint", footprint, "2", "0 -10.16 0", " italic) hide") + "\n",
      "    " + Property("Datasheet", datasheet, "3", "-2.286 0.127 0", ") (justify left) hide") + "\n",
      "    " + Property("ki_keywords", componentId, "4", "0 0 0", ") hide") + "\n",
      "    " + Property("LCSC", componentId, "5", "0 0 0", ") hide") + "\n",
      "    " + TypeValuesProperties(6, tv),
      DrawingText(st.drawing, render)])
  }

  // ---------------------------------------------------------------------------
  // update_library
  // ---------------------------------------------------------------------------

  /** `update_library` on the file content: skip, replace the first block, or insert the
      block before the last `)` and write the result over the old content. */
  function UpdateLibrary(content: string, name: string, block: string, skip: bool): (r: string)
    ensures Contains(content, Key(name)) && skip ==> r == content
    ensures Contains(content, Key(name)) && !skip && LazySpan(content, Opener(name), Closer, 0).None? ==> r == content
    ensures Contains(content, Key(name)) && !skip && LazySpan(content, Opener(name), Closer, 0).Some? ==>
      var (i, j) := LazySpan(content, Opener(name), Closer, 0).value;
      r == content[..i] + block + content[j..]
    ensures !Contains(content, Key(name)) ==>
      var w := PyPrefix(content, RFindChar(content, ')')) + block + Footer;
      |r| >= |w| && r[..|w|] == w &&
      (|w| < |content| ==> r[|w|..] == content[|w|..]) && (|w| >= |content| ==> r == w)
  {
    if Contains(content, Key(name)) then
      if skip then content else SubFirst(content, Opener(name), Closer, block)
    else
      Overwrite(content, PyPrefix(content, RFindChar(content, ')')) + block + Footer)
  }

  /** Replacing keeps everything outside the first matching span. */
  lemma ReplaceKeepsOutside(content: string, name: string, block: string)
    requires Contains(content, Key(name))
    requires LazySpan(content, Opener(name), Closer, 0).Some?
    ensures var (i, j) := LazySpan(content, Opener(name), Closer, 0).value;
      var r := UpdateLibrary(content, name, block, false);
      r[..i] == content[..i] && r[i..i + |block|] == block && r[i + |block|..] == content[j..]
  {
  }

  /** The last `)` of a file that ends with the footer is the footer's. */
  lemma LastParenIsFooter(h: string)
    ensures RFindChar(h + Footer, ')') == |h|
  {
    var s := h + Footer;
    assert s[|h|] == ')' && s[|h| + 1] == '\n' && |s| == |h| + 2;
  }

  /** A library created from the header and footer gets exactly header, block, footer. */
  lemma FreshLibrary(name: string, block: string, skip: bool)
    ensures UpdateLibrary(LibraryHeader + Footer, name, block, skip) == LibraryHeader + block + Footer
  {
    var s := LibraryHeader + Footer;
    LibraryHeaderUnquoted();
    assert '"' !in Footer;
    assert Key(name)[7] == '"';
    AbsentByChar(s, Key(name), '"');
    LastParenIsFooter(LibraryHeader);
    assert s[..|LibraryHeader|] == LibraryHeader;
  }

  /** After inserting, the presence test of a rerun succeeds. */
  lemma InsertedIsFound(content: string, name: string, block: string)
    requires !Contains(content, Key(name))
    requires PrefixAt(block, 0, Opening(name))
    ensures Contains(UpdateLibrary(content, name, block, false), Key(name))
  {
    var p := PyPrefix(content, RFindChar(content, ')'));
    KeyInBlock(name, block);
    PrefixAtConcat(p, block, Footer, 3, Key(name));
    PrefixKept(UpdateLibrary(content, name, block, false), p + block + Footer, |p| + 3, Key(name));
  }

  // ---------------------------------------------------------------------------
  // create_symbol
  // ---------------------------------------------------------------------------

  /** What the API returns for one uuid. */
  datatype Component = Component(title: string, pre: string, params: map<string, string>,
                                 shape: seq<string>, head: Point)

  /** The arguments of `create_symbol` other than the uuids. */
  datatype Request = Request(footprint: string, datasheet: string, library: string,
                             symbolPath: string, outputDir: string, componentId: string,
                             skipExisting: bool)

  /** The local variables of the uuid loop. */
  datatype Acc = Acc(name: string, prefix: Option<string>, typeValues: seq<(string, string)>,
                     library: string, file: Option<string>, sym: SymState)

  function Start(req: Request): Acc {
    Acc("", None, [], req.library, None, Initial())
  }

  function LibraryFile(req: Request, library: string): string {
    req.outputDir + "/" + req.symbolPath + "/" + library + ".kicad_sym"
  }

  /** The variables every round sets, before the skip test. */
  function Named(acc: Acc, c: Component): Acc {
    acc.(name := NameOf(acc.name, SanitiseTitle(c.title)), prefix := Some(RemoveChar(c.pre, '?')),
         typeValues := TypeValues(c.params, ValueTypes))
  }

  /** A drawn unit: its header, its records and its closing parenthesis. */
  function DrawUnit(acc: Acc, unit: string, c: Component, req: Request, py: Py): Result<Flow<Acc>> {
    var library := if acc.library == "" then acc.name else acc.library;
    var headed := acc.sym.(drawing := acc.sym.drawing + [UnitOpen(unit + "_1")]);
    var drawn :- RunLines(headed, c.shape, c.head, py);
    Ok(Running(acc.(library := library, file := Some(LibraryFile(req, library)),
                    sym := drawn.(drawing := drawn.drawing + [UnitClose]))))
  }

  /** One round of the uuid loop. */
  function UnitStep(acc: Acc, uuids: seq<string>, k: nat, fetched: Option<Component>, req: Request, py: Py): Result<Flow<Acc>>
    requires k < |uuids|
  {
    match fetched
    case None => Ok(Stopped)
    case Some(c) =>
      if Skipped(uuids, k) then Ok(Running(Named(acc, c)))
      else DrawUnit(Named(acc, c), UnitTitle(acc.name, SanitiseTitle(c.title)), c, req, py)
  }

  /** The rounds of `create_symbol`, one per uuid. */
  function Rounds(uuids: seq<string>, fetch: string -> Option<Component>, req: Request, py: Py): (Acc, nat) -> Result<Flow<Acc>> {
    (acc: Acc, i: nat) => if i < |uuids| then UnitStep(acc, uuids, i, fetch(uuids[i]), req, py) else Ok(Stopped)
  }

  /** The loop state after the first `k` uuids. */
  function UnitsUpTo(uuids: seq<string>, k: nat, fetch: string -> Option<Component>, req: Request, py: Py): Result<Flow<Acc>>
    requires k <= |uuids|
  {
    Iterate(Rounds(uuids, fetch, req, py), Start(req), k)
  }

  /** Once the loop has raised or returned, later uuids do not matter. */
  lemma UnitsHalt(uuids: seq<string>, m: nat, n: nat, fetch: string -> Option<Component>, req: Request, py: Py)
    requires m <= n <= |uuids|
    requires !UnitsUpTo(uuids, m, fetch, req, py).Ok? || UnitsUpTo(uuids, m, fetch, req, py).value.Stopped?
    ensures UnitsUpTo(uuids, n, fetch, req, py) == UnitsUpTo(uuids, m, fetch, req, py)
  {
    IterateHalts(Rounds(uuids, fetch, req, py), Start(req), m, n);
  }

  /** A drawn unit adds exactly one unit header. */
  lemma DrawUnitOpensOne(acc: Acc, unit: string, c: Component, req: Request, py: Py)
    requires DrawUnit(acc, unit, c, req, py).Ok?
    ensures DrawUnit(acc, unit, c, req, py).value.Running?
    ensures Opens(DrawUnit(acc, unit, c, req, py).value.acc.sym.drawing) == Opens(acc.sym.drawing) + 1
  {
    var headed := acc.sym.(drawing := acc.sym.drawing + [UnitOpen(unit + "_1")]);
    var drawn := RunLines(headed, c.shape, c.head, py).value;
    RunLinesMonotone(headed, c.shape, c.head, py);
    var added := drawn.drawing[|headed.drawing|..];
    assert drawn.drawing == headed.drawing + added;
    OpensDrawn(added);
    OpensConcat(acc.sym.drawing, [UnitOpen(unit + "_1")]);
    OpensConcat(headed.drawing, added);
    OpensConcat(drawn.drawing, [UnitClose]);
  }

  /** One round adds a unit header exactly when it draws its uuid. */
  lemma RoundOpens(acc: Acc, uuids: seq<string>, k: nat, fetched: Option<Component>, req: Request, py: Py)
    requires k < |uuids|
    requires UnitStep(acc, uuids, k, fetched, req, py).Ok? && UnitStep(acc, uuids, k, fetched, req, py).value.Running?
    ensures Opens(UnitStep(acc, uuids, k, fetched, req, py).value.acc.sym.drawing) ==
            Opens(acc.sym.drawing) + (if Skipped(uuids, k) then 0 else 1)
  {
    var c := fetched.value;
    if !Skipped(uuids, k) {
      DrawUnitOpensOne(Named(acc, c), UnitTitle(acc.name, SanitiseTitle(c.title)), c, req, py);
    }
  }

  /** Every running round of `step` adds a unit header exactly when it draws its uuid. */
  ghost predicate CountsOpens(step: (Acc, nat) -> Result<Flow<Acc>>, uuids: seq<string>) {
    forall acc: Acc, i: nat :: i < |uuids| && step(acc, i).Ok? && step(acc, i).value.Running? ==>
      Opens(step(acc, i).value.acc.sym.drawing) == Opens(acc.sym.drawing) + (if Skipped(uuids, i) then 0 else 1)
  }

  lemma {:induction false} IterateCounted(step: (Acc, nat) -> Result<Flow<Acc>>, start: Acc, uuids: seq<string>, k: nat)
    requires k <= |uuids| && CountsOpens(step, uuids) && Opens(start.sym.drawing) == 0
    requires Iterate(step, start, k).Ok? && Iterate(step, start, k).value.Running?
    ensures Opens(Iterate(step, start, k).value.acc.sym.drawing) == DrawnUnits(uuids, k)
  {
    if k > 0 {
      IterateRunningBefore(step, start, k);
      IterateCounted(step, start, uuids, k - 1);
    }
  }

  lemma RoundsCountOpens(uuids: seq<string>, fetch: string -> Option<Component>, req: Request, py: Py)
    ensures CountsOpens(Rounds(uuids, fetch, req, py), uuids)
  {
    forall acc: Acc, i: nat | i < |uuids| && Rounds(uuids, fetch, req, py)(acc, i).Ok? && Rounds(uuids, fetch, req, py)(acc, i).value.Running?
      ensures Opens(Rounds(uuids, fetch, req, py)(acc, i).value.acc.sym.drawing) ==
              Opens(acc.sym.drawing) + (if Skipped(uuids, i) then 0 else 1)
    {
      RoundOpens(acc, uuids, i, fetch(uuids[i]), req, py);
    }
  }

  /** Each drawn unit contributes exactly one unit header. */
  lemma UnitsCounted(uuids: seq<string>, k: nat, fetch: string -> Option<Component>, req: Request, py: Py)
    requires k <= |uuids|
    requires UnitsUpTo(uuids, k, fetch, req, py).Ok? && UnitsUpTo(uuids, k, fetch, req, py).value.Running?
    ensures Opens(UnitsUpTo(uuids, k, fetch, req, py).value.acc.sym.drawing) == DrawnUnits(uuids, k)
  {
    RoundsCountOpens(uuids, fetch, req, py);
    IterateCounted(Rounds(uuids, fetch, req, py), Start(req), uuids, k);
  }

  /** The file written for this component, or None when the loop left nothing to write. */
  function Outcome(flow: Flow<Acc>, req: Request, disk: map<string, string>, render: Shape -> string): (r: Result<map<string, string>>)
    ensures flow.Stopped? ==> r == Ok(disk)
  {
    match flow
    case Stopped => Ok(disk)
    case Running(acc) =>
      if acc.prefix.None? || acc.file.None? then Err(NameError)
      else
        var block := Block(acc.name, acc.sym, acc.prefix.value, req.footprint, req.datasheet,
                           req.componentId, acc.typeValues, render);
        var file := acc.file.value;
        var content := if file in disk then disk[file] else LibraryHeader + Footer;
        Ok(disk[file := UpdateLibrary(content, acc.name, block, req.skipExisting)])
  }

  /** `create_symbol` as a function of the fetched records and the library files. */
  function CreateSymbolSpec(uuids: seq<string>, fetch: string -> Option<Component>, req: Request,
                            disk: map<string, string>, render: Shape -> string, py: Py): Result<map<string, string>>
  {
    var flow :- UnitsUpTo(uuids, |uuids|, fetch, req, py);
    Outcome(flow, req, disk, render)
  }

  /** With no uuid at all the prefix is never bound and the template raises NameError. */
  lemma NoUuids(fetch: string -> Option<Component>, req: Request, disk: map<string, string>,
                render: Shape -> string, py: Py)
    ensures CreateSymbolSpec([], fetch, req, disk, render, py) == Err(NameError)
  {
  }

  /** A new library file holds exactly header, block and footer. */
  lemma NewFileIsHeaderBlockFooter(acc: Acc, req: Request, disk: map<string, string>, render: Shape -> string)
    requires acc.prefix.Some? && acc.file.Some? && acc.file.value !in disk
    ensures Outcome(Running(acc), req, disk, render) ==
      Ok(disk[acc.file.value := LibraryHeader + Block(acc.name, acc.sym, acc.prefix.value, req.footprint,
                                               req.datasheet, req.componentId, acc.typeValues, render)
                                 + Footer])
  {
    var block := Block(acc.name, acc.sym, acc.prefix.value, req.footprint, req.datasheet,
                       req.componentId, acc.typeValues, render);
    FreshLibrary(acc.name, block, req.skipExisting);
  }

  /** The loop state after `k + 1` uuids, from the state after `k`. */
  lemma UnitsNext(uuids: seq<string>, k: nat, fetch: string -> Option<Component>, req: Request, py: Py, acc: Acc)
    requires k < |uuids|
    requires UnitsUpTo(uuids, k, fetch, req, py) == Ok(Running(acc))
    ensures UnitsUpTo(uuids, k + 1, fetch, req, py) == UnitStep(acc, uuids, k, fetch(uuids[k]), req, py)
  {
    assert Rounds(uuids, fetch, req, py)(acc, k) == UnitStep(acc, uuids, k, fetch(uuids[k]), req, py);
  }

  /** One drawn unit, appended to the symbol object in place. */
  method DrawUnitInto(sym: KicadSymbol, acc: Acc, unit: string, c: Component, req: Request, py: Py)
    returns (r: Result<Acc>)
    requires acc.sym == sym.State()
    modifies sym
    ensures r.Ok? <==> DrawUnit(acc, unit, c, req, py).Ok?
    ensures r.Ok? ==> DrawUnit(acc, unit, c, req, py) == Ok(Running(r.value)) && r.value.sym == sym.State()
  {
    var library := if acc.library == "" then acc.name else acc.library;
    sym.Append(UnitOpen(unit + "_1"));
    var drawn := sym.DrawLines(c.shape, c.head, py);
    if drawn.Err? {
      return Err(drawn.msg);
    }
    sym.Append(UnitClose);
    r := Ok(acc.(library := library, file := Some(LibraryFile(req, library)), sym := sym.State()));
  }

  /** One uuid of the loop, folded into the symbol object. */
  method Round(sym: KicadSymbol, acc: Acc, uuids: seq<string>, k: nat, fetch: string -> Option<Component>, req: Request, py: Py)
    returns (r: Result<Flow<Acc>>)
    requires k < |uuids| && acc.sym == sym.State()
    requires UnitsUpTo(uuids, k, fetch, req, py) == Ok(Running(acc))
    modifies sym
    ensures r == UnitsUpTo(uuids, k + 1, fetch, req, py)
    ensures r.Ok? && r.value.Running? ==> r.value.acc.sym == sym.State()
  {
    UnitsNext(uuids, k, fetch, req, py, acc);
    var fetched := fetch(uuids[k]);
    if fetched.None? {
      return Ok(Stopped);
    }
    var c := fetched.value;
    var title := SanitiseTitle(c.title);
    var tv := CollectTypeValues(c.params);
    var named := acc.(prefix := Some(RemoveChar(c.pre, '?')), typeValues := tv);
    if acc.name == "" {
      named := named.(name := title);
      title := title + "_0";
    }
    assert named == Named(acc, c) && title == UnitTitle(acc.name, SanitiseTitle(c.title));
    if Skipped(uuids, k) {
      r := Ok(Running(named));
    } else {
      var drawn := DrawUnitInto(sym, named, title, c, req, py);
      if drawn.Err? {
        return Err(DrawUnit(named, title, c, req, py).msg);
      }
      r := Ok(Running(drawn.value));
    }
  }

  /** The uuid loop of `create_symbol`, drawing into `sym`. */
  method RunUnits(sym: KicadSymbol, uuids: seq<string>, fetch: string -> Option<Component>, req: Request, py: Py)
    returns (flow: Result<Flow<Acc>>)
    requires sym.State() == Initial()
    modifies sym
    ensures flow == UnitsUpTo(uuids, |uuids|, fetch, req, py)
    ensures flow.Ok? && flow.value.Running? ==> flow.value.acc.sym == sym.State()
  {
    flow := Ok(Running(Start(req)));
    var k: nat := 0;
    while k < |uuids| && flow.Ok? && flow.value.Running?
      invariant 0 <= k <= |uuids|
      invariant UnitsUpTo(uuids, k, fetch, req, py) == flow
      invariant flow.Ok? && flow.value.Running? ==> flow.value.acc.sym == sym.State()
    {
      flow := Round(sym, flow.value.acc, uuids, k, fetch, req, py);
      assert flow == UnitsUpTo(uuids, k + 1, fetch, req, py);
      k := k + 1;
      assert flow == UnitsUpTo(uuids, k, fetch, req, py);
    }
    if k < |uuids| {
      UnitsHalt(uuids, k, |uuids|, fetch, req, py);
    }
  }

  /** `create_symbol`: the uuid loop over one `kicad_symbol` object, then the library update. */
  method CreateSymbol(uuids: seq<string>, fetch: string -> Option<Component>, req: Request,
                      disk: map<string, string>, render: Shape -> string, py: Py)
    returns (r: Result<map<string, string>>)
    ensures r == CreateSymbolSpec(uuids, fetch, req, disk, render, py)
  {
    var sym := new KicadSymbol();
    var flow := RunUnits(sym, uuids, fetch, req, py);
    if flow.Err? {
      return Err(flow.msg);
    }
    r := Outcome(flow.value, req, disk, render);
  }
}
