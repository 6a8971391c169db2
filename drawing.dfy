/** Drawing primitives shared by the three symbol writers (the symbol package, the schematic
    package and the legacy schematic writer): the shapes their handlers append, the pin
    electrical-type table they all repeat, and the polygon point pairing loop. */
module Drawing {
  import opened Wrappers
  import opened Text
  import opened Numeric

  /** The values a pin handler gives the hide flags of the symbol object. */
  const NamesHidden: string := "(pin_names hide)"
  const NumbersHidden: string := "(pin_numbers hide)"

  datatype Fill = NoFill | Background

  /** One graphic item of a symbol unit, carrying the values its handler computed.
      The textual form of numbers is left to a renderer (see README). */
  datatype Shape =
    | Rectangle(start: Point, end: Point, stroke: string)
    | Circle(center: Point, radius: real)
    | Pin(electricalType: string, at: Point, rotation: int, length: real,
          name: string, number: string, nameSize: real, numberSize: real)
    | Text(text: string, at: Point, angle: real, fontSize: real, justify: Option<string>)
    | Polyline(points: seq<Point>, fill: Fill)
    | Arc(start: Point, mid: Point, end: Point)

  /** An entry of the accumulated `drawing` text: a unit header `(symbol "<name>"`, a shape,
      or the closing `)` of the unit. */
  datatype Item = UnitOpen(name: string) | Drawn(shape: Shape) | UnitClose

  /** The drawing text as the writers concatenate it. */
  function DrawingText(items: seq<Item>, render: Shape -> string): string {
    if |items| == 0 then ""
    else
      var head := match items[0]
        case UnitOpen(n) => "\n    (symbol \"" + n + "\""
        case Drawn(s) => render(s)
        case UnitClose => "\n    )";
      head + DrawingText(items[1..], render)
  }

  /** The number of unit headers in a drawing. */
  function Opens(items: seq<Item>): nat {
    if |items| == 0 then 0 else (if items[0].UnitOpen? then 1 else 0) + Opens(items[1..])
  }

  lemma {:induction false} OpensConcat(a: seq<Item>, b: seq<Item>)
    ensures Opens(a + b) == Opens(a) + Opens(b)
    decreases |a|
  {
    if |a| > 0 {
      assert (a + b)[0] == a[0];
      assert (a + b)[1..] == a[1..] + b;
      OpensConcat(a[1..], b);
    } else {
      assert a + b == b;
    }
  }

  lemma {:induction false} OpensDrawn(items: seq<Item>)
    requires forall k :: 0 <= k < |items| ==> items[k].Drawn?
    ensures Opens(items) == 0
    decreases |items|
  {
    if |items| > 0 {
      OpensDrawn(items[1..]);
    }
  }

  /** Pin electrical type from field 1 of a pin record. */
  function PinType(code: string): (t: string)
    ensures code == "1" ==> t == "input"
    ensures code == "2" ==> t == "output"
    ensures code == "3" ==> t == "bidirectional"
    ensures code == "4" ==> t == "power_in"
    ensures code !in {"1", "2", "3", "4"} ==> t == "unspecified"
  {
    if code == "0" then "unspecified"
    else if code == "1" then "input"
    else if code == "2" then "output"
    else if code == "3" then "bidirectional"
    else if code == "4" then "power_in"
    else "unspecified"
  }

  /** `float(data[i])`: raises when the field is missing or malformed. */
  function FloatField(data: seq<string>, i: nat, py: Py): (r: Result<real>)
    ensures r.Ok? <==> i < |data| && py.toFloat(data[i]).Some?
    ensures r.Ok? ==> r.value == py.toFloat(data[i]).value
  {
    var f :- Field(data, i);
    Float(py, f)
  }

  /** `int(data[i])`: raises when the field is missing or malformed. */
  function IntField(data: seq<string>, i: nat, py: Py): (r: Result<int>)
    ensures r.Ok? <==> i < |data| && py.toInt(data[i]).Some?
    ensures r.Ok? ==> r.value == py.toInt(data[i]).value
  {
    var f :- Field(data, i);
    Int(py, f)
  }

  /** Coordinates of pair `k` of a flat token list, when both parse. */
  predicate PairParses(ts: seq<string>, k: nat, py: Py)
    requires 2 * k + 1 < |ts|
  {
    py.toFloat(ts[2 * k]).Some? && py.toFloat(ts[2 * k + 1]).Some?
  }

  function PairAt(ts: seq<string>, k: nat, py: Py): Point
    requires 2 * k + 1 < |ts| && PairParses(ts, k, py)
  {
    Point(py.toFloat(ts[2 * k]).value, py.toFloat(ts[2 * k + 1]).value)
  }

  /** Every round of the pairing loop over `ts` finds both its coordinates and parses them. */
  predicate PairsParse(ts: seq<string>, py: Py) {
    |ts| % 2 == 0 && forall k :: 0 <= k < |ts| / 2 ==> PairParses(ts, k, py)
  }

  /** The points built by the first `n` rounds of the handlers' pairing loop
      `for i ...: append(conv(float(ts[2i]), float(ts[2i+1])))`, or the exception of the first
      round that fails (a malformed number, or a missing odd coordinate). */
  function PairsUpTo(ts: seq<string>, n: nat, conv: Point -> Point, py: Py): (r: Result<seq<Point>>)
    requires n <= (|ts| + 1) / 2
    ensures r.Ok? <==> 2 * n <= |ts| && forall k :: 0 <= k < n ==> PairParses(ts, k, py)
    ensures r.Ok? ==>
      |r.value| == n && forall k :: 0 <= k < n ==> r.value[k] == conv(PairAt(ts, k, py))
  {
    if n == 0 then Ok([])
    else
      var prev := PairsUpTo(ts, n - 1, conv, py);
      if prev.Err? then prev
      else if py.toFloat(ts[2 * (n - 1)]).None? then
        assert 2 * n <= |ts| ==> !PairParses(ts, n - 1, py);
        Err(FloatError)
      else if 2 * (n - 1) + 1 >= |ts| then Err(IndexError)
      else if py.toFloat(ts[2 * (n - 1) + 1]).None? then
        assert !PairParses(ts, n - 1, py);
        Err(FloatError)
      else Ok(prev.value + [conv(PairAt(ts, n - 1, py))])
  }

  /** Once a round has raised, later rounds are never reached. */
  lemma {:induction false} PairsErrPersists(ts: seq<string>, m: nat, n: nat, conv: Point -> Point, py: Py)
    requires m <= n <= (|ts| + 1) / 2 && PairsUpTo(ts, m, conv, py).Err?
    ensures PairsUpTo(ts, n, conv, py) == PairsUpTo(ts, m, conv, py)
    decreases n - m
  {
    if m < n {
      PairsErrPersists(ts, m, n - 1, conv, py);
    }
  }

  /** ceil(n/2): the number of rounds of the pairing loop, which runs over `ts[::2]`. */
  function HalfUp(n: nat): (r: nat)
    ensures n <= 2 * r <= n + 1
  {
    (n + 1) / 2
  }

  /** Python's `ts[::2]`: the tokens at even positions, in order; there are `HalfUp(|ts|)`
      of them, so the loop runs once per token it pairs as x. */
  function EveryOther(ts: seq<string>): (r: seq<string>)
    ensures |r| == HalfUp(|ts|)
    ensures forall k :: 0 <= k < |r| ==> r[k] == ts[2 * k]
    decreases |ts|
  {
    if |ts| == 0 then []
    else if |ts| == 1 then [ts[0]]
    else [ts[0]] + EveryOther(ts[2..])
  }

  /** The pairing loop of PL/PG: with an odd token count the last round raises. */
  lemma PairsOddFails(ts: seq<string>, conv: Point -> Point, py: Py)
    requires |ts| % 2 == 1
    ensures PairsUpTo(ts, HalfUp(|ts|), conv, py).Err?
  {
  }

  /** The pairing loop itself, appending one point per round. */
  method PolyPoints(ts: seq<string>, count: nat, conv: Point -> Point, py: Py) returns (r: Result<seq<Point>>)
    requires count <= (|ts| + 1) / 2
    ensures r == PairsUpTo(ts, count, conv, py)
  {
    var pts: seq<Point> := [];
    var i := 0;
    while i < count
      invariant 0 <= i <= count
      invariant PairsUpTo(ts, i, conv, py) == Ok(pts)
    {
      var x := py.toFloat(ts[2 * i]);
      if x.None? {
        PairsErrPersists(ts, i + 1, count, conv, py);
        return Err(FloatError);
      }
      if 2 * i + 1 >= |ts| {
        PairsErrPersists(ts, i + 1, count, conv, py);
        return Err(IndexError);
      }
      var y := py.toFloat(ts[2 * i + 1]);
      if y.None? {
        PairsErrPersists(ts, i + 1, count, conv, py);
        return Err(FloatError);
      }
      pts := pts + [conv(Point(x.value, y.value))];
      i := i + 1;
    }
    return Ok(pts);
  }

  /** `polypts.append(polypts[0])`: closes a polygon, raising on an empty one. */
  function Closed(pts: seq<Point>): (r: Result<seq<Point>>)
    ensures r.Ok? <==> |pts| > 0
    ensures r.Ok? ==> |r.value| == |pts| + 1 && r.value[..|pts|] == pts && r.value[|pts|] == pts[0]
  {
    if |pts| == 0 then Err(IndexError) else Ok(pts + [pts[0]])
  }

  // ---------------------------------------------------------------------------
  // Library files
  // ---------------------------------------------------------------------------

  /** The first line of a new `.kicad_sym` library. */
  const LibraryHeader: string := "(kicad_symbol_lib " + "(version 20210201) " + "(generator TousstNicolas/" + "JLC2KiCad_lib)\n"

  lemma LibraryHeaderUnquoted()
    ensures '"' !in LibraryHeader
  {
    assert '"' !in "(kicad_symbol_lib ";
    assert '"' !in "(version 20210201) ";
    assert '"' !in "(generator TousstNicolas/";
    assert '"' !in "JLC2KiCad_lib)\n";
  }

  /** One property of a block; `effects` closes the font clause and adds the rest. */
  function Property(kind: string, value: string, id: string, at: string, effects: string): string {
    "(property \"" + kind + "\" \"" + value + "\" (id " + id + ") (at " + at + ")\n" +
    "      (effects (font (size 1.27 1.27)" + effects + ")\n" +
    "    )"
  }

  /** The first line of a block up to the hide flags. */
  function Opening(name: string): string {
    "  (symbol \"" + name + "\" "
  }

  /** The literal that marks a component as present in a library. */
  function Key(name: string): string {
    "symbol \"" + name + "\""
  }

  /** The opener of the regex `  \(symbol "<name>" (\n|.)*?\n  \)`. */
  function Opener(name: string): seq<PChar> {
    Lit(Opening(name))
  }

  const Closer: string := "\n  )"

  /** The presence key sits three characters into every block of that name. */
  lemma KeyInBlock(name: string, block: string)
    requires PrefixAt(block, 0, Opening(name))
    ensures PrefixAt(block, 3, Key(name))
  {
    var o := Opening(name);
    assert o == "  (" + Key(name) + " ";
    assert block[3..3 + |Key(name)|] == o[3..3 + |Key(name)|];
  }

  /** What occurs in a prefix of `r` occurs in `r`. */
  lemma PrefixKept(r: string, w: string, j: nat, k: string)
    requires |w| <= |r| && r[..|w|] == w && PrefixAt(w, j, k)
    ensures PrefixAt(r, j, k)
  {
    assert r[j..j + |k|] == w[j..j + |k|];
  }
}
