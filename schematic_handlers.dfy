/** The shape decoders of the schematic package (`JLC2KiCadLib/schematic/schematic_handlers.py`).
    Coordinates go through an affine frame: scale by 0.254, negate y, then subtract the
    offsets (101.6, -63.5). The frame is a parameter so that the legacy writer, which repeats
    most of these decoders with its own frame, reuses them. */
module SchematicHandlers {
  import opened Wrappers
  import opened Text
  import opened Numeric
  import opened Drawing

  /** `RELATIVE_OFFSET`, `ABSOLUTE_OFFSET_X` and `ABSOLUTE_OFFSET_Y` of a schematic writer. */
  datatype Frame = Frame(scale: real, offsetX: real, offsetY: real)

  const PackageFrame: Frame := Frame(0.254, 101.6, -63.5)

  /** The tags of the handler table. */
  const Tags: set<string> := {"R", "E", "P", "T", "PL", "PG", "PT", "A"}

  /** `X = x * RELATIVE_OFFSET - ABSOLUTE_OFFSET_X` and `Y = -y * RELATIVE_OFFSET - ABSOLUTE_OFFSET_Y`. */
  function Place(p: Point, f: Frame): Point {
    Point(p.x * f.scale - f.offsetX, -p.y * f.scale - f.offsetY)
  }

  function PlaceIn(f: Frame): Point -> Point {
    (p: Point) => Place(p, f)
  }

  /** The inverse of `Place` for a non-zero scale. */
  function Unplace(q: Point, f: Frame): Point
    requires f.scale != 0.0
  {
    Point((q.x + f.offsetX) / f.scale, -(q.y + f.offsetY) / f.scale)
  }

  lemma UnplacePlace(p: Point, f: Frame)
    requires f.scale != 0.0
    ensures Unplace(Place(p, f), f) == p
  {
    assert (p.x * f.scale - f.offsetX + f.offsetX) / f.scale == p.x;
    assert -(-p.y * f.scale - f.offsetY + f.offsetY) / f.scale == p.y;
  }

  /** The current frame is X = 0.254 x - 101.6, Y = -0.254 y + 63.5. */
  lemma PackagePlace(p: Point)
    ensures Place(p, PackageFrame) == Point(0.254 * p.x - 101.6, -0.254 * p.y + 63.5)
  {
  }

  // ---------------------------------------------------------------------------
  // Rectangles and circles
  // ---------------------------------------------------------------------------

  /** The field holding the rectangle width: 4 in a 12-field record, 2 otherwise; the height
      follows it. */
  function RectSizeField(n: nat): (i: nat)
    ensures n == 12 ==> i == 4
    ensures n != 12 ==> i == 2
  {
    if n == 12 then 4 else 2
  }

  /** `float(data[i])` succeeds. */
  predicate Parses(data: seq<string>, i: nat, py: Py) {
    i < |data| && py.toFloat(data[i]).Some?
  }

  function Val(data: seq<string>, i: nat, py: Py): real
    requires Parses(data, i, py)
  {
    py.toFloat(data[i]).value
  }

  /** `h_R`: the corner from fields 0/1 and the opposite corner that much further by the
      width and height fields. */
  function DecodeRect(data: seq<string>, f: Frame, py: Py): (r: Result<Shape>)
    ensures var i := RectSizeField(|data|);
      r.Ok? <==> Parses(data, 0, py) && Parses(data, 1, py) && Parses(data, i, py) && Parses(data, i + 1, py)
    ensures r.Ok? ==> var i := RectSizeField(|data|);
      var x := Val(data, 0, py); var y := Val(data, 1, py);
      r.value == Rectangle(Place(Point(x, y), f),
                           Place(Point(x + Val(data, i, py), y + Val(data, i + 1, py)), f), "default")
  {
    var i := RectSizeField(|data|);
    var x1 :- FloatField(data, 0, py);
    var y1 :- FloatField(data, 1, py);
    var w :- FloatField(data, i, py);
    var h :- FloatField(data, i + 1, py);
    Ok(Rectangle(Place(Point(x1, y1), f), Place(Point(x1 + w, y1 + h), f), "default"))
  }

  /** The drawn rectangle spans the record's width and height, scaled, with y pointing down. */
  lemma RectSpan(data: seq<string>, f: Frame, py: Py)
    requires DecodeRect(data, f, py).Ok?
    ensures var s := DecodeRect(data, f, py).value; var i := RectSizeField(|data|);
      s.end.x - s.start.x == Val(data, i, py) * f.scale &&
      s.end.y - s.start.y == -Val(data, i + 1, py) * f.scale
  {
    var i := RectSizeField(|data|);
    var x := Val(data, 0, py);
    var y := Val(data, 1, py);
    var w := Val(data, i, py);
    var h := Val(data, i + 1, py);
    assert (x + w) * f.scale - x * f.scale == w * f.scale;
    assert -(y + h) * f.scale + y * f.scale == -h * f.scale;
  }

  /** `h_E`: centre from fields 0/1, radius from field 2, scaled. */
  function DecodeCircle(data: seq<string>, f: Frame, py: Py): (r: Result<Shape>)
    ensures r.Ok? <==> Parses(data, 0, py) && Parses(data, 1, py) && Parses(data, 2, py)
    ensures r.Ok? ==> r.value.Circle? && r.value.center == Place(Point(Val(data, 0, py), Val(data, 1, py)), f) &&
                      r.value.radius == Val(data, 2, py) * f.scale
  {
    var x :- FloatField(data, 0, py);
    var y :- FloatField(data, 1, py);
    var radius :- FloatField(data, 2, py);
    Ok(Circle(Place(Point(x, y), f), radius * f.scale))
  }

  // ---------------------------------------------------------------------------
  // Pins
  // ---------------------------------------------------------------------------

  /** `data.insert(5, "0")` for 24 fields, `data.insert(1, "0")` for 28: a record that lacks
      its rotation (or its leading flag) gets a "0" in that place; other lengths are kept. */
  function Realign(data: seq<string>): (r: seq<string>)
    ensures |data| == 24 ==> |r| == 25 && r[5] == "0" && r[..5] == data[..5] && r[6..] == data[5..]
    ensures |data| == 28 ==> |r| == 29 && r[1] == "0" && r[..1] == data[..1] && r[2..] == data[1..]
    ensures |data| != 24 && |data| != 28 ==> r == data
  {
    if |data| == 24 then data[..5] + ["0"] + data[5..]
    else if |data| == 28 then data[..1] + ["0"] + data[1..]
    else data
  }

  /** Pin orientation: one of four angles turned by 180 degrees, and 0 for any other field. */
  function PinRotation(field: string): (r: int)
    ensures r in {0, 90, 180, 270}
    ensures field in {"0", "90", "180", "270"} ==> r == (DigitsValue(field) + 180) % 360
    ensures field !in {"0", "90", "180", "270"} ==> r == 0
  {
    if field == "0" then 180
    else if field == "90" then 270
    else if field == "180" then 0
    else if field == "270" then 90
    else 0
  }

  /** Pin length from field 8: after its last `h` when horizontal, its last `v` when vertical. */
  function PinLength(rotation: int, field: string, f: Frame, py: Py): (r: Result<real>)
    requires rotation in {0, 90, 180, 270}
    ensures rotation in {0, 180} ==> (r.Ok? <==> py.toFloat(LastPiece(field, "h")).Some?)
    ensures rotation in {0, 180} && r.Ok? ==> r.value == Abs(py.toFloat(LastPiece(field, "h")).value) * f.scale
    ensures rotation in {90, 270} ==> (r.Ok? <==> py.toFloat(LastPiece(field, "v")).Some?)
    ensures rotation in {90, 270} && r.Ok? ==> r.value == Abs(py.toFloat(LastPiece(field, "v")).value) * f.scale
  {
    if rotation == 0 || rotation == 180 then
      var v :- Float(py, LastPiece(field, "h"));
      Ok(Abs(v) * f.scale)
    else
      var v :- Float(py, LastPiece(field, "v"));
      Ok(Abs(v) * f.scale)
  }

  /** What a pin record says before its label block: type, number, name, position,
      rotation and length. */
  datatype PinBase = PinBase(electricalType: string, number: string, name: string, at: Point,
                             rotation: int, length: real)

  /** The part of `h_P` outside its `try`: fields 1 (type), 2 (number), 13 (name),
      3/4 (position), 5 (rotation) and 8 (length). Its exceptions propagate. */
  function DecodePinBase(data: seq<string>, f: Frame, py: Py): (r: Result<PinBase>)
    ensures r.Ok? ==> |data| > 13 && Parses(data, 3, py) && Parses(data, 4, py)
    ensures r.Ok? ==> r.value.electricalType == PinType(data[1]) && r.value.number == data[2] &&
                      r.value.name == data[13] && r.value.at == Place(Point(Val(data, 3, py), Val(data, 4, py)), f)
    ensures r.Ok? ==> r.value.rotation == PinRotation(data[5]) && r.value.rotation in {0, 90, 180, 270}
    ensures r.Ok? ==> PinLength(r.value.rotation, data[8], f, py) == Ok(r.value.length)
  {
    var code :- Field(data, 1);
    var number :- Field(data, 2);
    var name :- Field(data, 13);
    var x :- FloatField(data, 3, py);
    var y :- FloatField(data, 4, py);
    var rotation := PinRotation(data[5]);
    var length :- PinLength(rotation, data[8], f, py);
    Ok(PinBase(PinType(code), number, name, Place(Point(x, y), f), rotation, length))
  }

  function PinShape(b: PinBase, nameSize: real, numberSize: real): Shape {
    Pin(b.electricalType, b.at, b.rotation, b.length, b.name, b.number, nameSize, numberSize)
  }

  /** `not flag and field.split("^^")[1] == "0"`: the flag is set to `hidden` only when it is
      still empty and the pin hides that label; the field is read only when the flag is empty. */
  function HideIf(flag: string, field: Result<string>, hidden: string): (r: Result<string>)
    ensures flag != "" ==> r == Ok(flag)
    ensures r.Ok? ==> r.value == flag || (flag == "" && r.value == hidden)
  {
    if flag != "" then Ok(flag)
    else
      var text :- field;
      var parts := Split(text, "^^");
      if |parts| < 2 then Err(IndexError)
      else Ok(if parts[1] == "0" then hidden else flag)
  }

  /** A font size field `"<n>pt"`, scaled. */
  function SizeField(data: seq<string>, i: nat, f: Frame, py: Py): (r: Result<real>)
    ensures r.Ok? <==> i < |data| && py.toFloat(Replace(data[i], "pt", "")).Some?
    ensures r.Ok? ==> r.value == py.toFloat(Replace(data[i], "pt", "")).value * f.scale
  {
    var text :- Field(data, i);
    var v :- Float(py, Replace(text, "pt", ""));
    Ok(v * f.scale)
  }

  /** The outcome of the `try` block of `h_P`: both hide flags and both font sizes. */
  datatype Labels = Labels(namesHide: string, numbersHide: string, nameSize: real, numberSize: real)

  /** The `try` block of a pin handler: each hide flag is set when it is still empty and the
      pin hides that label, then both font sizes are read from fields 16 and 24. An exception
      leaves the flags as far as they got and both sizes at `default` (1 in the current handlers, 0.6
      in the legacy writer). */
  function PinLabels(namesHide: string, numbersHide: string, data: seq<string>, f: Frame, default: real, py: Py): (r: Labels)
    ensures r.namesHide == namesHide || (namesHide == "" && r.namesHide == NamesHidden)
    ensures r.numbersHide == numbersHide || (numbersHide == "" && r.numbersHide == NumbersHidden)
    ensures SizeField(data, 16, f, py).Ok? && SizeField(data, 24, f, py).Ok? &&
            HideIf(namesHide, Field(data, 9), NamesHidden).Ok? &&
            HideIf(numbersHide, Field(data, 17), NumbersHidden).Ok? ==>
      r.nameSize == SizeField(data, 16, f, py).value && r.numberSize == SizeField(data, 24, f, py).value
    ensures SizeField(data, 16, f, py).Err? || SizeField(data, 24, f, py).Err? ==>
      r.nameSize == default && r.numberSize == default
    ensures HideIf(namesHide, Field(data, 9), NamesHidden).Err? ==>
      r == Labels(namesHide, numbersHide, default, default)
    ensures HideIf(namesHide, Field(data, 9), NamesHidden).Ok? &&
            HideIf(numbersHide, Field(data, 17), NumbersHidden).Err? ==>
      r == Labels(HideIf(namesHide, Field(data, 9), NamesHidden).value, numbersHide, default, default)
  {
    var names := HideIf(namesHide, Field(data, 9), NamesHidden);
    if names.Err? then Labels(namesHide, numbersHide, default, default)
    else
      var numbers := HideIf(numbersHide, Field(data, 17), NumbersHidden);
      if numbers.Err? then Labels(names.value, numbersHide, default, default)
      else
        var nameSize := SizeField(data, 16, f, py);
        var numberSize := SizeField(data, 24, f, py);
        if nameSize.Err? || numberSize.Err? then Labels(names.value, numbers.value, default, default)
        else Labels(names.value, numbers.value, nameSize.value, numberSize.value)
  }

  /** A decoded pin and the hide flags after it. */
  datatype PinRecord = PinRecord(pin: Shape, namesHide: string, numbersHide: string)

  /** `h_P` of the current generation: realignment, then the base fields, then the label block. */
  function DecodePin(namesHide: string, numbersHide: string, data: seq<string>, py: Py): (r: Result<PinRecord>)
    ensures r.Ok? <==> DecodePinBase(Realign(data), PackageFrame, py).Ok?
    ensures r.Ok? ==> r.value.pin.Pin? && r.value.pin.rotation in {0, 90, 180, 270}
    ensures r.Ok? ==> r.value.namesHide == namesHide || (namesHide == "" && r.value.namesHide == NamesHidden)
    ensures r.Ok? ==> r.value.numbersHide == numbersHide || (numbersHide == "" && r.value.numbersHide == NumbersHidden)
    ensures r.Ok? ==>
      var b := DecodePinBase(Realign(data), PackageFrame, py).value;
      var labels := PinLabels(namesHide, numbersHide, Realign(data), PackageFrame, 1.0, py);
      r.value.pin.electricalType == b.electricalType && r.value.pin.number == b.number &&
      r.value.pin.name == b.name && r.value.pin.at == b.at && r.value.pin.rotation == b.rotation &&
      r.value.pin.length == b.length &&
      r.value.pin.nameSize == labels.nameSize && r.value.pin.numberSize == labels.numberSize &&
      r.value.namesHide == labels.namesHide && r.value.numbersHide == labels.numbersHide
  {
    var fields := Realign(data);
    var base :- DecodePinBase(fields, PackageFrame, py);
    var labels := PinLabels(namesHide, numbersHide, fields, PackageFrame, 1.0, py);
    Ok(PinRecord(PinShape(base, labels.nameSize, labels.numberSize), labels.namesHide, labels.numbersHide))
  }

  // ---------------------------------------------------------------------------
  // Text
  // ---------------------------------------------------------------------------

  /** A real that is a whole number. */
  predicate Whole(v: real) {
    v.Floor as real == v
  }

  /** Python's float `x % 3600`: the remainder has the sign of the divisor. */
  function Mod3600(x: real): (r: real)
    ensures 0.0 <= r < 3600.0
    ensures Whole((x - r) / 3600.0)
    ensures 0.0 <= x < 3600.0 ==> r == x
  {
    var q := (x / 3600.0).Floor;
    assert (x - (x - 3600.0 * (q as real))) / 3600.0 == q as real;
    x - 3600.0 * (q as real)
  }

  /** `(float(data[3]) * 10 + 1800) % 3600`: the angle in tenths of a degree, turned by 180. */
  function TextAngle(a: real): (r: real)
    ensures 0.0 <= r < 3600.0
    ensures Whole((a * 10.0 + 1800.0 - r) / 3600.0)
  {
    Mod3600(a * 10.0 + 1800.0)
  }

  /** `h_T`: position from fields 1/2, angle 3, font size 6 (scaled), text 10. */
  function DecodeText(data: seq<string>, f: Frame, py: Py): (r: Result<Shape>)
    ensures r.Ok? <==> |data| > 10 && Parses(data, 1, py) && Parses(data, 2, py) && Parses(data, 3, py) &&
                       SizeField(data, 6, f, py).Ok?
    ensures r.Ok? ==> r.value.Text? && r.value.text == data[10] && r.value.justify == None &&
                      r.value.at == Place(Point(Val(data, 1, py), Val(data, 2, py)), f) &&
                      r.value.angle == TextAngle(Val(data, 3, py)) && 0.0 <= r.value.angle < 3600.0
  {
    var x :- FloatField(data, 1, py);
    var y :- FloatField(data, 2, py);
    var a :- FloatField(data, 3, py);
    var size :- SizeField(data, 6, f, py);
    var text :- Field(data, 10);
    Ok(Text(text, Place(Point(x, y), f), TextAngle(a), size, None))
  }

  // ---------------------------------------------------------------------------
  // Polylines, polygons, triangles
  // ---------------------------------------------------------------------------

  /** `h_PL`: an open polyline over the space-separated tokens of field 0, empty ones kept. */
  function DecodePolyline(data: seq<string>, f: Frame, py: Py): (r: Result<Shape>)
    ensures r.Ok? <==> |data| > 0 && PairsParse(Split(data[0], " "), py)
    ensures r.Ok? ==> |data| > 0
    ensures r.Ok? ==> var ts := Split(data[0], " ");
      r.value.Polyline? && r.value.fill == NoFill && |ts| % 2 == 0 && |r.value.points| == |ts| / 2 &&
      forall k :: 0 <= k < |ts| / 2 ==> PairParses(ts, k, py) && r.value.points[k] == Place(PairAt(ts, k, py), f)
  {
    var d0 :- Field(data, 0);
    var ts := Split(d0, " ");
    var pts :- PairsUpTo(ts, HalfUp(|ts|), PlaceIn(f), py);
    Ok(Polyline(pts, NoFill))
  }

  /** The closed, filled polygon over a token list: its first point repeated at the end. */
  function ClosedPath(ts: seq<string>, f: Frame, py: Py): (r: Result<Shape>)
    ensures r.Ok? <==> |ts| > 0 && PairsParse(ts, py)
    ensures r.Ok? ==> |ts| % 2 == 0 && |ts| > 0
    ensures r.Ok? ==> (r.value.Polyline? && r.value.fill == Background &&
      |r.value.points| == |ts| / 2 + 1 && r.value.points[|ts| / 2] == r.value.points[0] &&
      forall k :: 0 <= k < |ts| / 2 ==> PairParses(ts, k, py) && r.value.points[k] == Place(PairAt(ts, k, py), f))
  {
    var pts :- PairsUpTo(ts, HalfUp(|ts|), PlaceIn(f), py);
    var closed :- Closed(pts);
    Ok(Polyline(closed, Background))
  }

  /** `h_PG` of the current generation: the tokens of field 0 with the empty ones dropped. */
  function DecodePolygon(data: seq<string>, f: Frame, py: Py): (r: Result<Shape>)
    ensures |data| == 0 ==> r.Err?
    ensures |data| > 0 ==> r == ClosedPath(NonEmpty(Split(data[0], " ")), f, py)
  {
    var d0 :- Field(data, 0);
    ClosedPath(NonEmpty(Split(d0, " ")), f, py)
  }

  /** `h_PT` of the current generation: field 0 without `M `, `L ` and ` Z`, then drawn as by `h_PG`. */
  function TriangleField(d: string): string {
    Replace(Replace(Replace(d, "M ", ""), "L ", ""), " Z", "")
  }

  function DecodeTriangle(data: seq<string>, f: Frame, py: Py): (r: Result<Shape>)
    ensures |data| == 0 ==> r.Err?
    ensures |data| > 0 ==> r == DecodePolygon(data[0 := TriangleField(data[0])], f, py)
  {
    var d0 :- Field(data, 0);
    DecodePolygon(data[0 := TriangleField(d0)], f, py)
  }

  /** The point loops of `h_PL`, `h_PG` and `h_PT`, appending one point per pair of tokens. */
  method PolygonShape(tag: string, data: seq<string>, f: Frame, py: Py) returns (s: Result<Shape>)
    requires tag in {"PL", "PG", "PT"}
    ensures tag == "PL" ==> s == DecodePolyline(data, f, py)
    ensures tag == "PG" ==> s == DecodePolygon(data, f, py)
    ensures tag == "PT" ==> s == DecodeTriangle(data, f, py)
  {
    if |data| == 0 {
      return Err(IndexError);
    }
    if tag == "PL" {
      var ts := Split(data[0], " ");
      var pts := PolyPoints(ts, HalfUp(|ts|), PlaceIn(f), py);
      if pts.Err? {
        return Err(pts.msg);
      }
      return Ok(Polyline(pts.value, NoFill));
    }
    var field := if tag == "PT" then TriangleField(data[0]) else data[0];
    assert tag == "PT" ==> DecodeTriangle(data, f, py) == DecodePolygon(data[0 := field], f, py);
    var ts := NonEmpty(Split(field, " "));
    var pts := PolyPoints(ts, HalfUp(|ts|), PlaceIn(f), py);
    if pts.Err? {
      return Err(pts.msg);
    }
    if |pts.value| == 0 {
      return Err(IndexError);
    }
    return Ok(Polyline(pts.value + [pts.value[0]], Background));
  }

  // ---------------------------------------------------------------------------
  // h_A: the centre parameterisation ported from the EasyEDA editor (`getCenterParam`)
  // ---------------------------------------------------------------------------

  /** The characters of the regex class `[eE ,\-\+.\d]`. */
  predicate ArcChar(c: char) {
    c == 'e' || c == 'E' || c == ' ' || c == ',' || c == '-' || c == '+' || c == '.' || IsDigit(c)
  }

  /** The end of the run of class characters that starts at `j`. */
  function RunEnd(s: string, j: nat): (e: nat)
    requires j <= |s|
    ensures j <= e <= |s|
    ensures forall k :: j <= k < e ==> ArcChar(s[k])
    ensures e == |s| || !ArcChar(s[e])
    decreases |s| - j
  {
    if j < |s| && ArcChar(s[j]) then RunEnd(s, j + 1) else j
  }

  /** `re.findall(r"([MA])([eE ,\-\+.\d]+)", s)` from position `i`, keeping the second group of
      each match: a command letter followed by the longest run of number characters. */
  function ArcGroups(s: string, i: nat): (gs: seq<string>)
    requires i <= |s|
    ensures forall k :: 0 <= k < |gs| ==> gs[k] != [] && forall j :: 0 <= j < |gs[k]| ==> ArcChar(gs[k][j])
    decreases |s| - i
  {
    if i + 1 >= |s| then []
    else if (s[i] == 'M' || s[i] == 'A') && ArcChar(s[i + 1]) then
      var e := RunEnd(s, i + 1);
      [s[i + 1..e]] + ArcGroups(s, e)
    else ArcGroups(s, i + 1)
  }

  /** `[i for i in re.split(r" |,", g) if i]`. */
  function ArcNumbers(g: string): seq<string> {
    NonEmpty(SplitAny(g, {' ', ','}))
  }

  /** The numbers `getCenterParam` reads, named as in the source: `e`, `t` from the first
      match; `s`, `l`, `r`, `o`, `n`, `a` from items 0, 1, 3, 4, 5, 6 of the second. */
  datatype CentreInput = CentreInput(e: real, t: real, s: real, l: real, r: real, o: real, n: real, a: real)

  /** Every number `getCenterParam` reads is there and parses: items 0 and 1 of the first
      match, items 0, 1, 3, 4, 5 and 6 of the second (item 2, the rotation, is never read). */
  predicate CentreParses(groups: seq<string>, py: Py) {
    |groups| >= 2 &&
    var first := ArcNumbers(groups[0]);
    var second := ArcNumbers(groups[1]);
    Parses(first, 0, py) && Parses(first, 1, py) &&
    Parses(second, 0, py) && Parses(second, 1, py) && Parses(second, 3, py) &&
    Parses(second, 4, py) && Parses(second, 5, py) && Parses(second, 6, py)
  }

  function ParseCentre(groups: seq<string>, py: Py): (r: Result<CentreInput>)
    ensures r.Ok? <==> CentreParses(groups, py)
    ensures r.Ok? ==>
      var first := ArcNumbers(groups[0]);
      var second := ArcNumbers(groups[1]);
      r.value == CentreInput(Val(first, 0, py), Val(first, 1, py), Val(second, 0, py), Val(second, 1, py),
                             Val(second, 3, py), Val(second, 4, py), Val(second, 5, py), Val(second, 6, py))
  {
    var g0 :- Field(groups, 0);
    var first := ArcNumbers(g0);
    var e :- FloatField(first, 0, py);
    var t :- FloatField(first, 1, py);
    var g1 :- Field(groups, 1);
    var second := ArcNumbers(g1);
    var s :- FloatField(second, 0, py);
    var l :- FloatField(second, 1, py);
    var r :- FloatField(second, 3, py);
    var o :- FloatField(second, 4, py);
    var n :- FloatField(second, 5, py);
    var a :- FloatField(second, 6, py);
    Ok(CentreInput(e, t, s, l, r, o, n, a))
  }

  /** The local `c(e, t, n, a)`: the angle between two vectors through `acos`, raising
      ZeroDivisionError when the product of their norms is zero. */
  function VectorAngle(e: real, t: real, n: real, a: real, py: Py): (r: Result<real>)
    ensures r.Ok? <==> py.sqrt((e * e + t * t) * (n * n + a * a)) != 0.0
  {
    var norm := py.sqrt((e * e + t * t) * (n * n + a * a));
    if norm == 0.0 then Err(ZeroDivision) else Ok(py.acos((e * n + t * a) / norm))
  }

  /** The result of `getCenterParam`: centre, start angle and angle extent. */
  datatype Centre = Centre(cx: real, cy: real, theta: real, dtheta: real)

  /** What `getCenterParam` has computed when it reaches its angle loops: either an early
      return, or the centre, the start angle and the extent still to be normalised. */
  datatype Setup = Early(result: Centre) | Sweep(cx: real, cy: real, theta: real, m: real)

  /** The chord midpoint ((e + n) / 2, (t + a) / 2). */
  function Mid(p: CentreInput): (real, real) {
    ((p.e + p.n) / 2.0, (p.t + p.a) / 2.0)
  }

  /** `getCenterParam` up to its `while` loops. Both radii are taken as absolute values;
      equal radii drop the rotation; a radius below 1e-5 returns the chord midpoint with a
      half turn; a degenerate ellipse returns the midpoint with zero angles. */
  function CentreSetup(p: CentreInput, py: Py): (r: Result<Setup>)
    ensures r.Ok? && (Abs(p.o) < 0.00001 || Abs(p.s) < 0.00001) ==>
      r.value.Early? && (r.value.result.cx, r.value.result.cy) == Mid(p) && r.value.result.dtheta == Pi
    ensures r.Ok? && r.value.Early? && !(Abs(p.o) < 0.00001 || Abs(p.s) < 0.00001) ==>
      r.value.result == Centre(Mid(p).0, Mid(p).1, 0.0, 0.0)
  {
    var o := Abs(p.o);
    var s := Abs(p.s);
    CentreFrom(p.e, p.t, p.n, p.a, o, s, if o == s then 0.0 else p.l, py)
  }

  /** `getCenterParam` once the radii are absolute and the rotation `l` is settled. */
  function CentreFrom(e: real, t: real, n: real, a: real, o: real, s: real, l: real, py: Py): (r: Result<Setup>)
    requires o >= 0.0 && s >= 0.0
    ensures r.Ok? && (o < 0.00001 || s < 0.00001) ==>
      r.value.Early? && r.value.result.cx == (e + n) / 2.0 && r.value.result.cy == (t + a) / 2.0 && r.value.result.dtheta == Pi
    ensures r.Ok? && r.value.Early? && !(o < 0.00001 || s < 0.00001) ==>
      r.value.result == Centre((e + n) / 2.0, (t + a) / 2.0, 0.0, 0.0)
  {
    var sinL := py.sin(l);
    var cosL := py.cos(l);
    var b := (e - n) / 2.0;
    var v := (t - a) / 2.0;
    var cx := (e + n) / 2.0;
    var cy := (t + a) / 2.0;
    if o < 0.00001 || s < 0.00001 then
      var h :- VectorAngle(1.0, 0.0, n - e, a - t, py);
      Ok(Early(Centre(cx, cy, h, Pi)))
    else
      CentreSweep(o, s, cosL * b + sinL * v, cosL * v - sinL * b, sinL, cosL, cx, cy, py)
  }

  /** The second half of `getCenterParam` before its loops, from the radii `o`, `s` (both
      at least 1e-5), the rotated half chord (A, T) and the sine and cosine of the rotation. */
  function CentreSweep(o: real, s: real, A: real, T: real, sinL: real, cosL: real, cx: real, cy: real, py: Py)
    : (r: Result<Setup>)
    requires o >= 0.00001 && s >= 0.00001
    ensures r.Ok? && r.value.Early? ==> r.value.result == Centre(cx, cy, 0.0, 0.0)
  {
    assert o * o > 0.0 && s * s > 0.0;
    var D := A * A / (o * o) + T * T / (s * s);
    var o2 := if D > 1.0 then o * py.sqrt(D) else o;
    var s2 := if D > 1.0 then s * py.sqrt(D) else s;
    var M := o2 * T;
    var I := s2 * A;
    var L := M * M + I * I;
    if L == 0.0 then Ok(Early(Centre(cx, cy, 0.0, 0.0)))
    else if s2 == 0.0 || o2 == 0.0 then Err(ZeroDivision)
    else
      var k := o2 * s2;
      var w := py.sqrt(Abs((k * k - L) / L));
      var O := w * M / s2;
      var R := -w * I / o2;
      var u := cosL * O - sinL * R + cx;
      var g := sinL * O + cosL * R + cy;
      var E := (A - O) / o2;
      var N := (A + O) / o2;
      var F := (T - R) / s2;
      var x := (T + R) / s2;
      var h :- VectorAngle(1.0, 0.0, E, F, py);
      var m :- VectorAngle(E, F, -N, -x, py);
      Ok(Sweep(u, g, h, m))
  }

  /** With equal radii the rotation field plays no part. */
  lemma EqualRadiiIgnoreRotation(p: CentreInput, l: real, py: Py)
    requires Abs(p.o) == Abs(p.s)
    ensures CentreSetup(p, py) == CentreSetup(p.(l := l), py)
  {
    var q := p.(l := l);
    assert q.o == p.o && q.s == p.s && Mid(q) == Mid(p) && q.e == p.e && q.t == p.t && q.n == p.n && q.a == p.a;
  }

  const TwoPi: real := 6.283185307179586

  /** `while m > f: m -= f`. */
  function Down(m: real): (r: real)
    ensures r <= TwoPi
    decreases m.Floor
  {
    if m > TwoPi then Down(m - TwoPi) else m
  }

  /** `while m < 0: m += f`. */
  function Up(m: real): (r: real)
    ensures r >= 0.0
    ensures m >= 0.0 ==> r == m
    ensures m <= TwoPi ==> r <= TwoPi
    decreases (-m).Floor + 1
  {
    if m < 0.0 then Up(m + TwoPi) else m
  }

  /** The extent after both loops, less one turn when the source's `r` is non-zero. */
  function Normalised(m: real, r: real): (w: real)
    ensures r == 0.0 ==> 0.0 <= w <= TwoPi
    ensures r != 0.0 ==> -TwoPi <= w <= 0.0
  {
    var u := Up(Down(m));
    if r != 0.0 then u - TwoPi else u
  }

  /** The loops only remove or add whole turns. */
  lemma {:induction false} DownTurns(m: real) returns (k: nat)
    ensures m == Down(m) + (k as real) * TwoPi
    decreases m.Floor
  {
    if m > TwoPi {
      var j := DownTurns(m - TwoPi);
      k := j + 1;
      assert (k as real) * TwoPi == (j as real) * TwoPi + TwoPi;
    } else {
      k := 0;
    }
  }

  lemma {:induction false} UpTurns(m: real) returns (k: nat)
    ensures Up(m) == m + (k as real) * TwoPi
    decreases (-m).Floor + 1
  {
    if m < 0.0 {
      var j := UpTurns(m + TwoPi);
      k := j + 1;
      assert (k as real) * TwoPi == (j as real) * TwoPi + TwoPi;
    } else {
      k := 0;
    }
  }

  /** The two `while` loops of `getCenterParam` and the final correction. */
  method NormaliseSweep(m0: real, r: real) returns (m: real)
    ensures m == Normalised(m0, r)
  {
    m := m0;
    while m > TwoPi
      invariant Down(m) == Down(m0)
      decreases m.Floor
    {
      m := m - TwoPi;
    }
    while m < 0.0
      invariant Up(m) == Up(Down(m0))
      decreases (-m).Floor + 1
    {
      m := m + TwoPi;
    }
    if r != 0.0 {
      m := m - TwoPi;
    }
  }

  /** `getCenterParam` as a value. */
  function CentreSpec(p: CentreInput, py: Py): (r: Result<Centre>)
    ensures r.Ok? && !(Abs(p.o) < 0.00001 || Abs(p.s) < 0.00001) ==>
      (p.r == 0.0 ==> 0.0 <= r.value.dtheta <= TwoPi) && (p.r != 0.0 ==> -TwoPi <= r.value.dtheta <= 0.0)
  {
    var setup :- CentreSetup(p, py);
    match setup
    case Early(c) => Ok(c)
    case Sweep(u, g, h, m) => Ok(Centre(u, g, h, Normalised(m, p.r)))
  }

  /** `getCenterParam`: the early returns, or the centre with its extent normalised in
      place by the loops. */
  method CentreParam(p: CentreInput, py: Py) returns (r: Result<Centre>)
    ensures r == CentreSpec(p, py)
  {
    var setup := CentreSetup(p, py);
    if setup.Err? {
      return Err(setup.msg);
    }
    match setup.value
    case Early(c) =>
      r := Ok(c);
    case Sweep(u, g, h, m) =>
      var w := NormaliseSweep(m, p.r);
      r := Ok(Centre(u, g, h, w));
  }

  /** A point at angle `phi` on the circle of `radius` about (cx, cy), y measured downwards. */
  function OnCircle(cx: real, cy: real, radius: real, phi: real, py: Py): Point {
    Point(cx + radius * py.cos(phi), cy - radius * py.sin(phi))
  }

  /** `h_A` of the current generation: the arc through the points at half the start angle, that plus
      half the extent, and that plus the whole extent, all placed in the current frame.
      The radius is the first number of the second match. */
  function DecodeArc(data: seq<string>, py: Py): (r: Result<Shape>)
    ensures |data| == 0 ==> r.Err?
    ensures |data| > 0 && !CentreParses(ArcGroups(data[0], 0), py) ==> r.Err?
    ensures |data| > 0 && CentreParses(ArcGroups(data[0], 0), py) ==>
      (r.Ok? <==> CentreSpec(ParseCentre(ArcGroups(data[0], 0), py).value, py).Ok?)
    ensures r.Ok? ==> r.value.Arc?
    ensures r.Ok? ==> var groups := ArcGroups(data[0], 0);
      ParseCentre(groups, py).Ok? && CentreSpec(ParseCentre(groups, py).value, py).Ok? &&
      var p := ParseCentre(groups, py).value; var c := CentreSpec(p, py).value; var theta := c.theta / 2.0;
      r.value == Arc(Place(OnCircle(c.cx, c.cy, p.s, theta, py), PackageFrame),
                     Place(OnCircle(c.cx, c.cy, p.s, theta + c.dtheta / 2.0, py), PackageFrame),
                     Place(OnCircle(c.cx, c.cy, p.s, theta + c.dtheta, py), PackageFrame))
  {
    var d0 :- Field(data, 0);
    var groups := ArcGroups(d0, 0);
    var p :- ParseCentre(groups, py);
    var c :- CentreSpec(p, py);
    var theta := c.theta / 2.0;
    Ok(Arc(Place(OnCircle(c.cx, c.cy, p.s, theta, py), PackageFrame),
           Place(OnCircle(c.cx, c.cy, p.s, theta + c.dtheta / 2.0, py), PackageFrame),
           Place(OnCircle(c.cx, c.cy, p.s, theta + c.dtheta, py), PackageFrame)))
  }

  /** An arc whose extent is zero (the `not L` early return) collapses to a single point:
      its start, middle and end coincide. */
  lemma ArcCollapses(data: seq<string>, py: Py)
    requires DecodeArc(data, py).Ok? && |data| > 0
    requires CentreSpec(ParseCentre(ArcGroups(data[0], 0), py).value, py).value.dtheta == 0.0
    ensures DecodeArc(data, py).value.start == DecodeArc(data, py).value.mid == DecodeArc(data, py).value.end
  {
    var c := CentreSpec(ParseCentre(ArcGroups(data[0], 0), py).value, py).value;
    assert c.theta / 2.0 + c.dtheta / 2.0 == c.theta / 2.0;
    assert c.theta / 2.0 + c.dtheta == c.theta / 2.0;
  }
}
