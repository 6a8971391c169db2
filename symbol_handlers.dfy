/** Record handlers of the symbol package: each decodes the `~`-separated fields of one
    EasyEDA shape record and appends a KiCad symbol item to the symbol being built.
    Any Python exception a handler raises escapes to the caller (there is no `try`). */
module SymbolHandlers {
  import opened Wrappers
  import opened Text
  import opened Numeric
  import opened Drawing

  /** The tags that have a handler. */
  const Tags: set<string> := {"R", "E", "P", "T", "PL", "PG", "PT", "A", "AR"}

  // ---------------------------------------------------------------------------
  // Coordinates
  // ---------------------------------------------------------------------------

  /** EasyEDA coordinates to KiCad millimetres relative to the symbol head, y flipped. */
  function ToMm(p: Point, head: Point): (r: Point)
    ensures FromMm(r, head) == p
  {
    Point(Mil2mm(p.x - head.x), -Mil2mm(p.y - head.y))
  }

  /** ToMm as the point conversion the pairing loops apply. */
  function ToMmAt(head: Point): Point -> Point {
    p => ToMm(p, head)
  }

  /** The inverse of ToMm. */
  function FromMm(q: Point, head: Point): Point {
    Point(q.x * 3.937 + head.x, -q.y * 3.937 + head.y)
  }

  /** Distinct source points stay distinct. */
  lemma ToMmInjective(p: Point, q: Point, head: Point)
    requires ToMm(p, head) == ToMm(q, head)
    ensures p == q
  {
    assert FromMm(ToMm(p, head), head) == p;
    assert FromMm(ToMm(q, head), head) == q;
  }

  // ---------------------------------------------------------------------------
  // Field decoding
  // ---------------------------------------------------------------------------

  /** A Python value compared with `==`: a string is never equal to an integer. */
  datatype PyValue = PyStr(s: string) | PyInt(i: int)

  /** Stroke style of a rectangle: field 8 compared with the integers 1 and 2. */
  function StrokeStyle(v: PyValue): (style: string)
    ensures style == "dash" <==> v == PyInt(1)
    ensures style == "dot" <==> v == PyInt(2)
    ensures style == "default" <==> v != PyInt(1) && v != PyInt(2)
  {
    if v == PyInt(1) then "dash" else if v == PyInt(2) then "dot" else "default"
  }

  /** A record field is a string, so the style test never succeeds. */
  lemma StrokeStyleOfField(field: string)
    ensures StrokeStyle(PyStr(field)) == "default"
  {
  }

  /** `h_R`: corner (x, y) from fields 0 and 1, extent from fields 4 and 5; field 8 must exist. */
  function DecodeRect(data: seq<string>, head: Point, py: Py): (r: Result<Shape>)
    ensures r.Ok? <==> |data| > 8 && py.toFloat(data[0]).Some? && py.toFloat(data[1]).Some?
                        && py.toFloat(data[4]).Some? && py.toFloat(data[5]).Some?
    ensures r.Ok? ==> r.value.Rectangle? && r.value.stroke == "default"
    ensures r.Ok? ==>
      FromMm(r.value.start, head) == Point(py.toFloat(data[0]).value, py.toFloat(data[1]).value)
    ensures r.Ok? ==>
      FromMm(r.value.end, head).x - FromMm(r.value.start, head).x == py.toFloat(data[4]).value &&
      FromMm(r.value.end, head).y - FromMm(r.value.start, head).y == py.toFloat(data[5]).value
  {
    var x1 :- FloatField(data, 0, py);
    var y1 :- FloatField(data, 1, py);
    var width :- FloatField(data, 4, py);
    var length :- FloatField(data, 5, py);
    var style :- Field(data, 8);
    Ok(Rectangle(ToMm(Point(x1, y1), head), ToMm(Point(x1 + width, y1 + length), head),
                 StrokeStyle(PyStr(style))))
  }

  /** `h_E`: centre from fields 0 and 1, radius from field 2. */
  function DecodeCircle(data: seq<string>, head: Point, py: Py): (r: Result<Shape>)
    ensures r.Ok? <==> |data| > 2 && py.toFloat(data[0]).Some? && py.toFloat(data[1]).Some?
                        && py.toFloat(data[2]).Some?
    ensures r.Ok? ==>
      r.value.Circle? &&
      FromMm(r.value.center, head) == Point(py.toFloat(data[0]).value, py.toFloat(data[1]).value) &&
      r.value.radius * 3.937 == py.toFloat(data[2]).value
  {
    var x :- FloatField(data, 0, py);
    var y :- FloatField(data, 1, py);
    var radius :- FloatField(data, 2, py);
    Ok(Circle(ToMm(Point(x, y), head), Mil2mm(radius)))
  }

  /** Pin orientation: the EasyEDA angle turned by 180 degrees, or 180 for an empty field. */
  function PinRotation(field: string, py: Py): (r: Result<int>)
    ensures field == "" ==> r == Ok(180)
    ensures field != "" ==> (r.Ok? <==> py.toInt(field).Some?)
    ensures r.Ok? ==> 0 <= r.value < 360
    ensures r.Ok? && field != "" ==> (r.value - py.toInt(field).value - 180) % 360 == 0
  {
    if field == "" then Ok(180)
    else
      var angle :- Int(py, field);
      Ok((angle + 180) % 360)
  }

  /** Pin length: the part of field 8 after its last `h` for horizontal pins, rounded to three
      decimals, after its last `v` for vertical pins, not rounded, and a default of 2.54 for any
      other orientation. */
  function PinLength(rotation: int, field: string, py: Py): (r: Result<real>)
    ensures r.Ok? ==> r.value >= 0.0
    ensures rotation !in {0, 90, 180, 270} ==> r == Ok(2.54)
    ensures rotation in {0, 180} ==> (r.Ok? <==> py.toFloat(LastPiece(field, "h")).Some?)
    ensures rotation in {0, 180} && r.Ok? ==> r.value == Round3(Mil2mm(Abs(py.toFloat(LastPiece(field, "h")).value)))
    ensures rotation in {90, 270} ==> (r.Ok? <==> py.toFloat(LastPiece(field, "v")).Some?)
    ensures rotation in {90, 270} && r.Ok? ==> r.value * 3.937 == Abs(py.toFloat(LastPiece(field, "v")).value)
  {
    if rotation == 0 || rotation == 180 then
      var v :- Float(py, LastPiece(field, "h"));
      Ok(Round3(Mil2mm(Abs(v))))
    else if rotation == 90 || rotation == 270 then
      var v :- Float(py, LastPiece(field, "v"));
      Ok(Mil2mm(Abs(v)))
    else Ok(2.54)
  }

  /** `field.split("^^")[1] != "0"`: true when the pin asks for its name (or number) to be shown. */
  function ShowsLabel(field: string): (r: Result<bool>)
    ensures r.Ok? <==> Contains(field, "^^")
    ensures r.Ok? ==> (r.value <==> Split(field, "^^")[1] != "0")
  {
    var parts := Split(field, "^^");
    if |parts| < 2 then
      assert !Contains(field, "^^") by {
        FindIffContains(field, "^^");
      }
      Err(IndexError)
    else
      assert Contains(field, "^^") by {
        FindIffContains(field, "^^");
      }
      Ok(parts[1] != "0")
  }

  /** A font size field `"<n>pt"` in millimetres, or `default` when the field is empty. */
  function SizeField(field: string, default: real, py: Py): (r: Result<real>)
    requires "pt" != []
    ensures field == "" ==> r == Ok(default)
    ensures field != "" ==> (r.Ok? <==> py.toFloat(Replace(field, "pt", "")).Some?)
    ensures field != "" && r.Ok? ==> r.value * 3.937 == py.toFloat(Replace(field, "pt", "")).value
  {
    if field == "" then Ok(default)
    else
      var v :- Float(py, Replace(field, "pt", ""));
      Ok(Mil2mm(v))
  }

  /** `round(x, 3)` on both coordinates of a pin position. */
  function RoundPoint3(p: Point): (r: Point)
    ensures -0.0005 <= r.x - p.x <= 0.0005 && -0.0005 <= r.y - p.y <= 0.0005
    ensures Thousandths(r.x) && Thousandths(r.y)
  {
    Point(Round3(p.x), Round3(p.y))
  }

  /** A decoded pin and its effect on the two hide flags. */
  datatype PinRecord = PinRecord(pin: Shape, showNames: bool, showNumbers: bool)

  /** `h_P`: fields 1 (type), 2 (number), 13 (name), 3/4 (position, rounded to three
      decimals), 5 (rotation), 8 (length), 9/17 (show name/number), 16/24 (name/number size). */
  function DecodePin(data: seq<string>, head: Point, py: Py): (r: Result<PinRecord>)
    ensures r.Ok? ==> |data| > 24
    ensures r.Ok? ==> r.value.pin.Pin? && r.value.pin.electricalType == PinType(data[1])
    ensures r.Ok? ==> r.value.pin.number == data[2] && r.value.pin.name == data[13]
    ensures r.Ok? ==> 0 <= r.value.pin.rotation < 360 && r.value.pin.length >= 0.0
    ensures r.Ok? ==> ShowsLabel(data[9]) == Ok(r.value.showNames)
    ensures r.Ok? ==> ShowsLabel(data[17]) == Ok(r.value.showNumbers)
    ensures r.Ok? ==> PinRotation(data[5], py) == Ok(r.value.pin.rotation)
    ensures r.Ok? ==> PinLength(r.value.pin.rotation, data[8], py) == Ok(r.value.pin.length)
    ensures r.Ok? ==>
      py.toFloat(data[3]).Some? && py.toFloat(data[4]).Some? &&
      r.value.pin.at == RoundPoint3(ToMm(Point(py.toFloat(data[3]).value, py.toFloat(data[4]).value), head))
    ensures r.Ok? ==> SizeField(data[16], 1.0, py) == Ok(r.value.pin.nameSize)
    ensures r.Ok? ==> SizeField(data[24], 1.0, py) == Ok(r.value.pin.numberSize)
    ensures r.Ok? <==>
      (|data| > 24 && py.toFloat(data[3]).Some? && py.toFloat(data[4]).Some? &&
       PinRotation(data[5], py).Ok? && PinLength(PinRotation(data[5], py).value, data[8], py).Ok? &&
       ShowsLabel(data[9]).Ok? && ShowsLabel(data[17]).Ok? &&
       SizeField(data[16], 1.0, py).Ok? && SizeField(data[24], 1.0, py).Ok?)
  {
    var code :- Field(data, 1);
    var number :- Field(data, 2);
    var name :- Field(data, 13);
    var x :- FloatField(data, 3, py);
    var y :- FloatField(data, 4, py);
    var rotation :- PinRotation(data[5], py);
    var length :- PinLength(rotation, data[8], py);
    var showNames :- ShowsLabel(data[9]);
    var numbersField :- Field(data, 17);
    var showNumbers :- ShowsLabel(numbersField);
    var nameSize :- SizeField(data[16], 1.0, py);
    var numberSizeField :- Field(data, 24);
    var numberSize :- SizeField(numberSizeField, 1.0, py);
    Ok(PinRecord(Pin(PinType(code), RoundPoint3(ToMm(Point(x, y), head)), rotation, length, name, number,
                     nameSize, numberSize), showNames, showNumbers))
  }

  /** Symbol text angle in tenths of a degree: the EasyEDA angle turned by 180 degrees. */
  function TextRotation(angle: int): (r: int)
    ensures 0 <= r <= 3590 && r % 10 == 0
    ensures (r / 10 - angle - 180) % 360 == 0
  {
    ((angle + 180) % 360) * 10
  }

  /** Text justification from the SVG anchor in field 13. */
  function Justify(anchor: string): (j: string)
    ensures j == "right" <==> anchor == "end"
    ensures j == "left" <==> anchor != "end"
  {
    if anchor == "middle" then "left" else if anchor == "end" then "right" else "left"
  }

  /** `h_T`: position from fields 1/2, rotation 3, font size 6 (15 when empty), text 11, anchor 13. */
  function DecodeText(data: seq<string>, head: Point, py: Py): (r: Result<Shape>)
    ensures r.Ok? <==>
      |data| > 13 && py.toFloat(data[1]).Some? && py.toFloat(data[2]).Some? && py.toInt(data[3]).Some? &&
      SizeField(data[6], 15.0, py).Ok?
    ensures r.Ok? ==> |data| > 13 && r.value.Text? && r.value.text == data[11]
    ensures r.Ok? ==>
      r.value.at == ToMm(Point(py.toFloat(data[1]).value, py.toFloat(data[2]).value), head) &&
      SizeField(data[6], 15.0, py) == Ok(r.value.fontSize)
    ensures r.Ok? ==> r.value.justify == Some(Justify(data[13]))
    ensures r.Ok? ==> py.toInt(data[3]).Some? && r.value.angle == TextRotation(py.toInt(data[3]).value) as real
  {
    var x :- FloatField(data, 1, py);
    var y :- FloatField(data, 2, py);
    var angle :- IntField(data, 3, py);
    var sizeField :- Field(data, 6);
    var fontSize :- SizeField(sizeField, 15.0, py);
    var text :- Field(data, 11);
    var anchor :- Field(data, 13);
    Ok(Text(text, ToMm(Point(x, y), head), TextRotation(angle) as real, fontSize, Some(Justify(anchor))))
  }

  /** `h_PL`: an open polyline over the space-separated tokens of field 0, empty tokens kept. */
  function DecodePolyline(data: seq<string>, head: Point, py: Py): (r: Result<Shape>)
    ensures r.Ok? <==> |data| > 0 && PairsParse(Split(data[0], " "), py)
    ensures r.Ok? ==> |data| > 0 && r.value.Polyline? && r.value.fill == NoFill
    ensures r.Ok? ==> var ts := Split(data[0], " ");
      |ts| % 2 == 0 && |r.value.points| == |ts| / 2 &&
      forall k :: 0 <= k < |ts| / 2 ==> PairParses(ts, k, py) && r.value.points[k] == ToMm(PairAt(ts, k, py), head)
  {
    var d0 :- Field(data, 0);
    var ts := Split(d0, " ");
    var pts :- PairsUpTo(ts, HalfUp(|ts|), ToMmAt(head), py);
    Ok(Polyline(pts, NoFill))
  }

  /** `h_PG`: a closed, filled polygon over the non-empty tokens of field 0; the first point
      is repeated at the end, and an empty point list raises. */
  function DecodePolygon(data: seq<string>, head: Point, py: Py): (r: Result<Shape>)
    ensures r.Ok? <==>
      |data| > 0 && |NonEmpty(Split(data[0], " "))| > 0 && PairsParse(NonEmpty(Split(data[0], " ")), py)
    ensures r.Ok? ==> |data| > 0 && r.value.Polyline? && r.value.fill == Background
    ensures r.Ok? ==> var ts := NonEmpty(Split(data[0], " "));
      |ts| % 2 == 0 && |ts| >= 2 && |r.value.points| == |ts| / 2 + 1 &&
      (forall k :: 0 <= k < |ts| / 2 ==> PairParses(ts, k, py) && r.value.points[k] == ToMm(PairAt(ts, k, py), head)) &&
      r.value.points[|ts| / 2] == r.value.points[0]
  {
    var d0 :- Field(data, 0);
    var ts := NonEmpty(Split(d0, " "));
    var pts :- PairsUpTo(ts, HalfUp(|ts|), ToMmAt(head), py);
    var closed :- Closed(pts);
    Ok(Polyline(closed, Background))
  }

  /** `h_PT`: field 0 without its path letters M, L, Z and C, then drawn as by `h_PG`. */
  function TriangleField(d: string): (r: string)
    ensures 'M' !in r && 'L' !in r && 'Z' !in r && 'C' !in r
  {
    Replace(Replace(Replace(Replace(d, "M", ""), "L", ""), "Z", ""), "C", "")
  }

  function DecodeTriangle(data: seq<string>, head: Point, py: Py): (r: Result<Shape>)
    ensures |data| == 0 ==> r.Err?
    ensures |data| > 0 ==> r == DecodePolygon(data[0 := TriangleField(data[0])], head, py)
  {
    var d0 :- Field(data, 0);
    DecodePolygon(data[0 := TriangleField(d0)], head, py)
  }

  /** The separators of the regex `[\s,]+`. */
  function CoordSeparators(): set<char> {
    Spaces() + {','}
  }

  /** Tokens of the SVG path of an arrowhead (field 5) once M, L and Z are removed. */
  function ArrowTokens(d5: string): (ts: seq<string>)
    ensures forall k :: 0 <= k < |ts| ==> ts[k] != ""
  {
    var cleaned := Strip(Replace(Replace(Replace(d5, "M", ""), "L", ""), "Z", ""));
    NonEmpty(SplitRuns(cleaned, CoordSeparators()))
  }

  /** `h_AR`: a closed polygon over the coordinate pairs of field 5. A trailing odd coordinate
      is ignored and no pair at all draws nothing. */
  function DecodeArrow(data: seq<string>, head: Point, py: Py): (r: Result<Option<Shape>>)
    ensures r.Ok? ==> |data| > 5
    ensures r.Ok? ==> (r.value.None? <==> |ArrowTokens(data[5])| < 2)
    ensures |data| > 5 && |ArrowTokens(data[5])| < 2 ==> r == Ok(None)
    ensures r.Ok? && r.value.Some? ==> var ts := ArrowTokens(data[5]);
      var s := r.value.value;
      s.Polyline? && s.fill == Background && |s.points| == |ts| / 2 + 1 &&
      (forall k :: 0 <= k < |ts| / 2 ==> PairParses(ts, k, py) && s.points[k] == ToMm(PairAt(ts, k, py), head)) &&
      s.points[|ts| / 2] == s.points[0]
  {
    var d5 :- Field(data, 5);
    var ts := ArrowTokens(d5);
    var pts :- PairsUpTo(ts, |ts| / 2, ToMmAt(head), py);
    if |pts| == 0 then Ok(None)
    else
      ArrowShape(ts, head, py);
      Ok(Some(ClosedLine(pts)))
  }

  /** The polygon through `pts` and back to its first point. */
  function ClosedLine(pts: seq<Point>): (s: Shape)
    requires |pts| > 0
    ensures s.Polyline? && s.fill == Background && |s.points| == |pts| + 1
    ensures forall k :: 0 <= k < |pts| ==> s.points[k] == pts[k]
    ensures s.points[|pts|] == pts[0]
  {
    Polyline(pts + [pts[0]], Background)
  }

  lemma ArrowShape(ts: seq<string>, head: Point, py: Py)
    requires PairsUpTo(ts, |ts| / 2, ToMmAt(head), py).Ok? && |ts| / 2 > 0
    ensures var s := ClosedLine(PairsUpTo(ts, |ts| / 2, ToMmAt(head), py).value);
      s.Polyline? && s.fill == Background && |s.points| == |ts| / 2 + 1 &&
      (forall k :: 0 <= k < |ts| / 2 ==> PairParses(ts, k, py) && s.points[k] == ToMm(PairAt(ts, k, py), head)) &&
      s.points[|ts| / 2] == s.points[0]
  {
    var pts := PairsUpTo(ts, |ts| / 2, ToMmAt(head), py).value;
    forall k | 0 <= k < |ts| / 2
      ensures pts[k] == ToMm(PairAt(ts, k, py), head)
    {
      assert pts[k] == ToMmAt(head)(PairAt(ts, k, py));
    }
  }

  // ---------------------------------------------------------------------------
  // h_A: SVG elliptical arc, endpoint to centre parameterisation
  // (SVG 1.1 Second Edition, Implementation Notes, sections F.6.5 and F.6.6)
  // ---------------------------------------------------------------------------

  /** The numbers of a path `M x1 y1 A rx ry rotation large-arc sweep x2 y2`. */
  datatype ArcPath = ArcPath(x1: real, y1: real, rx: real, ry: real, rotation: real,
                             large: int, sweep: int, x2: real, y2: real)

  /** `[p.strip() for p in parts if p.strip()]`. */
  function StripAll(parts: seq<string>): (r: seq<string>)
    ensures forall k :: 0 <= k < |r| ==> r[k] != "" && !IsSpace(r[k][0])
  {
    if |parts| == 0 then []
    else (if Strip(parts[0]) == "" then [] else [Strip(parts[0])]) + StripAll(parts[1..])
  }

  /** The `M` and `A` commands of the path in field 0, stripped, empty pieces dropped. */
  function ArcParts(d0: string): seq<string> {
    StripAll(SplitAny(Strip(d0), {'M', 'A'}))
  }

  /** The numbers of the `M` command, and those of the `A` command. */
  function StartCoords(d0: string): seq<string>
    requires |ArcParts(d0)| > 0
  {
    SplitRuns(ArcParts(d0)[0], CoordSeparators())
  }

  function ArcParams(d0: string): seq<string>
    requires |ArcParts(d0)| > 1
  {
    SplitRuns(ArcParts(d0)[1], CoordSeparators())
  }

  /** Every number `h_A` reads from the path is there and parses. */
  predicate ArcPathParses(d0: string, py: Py) {
    |ArcParts(d0)| > 1 && |StartCoords(d0)| > 1 && |ArcParams(d0)| > 6 &&
    py.toFloat(StartCoords(d0)[0]).Some? && py.toFloat(StartCoords(d0)[1]).Some? &&
    py.toFloat(ArcParams(d0)[0]).Some? && py.toFloat(ArcParams(d0)[1]).Some? &&
    py.toFloat(ArcParams(d0)[2]).Some? && py.toInt(ArcParams(d0)[3]).Some? &&
    py.toInt(ArcParams(d0)[4]).Some? && py.toFloat(ArcParams(d0)[5]).Some? &&
    py.toFloat(ArcParams(d0)[6]).Some?
  }

  /** `M x1 y1 A rx ry rotation large-arc sweep x2 y2`: two numbers after `M`, seven after
      `A`, each from its own token; a missing or malformed one raises. */
  function ParseArcPath(d0: string, py: Py): (r: Result<ArcPath>)
    ensures r.Ok? <==> ArcPathParses(d0, py)
    ensures r.Ok? ==>
      var st := StartCoords(d0);
      var a := ArcParams(d0);
      r.value == ArcPath(py.toFloat(st[0]).value, py.toFloat(st[1]).value, py.toFloat(a[0]).value,
                         py.toFloat(a[1]).value, py.toFloat(a[2]).value, py.toInt(a[3]).value,
                         py.toInt(a[4]).value, py.toFloat(a[5]).value, py.toFloat(a[6]).value)
  {
    var parts := ArcParts(d0);
    var p0 :- Field(parts, 0);
    var start := SplitRuns(p0, CoordSeparators());
    var x1 :- FloatField(start, 0, py);
    var y1 :- FloatField(start, 1, py);
    var p1 :- Field(parts, 1);
    var a := SplitRuns(p1, CoordSeparators());
    var rx :- FloatField(a, 0, py);
    var ry :- FloatField(a, 1, py);
    var rotation :- FloatField(a, 2, py);
    var large :- IntField(a, 3, py);
    var sweep :- IntField(a, 4, py);
    var x2 :- FloatField(a, 5, py);
    var y2 :- FloatField(a, 6, py);
    Ok(ArcPath(x1, y1, rx, ry, rotation, large, sweep, x2, y2))
  }

  /** `math.radians`. */
  function Radians(deg: real): real {
    deg * Pi / 180.0
  }

  /** Sign of the centre offset (step F.6.5.2): negative exactly when the flags are equal. */
  function ArcSign(large: int, sweep: int): (s: real)
    ensures s == -1.0 <==> large == sweep
    ensures s == 1.0 <==> large != sweep
  {
    if large == sweep then -1.0 else 1.0
  }

  /** The start point in the rotated frame centred on the chord midpoint (step F.6.5.1). */
  function Primed(p: ArcPath, py: Py): (real, real) {
    var cosRot := py.cos(Radians(p.rotation));
    var sinRot := py.sin(Radians(p.rotation));
    var dx := (p.x1 - p.x2) / 2.0;
    var dy := (p.y1 - p.y2) / 2.0;
    (cosRot * dx + sinRot * dy, -sinRot * dx + cosRot * dy)
  }

  /** Radii scaled up by sqrt(lambda) when they are too small to reach the end point (F.6.6). */
  function CorrectedRadii(p: ArcPath, py: Py): (r: (real, real))
    requires p.rx != 0.0 && p.ry != 0.0
    ensures ArcLambda(p, py) <= 1.0 ==> r == (p.rx, p.ry)
    ensures r.0 * p.ry == r.1 * p.rx
  {
    var lambda := ArcLambda(p, py);
    if lambda > 1.0 then
      var s := py.sqrt(lambda);
      assert (p.rx * s) * p.ry == (p.ry * s) * p.rx;
      (p.rx * s, p.ry * s)
    else (p.rx, p.ry)
  }

  /** How far outside the ellipse the primed start point lies (F.6.6.2). */
  function ArcLambda(p: ArcPath, py: Py): real
    requires p.rx != 0.0 && p.ry != 0.0
  {
    var x1p := Primed(p, py).0;
    var y1p := Primed(p, py).1;
    x1p * x1p / (p.rx * p.rx) + y1p * y1p / (p.ry * p.ry)
  }

  /** The denominator of the centre formula (step F.6.5.2). */
  function ArcDenominator(p: ArcPath, py: Py): real
    requires p.rx != 0.0 && p.ry != 0.0
  {
    var (x1p, y1p) := Primed(p, py);
    var (rx, ry) := CorrectedRadii(p, py);
    rx * rx * y1p * y1p + ry * ry * x1p * x1p
  }

  /** The radicand of step F.6.5.2, floored at zero. */
  function ArcRadicand(num: real, den: real): (sq: real)
    requires den != 0.0
    ensures sq >= 0.0 && sq >= num / den
    ensures num / den >= 0.0 ==> sq == num / den
  {
    Max(0.0, num / den)
  }

  /** Clamping of a cosine into [-1, 1] before `acos`. */
  function Clamp(c: real): (r: real)
    ensures -1.0 <= r <= 1.0
    ensures -1.0 <= c <= 1.0 ==> r == c
    ensures c < -1.0 ==> r == -1.0
    ensures c > 1.0 ==> r == 1.0
  {
    Max(-1.0, Min(1.0, c))
  }

  /** Signed angle from u to v (step F.6.5.4): negative when the cross product is negative;
      a zero-length vector raises ZeroDivisionError. */
  function AngleBetween(ux: real, uy: real, vx: real, vy: real, py: Py): (r: Result<real>)
    ensures r.Ok? <==> py.sqrt(ux * ux + uy * uy) * py.sqrt(vx * vx + vy * vy) != 0.0
    ensures r.Ok? ==> var n := py.sqrt(ux * ux + uy * uy) * py.sqrt(vx * vx + vy * vy);
      var a := py.acos(Clamp((ux * vx + uy * vy) / n));
      r.value == (if ux * vy - uy * vx < 0.0 then -a else a)
    ensures SqrtLaw(py) && ((ux == 0.0 && uy == 0.0) || (vx == 0.0 && vy == 0.0)) ==> r.Err?
    ensures AcosLaw(py) && r.Ok? ==> -Pi <= r.value <= Pi
    ensures AcosLaw(py) && r.Ok? && ux * vy - uy * vx < 0.0 ==> r.value <= 0.0
    ensures AcosLaw(py) && r.Ok? && ux * vy - uy * vx > 0.0 ==> r.value >= 0.0
  {
    ProductSign(py.sqrt(ux * ux + uy * uy), py.sqrt(vx * vx + vy * vy));
    var n := py.sqrt(ux * ux + uy * uy) * py.sqrt(vx * vx + vy * vy);
    if n == 0.0 then Err(ZeroDivision)
    else
      var angle := py.acos(Clamp((ux * vx + uy * vy) / n));
      Ok(if ux * vy - uy * vx < 0.0 then -angle else angle)
  }

  /** What `math.sqrt` gives on a non-negative argument: a non-negative root, zero only for zero. */
  ghost predicate SqrtLaw(py: Py) {
    forall x: real {:trigger py.sqrt(x)} :: 0.0 <= x ==> 0.0 <= py.sqrt(x) && (py.sqrt(x) == 0.0 <==> x == 0.0)
  }

  /** What `math.acos` gives on [-1, 1]: an angle in [0, pi]. */
  ghost predicate AcosLaw(py: Py) {
    forall c: real {:trigger py.acos(c)} :: -1.0 <= c <= 1.0 ==> 0.0 <= py.acos(c) <= Pi
  }

  /** A product of reals is zero when a factor is, and positive when both are. */
  lemma ProductSign(a: real, b: real)
    ensures a == 0.0 || b == 0.0 ==> a * b == 0.0
    ensures a > 0.0 && b > 0.0 ==> a * b > 0.0
  {
    if a == 0.0 {
      assert a * b == 0.0 * b;
    } else if b == 0.0 {
      assert a * b == a * 0.0;
    }
  }

  /** Swapping the two vectors negates the angle, unless they are parallel. */
  lemma AngleAntisymmetric(ux: real, uy: real, vx: real, vy: real, py: Py)
    requires AngleBetween(ux, uy, vx, vy, py).Ok? && ux * vy - uy * vx != 0.0
    ensures AngleBetween(vx, vy, ux, uy, py) == Ok(-AngleBetween(ux, uy, vx, vy, py).value)
  {
    var nu := py.sqrt(ux * ux + uy * uy);
    var nv := py.sqrt(vx * vx + vy * vy);
    assert nv * nu == nu * nv;
    assert vx * ux + vy * uy == ux * vx + uy * vy;
    assert vx * uy - vy * ux == -(ux * vy - uy * vx);
  }

  /** Sweep normalisation of the angle extent: a clockwise arc (sweep 0) ends with a
      non-positive extent and a counter-clockwise one (sweep 1) with a non-negative one,
      whenever the extent was within one turn. */
  function SweepAdjust(dtheta: real, sweep: int): (r: real)
    ensures sweep == 0 && dtheta <= 2.0 * Pi ==> r <= 0.0
    ensures sweep == 1 && dtheta >= -2.0 * Pi ==> r >= 0.0
    ensures r == dtheta || r == dtheta - 2.0 * Pi || r == dtheta + 2.0 * Pi
    ensures sweep != 0 && sweep != 1 ==> r == dtheta
    ensures (sweep == 0 && dtheta <= 0.0) || (sweep == 1 && dtheta >= 0.0) ==> r == dtheta
  {
    if sweep == 0 && dtheta > 0.0 then dtheta - 2.0 * Pi
    else if sweep == 1 && dtheta < 0.0 then dtheta + 2.0 * Pi
    else dtheta
  }

  /** The arc through its start, a midpoint on the ellipse and its end (steps F.6.5.1-F.6.5.4).
      A zero denominator draws nothing; a zero radius raises ZeroDivisionError. */
  function ArcShape(p: ArcPath, head: Point, py: Py): (r: Result<Option<Shape>>)
    ensures p.rx == 0.0 || p.ry == 0.0 ==> r.Err?
    ensures p.rx != 0.0 && p.ry != 0.0 && ArcDenominator(p, py) == 0.0 ==> r == Ok(None)
    ensures r.Ok? && r.value.Some? ==>
      r.value.value.Arc? &&
      FromMm(r.value.value.start, head) == Point(p.x1, p.y1) &&
      FromMm(r.value.value.end, head) == Point(p.x2, p.y2)
  {
    if p.rx == 0.0 || p.ry == 0.0 then Err(ZeroDivision)
    else
      var cosRot := py.cos(Radians(p.rotation));
      var sinRot := py.sin(Radians(p.rotation));
      var (x1p, y1p) := Primed(p, py);
      var (rx, ry) := CorrectedRadii(p, py);
      var sign := ArcSign(p.large, p.sweep);
      var den := ArcDenominator(p, py);
      if den == 0.0 then Ok(None)
      else if rx == 0.0 || ry == 0.0 then Err(ZeroDivision)
      else
        var sq := ArcRadicand(rx * rx * ry * ry - rx * rx * y1p * y1p - ry * ry * x1p * x1p, den);
        var coef := sign * py.sqrt(sq);
        var cxp := coef * rx * y1p / ry;
        var cyp := -coef * ry * x1p / rx;
        var cx := cosRot * cxp - sinRot * cyp + (p.x1 + p.x2) / 2.0;
        var cy := sinRot * cxp + cosRot * cyp + (p.y1 + p.y2) / 2.0;
        var theta1 :- AngleBetween(1.0, 0.0, (x1p - cxp) / rx, (y1p - cyp) / ry, py);
        var dtheta :- AngleBetween((x1p - cxp) / rx, (y1p - cyp) / ry, (-x1p - cxp) / rx, (-y1p - cyp) / ry, py);
        var midAngle := theta1 + SweepAdjust(dtheta, p.sweep) / 2.0;
        var xMid := cx + rx * py.cos(midAngle) * cosRot - ry * py.sin(midAngle) * sinRot;
        var yMid := cy + rx * py.cos(midAngle) * sinRot + ry * py.sin(midAngle) * cosRot;
        Ok(Some(Arc(ToMm(Point(p.x1, p.y1), head), ToMm(Point(xMid, yMid), head), ToMm(Point(p.x2, p.y2), head))))
  }

  /** `h_A`. */
  function DecodeArc(data: seq<string>, head: Point, py: Py): (r: Result<Option<Shape>>)
    ensures |data| == 0 ==> r.Err?
    ensures |data| > 0 && !ArcPathParses(data[0], py) ==> r.Err?
    ensures (|data| > 0 && ArcPathParses(data[0], py) &&
             (py.toFloat(ArcParams(data[0])[0]) == Some(0.0) || py.toFloat(ArcParams(data[0])[1]) == Some(0.0)))
            ==> r.Err?
    ensures r.Ok? && r.value.Some? ==>
      |data| > 0 && ArcPathParses(data[0], py) &&
      var st := StartCoords(data[0]);
      var a := ArcParams(data[0]);
      r.value.value.Arc? &&
      FromMm(r.value.value.start, head) == Point(py.toFloat(st[0]).value, py.toFloat(st[1]).value) &&
      FromMm(r.value.value.end, head) == Point(py.toFloat(a[5]).value, py.toFloat(a[6]).value)
  {
    var d0 :- Field(data, 0);
    var p :- ParseArcPath(d0, py);
    ArcShape(p, head, py)
  }
}
