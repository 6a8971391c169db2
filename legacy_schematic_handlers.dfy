/** The shape decoders of the legacy schematic writer (`schematic/schematic_handlers.py`).
    They repeat most of the current decoders with their own frame: scale by 0.1, negate y,
    then subtract the offsets (40, -25). Where a legacy handler differs from its package
    counterpart (no realignment of pin fields, empty tokens kept in closed polygons, a
    different triangle clean-up, a midpoint arc) it is modelled here. */
module LegacySchematicHandlers {
  import opened Wrappers
  import opened Text
  import opened Numeric
  import opened Drawing
  import opened SchematicHandlers

  const LegacyFrame: Frame := Frame(0.1, 40.0, -25.0)

  /** The tags of the legacy handler table (J, N, BE, AR and O are commented out there). */
  const LegacyTags: set<string> := {"R", "E", "P", "T", "PL", "PG", "PT", "A"}

  /** The legacy frame is X = 0.1 x - 40, Y = -0.1 y + 25, and it can be undone. */
  lemma LegacyPlace(p: Point)
    ensures Place(p, LegacyFrame) == Point(0.1 * p.x - 40.0, -0.1 * p.y + 25.0)
    ensures Unplace(Place(p, LegacyFrame), LegacyFrame) == p
  {
    UnplacePlace(p, LegacyFrame);
  }

  // ---------------------------------------------------------------------------
  // Pins
  // ---------------------------------------------------------------------------

  /** The label block of the legacy `h_P` as written: it reads `kicad_schematic.pinNamesHide`,
      an attribute the legacy object does not have, so the first statement of the `try`
      always raises AttributeError, and both sizes fall back to 0.6. */
  function PinLabelsAsWritten(namesHide: string, numbersHide: string): (r: Labels)
    ensures r.namesHide == namesHide && r.numbersHide == numbersHide
    ensures r.nameSize == 0.6 && r.numberSize == 0.6
  {
    Labels(namesHide, numbersHide, 0.6, 0.6)
  }

  /** The legacy `h_P` as written: the base fields without realignment, then sizes of 0.6. */
  function DecodePinAsWritten(data: seq<string>, py: Py): (r: Result<Shape>)
    ensures r.Ok? <==> DecodePinBase(data, LegacyFrame, py).Ok?
    ensures r.Ok? ==> r.value == PinShape(DecodePinBase(data, LegacyFrame, py).value, 0.6, 0.6)
  {
    var base :- DecodePinBase(data, LegacyFrame, py);
    var labels := PinLabelsAsWritten("", "");
    Ok(PinShape(base, labels.nameSize, labels.numberSize))
  }

  /** As written, the font sizes of a pin never come from its record: a pin whose size fields
      read 8pt and 9pt is still drawn with 0.6 and 0.6. */
  lemma PinSizesIgnored(data: seq<string>, py: Py)
    requires DecodePinBase(data, LegacyFrame, py).Ok?
    requires SizeField(data, 16, LegacyFrame, py) == Ok(0.8) && SizeField(data, 24, LegacyFrame, py) == Ok(0.9)
    ensures DecodePinAsWritten(data, py).value.nameSize == 0.6 != SizeField(data, 16, LegacyFrame, py).value
    ensures DecodePinAsWritten(data, py).value.numberSize == 0.6 != SizeField(data, 24, LegacyFrame, py).value
  {
  }

  /** The legacy `h_P` with the object given the two hide flags it reads: the base fields
      without realignment, then the current label block in the legacy frame with a default
      size of 0.6. */
  function DecodePin(namesHide: string, numbersHide: string, data: seq<string>, py: Py): (r: Result<PinRecord>)
    ensures r.Ok? <==> DecodePinBase(data, LegacyFrame, py).Ok?
    ensures r.Ok? ==> r.value.pin.Pin? && r.value.pin.rotation in {0, 90, 180, 270}
    ensures r.Ok? ==> r.value.namesHide == namesHide || (namesHide == "" && r.value.namesHide == NamesHidden)
    ensures r.Ok? ==> r.value.numbersHide == numbersHide || (numbersHide == "" && r.value.numbersHide == NumbersHidden)
    ensures r.Ok? && (SizeField(data, 16, LegacyFrame, py).Err? || SizeField(data, 24, LegacyFrame, py).Err?) ==>
      r.value.pin.nameSize == 0.6 && r.value.pin.numberSize == 0.6
    ensures r.Ok? ==>
      var b := DecodePinBase(data, LegacyFrame, py).value;
      var labels := PinLabels(namesHide, numbersHide, data, LegacyFrame, 0.6, py);
      r.value.pin.electricalType == b.electricalType && r.value.pin.number == b.number &&
      r.value.pin.name == b.name && r.value.pin.at == b.at &&
      r.value.pin.rotation == b.rotation && r.value.pin.length == b.length &&
      r.value.pin.nameSize == labels.nameSize && r.value.pin.numberSize == labels.numberSize
  {
    var base :- DecodePinBase(data, LegacyFrame, py);
    var labels := PinLabels(namesHide, numbersHide, data, LegacyFrame, 0.6, py);
    Ok(PinRecord(PinShape(base, labels.nameSize, labels.numberSize), labels.namesHide, labels.numbersHide))
  }

  /** With the flags in place, a pin whose size fields parse (and whose label fields are
      well formed) is drawn at the sizes its record gives, scaled by 0.1. */
  lemma PinSizesRead(namesHide: string, numbersHide: string, data: seq<string>, py: Py)
    requires DecodePinBase(data, LegacyFrame, py).Ok?
    requires SizeField(data, 16, LegacyFrame, py).Ok? && SizeField(data, 24, LegacyFrame, py).Ok?
    requires HideIf(namesHide, Field(data, 9), NamesHidden).Ok? && HideIf(numbersHide, Field(data, 17), NumbersHidden).Ok?
    ensures DecodePin(namesHide, numbersHide, data, py).value.pin.nameSize ==
            py.toFloat(Replace(data[16], "pt", "")).value * 0.1
    ensures DecodePin(namesHide, numbersHide, data, py).value.pin.numberSize ==
            py.toFloat(Replace(data[24], "pt", "")).value * 0.1
  {
  }

  // ---------------------------------------------------------------------------
  // Closed polygons and triangles
  // ---------------------------------------------------------------------------

  /** The legacy `h_PG`: every space-separated token of field 0, empty ones included, so a
      doubled space makes `float("")` raise. */
  function DecodePolygon(data: seq<string>, py: Py): (r: Result<Shape>)
    ensures |data| == 0 ==> r.Err?
    ensures |data| > 0 ==> r == ClosedPath(Split(data[0], " "), LegacyFrame, py)
  {
    var d0 :- Field(data, 0);
    ClosedPath(Split(d0, " "), LegacyFrame, py)
  }

  /** The legacy `h_PT` clean-up: `M `, `L ` and ` Z ` (with its trailing space) removed. */
  function TriangleField(d: string): string {
    Replace(Replace(Replace(d, "M ", ""), "L ", ""), " Z ", "")
  }

  /** A path that holds no path letters is left as it is by the clean-up. */
  lemma TriangleFieldKeepsNumbers(d: string)
    requires 'M' !in d && 'L' !in d && 'Z' !in d
    ensures TriangleField(d) == d
  {
    ReplaceAbsent(d, "M ", "", 'M');
    ReplaceAbsent(d, "L ", "", 'L');
    ReplaceAbsent(d, " Z ", "", 'Z');
  }

  /** The legacy `h_PT`: field 0 is rewritten outside the `try`, so an empty record raises. */
  function DecodeTriangle(data: seq<string>, py: Py): (r: Result<Shape>)
    ensures |data| == 0 ==> r.Err?
    ensures |data| > 0 ==> r == DecodePolygon(data[0 := TriangleField(data[0])], py)
  {
    var d0 :- Field(data, 0);
    DecodePolygon(data[0 := TriangleField(d0)], py)
  }

  // ---------------------------------------------------------------------------
  // Arcs
  // ---------------------------------------------------------------------------

  /** The legacy `h_A`: from the space-separated tokens of field 0, start (1, 2), radius 4 and
      end (9, 10). The y coordinates are offset but not negated, and the midpoint is the
      chord midpoint moved down by the radius. */
  function DecodeArc(data: seq<string>, py: Py): (r: Result<Shape>)
    ensures r.Ok? ==> |data| > 0 && |Split(data[0], " ")| > 10
    ensures r.Ok? <==>
      |data| > 0 &&
      (var ts := Split(data[0], " ");
       Parses(ts, 1, py) && Parses(ts, 2, py) && Parses(ts, 4, py) && Parses(ts, 9, py) && Parses(ts, 10, py))
    ensures r.Ok? ==> var ts := Split(data[0], " ");
      Parses(ts, 1, py) && Parses(ts, 2, py) && Parses(ts, 4, py) && Parses(ts, 9, py) && Parses(ts, 10, py) &&
      r.value.Arc? &&
      r.value.start == Point(Val(ts, 1, py) * 0.1 - 40.0, Val(ts, 2, py) * 0.1 + 25.0) &&
      r.value.end == Point(Val(ts, 9, py) * 0.1 - 40.0, Val(ts, 10, py) * 0.1 + 25.0)
    ensures r.Ok? ==> var ts := Split(data[0], " ");
      r.value.mid.x == (r.value.start.x + r.value.end.x) / 2.0 &&
      r.value.mid.y - Val(ts, 4, py) * 0.1 == (r.value.start.y + r.value.end.y) / 2.0
  {
    var d0 :- Field(data, 0);
    var ts := Split(d0, " ");
    var xs :- FloatField(ts, 1, py);
    var ys :- FloatField(ts, 2, py);
    var radius :- FloatField(ts, 4, py);
    var xe :- FloatField(ts, 9, py);
    var ye :- FloatField(ts, 10, py);
    var start := Point(xs * 0.1 - 40.0, ys * 0.1 - (-25.0));
    var end := Point(xe * 0.1 - 40.0, ye * 0.1 - (-25.0));
    Ok(Arc(start, Point((start.x + end.x) / 2.0, (start.y + end.y) / 2.0 + radius * 0.1), end))
  }

  /** Unlike every other legacy shape, an arc endpoint is not mirrored: its y differs from the
      placed y of the same source point unless that y is 0. */
  lemma ArcStartNotMirrored(data: seq<string>, py: Py)
    requires DecodeArc(data, py).Ok?
    ensures var ts := Split(data[0], " "); var y := Val(ts, 2, py);
      (DecodeArc(data, py).value.start.y == Place(Point(Val(ts, 1, py), y), LegacyFrame).y) <==> y == 0.0
  {
  }
}
