/** The footprint record handlers (`JLC2KiCadLib/footprint/footprint_handlers.py`). Each
    takes the `~`-separated fields of one record (the tag removed), appends KiCad nodes to
    the footprint and, for tracks and pads, widens the bounds kept in `FootprintInfo`.
    Every function here states what one handler does to the pair (nodes, bounds); the
    methods at the end run the same handlers on the two objects. */
module FootprintHandlers {
  import opened Wrappers
  import opened Text
  import opened Numeric
  import opened FootprintTypes
  import Drawing

  // ---------------------------------------------------------------------------
  // Layers and units
  // ---------------------------------------------------------------------------

  /** `layer_correspondance`: EasyEDA layer codes to KiCad layer names. */
  const Layers: map<string, string> := map[
    "1" := "F.Cu", "2" := "B.Cu", "3" := "F.SilkS", "4" := "B.Silks",
    "5" := "F.Paste", "6" := "B.Paste", "7" := "F.Mask", "8" := "B.Mask",
    "10" := "Edge.Cuts", "12" := "F.Fab", "100" := "F.SilkS", "101" := "F.SilkS"]

  const KeyError: string := "KeyError: layer code"

  /** The layer of field `i`, or the front silkscreen when the field is missing or its code is
      unknown (the `except` branch of TRACK, ARC and CIRCLE). */
  function LayerOr(data: seq<string>, i: nat): string {
    if i < |data| && data[i] in Layers then Layers[data[i]] else "F.SilkS"
  }

  /** The table is total on its twelve codes and sends the two pad-overlay codes to the
      front silkscreen; a code outside it takes the fallback. */
  lemma LayerTable(data: seq<string>, i: nat)
    ensures Layers.Keys == {"1", "2", "3", "4", "5", "6", "7", "8", "10", "12", "100", "101"}
    ensures Layers["100"] == Layers["101"] == Layers["3"] == "F.SilkS"
    ensures i < |data| && data[i] in Layers ==> LayerOr(data, i) == Layers[data[i]]
    ensures !(i < |data| && data[i] in Layers) ==> LayerOr(data, i) == "F.SilkS"
  {
  }

  /** `mil2mm(data[i])`: raises when the field is missing or malformed. */
  function MilField(data: seq<string>, i: nat, py: Py): (r: Result<real>)
    ensures r.Ok? <==> i < |data| && py.toFloat(data[i]).Some?
    ensures r.Ok? ==> r.value * 3.937 == py.toFloat(data[i]).value
  {
    var f :- Drawing.FloatField(data, i, py);
    Ok(Mil2mm(f))
  }

  /** `mil2mm(s)` inside a handler whose `try` swallows the exception. */
  function MilOf(s: string, py: Py): (r: Option<real>)
    ensures r.Some? <==> py.toFloat(s).Some?
    ensures r.Some? ==> r.value * 3.937 == py.toFloat(s).value
  {
    match py.toFloat(s)
    case None => None
    case Some(f) => Some(Mil2mm(f))
  }

  /** `[mil2mm(p) for p in ts]`: raises at the first malformed token. */
  function {:induction false} Mils(ts: seq<string>, py: Py): (r: Result<seq<real>>)
    ensures r.Ok? <==> forall k :: 0 <= k < |ts| ==> py.toFloat(ts[k]).Some?
    ensures r.Ok? ==> (|r.value| == |ts| &&
      forall k :: 0 <= k < |ts| ==> r.value[k] * 3.937 == py.toFloat(ts[k]).value)
    decreases |ts|
  {
    if |ts| == 0 then Ok([])
    else
      var h := Float(py, ts[0]);
      var t := Mils(ts[1..], py);
      assert forall k :: 1 <= k < |ts| ==> ts[1..][k - 1] == ts[k];
      if h.Err? then
        assert !py.toFloat(ts[0]).Some?;
        Err(h.msg)
      else if t.Err? then
        assert exists k :: 1 <= k < |ts| && !py.toFloat(ts[k]).Some?;
        Err(t.msg)
      else
        var r := [Mil2mm(h.value)] + t.value;
        assert forall k :: 1 <= k < |ts| ==> r[k] == t.value[k - 1];
        Ok(r)
  }

  // ---------------------------------------------------------------------------
  // TRACK
  // ---------------------------------------------------------------------------

  /** The points of a track: the non-empty space-separated tokens of field 2, or, when that
      raises for any reason, those of field 3 if the record has more than five fields (an
      exception there escapes); None when there is no fallback (the handler returns). */
  function TrackPoints(data: seq<string>, py: Py): Result<Option<seq<real>>> {
    var first := if |data| > 2 then Mils(NonEmpty(Split(data[2], " ")), py) else Err(IndexError);
    if first.Ok? then Ok(Some(first.value))
    else if |data| > 5 then
      var ps :- Mils(NonEmpty(Split(data[3], " ")), py);
      Ok(Some(ps))
    else Ok(None)
  }

  /** `range(int(len(points) / 2) - 1)`: one segment fewer than there are points. */
  function SegCount(n: nat): nat {
    if n / 2 >= 1 then n / 2 - 1 else 0
  }

  /** Point `k` of a flat coordinate list. */
  function PointAt(ps: seq<real>, k: nat): Point
    requires 2 * k + 1 < |ps|
  {
    Point(ps[2 * k], ps[2 * k + 1])
  }

  /** The first `n` rounds of the segment loop: a line from point `k` to point `k + 1` for
      every round `k`, the bounds widened by both ends. */
  function {:induction false} Segs(st: Fp, ps: seq<real>, width: real, layer: string, n: nat): (r: Fp)
    requires n <= SegCount(|ps|)
    ensures |r.children| == |st.children| + n
  {
    if n == 0 then st
    else
      var prev := Segs(st, ps, width, layer, n - 1);
      var s := PointAt(ps, n - 1);
      var e := PointAt(ps, n);
      Fp(prev.children + [Line(s, e, width, layer)], Widen(Widen(prev.box, s), e))
  }

  /** One more round of the loop. */
  lemma SegsNext(st: Fp, ps: seq<real>, width: real, layer: string, n: nat)
    requires n < SegCount(|ps|)
    ensures var prev := Segs(st, ps, width, layer, n);
      Segs(st, ps, width, layer, n + 1) ==
      Fp(prev.children + [Line(PointAt(ps, n), PointAt(ps, n + 1), width, layer)],
         Widen(Widen(prev.box, PointAt(ps, n)), PointAt(ps, n + 1)))
  {
  }

  /** The loop keeps the nodes it found and appends, in round `k`, the line from point `k` to
      point `k + 1`. */
  lemma {:induction false} SegsLines(st: Fp, ps: seq<real>, width: real, layer: string, n: nat)
    requires n <= SegCount(|ps|)
    ensures var r := Segs(st, ps, width, layer, n);
      r.children[..|st.children|] == st.children &&
      forall k :: 0 <= k < n ==>
        r.children[|st.children| + k] == Line(PointAt(ps, k), PointAt(ps, k + 1), width, layer)
  {
    if n > 0 {
      SegsLines(st, ps, width, layer, n - 1);
      var prev := Segs(st, ps, width, layer, n - 1);
      var r := Segs(st, ps, width, layer, n);
      assert r.children[..|prev.children|] == prev.children;
      assert r.children[..|st.children|] == prev.children[..|st.children|];
    }
  }

  /** The bounds never shrink, whatever the points. */
  lemma {:induction false} SegsGrows(st: Fp, ps: seq<real>, width: real, layer: string, n: nat)
    requires n <= SegCount(|ps|)
    ensures Grows(st.box, Segs(st, ps, width, layer, n).box)
  {
    if n > 0 {
      SegsGrows(st, ps, width, layer, n - 1);
    }
  }

  /** Every node after the first `n` of `r` is a line of the given width and layer whose two
      ends lie within the bounds of `r`. */
  predicate LinesInside(r: Fp, n: nat, width: real, layer: string) {
    forall k :: n <= k < |r.children| ==>
      r.children[k].Line? && r.children[k].width == width && r.children[k].layer == layer &&
      Inside(r.box, r.children[k].start) && Inside(r.box, r.children[k].end)
  }

  /** The segment loop keeps every line it has appended within the bounds. */
  lemma {:induction false} SegsInside(st: Fp, ps: seq<real>, width: real, layer: string, n: nat)
    requires n <= SegCount(|ps|)
    ensures LinesInside(Segs(st, ps, width, layer, n), |st.children|, width, layer)
  {
    if n > 0 {
      SegsInside(st, ps, width, layer, n - 1);
      var prev := Segs(st, ps, width, layer, n - 1);
      var r := Segs(st, ps, width, layer, n);
      forall k | |st.children| <= k < |r.children|
        ensures r.children[k].Line? && r.children[k].width == width && r.children[k].layer == layer &&
          Inside(r.box, r.children[k].start) && Inside(r.box, r.children[k].end)
      {
        if k < |prev.children| {
          assert r.children[k] == prev.children[k];
          var l := prev.children[k];
          var s, e := PointAt(ps, n - 1), PointAt(ps, n);
          GrowsKeeps(prev.box, Widen(prev.box, s), l.start);
          GrowsKeeps(Widen(prev.box, s), r.box, l.start);
          GrowsKeeps(prev.box, Widen(prev.box, s), l.end);
          GrowsKeeps(Widen(prev.box, s), r.box, l.end);
        }
      }
    }
  }

  /** `h_TRACK`: the width in field 0 (an exception escapes), then the segments joining
      consecutive points, on the layer of field 1 or the front silkscreen. */
  function Track(st: Fp, data: seq<string>, py: Py): (r: Result<Fp>)
    ensures r.Ok? ==> |data| > 0 && py.toFloat(data[0]).Some?
    ensures r.Ok? ==> Grows(st.box, r.value.box)
    ensures r.Ok? ==> |r.value.children| >= |st.children| && r.value.children[..|st.children|] == st.children
    ensures r.Ok? ==> LinesInside(r.value, |st.children|, Mil2mm(py.toFloat(data[0]).value), LayerOr(data, 1))
  {
    var width :- MilField(data, 0, py);
    var pts :- TrackPoints(data, py);
    match pts
    case None => Ok(st)
    case Some(ps) =>
      SegsLines(st, ps, width, LayerOr(data, 1), SegCount(|ps|));
      SegsGrows(st, ps, width, LayerOr(data, 1), SegCount(|ps|));
      SegsInside(st, ps, width, LayerOr(data, 1), SegCount(|ps|));
      Ok(Segs(st, ps, width, LayerOr(data, 1), SegCount(|ps|)))
  }

  /** A track whose points are 2k coordinates appends k - 1 lines, line `j` joining point `j`
      to point `j + 1`. */
  lemma TrackJoinsPoints(st: Fp, data: seq<string>, py: Py, ps: seq<real>, k: nat)
    requires MilField(data, 0, py).Ok? && TrackPoints(data, py) == Ok(Some(ps))
    requires |ps| == 2 * k && k >= 1
    ensures Track(st, data, py).Ok?
    ensures var added := Track(st, data, py).value.children[|st.children|..];
      |added| == k - 1 &&
      forall j :: 0 <= j < |added| ==> added[j].start == PointAt(ps, j) && added[j].end == PointAt(ps, j + 1)
  {
    var w := MilField(data, 0, py).value;
    var r := Segs(st, ps, w, LayerOr(data, 1), SegCount(|ps|));
    assert Track(st, data, py) == Ok(r);
    SegsLines(st, ps, w, LayerOr(data, 1), SegCount(|ps|));
    var added := r.children[|st.children|..];
    forall j | 0 <= j < |added|
      ensures added[j].start == PointAt(ps, j) && added[j].end == PointAt(ps, j + 1)
    {
      assert added[j] == r.children[|st.children| + j];
      assert j < SegCount(|ps|);
      assert r.children[|st.children| + j] == Line(PointAt(ps, j), PointAt(ps, j + 1), w, LayerOr(data, 1));
    }
  }

  /** When field 2 does not parse, field 3 stands in if the record has more than five
      fields; otherwise the record adds nothing. */
  lemma TrackFallback(st: Fp, data: seq<string>, py: Py)
    requires |data| > 2 && py.toFloat(data[0]).Some?
    requires Mils(NonEmpty(Split(data[2], " ")), py).Err?
    ensures |data| > 5 && Mils(NonEmpty(Split(data[3], " ")), py).Ok? ==>
      var ps := Mils(NonEmpty(Split(data[3], " ")), py).value;
      Track(st, data, py) == Ok(Segs(st, ps, Mil2mm(py.toFloat(data[0]).value), LayerOr(data, 1), SegCount(|ps|)))
    ensures |data| > 5 && Mils(NonEmpty(Split(data[3], " ")), py).Err? ==> Track(st, data, py).Err?
    ensures |data| <= 5 ==> Track(st, data, py) == Ok(st)
  {
  }

  // ---------------------------------------------------------------------------
  // PAD
  // ---------------------------------------------------------------------------

  /** `shape_correspondance`, with the oval default for an unknown shape. */
  function ShapeOf(code: string): (r: PadShape)
    ensures r == Rect <==> code == "RECT"
    ensures r == Circle <==> code == "ELLIPSE"
    ensures r == Custom <==> code == "POLYGON"
    ensures code !in {"RECT", "ELLIPSE", "POLYGON"} <==> r == Oval
  {
    if code == "OVAL" then Oval
    else if code == "RECT" then Rect
    else if code == "ELLIPSE" then Circle
    else if code == "POLYGON" then Custom
    else Oval
  }

  /** The drill of a through-hole oval pad from the hole diameter `d` and the slot length
      `off`: round when `off` is 0, otherwise oblong with the two sizes ordered so that the
      slot lies along the pad (`(d < off) ^ (size.x > size.y)`). */
  function OvalDrill(d: real, off: real, size: Point): (r: Drill)
    ensures off == 0.0 ==> r == Round(d)
    ensures off != 0.0 ==> r.Oblong? && ((r.dx == d && r.dy == off) || (r.dx == off && r.dy == d))
    ensures off != 0.0 && size.x > size.y ==> r.dx >= r.dy
    ensures off != 0.0 && size.x <= size.y ==> r.dx <= r.dy
  {
    if off == 0.0 then Round(d)
    else if (d < off) != (size.x > size.y) then Oblong(d, off)
    else Oblong(off, d)
  }

  /** `mil2mm(coord) - at[i % 2]` over every space-separated token, empty ones included. */
  function Outline(ts: seq<string>, at: Point, py: Py): (r: Result<seq<real>>)
    ensures r.Ok? <==> forall k :: 0 <= k < |ts| ==> py.toFloat(ts[k]).Some?
    ensures r.Ok? ==> |r.value| == |ts| && forall k :: 0 <= k < |ts| ==>
      (r.value[k] + (if k % 2 == 0 then at.x else at.y)) * 3.937 == py.toFloat(ts[k]).value
  {
    var ms :- Mils(ts, py);
    Ok(seq(|ms|, k requires 0 <= k < |ms| => ms[k] - (if k % 2 == 0 then at.x else at.y)))
  }

  /** `zip(points[::2], points[1::2])`: consecutive pairs, an odd last value dropped. */
  function Pairs(ps: seq<real>): (r: seq<Point>)
    ensures |r| == |ps| / 2
    ensures forall k :: 0 <= k < |r| ==> r[k] == PointAt(ps, k)
  {
    seq(|ps| / 2, k requires 0 <= k < |ps| / 2 => PointAt(ps, k))
  }

  /** The outline of a custom SMT pad: the tokens of field 8, made relative to the pad centre,
      paired. Adding the centre back to corner `k` gives tokens `2k` and `2k + 1` converted. */
  function CustomOutline(data: seq<string>, at: Point, py: Py): (r: Result<seq<Point>>)
    ensures r.Ok? ==> |data| > 8 && |r.value| == |Split(data[8], " ")| / 2
    ensures r.Ok? ==> forall k :: 0 <= k < |r.value| ==>
      var ts := Split(data[8], " ");
      py.toFloat(ts[2 * k]).Some? && py.toFloat(ts[2 * k + 1]).Some? &&
      (r.value[k].x + at.x) * 3.937 == py.toFloat(ts[2 * k]).value &&
      (r.value[k].y + at.y) * 3.937 == py.toFloat(ts[2 * k + 1]).value
  {
    var f :- Field(data, 8);
    var ps :- Outline(Split(f, " "), at, py);
    assert forall k :: 0 <= k < |ps| / 2 ==> (2 * k) % 2 == 0 && (2 * k + 1) % 2 == 1;
    Ok(Pairs(ps))
  }

  /** The pad of a PAD record, or None when its assembly code and shape are not handled.
      Fields 1-4 and 7 are converted first and field 9 (the rotation, unless the pad is
      round) is parsed before the code is looked at, so their exceptions escape even for a
      pad that is then skipped. */
  function PadNode(data: seq<string>, py: Py): (r: Result<Option<Node>>)
    ensures r.Ok? ==> |data| > 7 && forall i :: i in {1, 2, 3, 4, 7} ==> py.toFloat(data[i]).Some?
    ensures r.Ok? ==> (r.value.Some? <==>
      data[5] == "1" || (data[5] == "11" && ShapeOf(data[0]) != Custom))
    ensures r.Ok? && r.value.Some? ==> var n := r.value.value;
      n.Pad? && n.number == data[6] && n.shape == ShapeOf(data[0]) &&
      (n.padType == SMT <==> data[5] == "1") && (n.padType == THT <==> data[5] == "11") &&
      (n.padType == SMT ==> n.drill == Round(1.0)) &&
      (n.shape == Circle ==> n.rotation == 0.0) &&
      (n.outline.Some? <==> n.padType == SMT && n.shape == Custom) &&
      n.at.x * 3.937 == py.toFloat(data[1]).value && n.at.y * 3.937 == py.toFloat(data[2]).value
    ensures r.Ok? && r.value.Some? ==> var n := r.value.value;
      n.size.x * 3.937 == py.toFloat(data[3]).value && n.size.y * 3.937 == py.toFloat(data[4]).value &&
      (n.shape != Circle ==> |data| > 9 && py.toFloat(data[9]) == Some(n.rotation))
    ensures r.Ok? && r.value.Some? && r.value.value.padType == THT ==> var n := r.value.value;
      var hole := MilField(data, 7, py).value;
      (n.shape == Oval ==> MilField(data, 11, py).Ok? && n.drill == OvalDrill(2.0 * hole, MilField(data, 11, py).value, n.size)) &&
      (n.shape != Oval ==> n.drill == Round(2.0 * hole))
    ensures r.Ok? && r.value.Some? && r.value.value.padType == SMT && r.value.value.shape == Custom ==>
      CustomOutline(data, r.value.value.at, py).Ok? &&
      r.value.value.outline == Some(CustomOutline(data, r.value.value.at, py).value)
  {
    var x :- MilField(data, 1, py);
    var y :- MilField(data, 2, py);
    var sx :- MilField(data, 3, py);
    var sy :- MilField(data, 4, py);
    var hole :- MilField(data, 7, py);
    var number := data[6];
    var shape := ShapeOf(data[0]);
    var rotation :- if shape == Circle then Ok(0.0) else Drawing.FloatField(data, 9, py);
    var at := Point(x, y);
    var size := Point(sx, sy);
    if data[5] == "1" then
      var outline :-
        if shape == Custom then
          var o :- CustomOutline(data, at, py);
          Ok(Some(o))
        else Ok(None);
      Ok(Some(Pad(number, SMT, shape, at, size, rotation, Round(1.0), outline)))
    else if data[5] == "11" && shape == Oval then
      var off :- MilField(data, 11, py);
      Ok(Some(Pad(number, THT, shape, at, size, rotation, OvalDrill(2.0 * hole, off, size), None)))
    else if data[5] == "11" && (shape == Circle || shape == Rect) then
      Ok(Some(Pad(number, THT, shape, at, size, rotation, Round(2.0 * hole), None)))
    else Ok(None)
  }

  /** `h_PAD`: a retained pad is appended and widens the bounds by its centre only. */
  function PadStep(st: Fp, data: seq<string>, py: Py): Result<Fp> {
    var p :- PadNode(data, py);
    match p
    case None => Ok(st)
    case Some(n) => Ok(Fp(st.children + [n], Widen(st.box, n.at)))
  }

  /** A pad adds one node and widens by its centre, or changes nothing. */
  lemma PadBounds(st: Fp, data: seq<string>, py: Py)
    requires PadStep(st, data, py).Ok?
    ensures var r := PadStep(st, data, py).value;
      (r == st && PadNode(data, py).value.None?) ||
      (|r.children| == |st.children| + 1 && r.children[..|st.children|] == st.children &&
       r.children[|st.children|].Pad? && r.box == Widen(st.box, r.children[|st.children|].at))
  {
    var r := PadStep(st, data, py).value;
    if PadNode(data, py).value.Some? {
      assert r.children[..|st.children|] == st.children;
    }
  }

  // ---------------------------------------------------------------------------
  // ARC
  // ---------------------------------------------------------------------------

  /** The path of an arc: field 2 when it starts with `M`, else field 3 when it does. Any
      `IndexError` on the way (a missing field, an empty one) drops the arc. */
  function ArcPath(data: seq<string>): (r: Option<string>)
    ensures r.Some? ==> |data| > 2 && r.value != "" && r.value[0] == 'M'
    ensures r.Some? ==> r.value == data[2] || (|data| > 3 && r.value == data[3] && data[2] != "" && data[2][0] != 'M')
    ensures |data| > 2 && data[2] != "" && data[2][0] == 'M' ==> r == Some(data[2])
  {
    if |data| <= 2 || data[2] == "" then None
    else if data[2][0] == 'M' then Some(data[2])
    else if |data| <= 3 || data[3] == "" then None
    else if data[3][0] == 'M' then Some(data[3])
    else None
  }

  /** The tokens of an arc path: `M` and `A` removed, commas made spaces, empty pieces dropped. */
  function ArcTokens(p: string): seq<string> {
    NonEmpty(Split(Replace(Replace(Replace(p, "M", ""), "A", ""), ",", " "), " "))
  }

  function Dot(p: Point, q: Point): real {
    p.x * q.x + p.y * q.y
  }

  function Sub(p: Point, q: Point): Point {
    Point(p.x - q.x, p.y - q.y)
  }

  function DistSq(p: Point, q: Point): real {
    Dot(Sub(p, q), Sub(p, q))
  }

  /** Twice the signed area of the triangle (s, m, e); zero exactly when they are collinear. */
  function Cross(s: Point, m: Point, e: Point): real {
    Det(Sub(s, m), Sub(s, e))
  }

  /** The determinant `cb - ad` of the rows (a, b) and (c, d). */
  function Det(u: Point, v: Point): real {
    v.x * u.y - u.x * v.y
  }

  /** `sq1`, `sq2` of the handler: differences of squared norms. */
  function SqDiff(p: Point, s: Point): real {
    Dot(p, p) - Dot(s, s)
  }

  /** The centre formula of `h_ARC` written with `a, b = s - m` and `c, d = s - e`: None
      where it divides by zero, which is when `b` is 0 or the cross product `cb - ad` is. */
  function SolveCentre(a: real, b: real, c: real, d: real, sq1: real, sq2: real): (r: Option<Point>)
    ensures r.None? <==> b == 0.0 || Det(Point(a, b), Point(c, d)) == 0.0
    ensures r.Some? ==> 2.0 * Dot(Point(a, b), r.value) + sq1 == 0.0
    ensures r.Some? ==> 2.0 * Dot(Point(c, d), r.value) + sq2 == 0.0
  {
    if b == 0.0 then None
    else
      DenominatorIsCross(a, b, c, d);
      if Denominator(a, b, c, d) == 0.0 then None
      else Some(CentreOf(a, b, c, d, sq1, sq2))
  }

  /** The second denominator of the formula, `2c - 2ad/b`. */
  function Denominator(a: real, b: real, c: real, d: real): real
    requires b != 0.0
  {
    2.0 * c - 2.0 * a * d / b
  }

  /** The second denominator of the formula is the cross product over `b`. */
  lemma DenominatorIsCross(a: real, b: real, c: real, d: real)
    requires b != 0.0
    ensures Denominator(a, b, c, d) == 0.0 <==> Det(Point(a, b), Point(c, d)) == 0.0
  {
    var den := Denominator(a, b, c, d);
    assert den * b == 2.0 * (c * b - a * d);
  }

  /** The point the formula gives where it does not divide by zero: it solves both
      linear equations. */
  function CentreOf(a: real, b: real, c: real, d: real, sq1: real, sq2: real): (p: Point)
    requires b != 0.0 && Denominator(a, b, c, d) != 0.0
    ensures 2.0 * Dot(Point(a, b), p) + sq1 == 0.0
    ensures 2.0 * Dot(Point(c, d), p) + sq2 == 0.0
  {
    var den := Denominator(a, b, c, d);
    var cx := (d / b * sq1 - sq2) / den;
    var cy := -(2.0 * a * cx + sq1) / (2.0 * b);
    CentreEquations(a, b, c, d, sq1, sq2, d / b, den, cx, cy);
    Point(cx, cy)
  }

  /** The centre of the arc through `s`, `e` and `m`, None where the handler divides by zero:
      when `s` and `m` share a y coordinate, or when the three points are collinear. */
  function ArcCentre(s: Point, m: Point, e: Point): (r: Option<Point>)
    ensures r.None? <==> s.y == m.y || Cross(s, m, e) == 0.0
    ensures r.Some? ==> 2.0 * Dot(Sub(s, m), r.value) + SqDiff(m, s) == 0.0
    ensures r.Some? ==> 2.0 * Dot(Sub(s, e), r.value) + SqDiff(e, s) == 0.0
  {
    var u, v := Sub(s, m), Sub(s, e);
    SolveCentre(u.x, u.y, v.x, v.y, SqDiff(m, s), SqDiff(e, s))
  }

  /** The two linear equations the centre solves, derived step by step from its definition. */
  lemma CentreEquations(a: real, b: real, c: real, d: real, sq1: real, sq2: real, q: real,
                        den: real, cx: real, cy: real)
    requires b != 0.0 && den != 0.0
    requires q == d / b && den == 2.0 * c - 2.0 * a * d / b
    requires cx == (q * sq1 - sq2) / den && cy == -(2.0 * a * cx + sq1) / (2.0 * b)
    ensures 2.0 * (a * cx + b * cy) + sq1 == 0.0
    ensures 2.0 * (c * cx + d * cy) + sq2 == 0.0
  {
    assert cy * (2.0 * b) == -(2.0 * a * cx + sq1);
    assert q * b == d;
    assert den == 2.0 * c - 2.0 * a * q;
    assert cx * den == q * sq1 - sq2;
    calc {
      2.0 * (c * cx + d * cy) + sq2;
      == { assert d * cy == q * (b * cy); }
      2.0 * c * cx + q * (2.0 * b * cy) + sq2;
      == { assert 2.0 * b * cy == -(2.0 * a * cx + sq1); }
      2.0 * c * cx - q * (2.0 * a * cx + sq1) + sq2;
      ==
      cx * (2.0 * c - 2.0 * a * q) - q * sq1 + sq2;
      ==
      cx * den - q * sq1 + sq2;
      ==
      0.0;
    }
  }

  /** The centre is as far from the start as from the other two points: the arc's circle
      passes through start, end and `m` (which the handler builds as end + the radius
      fields). */
  lemma ArcCentreEquidistant(s: Point, m: Point, e: Point)
    requires ArcCentre(s, m, e).Some?
    ensures var c := ArcCentre(s, m, e).value;
      DistSq(c, s) == DistSq(c, m) && DistSq(c, s) == DistSq(c, e)
  {
    var c := ArcCentre(s, m, e).value;
    EquidistantByEquation(s, m, c);
    EquidistantByEquation(s, e, c);
  }

  /** `2 (s - p) . c + |p|^2 - |s|^2 = 0` says that `c` is as far from `s` as from `p`. */
  lemma EquidistantByEquation(s: Point, p: Point, c: Point)
    requires 2.0 * Dot(Sub(s, p), c) + SqDiff(p, s) == 0.0
    ensures DistSq(c, s) == DistSq(c, p)
  {
    assert DistSq(c, s) == Dot(c, c) - 2.0 * Dot(s, c) + Dot(s, s);
    assert DistSq(c, p) == Dot(c, c) - 2.0 * Dot(p, c) + Dot(p, p);
  }

  /** Token `i` and `i + 1` of an arc path, converted, as a point. */
  function TokenPoint(ts: seq<string>, i: nat, py: Py): Point
    requires i + 1 < |ts| && MilOf(ts[i], py).Some? && MilOf(ts[i + 1], py).Some?
  {
    Point(MilOf(ts[i], py).value, MilOf(ts[i + 1], py).value)
  }

  /** An arc record whose path has nine tokens, with the width and tokens 0-3, 7 and 8
      converting. */
  predicate ArcFieldsParse(data: seq<string>, py: Py) {
    ArcPath(data).Some? && MilOf(data[0], py).Some? &&
    var ts := ArcTokens(ArcPath(data).value);
    |ts| == 9 && MilOf(ts[0], py).Some? && MilOf(ts[1], py).Some? && MilOf(ts[2], py).Some? &&
    MilOf(ts[3], py).Some? && MilOf(ts[7], py).Some? && MilOf(ts[8], py).Some?
  }

  /** The third point the handler puts on the circle: the end moved by tokens 2/3. */
  function ArcMid(data: seq<string>, py: Py): Point
    requires ArcFieldsParse(data, py)
  {
    var ts := ArcTokens(ArcPath(data).value);
    var e := TokenPoint(ts, 7, py);
    Point(e.x + MilOf(ts[2], py).value, e.y + MilOf(ts[3], py).value)
  }

  /** `h_ARC`: every step sits inside a `try`, so any failure (no `M` path, other than nine
      tokens, a malformed number, a zero denominator) drops the arc. The centre is computed
      from start (0, 1), end (7, 8) and end + (2, 3). */
  function ArcNode(data: seq<string>, py: Py): (r: Option<Node>)
    ensures r.Some? ==> ArcPath(data).Some? && |ArcTokens(ArcPath(data).value)| == 9
    ensures r.Some? ==> (r.value.Arc? && r.value.layer == LayerOr(data, 1) &&
      DistSq(r.value.center, r.value.start) == DistSq(r.value.center, r.value.end))
    ensures r.Some? ==> var ts := ArcTokens(ArcPath(data).value);
      MilOf(data[0], py) == Some(r.value.width) &&
      MilOf(ts[0], py) == Some(r.value.start.x) && MilOf(ts[1], py) == Some(r.value.start.y) &&
      MilOf(ts[7], py) == Some(r.value.end.x) && MilOf(ts[8], py) == Some(r.value.end.y)
    ensures r.Some? <==>
      ArcFieldsParse(data, py) &&
      (var ts := ArcTokens(ArcPath(data).value);
       ArcCentre(TokenPoint(ts, 0, py), ArcMid(data, py), TokenPoint(ts, 7, py)).Some?)
    ensures r.Some? ==>
      ArcFieldsParse(data, py) && ArcCentre(r.value.start, ArcMid(data, py), r.value.end) == Some(r.value.center)
  {
    var p :- ArcPath(data);
    var ts := ArcTokens(p);
    if |ts| != 9 then None
    else
      var width :- MilOf(data[0], py);
      var sx :- MilOf(ts[0], py);
      var sy :- MilOf(ts[1], py);
      var mx :- MilOf(ts[2], py);
      var my :- MilOf(ts[3], py);
      var ex :- MilOf(ts[7], py);
      var ey :- MilOf(ts[8], py);
      var start := Point(sx, sy);
      var end := Point(ex, ey);
      var mid := Point(end.x + mx, end.y + my);
      var center :- ArcCentre(start, mid, end);
      ArcCentreEquidistant(start, mid, end);
      Some(Arc(center, start, end, width, LayerOr(data, 1)))
  }

  // ---------------------------------------------------------------------------
  // CIRCLE, RECT, HOLE, TEXT
  // ---------------------------------------------------------------------------

  /** `h_CIRCLE`: nothing on layer code 100 (circles drawn over pads); otherwise centre,
      radius and width from fields 0-3, on the layer of field 4 or the front silkscreen. */
  function CircleNodeOf(data: seq<string>, py: Py): (r: Result<Option<Node>>)
    ensures |data| <= 4 ==> r.Err?
    ensures |data| > 4 && data[4] == "100" ==> r == Ok(None)
    ensures r.Ok? && r.value.Some? ==> (data[4] != "100" &&
      r.value.value.CircleNode? && r.value.value.layer == LayerOr(data, 4) &&
      (forall i :: 0 <= i < 4 ==> py.toFloat(data[i]).Some?) &&
      r.value.value.center.x * 3.937 == py.toFloat(data[0]).value &&
      r.value.value.center.y * 3.937 == py.toFloat(data[1]).value &&
      r.value.value.radius * 3.937 == py.toFloat(data[2]).value &&
      r.value.value.width * 3.937 == py.toFloat(data[3]).value)
    ensures |data| > 4 && data[4] != "100" ==>
      (r.Ok? <==> forall i :: 0 <= i < 4 ==> py.toFloat(data[i]).Some?)
    ensures r.Ok? ==> (r.value.None? <==> data[4] == "100")
  {
    var code :- Field(data, 4);
    if code == "100" then Ok(None)
    else
      var cx :- MilField(data, 0, py);
      var cy :- MilField(data, 1, py);
      var radius :- MilField(data, 2, py);
      var width :- MilField(data, 3, py);
      Ok(Some(CircleNode(Point(cx, cy), radius, width, LayerOr(data, 4))))
  }

  /** `h_RECT`: an axis-aligned rectangle from a corner and two extents. The layer lookup has
      no fallback, so an unknown code raises. */
  function RectNode(data: seq<string>, py: Py): (r: Result<Node>)
    ensures r.Ok? ==> |data| > 4 && data[4] in Layers
    ensures |data| > 4 && data[4] !in Layers ==> r.Err?
    ensures r.Ok? ==> forall i :: 0 <= i < 4 ==> py.toFloat(data[i]).Some?
    ensures r.Ok? <==> |data| > 4 && (forall i :: 0 <= i < 4 ==> py.toFloat(data[i]).Some?) && data[4] in Layers
    ensures r.Ok? ==> r.value.Polygon? && r.value.layer == Layers[data[4]]
    ensures r.Ok? ==> var ns := r.value.nodes;
      |ns| == 4 &&
      ns[0].x * 3.937 == py.toFloat(data[0]).value && ns[0].y * 3.937 == py.toFloat(data[1]).value &&
      ns[0].y == ns[1].y && ns[1].x == ns[2].x && ns[2].y == ns[3].y && ns[3].x == ns[0].x &&
      (ns[2].x - ns[0].x) * 3.937 == py.toFloat(data[2]).value &&
      (ns[2].y - ns[0].y) * 3.937 == py.toFloat(data[3]).value
  {
    var x :- MilField(data, 0, py);
    var y :- MilField(data, 1, py);
    var dx :- MilField(data, 2, py);
    var dy :- MilField(data, 3, py);
    var code :- Field(data, 4);
    var layer :- Need(if code in Layers then Some(Layers[code]) else None, KeyError);
    Ok(Polygon([Point(x, y), Point(x + dx, y), Point(x + dx, y + dy), Point(x, y + dy)], layer))
  }

  /** `h_HOLE`: an unnumbered non-plated round pad whose drill is as wide as the pad. */
  function HoleNode(data: seq<string>, py: Py): (r: Result<Node>)
    ensures r.Ok? <==> |data| > 2 && forall i :: 0 <= i < 3 ==> py.toFloat(data[i]).Some?
    ensures r.Ok? ==> var n := r.value;
      n.Pad? && n.padType == NPTH && n.number == "" && n.shape == Circle && n.rotation == 0.0 &&
      n.size.x == n.size.y && n.drill == Round(n.size.x) && n.outline.None? &&
      n.size.x * 3.937 == 2.0 * py.toFloat(data[2]).value &&
      n.at.x * 3.937 == py.toFloat(data[0]).value && n.at.y * 3.937 == py.toFloat(data[1]).value
  {
    var x :- MilField(data, 0, py);
    var y :- MilField(data, 1, py);
    var r :- MilField(data, 2, py);
    Ok(Pad("", NPTH, Circle, Point(x, y), Point(r * 2.0, r * 2.0), 0.0, Round(r * 2.0), None))
  }

  /** `h_TEXT`: a user text, dropped when any field is missing or malformed or the layer code
      of field 7 is unknown (all inside a `try`). */
  function TextNode(data: seq<string>, py: Py): (r: Option<Node>)
    ensures r.Some? <==> (|data| > 8 && py.toFloat(data[1]).Some? && py.toFloat(data[2]).Some? &&
      data[7] in Layers)
    ensures r.Some? ==> (r.value.Text? && r.value.kind == "user" && r.value.text == data[8] &&
      r.value.layer == Layers[data[7]])
    ensures r.Some? ==>
      r.value.at.x * 3.937 == py.toFloat(data[1]).value && r.value.at.y * 3.937 == py.toFloat(data[2]).value
  {
    if |data| <= 8 then None
    else
      var x :- MilOf(data[1], py);
      var y :- MilOf(data[2], py);
      if data[7] !in Layers then None
      else Some(Text("user", data[8], Point(x, y), Layers[data[7]]))
  }

  // ---------------------------------------------------------------------------
  // The handlers on the footprint objects
  // ---------------------------------------------------------------------------

  /** `h_TRACK` on the objects: the width and the points first, then the segment loop. */
  method TrackOn(km: KicadMod, info: FootprintInfo, data: seq<string>, py: Py) returns (r: Result<()>)
    modifies km, info
    ensures var t := Track(old(Snap(km, info)), data, py);
      (r.Ok? <==> t.Ok?) && (t.Ok? ==> Snap(km, info) == t.value) &&
      (t.Err? ==> r == Err(t.msg) && Snap(km, info) == old(Snap(km, info)))
    ensures km.attribute == old(km.attribute)
  {
    var width := MilField(data, 0, py);
    if width.Err? {
      return Err(width.msg);
    }
    var pts := TrackPoints(data, py);
    if pts.Err? {
      return Err(pts.msg);
    }
    if pts.value.None? {
      return Ok(());
    }
    AppendSegments(km, info, pts.value.value, width.value, LayerOr(data, 1));
    return Ok(());
  }

  /** The segment loop of `h_TRACK`: one line per round, the bounds widened by both ends. */
  method AppendSegments(km: KicadMod, info: FootprintInfo, ps: seq<real>, width: real, layer: string)
    modifies km, info
    ensures Snap(km, info) == Segs(old(Snap(km, info)), ps, width, layer, SegCount(|ps|))
    ensures km.attribute == old(km.attribute)
  {
    ghost var st0 := Snap(km, info);
    var i := 0;
    while i < SegCount(|ps|)
      invariant 0 <= i <= SegCount(|ps|)
      invariant Snap(km, info) == Segs(st0, ps, width, layer, i)
      invariant km.attribute == old(km.attribute)
    {
      var start := Point(ps[2 * i], ps[2 * i + 1]);
      var end := Point(ps[2 * i + 2], ps[2 * i + 3]);
      info.Include(start);
      info.Include(end);
      km.Append(Line(start, end, width, layer));
      SegsNext(st0, ps, width, layer, i);
      i := i + 1;
    }
  }

  /** The `enumerate` loop of a custom pad: one relative coordinate appended per token. */
  method RelativeOutline(ts: seq<string>, at: Point, py: Py) returns (r: Result<seq<real>>)
    ensures r == Outline(ts, at, py)
  {
    var points: seq<real> := [];
    var i := 0;
    while i < |ts|
      invariant 0 <= i <= |ts|
      invariant |points| == i
      invariant forall k :: 0 <= k < i ==> (py.toFloat(ts[k]).Some? &&
        (points[k] + (if k % 2 == 0 then at.x else at.y)) * 3.937 == py.toFloat(ts[k]).value)
    {
      var f := Float(py, ts[i]);
      if f.Err? {
        OutlineErr(ts, at, py, i);
        return Err(f.msg);
      }
      points := points + [Mil2mm(f.value) - (if i % 2 == 0 then at.x else at.y)];
      i := i + 1;
    }
    OutlineOk(ts, at, py, points);
    return Ok(points);
  }

  /** A malformed token makes the whole outline raise the float error. */
  lemma OutlineErr(ts: seq<string>, at: Point, py: Py, i: nat)
    requires i < |ts| && py.toFloat(ts[i]).None?
    ensures Outline(ts, at, py) == Err(FloatError)
  {
    MilsErr(ts, py, i);
  }

  lemma {:induction false} MilsErr(ts: seq<string>, py: Py, i: nat)
    requires i < |ts| && py.toFloat(ts[i]).None?
    ensures Mils(ts, py) == Err(FloatError)
    decreases |ts|
  {
    if py.toFloat(ts[0]).Some? {
      assert ts[1..][i - 1] == ts[i];
      MilsErr(ts[1..], py, i - 1);
    }
  }

  /** The outline is determined by what each of its entries must be. */
  lemma OutlineOk(ts: seq<string>, at: Point, py: Py, points: seq<real>)
    requires |points| == |ts|
    requires forall k :: 0 <= k < |ts| ==> (py.toFloat(ts[k]).Some? &&
      (points[k] + (if k % 2 == 0 then at.x else at.y)) * 3.937 == py.toFloat(ts[k]).value)
    ensures Outline(ts, at, py) == Ok(points)
  {
    assert Outline(ts, at, py).Ok?;
    var o := Outline(ts, at, py).value;
    forall k | 0 <= k < |ts|
      ensures o[k] == points[k]
    {
      var off := if k % 2 == 0 then at.x else at.y;
      assert (o[k] + off) * 3.937 == (points[k] + off) * 3.937;
    }
    assert o == points;
  }

  /** `h_PAD` on the objects: a retained pad widens the bounds by its centre, then is
      appended. The outline of a custom pad is built by the loop above. */
  method PadOn(km: KicadMod, info: FootprintInfo, data: seq<string>, py: Py) returns (r: Result<()>)
    modifies km, info
    ensures var t := PadStep(old(Snap(km, info)), data, py);
      (r.Ok? <==> t.Ok?) && (t.Ok? ==> Snap(km, info) == t.value) &&
      (t.Err? ==> r == Err(t.msg) && Snap(km, info) == old(Snap(km, info)))
    ensures km.attribute == old(km.attribute)
  {
    var p := PadNode(data, py);
    if p.Err? {
      return Err(p.msg);
    }
    if p.value.None? {
      return Ok(());
    }
    var n := p.value.value;
    if n.outline.Some? {
      var ps := RelativeOutline(Split(data[8], " "), n.at, py);
      assert n.outline == Some(Pairs(ps.value));
    }
    info.Include(n.at);
    km.Append(n);
    return Ok(());
  }
}
