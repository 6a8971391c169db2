/** The objects a footprint is built from: the KiCad nodes the handlers append (stand-ins for
    the KicadModTree classes, carrying only the fields the handlers pass), the footprint
    under construction and the `FootprintInfo` record whose bounds the handlers widen. */
module FootprintTypes {
  import opened Wrappers
  import opened Numeric

  // ---------------------------------------------------------------------------
  // Bounds
  // ---------------------------------------------------------------------------

  /** The bounds kept in `FootprintInfo`: `max_X`, `max_Y`, `min_X`, `min_Y`. */
  datatype Box = Box(maxX: real, maxY: real, minX: real, minY: real)

  /** The defaults of `FootprintInfo`: inverted, so that the first point sets every side. */
  const Sentinel: Box := Box(-10000.0, -10000.0, 10000.0, 10000.0)

  predicate Inside(b: Box, p: Point) {
    b.minX <= p.x <= b.maxX && b.minY <= p.y <= b.maxY
  }

  /** `r` is `b` or larger on every side. */
  predicate Grows(b: Box, r: Box) {
    r.maxX >= b.maxX && r.maxY >= b.maxY && r.minX <= b.minX && r.minY <= b.minY
  }

  /** The handlers' `max_X = max(max_X, p.x)`, `min_X = min(min_X, p.x)` and the same on y. */
  function Widen(b: Box, p: Point): (r: Box)
    ensures Inside(r, p) && Grows(b, r)
    ensures Inside(b, p) ==> r == b
  {
    Box(Max(b.maxX, p.x), Max(b.maxY, p.y), Min(b.minX, p.x), Min(b.minY, p.y))
  }

  /** A box that grows keeps every point it held. */
  lemma GrowsKeeps(b: Box, r: Box, q: Point)
    requires Grows(b, r) && Inside(b, q)
    ensures Inside(r, q)
  {
  }

  /** Widening the sentinel by a point within 10 m of the origin collapses it onto that
      point: the first point decides all four sides. */
  lemma SentinelFirstPoint(p: Point)
    requires -10000.0 <= p.x <= 10000.0 && -10000.0 <= p.y <= 10000.0
    ensures Widen(Sentinel, p) == Box(p.x, p.y, p.x, p.y)
  {
  }

  /** `max_X -= d.x` and so on for all four sides. */
  function ShiftBox(b: Box, d: Point): Box {
    Box(b.maxX - d.x, b.maxY - d.y, b.minX - d.x, b.minY - d.y)
  }

  /** Shifting the bounds by `d` moves what they hold by `-d`: `p` is inside the old bounds
      exactly when `p - d` is inside the new ones. */
  lemma ShiftBoxInside(b: Box, d: Point, p: Point)
    ensures Inside(b, p) <==> Inside(ShiftBox(b, d), Point(p.x - d.x, p.y - d.y))
  {
  }

  // ---------------------------------------------------------------------------
  // Nodes
  // ---------------------------------------------------------------------------

  datatype PadType = SMT | THT | NPTH

  datatype PadShape = Oval | Rect | Circle | Custom

  /** A round drill of one diameter, or an oblong one of two sizes (x, y). */
  datatype Drill = Round(diameter: real) | Oblong(dx: real, dy: real)

  datatype Vec3 = Vec3(x: real, y: real, z: real)

  /** The KiCad nodes of a footprint. A custom pad carries its outline polygon; a
      `Translated` node is the Translation that `insert` puts above the nodes before it. */
  datatype Node =
    | Line(start: Point, end: Point, width: real, layer: string)
    | Pad(number: string, padType: PadType, shape: PadShape, at: Point, size: Point,
          rotation: real, drill: Drill, outline: Option<seq<Point>>)
    | Arc(center: Point, start: Point, end: Point, width: real, layer: string)
    | CircleNode(center: Point, radius: real, width: real, layer: string)
    | Polygon(nodes: seq<Point>, layer: string)
    | Text(kind: string, text: string, at: Point, layer: string)
    | Model(filename: string, offset: Vec3, rotate: seq<real>)
    | Translated(shift: Point, children: seq<Node>)

  predicate IsThtPad(n: Node) {
    n.Pad? && n.padType == THT
  }

  predicate HasThtPad(ns: seq<Node>) {
    exists k :: 0 <= k < |ns| && IsThtPad(ns[k])
  }

  predicate HasModel(ns: seq<Node>) {
    exists k :: 0 <= k < |ns| && ns[k].Model?
  }

  /** What the handlers change: the nodes of the footprint and the bounds. */
  datatype Fp = Fp(children: seq<Node>, box: Box)

  /** A handler that appends `n` and leaves the bounds alone. */
  function Add(st: Fp, n: Node): (r: Fp)
    ensures r.children == st.children + [n] && r.box == st.box
  {
    Fp(st.children + [n], st.box)
  }

  // ---------------------------------------------------------------------------
  // The objects the handlers update
  // ---------------------------------------------------------------------------

  /** The KicadModTree `Footprint` under construction. */
  class KicadMod {
    const name: string
    const description: string
    const tags: string
    var children: seq<Node>
    var attribute: string

    constructor (name: string, description: string, tags: string)
      ensures this.name == name && this.description == description && this.tags == tags
      ensures children == [] && attribute == ""
    {
      this.name := name;
      this.description := description;
      this.tags := tags;
      children := [];
      attribute := "";
    }

    /** `kicad_mod.append(node)`. */
    method Append(n: Node)
      modifies this
      ensures children == old(children) + [n] && attribute == old(attribute)
    {
      children := children + [n];
    }

    /** `kicad_mod.insert(Translation(d))`: the translation becomes the parent of every node
        appended so far. */
    method Insert(d: Point)
      modifies this
      ensures children == [Translated(d, old(children))] && attribute == old(attribute)
    {
      children := [Translated(d, children)];
    }

    /** `kicad_mod.setAttribute(a)`. */
    method SetAttribute(a: string)
      modifies this
      ensures attribute == a && children == old(children)
    {
      attribute := a;
    }
  }

  /** The `FootprintInfo` dataclass: the bounds the handlers widen and the settings passed to
      the 3D model writers. */
  class FootprintInfo {
    var maxX: real
    var maxY: real
    var minX: real
    var minY: real
    const footprintName: string
    const outputDir: string
    const footprintLib: string
    const modelBaseVariable: string
    const modelDir: string
    const origin: Point
    const models: string

    constructor (footprintName: string, outputDir: string, footprintLib: string,
                 modelBaseVariable: string, modelDir: string, origin: Point, models: string)
      ensures Bounds() == Sentinel
      ensures this.footprintName == footprintName && this.outputDir == outputDir
      ensures this.footprintLib == footprintLib && this.modelBaseVariable == modelBaseVariable
      ensures this.modelDir == modelDir && this.origin == origin && this.models == models
    {
      maxX := -10000.0;
      maxY := -10000.0;
      minX := 10000.0;
      minY := 10000.0;
      this.footprintName := footprintName;
      this.outputDir := outputDir;
      this.footprintLib := footprintLib;
      this.modelBaseVariable := modelBaseVariable;
      this.modelDir := modelDir;
      this.origin := origin;
      this.models := models;
    }

    function Bounds(): Box
      reads this
    {
      Box(maxX, maxY, minX, minY)
    }

    /** The four `max(...)`/`min(...)` updates by one point. */
    method Include(p: Point)
      modifies this
      ensures Bounds() == Widen(old(Bounds()), p)
    {
      maxX := Max(maxX, p.x);
      minX := Min(minX, p.x);
      maxY := Max(maxY, p.y);
      minY := Min(minY, p.y);
    }

    /** The four `-=` updates by the same offset. */
    method Shift(d: Point)
      modifies this
      ensures Bounds() == ShiftBox(old(Bounds()), d)
    {
      maxX := maxX - d.x;
      maxY := maxY - d.y;
      minX := minX - d.x;
      minY := minY - d.y;
    }
  }

  /** The part of the two objects the handlers change. */
  function Snap(km: KicadMod, info: FootprintInfo): Fp
    reads km, info
  {
    Fp(km.children, info.Bounds())
  }
}
