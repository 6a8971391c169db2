/** The 2-D vector helper of the footprint package, exact over the reals.
    `length`, `normalized` and `angle` need a square root and are not part of this model. */
module Vectors {
  import opened Wrappers

  datatype Vector2 = Vector2(x: real, y: real)

  /** `v[key]`: 0 selects x, 1 selects y, any other key raises. */
  function Get(v: Vector2, key: int): (r: Result<real>)
    ensures key == 0 ==> r == Ok(v.x)
    ensures key == 1 ==> r == Ok(v.y)
    ensures key != 0 && key != 1 ==> r.Err?
  {
    if key == 0 then Ok(v.x)
    else if key == 1 then Ok(v.y)
    else Err("Vector2 index out of range")
  }

  /** A vector seen as the indexable pair `[x, y]` that `+` and `-` read from. */
  function Items(v: Vector2): (r: seq<real>)
    ensures |r| == 2
    ensures Get(v, 0) == Ok(r[0]) && Get(v, 1) == Ok(r[1])
  {
    [v.x, v.y]
  }

  /** `v * k`. */
  function Scale(v: Vector2, k: real): (r: Vector2)
    ensures r.x == k * v.x && r.y == k * v.y
  {
    Vector2(v.x * k, v.y * k)
  }

  /** `v + other` for any indexable `other`: fails when `other` has fewer than two items. */
  function Add(v: Vector2, other: seq<real>): (r: Result<Vector2>)
    ensures r.Ok? <==> |other| >= 2
    ensures r.Ok? ==> r.value.x - v.x == other[0] && r.value.y - v.y == other[1]
  {
    if |other| < 2 then Err("IndexError: list index out of range")
    else Ok(Vector2(v.x + other[0], v.y + other[1]))
  }

  /** `v - other` for any indexable `other`. */
  function Sub(v: Vector2, other: seq<real>): (r: Result<Vector2>)
    ensures r.Ok? <==> |other| >= 2
    ensures r.Ok? ==> v.x - r.value.x == other[0] && v.y - r.value.y == other[1]
  {
    if |other| < 2 then Err("IndexError: list index out of range")
    else Ok(Vector2(v.x - other[0], v.y - other[1]))
  }

  /** Subtracting what was added gives the vector back. */
  lemma SubUndoesAdd(v: Vector2, other: seq<real>)
    requires |other| >= 2
    ensures Add(v, other).Ok? && Sub(Add(v, other).value, other) == Ok(v)
  {
  }

  /** Adding another vector is componentwise and commutative. */
  lemma AddVectors(v: Vector2, w: Vector2)
    ensures Add(v, Items(w)) == Ok(Vector2(v.x + w.x, v.y + w.y))
    ensures Add(v, Items(w)) == Add(w, Items(v))
  {
  }

  function PerpendicularClockwise(v: Vector2): (r: Vector2)
    ensures Dot(v, r) == 0.0
    ensures r.x * r.x + r.y * r.y == v.x * v.x + v.y * v.y
  {
    Vector2(-v.y, v.x)
  }

  function PerpendicularCounterClockwise(v: Vector2): (r: Vector2)
    ensures Dot(v, r) == 0.0
    ensures PerpendicularClockwise(r) == v
  {
    Vector2(v.y, -v.x)
  }

  /** The two perpendiculars undo each other, and four clockwise turns are the identity. */
  lemma PerpendicularTurns(v: Vector2)
    ensures PerpendicularCounterClockwise(PerpendicularClockwise(v)) == v
    ensures PerpendicularClockwise(PerpendicularClockwise(v)) == Scale(v, -1.0)
    ensures PerpendicularClockwise(PerpendicularClockwise(PerpendicularClockwise(PerpendicularClockwise(v)))) == v
  {
  }

  function Dot(v: Vector2, w: Vector2): real {
    v.x * w.x + v.y * w.y
  }

  lemma DotSymmetric(v: Vector2, w: Vector2)
    ensures Dot(v, w) == Dot(w, v)
  {
  }

  /** The dot product is linear in its first argument. */
  lemma DotScale(v: Vector2, w: Vector2, k: real)
    ensures Dot(Scale(v, k), w) == k * Dot(v, w)
  {
  }
}
