/** Values shared by every part of the model: the optional value that stands for
    C#'s nullable types, the host's single-precision Vector2 as a pair of reals,
    System.Drawing's integer Point, the Win32 RECT, the host's display Area and
    unsigned 32-bit integers. */
module Geometry {

  /** `T?` in the source: `None` is `null`. */
  datatype Option<T> = None | Some(value: T)

  /** C#'s `uint`. */
  type uint32 = x: int | 0 <= x < 0x1_0000_0000

  /** System.Numerics.Vector2, with real components. */
  datatype Vec = Vec(x: real, y: real)

  const Zero := Vec(0.0, 0.0)

  function Add(a: Vec, b: Vec): Vec { Vec(a.x + b.x, a.y + b.y) }

  function Sub(a: Vec, b: Vec): Vec { Vec(a.x - b.x, a.y - b.y) }

  function Abs(r: real): real { if r < 0.0 then -r else r }

  function Min(a: real, b: real): real { if a <= b then a else b }

  function Max(a: real, b: real): real { if a >= b then a else b }

  /** The rectangle `[min, max]` that output is clamped to. */
  datatype Bounds = Bounds(min: Vec, max: Vec)

  predicate Ordered(b: Bounds) { b.min.x <= b.max.x && b.min.y <= b.max.y }

  predicate InBounds(v: Vec, b: Bounds)
  {
    b.min.x <= v.x <= b.max.x && b.min.y <= v.y <= b.max.y
  }

  /** One component of Vector2.Clamp, which is `Min(Max(v, lo), hi)`: when
      `lo > hi` the upper bound wins. */
  function ClampScalar(v: real, lo: real, hi: real): (r: real)
    ensures lo <= v <= hi ==> r == v
    ensures lo <= hi ==> lo <= r <= hi
    ensures v < lo && lo <= hi ==> r == lo
    ensures hi < v ==> r == hi
  {
    Min(Max(v, lo), hi)
  }

  /** Vector2.Clamp(v, min, max). */
  function Clamp(v: Vec, b: Bounds): (r: Vec)
    ensures InBounds(v, b) ==> r == v
    ensures Ordered(b) ==> InBounds(r, b)
  {
    Vec(ClampScalar(v.x, b.min.x, b.max.x), ClampScalar(v.y, b.min.y, b.max.y))
  }

  /** On an ordered rectangle the clamp leaves a point alone exactly when the
      point is inside. */
  lemma ClampFixesExactlyInside(v: Vec, b: Bounds)
    requires Ordered(b)
    ensures Clamp(v, b) == v <==> InBounds(v, b)
  {
  }

  /** The host's output area: a width and a height around a centre position. */
  datatype Area = Area(width: real, height: real, position: Vec)

  /** The bounds every handler computes from the output area:
      `min = position - size / 2` and `max = position + size - size / 2`.
      With no output area (`output?.… ?? d`) each coordinate falls back to
      the corresponding coordinate of `fallback`. */
  function DisplayBounds(output: Option<Area>, fallback: Bounds): (b: Bounds)
    ensures output.None? ==> b == fallback
    ensures output.Some? ==>
      && b.max.x - b.min.x == output.value.width
      && b.max.y - b.min.y == output.value.height
      && b.min.x + b.max.x == 2.0 * output.value.position.x
      && b.min.y + b.max.y == 2.0 * output.value.position.y
    ensures output.Some? ==>
      (Ordered(b) <==> output.value.width >= 0.0 && output.value.height >= 0.0)
  {
    match output
    case None => fallback
    case Some(a) =>
      var halfWidth := a.width / 2.0;
      var halfHeight := a.height / 2.0;
      Bounds(Vec(a.position.x - halfWidth, a.position.y - halfHeight),
             Vec(a.position.x + a.width - halfWidth, a.position.y + a.height - halfHeight))
  }

  /** The fallback of the touchscreen handlers and of the 0.5.x plugin. */
  const ZeroBounds := Bounds(Zero, Zero)

  /** The fallback of the touchpad handlers: `?? 1` on the upper corner. */
  const UnitBounds := Bounds(Zero, Vec(1.0, 1.0))

  /** C#'s `(int)` on a float: truncation toward zero. */
  function Truncate(r: real): (i: int)
    ensures r >= 0.0 ==> 0 <= i && i as real <= r < i as real + 1.0
    ensures r < 0.0 ==> i <= 0 && i as real - 1.0 < r <= i as real
  {
    if r >= 0.0 then r.Floor else -((-r).Floor)
  }

  /** System.Drawing.Point. */
  datatype Point = Point(x: int, y: int)

  /** The host's `Vector2` for a `Point`: `new Vector2(p.X, p.Y)`. */
  function ToVec(p: Point): Vec { Vec(p.x as real, p.y as real) }

  /** The Win32 RECT. */
  datatype Rect = Rect(left: int, top: int, right: int, bottom: int)

  /** RECT.FromXYWH. */
  function FromXYWH(x: int, y: int, width: int, height: int): (r: Rect)
    ensures r.left == x && r.top == y
    ensures r.right - r.left == width && r.bottom - r.top == height
  {
    Rect(x, y, x + width, y + height)
  }
}
