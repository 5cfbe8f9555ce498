/** Canvas geometry of the paint application: points, bounding boxes and the
    clamp that keeps a shape's bounding box inside the canvas.
    Coordinates are JavaScript numbers (doubles) in the application and exact
    `real` numbers here: `Math.min` and `Math.max` are exact on doubles, but
    every subtraction the handlers perform can round, which the model does not
    capture. */
module Geometry {

  /** A pointer offset or position. */
  datatype Point = Point(x: real, y: real)

  /** What `getBoundingClientRect()` reports about an element. */
  datatype Rect = Rect(left: real, top: real, width: real, height: real)

  const Origin: Point := Point(0.0, 0.0)

  /** `Math.max` on two numbers. */
  function Max(a: real, b: real): (r: real)
    ensures r >= a && r >= b && (r == a || r == b)
  {
    if a < b then b else a
  }

  /** `Math.min` on two numbers. */
  function Min(a: real, b: real): (r: real)
    ensures r <= a && r <= b && (r == a || r == b)
  {
    if a < b then a else b
  }

  /** `Math.max(0, Math.min(p, limit - size))`: the coordinate `p` of a box of
      side `size`, pulled into `[0, limit - size]`. When the box is wider than
      the canvas the lower bound wins and the result is 0. */
  function Clamp(p: real, limit: real, size: real): (r: real)
    ensures 0.0 <= r
    ensures size <= limit ==> r <= limit - size
    ensures 0.0 <= p <= limit - size ==> r == p
    ensures size <= limit && limit - size < p ==> r == limit - size
    ensures p < 0.0 || limit < size ==> r == 0.0
  {
    Max(0.0, Min(p, limit - size))
  }

  /** The clamped value does not depend on where the box was before: clamping
      again leaves it where it is. */
  lemma ClampIdempotent(p: real, limit: real, size: real)
    ensures Clamp(Clamp(p, limit, size), limit, size) == Clamp(p, limit, size)
  {
  }
}
