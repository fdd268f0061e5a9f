/** Axis-aligned bounding boxes and the overlap test every collision in the
    game goes through. Coordinates are canvas pixels, y grows downwards. */
module Geometry {

  datatype Box = Box(x: real, y: real, width: real, height: real)

  /** Strict overlap of two boxes: boxes that only share an edge do not collide. */
  predicate Colliding(a: Box, b: Box)
  {
    && a.x < b.x + b.width
    && a.x + a.width > b.x
    && a.y < b.y + b.height
    && a.y + a.height > b.y
  }

  /** The overlap test does not depend on the order of its arguments. */
  lemma CollidingSymmetric(a: Box, b: Box)
    ensures Colliding(a, b) <==> Colliding(b, a)
  {
  }

  /** Two boxes whose sides touch (left/right or top/bottom) do not collide. */
  lemma TouchingIsNoCollision(a: Box, b: Box)
    requires a.x + a.width == b.x || b.x + b.width == a.x
          || a.y + a.height == b.y || b.y + b.height == a.y
    ensures !Colliding(a, b)
  {
  }

}
