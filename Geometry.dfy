/**
 * The two value types the player logic borrows from System.Numerics and
 * Raylib: a 2D vector and an axis-aligned rectangle, with the rectangle
 * overlap test that decides every collision.
 *
 * Coordinates are `real`: the single-precision rounding of the original
 * arithmetic is abstracted away.
 */
module Geometry {

  /** A 2D vector with componentwise addition and scaling. */
  datatype Vec2 = Vec2(x: real, y: real) {

    function Plus(other: Vec2): Vec2 {
      Vec2(x + other.x, y + other.y)
    }

    function Scale(k: real): Vec2 {
      Vec2(x * k, y * k)
    }
  }

  const Zero: Vec2 := Vec2(0.0, 0.0)

  /** A rectangle given by its top-left corner and its (signed) extent. */
  datatype Rect = Rect(x: real, y: real, width: real, height: real)

  /** The rectangle whose corner is `at` and whose extent is `width × height`. */
  function RectAt(at: Vec2, width: real, height: real): Rect {
    Rect(at.x, at.y, width, height)
  }

  function Abs(r: real): (a: real)
    ensures a >= 0.0 && (a == r || a == -r)
  {
    if r < 0.0 then -r else r
  }

  /**
   * Raylib's rectangle collision test: both the horizontal and the vertical
   * extents must overlap strictly, so rectangles that only share an edge do
   * not collide.
   */
  predicate Overlaps(a: Rect, b: Rect): (hit: bool)
    ensures hit <==> b.x - a.width < a.x < b.x + b.width && b.y - a.height < a.y < b.y + b.height
    ensures hit ==> a.width + b.width > 0.0 && a.height + b.height > 0.0
  {
    a.x < b.x + b.width && a.x + a.width > b.x &&
    a.y < b.y + b.height && a.y + a.height > b.y
  }

  /** Two rectangles that only touch along an edge, on any of the four sides, do not collide. */
  lemma EdgeContactIsNoHit(a: Rect, b: Rect)
    requires a.x + a.width == b.x || b.x + b.width == a.x || a.y + a.height == b.y || b.y + b.height == a.y
    ensures !Overlaps(a, b)
  {
  }
}
