/**
 * The pieces of the shared math library that the rasteriser uses, over exact
 * reals: 2D/3D vectors, the axis-aligned rectangle, absolute value, three-way
 * min/max and the library's degeneracy epsilon.
 */
module Geometry {

  type Positive = x: real | x > 0.0 witness 1.0

  /** `Mathematics::EPSILON`: some positive constant, its value left open. */
  const EPSILON: Positive

  /** `Mathematics::FAbs`. */
  function Abs(x: real): (a: real)
    ensures a >= 0.0 && (a == x || a == -x)
  {
    if x < 0.0 then -x else x
  }

  /** `Mathematics::Min` of three values. */
  function Min3(a: real, b: real, c: real): (m: real)
    ensures m <= a && m <= b && m <= c
    ensures m == a || m == b || m == c
  {
    if a <= b && a <= c then a else if b <= c then b else c
  }

  /** `Mathematics::Max` of three values. */
  function Max3(a: real, b: real, c: real): (m: real)
    ensures m >= a && m >= b && m >= c
    ensures m == a || m == b || m == c
  {
    if a >= b && a >= c then a else if b >= c then b else c
  }

  /** `Vector2D`. */
  datatype Vec2 = Vec2(x: real, y: real) {
    function Minus(other: Vec2): Vec2 {
      Vec2(x - other.x, y - other.y)
    }
  }

  /** `Vector3D`: a point in camera space. */
  datatype Vec3 = Vec3(x: real, y: real, z: real)

  /** The 2D cross product `a.X * b.Y - b.X * a.Y`. */
  function Cross(a: Vec2, b: Vec2): real {
    a.x * b.y - b.x * a.y
  }

  /** `Rectangle2D`, given by its minimum and maximum corners. Its own source is
      not part of this model: `Overlaps` is taken to be the closed AABB test. */
  datatype Rect = Rect(min: Vec2, max: Vec2) {
    predicate Contains(p: Vec2) {
      min.x <= p.x <= max.x && min.y <= p.y <= max.y
    }

    predicate Overlaps(other: Rect) {
      min.x <= other.max.x && other.min.x <= max.x && min.y <= other.max.y && other.min.y <= max.y
    }
  }
}
