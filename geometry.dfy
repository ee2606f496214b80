/**
 * The small part of the vector library that the discrete behaviour depends on:
 * points and the "closer than" test that every proximity check of the simulation uses.
 * Coordinates are exact reals; single-precision rounding is not modelled.
 */
module Geometry {
  datatype Point = Point(x: real, y: real, z: real)

  const Origin := Point(0.0, 0.0, 0.0)

  /** Squared Euclidean distance between two points. */
  function DistSq(a: Point, b: Point): (d: real)
    ensures d >= 0.0
  {
    (a.x - b.x) * (a.x - b.x) + (a.y - b.y) * (a.y - b.y) + (a.z - b.z) * (a.z - b.z)
  }

  /**
   * `a.DistanceTo(b) < r`. For a non-negative radius this is the same as comparing
   * squared distances, which keeps the model free of square roots.
   */
  predicate Within(a: Point, b: Point, r: real)
  {
    0.0 <= r && DistSq(a, b) < r * r
  }

  /** Moving a frame by `d` along a unit axis `axis` (MoveLocalZ / MoveLocalY). */
  function Advance(p: Point, axis: Point, d: real): Point
  {
    Point(p.x + axis.x * d, p.y + axis.y * d, p.z + axis.z * d)
  }
}
