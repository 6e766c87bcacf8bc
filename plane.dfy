/** Points and offsets in the local (u, v) coordinates of a sketch workplane.
    Every cross-section of the lamp is drawn on an "XZ" workplane whose origin
    is the start of the spiral, so u runs across the channel and v up it. */
module Plane {

  datatype Point = Point(x: real, y: real)

  const Origin := Point(0.0, 0.0)

  function Add(p: Point, q: Point): Point {
    Point(p.x + q.x, p.y + q.y)
  }

  function Sub(p: Point, q: Point): Point {
    Point(p.x - q.x, p.y - q.y)
  }

  /** Reflection in the vertical axis u = 0 of the workplane. */
  function Mirror(p: Point): Point {
    Point(-p.x, p.y)
  }

  function Last(s: seq<Point>): Point
    requires |s| > 0
  {
    s[|s| - 1]
  }
}
