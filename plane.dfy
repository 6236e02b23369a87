/** Points of the plane with exact real coordinates (the source uses rows of float arrays). */
module Plane {
  datatype Point = Point(x: real, y: real)

  const Origin := Point(0.0, 0.0)

  function Plus(p: Point, q: Point): Point {
    Point(p.x + q.x, p.y + q.y)
  }

  function Scale(a: real, p: Point): Point {
    Point(a * p.x, a * p.y)
  }

  /** The sum u[0]*v[0] + ... + u[k-1]*v[k-1]: one coordinate of a weighted sum, or one row of a matrix product. */
  function Dot(u: seq<real>, v: seq<real>): real
    requires |u| == |v|
  {
    if |u| == 0 then 0.0 else u[0] * v[0] + Dot(u[1..], v[1..])
  }

  /** `p` lies in the axis-parallel box spanned by `lo` and `hi`. */
  predicate InBox(p: Point, lo: Point, hi: Point) {
    lo.x <= p.x <= hi.x && lo.y <= p.y <= hi.y
  }
}
