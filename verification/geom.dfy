/**
 * Geometry of the walk: integer points, unit moves, the Chebyshev and
 * Manhattan metrics, and the nine-way split of the plane around the origin
 * that decides which opcode a visited point compiles to.
 */
module Geom {

  datatype Point = Point(x: int, y: int)

  datatype Vector = Vector(dx: int, dy: int)

  const Origin := Point(0, 0)

  /** The nine regions: the four lines through the origin, then the eight
      open octants counter-clockwise from just above the positive x-axis. */
  datatype Area = OnLine | ENE | NNE | NNW | WNW | WSW | SSW | SSE | ESE

  /** `p.Add(v)`: the point reached from `p` by the vector `v`. */
  function Add(p: Point, v: Vector): Point {
    Point(p.x + v.dx, p.y + v.dy)
  }

  /** The point `Add` reaches lies at exactly the vector's own length from
      the start in both metrics; the zero vector stays put. */
  lemma AddMovesByLength(p: Point, v: Vector)
    ensures Chebyshev(p, Add(p, v)) == Max(Abs(v.dx), Abs(v.dy))
    ensures Manhattan(p, Add(p, v)) == Abs(v.dx) + Abs(v.dy)
    ensures v == Vector(0, 0) <==> Add(p, v) == p
  {
  }

  function Abs(n: int): (r: int)
    ensures r >= 0
    ensures r == n || r == -n
  {
    if n < 0 then n * -1 else n
  }

  function Max(a: int, b: int): (r: int)
    ensures r >= a && r >= b
    ensures r == a || r == b
  {
    if a > b then a else b
  }

  /** `p.ChebyshevDistance(q)`: a metric that is zero exactly on equal points. */
  function Chebyshev(p: Point, q: Point): (r: int)
    ensures r >= 0
    ensures r == 0 <==> p == q
  {
    Max(Abs(q.x - p.x), Abs(q.y - p.y))
  }

  /** `p.ManhattanDistance(q)`: a metric that is zero exactly on equal points. */
  function Manhattan(p: Point, q: Point): (r: int)
    ensures r >= 0
    ensures r == 0 <==> p == q
  {
    Abs(q.x - p.x) + Abs(q.y - p.y)
  }

  lemma DistancesSymmetric(p: Point, q: Point)
    ensures Chebyshev(p, q) == Chebyshev(q, p)
    ensures Manhattan(p, q) == Manhattan(q, p)
  {
  }

  /** The two metrics bound each other: Chebyshev <= Manhattan <= 2 * Chebyshev. */
  lemma DistancesBoundEachOther(p: Point, q: Point)
    ensures Chebyshev(p, q) <= Manhattan(p, q) <= 2 * Chebyshev(p, q)
  {
  }

  /** `p.Area()`: nested tests on the signs of x and y and on the order of
      |x| and |y|. */
  function AreaOf(p: Point): Area
  {
    if p.x > 0 && p.y > 0 then
      if p.x > p.y then ENE
      else if p.x < p.y then NNE
      else OnLine
    else if p.x < 0 && p.y > 0 then
      if -p.x < p.y then NNW
      else if -p.x > p.y then WNW
      else OnLine
    else if p.x < 0 && p.y < 0 then
      if -p.x > -p.y then WSW
      else if -p.x < -p.y then SSW
      else OnLine
    else if p.x > 0 && p.y < 0 then
      if p.x < -p.y then SSE
      else if p.x > -p.y then ESE
      else OnLine
    else
      OnLine
  }

  /** The areas as regions of the plane: OnLine is the two axes and the two
      diagonals; every other point lies in exactly one open octant, the one
      whose sign and magnitude conditions it meets. */
  lemma AreaRegions(p: Point)
    ensures AreaOf(p) == OnLine <==> p.x == 0 || p.y == 0 || Abs(p.x) == Abs(p.y)
    ensures AreaOf(p) == ENE <==> 0 < p.y < p.x
    ensures AreaOf(p) == NNE <==> 0 < p.x < p.y
    ensures AreaOf(p) == NNW <==> 0 < -p.x < p.y
    ensures AreaOf(p) == WNW <==> 0 < p.y < -p.x
    ensures AreaOf(p) == WSW <==> 0 < -p.y < -p.x
    ensures AreaOf(p) == SSW <==> 0 < -p.x < -p.y
    ensures AreaOf(p) == SSE <==> 0 < p.x < -p.y
    ensures AreaOf(p) == ESE <==> 0 < -p.y < p.x
  {
  }

  /** The table of expected areas used by the repository's unit test. */
  lemma AreaTable()
    ensures AreaOf(Point(0, 0)) == OnLine && AreaOf(Point(1, 1)) == OnLine
    ensures AreaOf(Point(-2, 2)) == OnLine && AreaOf(Point(0, -3)) == OnLine
    ensures AreaOf(Point(2, 1)) == ENE && AreaOf(Point(1, 2)) == NNE
    ensures AreaOf(Point(-1, 2)) == NNW && AreaOf(Point(-2, 1)) == WNW
    ensures AreaOf(Point(-2, -1)) == WSW && AreaOf(Point(-1, -2)) == SSW
    ensures AreaOf(Point(1, -2)) == SSE && AreaOf(Point(2, -1)) == ESE
  {
  }
}
