/** Plane vectors and the cyclic vertex indexing of a closed polygon. */
module Geometry {

  /** An sf::Vector2f: a point or a direction. Coordinates are exact reals. */
  datatype Vec = Vec(x: real, y: real)

  /** Componentwise difference `a - b`. */
  function Minus(a: Vec, b: Vec): Vec {
    Vec(a.x - b.x, a.y - b.y)
  }

  /** The vertex after `i` on an `n`-gon, wrapping from the last vertex to the first. */
  function Next(i: int, n: int): (j: int)
    requires 0 <= i < n
    ensures 0 <= j < n
    ensures j == (i + 1) % n
  {
    if i < n - 1 then i + 1 else 0
  }

  /** The vertex before `i` on an `n`-gon, wrapping from the first vertex to the last. */
  function Prev(i: int, n: int): (j: int)
    requires 0 <= i < n
    ensures 0 <= j < n
    ensures j == (i - 1) % n
  {
    if i > 0 then i - 1 else n - 1
  }

  /** Next and Prev undo each other. */
  lemma NextPrevInverse(i: int, n: int)
    requires 0 <= i < n
    ensures Prev(Next(i, n), n) == i
    ensures Next(Prev(i, n), n) == i
  {
  }
}
