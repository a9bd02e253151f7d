/** Chart-local coordinates, in SVG user units (y grows downwards). */
module Geometry {

  datatype Point = Point(x: real, y: real)

  /** A fraction in `[0, 1]` of a non-negative length stays within that length. */
  lemma ScaleWithin(q: real, c: real)
    requires 0.0 <= q <= 1.0 && c >= 0.0
    ensures 0.0 <= q * c <= c
  {
    assert c - q * c == (1.0 - q) * c;
  }

  /** Scaling by `c / m` with both positive keeps the order of values, in both directions. */
  lemma ScaleMonotone(a: real, b: real, m: real, c: real)
    requires m > 0.0 && c > 0.0
    ensures a <= b <==> a / m * c <= b / m * c
  {
    var qa, qb := a / m, b / m;
    assert (qb - qa) * m == b - a;
    assert a <= b <==> qa <= qb;
    assert qb * c - qa * c == (qb - qa) * c;
  }
}
