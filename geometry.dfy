/** Integer points, the small integer helpers (qMin, qMax, qBound, qAbs) the widgets use, and nullable handles. */
module Geometry {

  /** A pointer that may be NULL. */
  datatype Option<T> = None | Some(value: T)

  /** A QPoint: two unbounded integer coordinates. */
  datatype Point = Point(x: int, y: int) {
    function Plus(o: Point): Point { Point(x + o.x, y + o.y) }
    function Minus(o: Point): Point { Point(x - o.x, y - o.y) }
  }

  /** The null point QPoint(0, 0), also the value of a default-constructed QPoint. */
  const Origin := Point(0, 0)

  /** A QSize: a width and a height. */
  datatype Size = Size(width: int, height: int)

  function Min(a: int, b: int): int { if a <= b then a else b }
  function Max(a: int, b: int): int { if a >= b then a else b }
  function Abs(v: int): nat { if v < 0 then -v else v }

  /** qBound(lo, v, hi) == qMax(lo, qMin(hi, v)). */
  function Bound(lo: int, v: int, hi: int): (r: int)
    ensures lo <= hi ==> lo <= r <= hi
    ensures lo <= v <= hi ==> r == v
    ensures lo <= hi && v <= lo ==> r == lo
    ensures lo <= hi && v >= hi ==> r == hi
  {
    Max(lo, Min(hi, v))
  }
}
