/** Screen shapes handed to the drawing primitives, in pixels. */
module Shapes {

  /** A rectangle with its top-left corner at (x, y). */
  datatype Rect = Rect(x: int, y: int, width: int, height: int)

  /** A line segment from (x0, y0) to (x1, y1). */
  datatype Segment = Segment(x0: int, y0: int, x1: int, y1: int)

  /** C++ `/` on `int`: the quotient is truncated toward zero, so the
      remainder has the sign of the dividend. */
  function TruncDiv(a: int, d: int): (q: int)
    requires d > 0
    ensures a >= 0 ==> 0 <= a - q * d < d
    ensures a < 0 ==> -d < a - q * d <= 0
  {
    if a >= 0 then a / d else -((-a) / d)
  }
}
