/** Core Graphics geometry over exact reals: points, sizes and rectangles. */
module Geometry {

  datatype Point = Point(x: real, y: real)

  datatype Size = Size(width: real, height: real)

  const ZeroPoint: Point := Point(0.0, 0.0)
  const ZeroSize: Size := Size(0.0, 0.0)

  function Abs(v: real): (r: real)
    ensures 0.0 <= r
    ensures r == v || r == -v
  {
    if v < 0.0 then -v else v
  }

  /**
   * A rectangle as stored: an origin and a size whose components may be
   * negative. The accessors below are the standardized ones Core Graphics
   * exposes (`CGRect.width`, `CGRect.height`, `CGRect.minY`).
   */
  datatype Rect = Rect(origin: Point, size: Size) {

    /** The width of the standardized rectangle: never negative. */
    function Width(): (w: real)
      ensures 0.0 <= w
      ensures w == size.width || w == -size.width
    {
      Abs(size.width)
    }

    /** The height of the standardized rectangle: never negative. */
    function Height(): (h: real)
      ensures 0.0 <= h
      ensures h == size.height || h == -size.height
    {
      Abs(size.height)
    }

    /** The smaller of the two y-edges. */
    function MinY(): (m: real)
      ensures m <= origin.y && m <= origin.y + size.height
      ensures m == origin.y || m == origin.y + size.height
    {
      if size.height < 0.0 then origin.y + size.height else origin.y
    }

    /** The same rectangle in its own coordinate space, as `CALayer.bounds` reports it. */
    function Bounds(): Rect {
      Rect(ZeroPoint, size)
    }

    function Center(): Point {
      Point(origin.x + size.width / 2.0, origin.y + size.height / 2.0)
    }
  }

  const ZeroRect: Rect := Rect(ZeroPoint, ZeroSize)
}
