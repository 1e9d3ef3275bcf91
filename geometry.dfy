/** Screen and page geometry shared by the placement arithmetic and the
    component state. All coordinates are exact reals; the browser's
    floating-point rounding is not modelled. */
module Geometry {

  /** A position, either on screen (CSS pixels, origin top-left) or in PDF
      points (origin bottom-left), depending on where it is used. */
  datatype Point = Point(x: real, y: real)

  /** What `getBoundingClientRect()` reports for an element: its top-left
      corner in viewport pixels and its size. */
  datatype Rect = Rect(left: real, top: real, width: real, height: real)
  {
    /** The rectangle's top-left corner. */
    function TopLeft(): Point
    {
      Point(left, top)
    }

    /** The same rectangle moved by (dx, dy), as scrolling the page moves
        every element's viewport rectangle. */
    function Shifted(dx: real, dy: real): Rect
    {
      Rect(left + dx, top + dy, width, height)
    }
  }

  /** A width and a height: a PDF page in points, or a PNG image in pixels. */
  datatype Size = Size(width: real, height: real)

  /** The vector from `origin` to `pointer`: the grab offset a drag records. */
  function Offset(pointer: Point, origin: Point): Point
  {
    Point(pointer.x - origin.x, pointer.y - origin.y)
  }
}
