/** Plain geometric and colour values shared by the graphics code:
    `Point`, `Line`, `Color24` and `Size`. Coordinates are exact reals;
    Double rounding is not modelled. */
module GraphicsTypes {

  /** An unsigned 8-bit channel value (Swift `UInt8`). */
  newtype byte = x: int | 0 <= x < 256

  datatype Point = Point(x: real, y: real)

  /** `Line(x0, y0, x1, y1)` in the source; a segment from `start` to `end`. */
  datatype Line = Line(start: Point, end: Point)

  function MakeLine(x0: real, y0: real, x1: real, y1: real): Line
  {
    Line(Point(x0, y0), Point(x1, y1))
  }

  datatype Color24 = Color24(red: byte, green: byte, blue: byte)

  const Black: Color24 := Color24(0, 0, 0)
  const White: Color24 := Color24(255, 255, 255)

  /** The pixel size of a drawing surface. */
  datatype Size = Size(width: int, height: int)
}
