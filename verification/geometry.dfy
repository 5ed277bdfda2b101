/**
 * Points and sizes of the desktop canvas (`CGPoint`, `CGSize`).
 * Coordinates are exact reals rather than IEEE doubles.
 */
module Geometry {

  datatype Point = Point(x: real, y: real)

  datatype Size = Size(width: real, height: real)

  /** `CGSize.zero`. */
  const ZeroSize: Size := Size(0.0, 0.0)
}
