/** Values the drawing view works with: colours, points, path geometry,
    touch events, draw commands, and the platform services it calls. */
module Graphics {

  datatype Option<T> = None | Some(value: T)

  /** A packed ARGB colour, as the signed 32-bit Int the platform uses. */
  newtype ColorInt = x: int | -0x8000_0000 <= x < 0x8000_0000

  /** Opaque black, 0xFF000000 read as a signed 32-bit value. */
  const BLACK: ColorInt := -0x0100_0000

  /** A touch coordinate. Coordinates are only carried along, never computed on. */
  datatype Point = Point(x: real, y: real)

  /** One geometry call recorded into a path: a move-to origin or a line-to point. */
  datatype PathOp = MoveTo(p: Point) | LineTo(p: Point)

  /** The value of a path object at one moment: its geometry, in call order,
      and the colour and thickness it carries. */
  datatype Stroke = Stroke(ops: seq<PathOp>, color: ColorInt, thickness: real)

  /** Action codes of a motion event. */
  const ACTION_DOWN: int := 0
  const ACTION_UP: int := 1
  const ACTION_MOVE: int := 2

  datatype MotionEvent = MotionEvent(action: int, x: real, y: real)

  /** One call to draw a path on the canvas, with the paint's colour and width at that call. */
  datatype DrawCommand = DrawPath(ops: seq<PathOp>, color: ColorInt, strokeWidth: real)

  /** The platform services the view calls and does not define:
      parseColor   - colour-string parsing; None where the platform throws;
      applyDimension - density-independent size to pixels, with the display's metrics;
      pathIsEmpty  - whether a path holds no drawable geometry. */
  datatype Platform = Platform(
    parseColor: string -> Option<ColorInt>,
    applyDimension: real -> real,
    pathIsEmpty: seq<PathOp> -> bool)

  /** The draw command for a path value, drawn with its own colour and thickness. */
  function CommandFor(s: Stroke): DrawCommand {
    DrawPath(s.ops, s.color, s.thickness)
  }
}
