/**
  The value types of the client's drawing code (client/src/lib/types/canvas.ts).
  Browser objects are reduced to the parts the handlers read.
*/
module CanvasTypes {
  import opened Wrappers

  /** Canvas-local pixel coordinates. */
  datatype Point = Point(x: int, y: int)

  /**
    The argument of the `onDraw` callback: the point just reached and the
    previous one, `None` at the start of a stroke. The rendering context the
    source also passes is always the attached canvas's and is left implicit.
  */
  datatype Draw = Draw(currentPoint: Point, prevPoint: Option<Point>)

  /**
    What the handlers read of an `HTMLCanvasElement`: its identity, the origin
    of its bounding client rectangle, its size, and whether `getContext("2d")`
    yields a context.
  */
  datatype Canvas = Canvas(id: nat, left: int, top: int, width: nat, height: nat, hasContext: bool)

  /** The rectangle passed to `clearRect`. */
  datatype Rect = Rect(x: int, y: int, width: int, height: int)

  /** The state shared by a drawing hook's handlers. */
  datatype AppCanvasState = AppCanvasState(isMouseDown: bool, prevPoint: Option<Point>, canvasRef: Option<Canvas>)
}
