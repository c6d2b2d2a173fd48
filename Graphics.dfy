/**
 * The drawing primitives the components produce: path commands appended to a reusable
 * `Path` object, arcs, text styles and text labels.
 */
module Graphics {
  import opened Floats

  datatype PathCommand =
    | MoveTo(x: real, y: real)
    | QuadraticTo(controlX: real, controlY: real, endX: real, endY: real)
    | LineTo(x: real, y: real)
    | Close

  /** A mutable path; each call appends one command, `Reset` empties it for reuse. */
  class Path {
    var commands: seq<PathCommand>

    constructor ()
      ensures commands == []
    {
      commands := [];
    }

    method Reset()
      modifies this
      ensures commands == []
    {
      commands := [];
    }

    method MoveTo(x: real, y: real)
      modifies this
      ensures commands == old(commands) + [PathCommand.MoveTo(x, y)]
    {
      commands := commands + [PathCommand.MoveTo(x, y)];
    }

    method QuadraticTo(controlX: real, controlY: real, endX: real, endY: real)
      modifies this
      ensures commands == old(commands) + [PathCommand.QuadraticTo(controlX, controlY, endX, endY)]
    {
      commands := commands + [PathCommand.QuadraticTo(controlX, controlY, endX, endY)];
    }

    method LineTo(x: real, y: real)
      modifies this
      ensures commands == old(commands) + [PathCommand.LineTo(x, y)]
    {
      commands := commands + [PathCommand.LineTo(x, y)];
    }

    method Close()
      modifies this
      ensures commands == old(commands) + [PathCommand.Close]
    {
      commands := commands + [PathCommand.Close];
    }
  }

  /** `drawArc(startAngle, sweepAngle, useCenter, ...)`; angles in degrees, 0 at three o'clock, clockwise. */
  datatype Arc = Arc(startAngle: real, sweepAngle: Float32, useCenter: bool)

  /** An ARGB colour. */
  datatype Color = Color(argb: bv32)

  const Black: Color := Color(0xFF00_0000)
  const Red: Color := Color(0xFFFF_0000)
  const Green: Color := Color(0xFF00_FF00)

  /** Only the colour of a text style is modelled. */
  datatype TextStyle = TextStyle(color: Color)

  /** A `Text` element: its string and its style. */
  datatype Label = Label(text: string, style: TextStyle)
}
