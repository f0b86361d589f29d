/**
  What an element hands to the drawing surface: each constructor records
  the arguments of one matplotlib patch or plot call. How the surface
  renders them is not part of this model.
*/
module Primitives {
  import opened Results
  import opened Geometry

  /** A colour is an opaque style token, passed through unchanged. */
  type Color = string

  datatype Primitive =
      /** `Rectangle(corner, width, height, angle=...)`: `width` runs along
          `angle` from `corner`, `height` a quarter turn further. */
    | Rectangle(corner: Vec, width: real, height: real, angle: real,
                filled: bool, color: Color, lineWidth: Option<real>)
      /** `Arc(center, width, height, angle=..., theta1=..., theta2=...)`. */
    | Arc(center: Vec, width: real, height: real, angle: real,
          theta1: real, theta2: real, color: Color, lineWidth: Option<real>)
    | Circle(center: Vec, radius: real, filled: bool, color: Color, lineWidth: Option<real>)
      /** One `ax.plot` of two points; `lineStyle` None is matplotlib's default. */
    | Segment(start: Vec, end: Vec, lineStyle: Option<string>, color: Color, lineWidth: Option<real>)
    | Polygon(vertices: seq<Vec>, color: Color)
      /** `ax.text` centred on `position`; its text is `str(value)`. */
    | Label(position: Vec, value: real, rotation: real, fontSize: int, color: Color)

  /** Angular span of an arc, in degrees. */
  function Span(a: Primitive): real
    requires a.Arc?
  {
    a.theta2 - a.theta1
  }

  /** Squared length of a segment. */
  function Length2(s: Primitive): real
    requires s.Segment?
  {
    Dist2(s.start, s.end)
  }
}
