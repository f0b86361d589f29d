/** Free-standing lines whose meaning depends on the drawing. */
module Multipurpose {
  import opened Results
  import opened Geometry
  import opened Primitives

  /** The line styles understood, with matplotlib's code for each. */
  const STYLE_TO_CODE: map<string, string> :=
    map["solid" := "-", "dashed" := "--", "dotted" := ".", "dash_dot" := "-."]

  /** `style` holds the matplotlib code, not the style name. */
  datatype Line = Line(firstPoint: Vec, secondPoint: Vec, width: real, style: string, color: Color)

  /** `Line.__init__`: looks the style name up, failing with `KeyError` for
      a name the table does not have. The default style is the code "-",
      not a name, so a line built with the default fails. */
  function NewLine(firstPoint: Vec, secondPoint: Vec, width: real := 0.5, style: string := "-",
                   color: Color := "black"): (r: Result<Line>)
    ensures r.Success? <==> style in STYLE_TO_CODE
    ensures r.Failure? ==> r.error == KeyError(style)
    ensures r.Success? ==> r.value.style == STYLE_TO_CODE[style] && r.value.style in STYLE_TO_CODE.Values
    ensures r.Success? ==> r.value.firstPoint == firstPoint && r.value.secondPoint == secondPoint
                           && r.value.width == width && r.value.color == color
  {
    if style in STYLE_TO_CODE then
      Success(Line(firstPoint, secondPoint, width, STYLE_TO_CODE[style], color))
    else
      Failure(KeyError(style))
  }

  /** One segment between the two points, in the stored width, style and colour. */
  function DrawLine(l: Line): (r: seq<Primitive>)
    ensures |r| == 1 && r[0].Segment?
    ensures r[0].start == l.firstPoint && r[0].end == l.secondPoint
    ensures r[0].lineStyle == Some(l.style) && r[0].lineWidth == Some(l.width) && r[0].color == l.color
  {
    [Segment(l.firstPoint, l.secondPoint, Some(l.style), l.color, Some(l.width))]
  }

  /** Exactly four styles, mapped to four different codes. */
  lemma StyleTable()
    ensures STYLE_TO_CODE.Keys == {"solid", "dashed", "dotted", "dash_dot"}
    ensures forall s, t | s in STYLE_TO_CODE && t in STYLE_TO_CODE && s != t ::
      STYLE_TO_CODE[s] != STYLE_TO_CODE[t]
  {
  }

  /** Building a line with the default style fails: "-" is a code, not a name. */
  lemma DefaultStyleRejected(firstPoint: Vec, secondPoint: Vec)
    ensures NewLine(firstPoint, secondPoint) == Failure(KeyError("-"))
  {
    assert "-" !in STYLE_TO_CODE by {
      assert "-" != "solid" && "-" != "dashed" && "-" != "dotted" && "-" != "dash_dot";
    }
  }
}
