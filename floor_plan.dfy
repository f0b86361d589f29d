/** One floor plan: a page of a fixed physical size with optional grids and a title. */
module FloorPlans {
  import opened Results
  import opened Geometry

  const METERS_PER_INCH: real := 0.0254

  /** The least integer not below `x`. */
  function Ceil(x: real): (c: int)
    ensures c as real >= x && (c - 1) as real < x
  {
    -((-x).Floor)
  }

  /** Page size in inches of the rectangle between the two corners at scale
      `numerator / denominator`; a zero denominator raises. */
  function FigureSize(bottomLeft: Vec, topRight: Vec, numerator: int, denominator: int)
    : (r: Result<(real, real)>)
    ensures r.Failure? <==> denominator == 0
    ensures r.Failure? ==> r.error == ZeroDivisionError
    ensures r.Success? ==>
      && r.value.0 * METERS_PER_INCH * denominator as real == (topRight.x - bottomLeft.x) * numerator as real
      && r.value.1 * METERS_PER_INCH * denominator as real == (topRight.y - bottomLeft.y) * numerator as real
  {
    if denominator == 0 then Failure(ZeroDivisionError)
    else
      var horizontalLen := topRight.x - bottomLeft.x;
      var verticalLen := topRight.y - bottomLeft.y;
      var scale := numerator as real / denominator as real;
      Success((horizontalLen * scale / METERS_PER_INCH, verticalLen * scale / METERS_PER_INCH))
  }

  /** The k-th value of an arithmetic progression. */
  function Tick(start: real, step: real, k: int): real { start + k as real * step }

  /** `numpy.arange(start, stop, step)`: `ceil((stop - start) / step)` values
      (none if that is not positive) from `start` in steps of `step`; a zero
      step raises. */
  function Arange(start: real, stop: real, step: real): (r: Result<seq<real>>)
    ensures r.Failure? <==> step == 0.0
    ensures r.Failure? ==> r.error == ZeroDivisionError
    ensures r.Success? ==> |r.value| == if Ceil((stop - start) / step) < 0 then 0
                                       else Ceil((stop - start) / step)
    ensures r.Success? ==> forall k | 0 <= k < |r.value| :: r.value[k] == Tick(start, step, k)
  {
    if step == 0.0 then Failure(ZeroDivisionError)
    else
      var n := Ceil((stop - start) / step);
      Success(seq(if n < 0 then 0 else n, k => Tick(start, step, k)))
  }

  /** With a positive step the ticks start at `start`, go up by `step`, and
      are exactly the values `start + k step` that stay below `stop`. */
  lemma ArangeTicks(start: real, stop: real, step: real)
    requires step > 0.0
    ensures var ticks := Arange(start, stop, step).value;
      && (start < stop ==> |ticks| > 0 && ticks[0] == start)
      && (forall k | 0 <= k < |ticks| - 1 :: ticks[k + 1] - ticks[k] == step)
      && (forall k: nat :: k < |ticks| <==> Tick(start, step, k) < stop)
  {
    var ticks := Arange(start, stop, step).value;
    var q := (stop - start) / step;
    assert q * step == stop - start;
    forall k: nat
      ensures k < |ticks| <==> Tick(start, step, k) < stop
    {
      TickBelowStop(start, stop, step, q, k);
    }
    if start < stop {
      assert Tick(start, step, 0) < stop;
    }
  }

  /** Tick k exists exactly when it is below `stop`. */
  lemma TickBelowStop(start: real, stop: real, step: real, q: real, k: nat)
    requires step > 0.0 && q * step == stop - start
    ensures k < (if Ceil(q) < 0 then 0 else Ceil(q)) <==> Tick(start, step, k) < stop
  {
    BelowQuotient(k, q, step);
    ShiftCompare(k as real * step, q * step, start, stop);
  }

  lemma ShiftCompare(a: real, b: real, start: real, stop: real)
    requires b == stop - start
    ensures (a < b) == (start + a < stop)
  {
  }

  /** For a natural k: k < ceil(q) exactly when k step < q step. */
  lemma BelowQuotient(k: nat, q: real, step: real)
    requires step > 0.0
    ensures k < (if Ceil(q) < 0 then 0 else Ceil(q)) <==> k as real * step < q * step
  {
    if k as real < q {
      assert k as real * step < q * step;
    } else {
      assert k as real * step >= q * step;
    }
  }

  /** The tick positions of one grid. */
  datatype Grid = Grid(xTicks: seq<real>, yTicks: seq<real>)

  /** The grid for an optional step: none when the step is `None`, else ticks
      from the bottom-left corner towards the top-right one. */
  function GridFor(bottomLeft: Vec, topRight: Vec, step: Option<real>): (r: Result<Option<Grid>>)
    ensures step.None? ==> r == Success(None)
    ensures step.Some? ==> (r.Failure? <==> step.value == 0.0)
    ensures step.Some? && r.Success? ==>
      r.value == Some(Grid(Arange(bottomLeft.x, topRight.x, step.value).value,
                           Arange(bottomLeft.y, topRight.y, step.value).value))
  {
    match step
    case None => Success(None)
    case Some(s) =>
      if s == 0.0 then Failure(ZeroDivisionError)
      else Success(Some(Grid(Arange(bottomLeft.x, topRight.x, s).value,
                             Arange(bottomLeft.y, topRight.y, s).value)))
  }

  /** Text placed relative to the page: (0, 0) bottom left, (1, 1) top right. */
  datatype FigureText = FigureText(relX: real, relY: real, text: string, fontSize: int,
                                   horizontallyCentred: bool)

  class FloorPlan {
    /** Page size in inches. */
    var width: real
    var height: real
    var majorGrid: Option<Grid>
    var minorGrid: Option<Grid>
    var title: Option<string>
    /** The texts placed on the page, in the order they were added. */
    var texts: seq<FigureText>

    /** Only the arguments for which the source raises nothing are accepted;
        `FigureSize` and `GridFor` model the failures. */
    constructor(bottomLeft: Vec, topRight: Vec, scaleNumerator: int := 1, scaleDenominator: int := 100,
                gridMajorStep: Option<real> := None, gridMinorStep: Option<real> := None)
      requires FigureSize(bottomLeft, topRight, scaleNumerator, scaleDenominator).Success?
      requires GridFor(bottomLeft, topRight, gridMajorStep).Success?
      requires GridFor(bottomLeft, topRight, gridMinorStep).Success?
      ensures (width, height) == FigureSize(bottomLeft, topRight, scaleNumerator, scaleDenominator).value
      ensures majorGrid == GridFor(bottomLeft, topRight, gridMajorStep).value
      ensures minorGrid == GridFor(bottomLeft, topRight, gridMinorStep).value
      ensures title == None && texts == []
    {
      var size := FigureSize(bottomLeft, topRight, scaleNumerator, scaleDenominator).value;
      width, height := size.0, size.1;
      majorGrid := GridFor(bottomLeft, topRight, gridMajorStep).value;
      minorGrid := GridFor(bottomLeft, topRight, gridMinorStep).value;
      title := None;
      texts := [];
    }

    /** Places the text centred at the page-relative position and records it
        as the title, replacing any earlier one. */
    method AddTitle(text: string, fontSize: int, relX: real := 0.5, relY: real := 0.95)
      modifies this`title, this`texts
      ensures title == Some(text)
      ensures texts == old(texts) + [FigureText(relX, relY, text, fontSize, true)]
    {
      texts := texts + [FigureText(relX, relY, text, fontSize, true)];
      title := Some(text);
    }
  }

  /** The page of a 5 m by 3 m plan at 1:100 is 5 * 0.01 / 0.0254 by
      3 * 0.01 / 0.0254 inches. */
  lemma ExamplePageSize()
    ensures FigureSize(Vec(0.0, 0.0), Vec(5.0, 3.0), 1, 100)
            == Success((5.0 * 0.01 / 0.0254, 3.0 * 0.01 / 0.0254))
  {
  }
}
