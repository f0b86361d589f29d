/** Lamps, LED strips and switches. */
module Lighting {
  import opened Results
  import opened Geometry
  import opened Primitives

  // ---------------------------------------------------------------- ceiling lamp

  datatype CeilingLamp = CeilingLamp(anchor: Vec, symbolDiameter: real, lineWidth: real := 0.5,
                                     color: Color := "black")

  /** Half the side of the square inscribed in a circle of radius `radius`. */
  function InscribedHalfSide(tr: Trig, radius: real): real { 0.5 * tr.sqrt2 * radius }

  /** A circle around the anchor with an X through it. */
  function DrawCeilingLamp(l: CeilingLamp, tr: Trig): (r: seq<Primitive>)
    ensures |r| == 3 && r[0].Circle? && r[1].Segment? && r[2].Segment?
    ensures r[0].center == l.anchor && r[0].radius == l.symbolDiameter / 2.0 && !r[0].filled
    ensures Midpoint(r[1].start, r[1].end) == l.anchor == Midpoint(r[2].start, r[2].end)
    ensures var k := InscribedHalfSide(tr, r[0].radius);
      && r[1].start == Vec(l.anchor.x - k, l.anchor.y - k)
      && r[2].start == Vec(l.anchor.x - k, l.anchor.y + k)
  {
    var radius := 0.5 * l.symbolDiameter;
    var k := InscribedHalfSide(tr, radius);
    var a := l.anchor;
    [ Circle(a, radius, false, l.color, Some(l.lineWidth)),
      Segment(Vec(a.x - k, a.y - k), Vec(a.x + k, a.y + k), None, l.color, Some(l.lineWidth)),
      Segment(Vec(a.x - k, a.y + k), Vec(a.x + k, a.y - k), None, l.color, Some(l.lineWidth)) ]
  }

  /** The four ends of the X lie on the circle. */
  lemma CeilingLampCrossOnCircle(l: CeilingLamp, tr: Trig)
    requires tr.Sound()
    ensures var r := DrawCeilingLamp(l, tr);
      var rr := r[0].radius * r[0].radius;
      && Dist2(l.anchor, r[1].start) == rr && Dist2(l.anchor, r[1].end) == rr
      && Dist2(l.anchor, r[2].start) == rr && Dist2(l.anchor, r[2].end) == rr
  {
    var radius := 0.5 * l.symbolDiameter;
    var k := InscribedHalfSide(tr, radius);
    calc {
      k * k + k * k;
      0.5 * (tr.sqrt2 * tr.sqrt2) * (radius * radius);
      radius * radius;
    }
  }

  // ---------------------------------------------------------------- wall lamp

  datatype WallLamp = WallLamp(anchor: Vec, symbolDiameter: real, angle: real := 0.0,
                               stubRelativeDepth: real := 0.3, lineWidth: real := 0.5,
                               color: Color := "black")

  function StubWidth(l: WallLamp, tr: Trig): real { 0.5 * tr.sqrt2 * l.symbolDiameter }

  function StubDepth(l: WallLamp, tr: Trig): real { l.stubRelativeDepth * StubWidth(l, tr) }

  function StubAnchor(l: WallLamp, tr: Trig): Vec {
    var w := StubWidth(l, tr);
    Vec(l.anchor.x - 0.5 * tr.Cos(l.angle) * w, l.anchor.y - 0.5 * tr.Sin(l.angle) * w)
  }

  function LampCenter(l: WallLamp, tr: Trig): Vec {
    Polar(tr, l.anchor, StubDepth(l, tr) + 0.5 * StubWidth(l, tr), l.angle + 90.0)
  }

  /** The cross arms point at these angles, in degrees. */
  function CrossAngles(l: WallLamp): seq<real> {
    [l.angle - 135.0, l.angle + 45.0, l.angle + 135.0, l.angle - 45.0]
  }

  function CrossEnd(l: WallLamp, tr: Trig, k: nat): Vec
    requires k < 4
  {
    Polar(tr, LampCenter(l, tr), 0.5 * l.symbolDiameter, CrossAngles(l)[k])
  }

  /** A stub against the wall, an open arc around the lamp centre and an X. */
  function DrawWallLamp(l: WallLamp, tr: Trig): (r: seq<Primitive>)
    ensures |r| == 4 && r[0].Rectangle? && r[1].Arc? && r[2].Segment? && r[3].Segment?
    ensures r[0] == Rectangle(StubAnchor(l, tr), StubWidth(l, tr), StubDepth(l, tr), l.angle,
                              false, l.color, Some(l.lineWidth))
    ensures r[1].center == LampCenter(l, tr) && r[1].width == r[1].height == l.symbolDiameter
    ensures r[1].theta1 == l.angle - 0.5 * RIGHT_ANGLE && r[1].theta2 == l.angle + 2.5 * RIGHT_ANGLE
    ensures Span(r[1]) == 3.0 * RIGHT_ANGLE
    ensures r[2].start == CrossEnd(l, tr, 0) && r[2].end == CrossEnd(l, tr, 1)
    ensures r[3].start == CrossEnd(l, tr, 2) && r[3].end == CrossEnd(l, tr, 3)
  {
    var stub := Rectangle(StubAnchor(l, tr), StubWidth(l, tr), StubDepth(l, tr), l.angle,
                          false, l.color, Some(l.lineWidth));
    var arc := Arc(LampCenter(l, tr), l.symbolDiameter, l.symbolDiameter, 0.0,
                   l.angle - 0.5 * RIGHT_ANGLE, l.angle + 2.5 * RIGHT_ANGLE, l.color, Some(l.lineWidth));
    [ stub, arc,
      Segment(CrossEnd(l, tr, 0), CrossEnd(l, tr, 1), None, l.color, Some(l.lineWidth)),
      Segment(CrossEnd(l, tr, 2), CrossEnd(l, tr, 3), None, l.color, Some(l.lineWidth)) ]
  }

  /** The lamp anchor is the middle of the stub's edge on the wall, and the
      lamp centre lies `depth + width / 2` out from it, square to the wall. */
  lemma WallLampStub(l: WallLamp, tr: Trig)
    requires tr.Sound()
    ensures l.anchor == Midpoint(StubAnchor(l, tr), Polar(tr, StubAnchor(l, tr), StubWidth(l, tr), l.angle))
    ensures StubWidth(l, tr) * StubWidth(l, tr) == l.symbolDiameter * l.symbolDiameter / 2.0
    ensures var shift := StubDepth(l, tr) + StubWidth(l, tr) / 2.0;
      Dist2(l.anchor, LampCenter(l, tr)) == shift * shift
    ensures Dot(Sub(LampCenter(l, tr), l.anchor), tr.dir(l.angle)) == 0.0
  {
    var shift := StubDepth(l, tr) + 0.5 * StubWidth(l, tr);
    PolarDistance(tr, l.anchor, shift, l.angle + 90.0);
    QuarterTurnOrthogonal(tr, l.angle);
    var d, n := tr.dir(l.angle), tr.dir(l.angle + 90.0);
    calc {
      Dot(Sub(LampCenter(l, tr), l.anchor), d);
      Dot(Scale(shift, n), d);
      shift * Dot(d, n);
    }
    calc {
      StubWidth(l, tr) * StubWidth(l, tr);
      0.25 * (tr.sqrt2 * tr.sqrt2) * (l.symbolDiameter * l.symbolDiameter);
    }
  }

  /** The four ends of the X lie on the lamp circle, `diameter / 2` from its centre. */
  lemma WallLampCrossOnCircle(l: WallLamp, tr: Trig)
    requires tr.Sound()
    ensures forall k | 0 <= k < 4 ::
      Dist2(LampCenter(l, tr), CrossEnd(l, tr, k)) == (l.symbolDiameter / 2.0) * (l.symbolDiameter / 2.0)
  {
    var c, h := LampCenter(l, tr), 0.5 * l.symbolDiameter;
    forall k | 0 <= k < 4
      ensures Dist2(c, CrossEnd(l, tr, k)) == (l.symbolDiameter / 2.0) * (l.symbolDiameter / 2.0)
    {
      PolarDistance(tr, c, h, CrossAngles(l)[k]);
    }
  }

  /** The two arms of the X cross at the lamp centre, square to each other. */
  lemma WallLampCrossArms(l: WallLamp, tr: Trig)
    requires tr.Sound()
    ensures Midpoint(CrossEnd(l, tr, 0), CrossEnd(l, tr, 1)) == LampCenter(l, tr)
    ensures Midpoint(CrossEnd(l, tr, 2), CrossEnd(l, tr, 3)) == LampCenter(l, tr)
    ensures Dot(Sub(CrossEnd(l, tr, 1), CrossEnd(l, tr, 0)), Sub(CrossEnd(l, tr, 3), CrossEnd(l, tr, 2))) == 0.0
  {
    var c, h := LampCenter(l, tr), 0.5 * l.symbolDiameter;
    var d0, d1 := tr.dir(l.angle - 135.0), tr.dir(l.angle - 45.0);
    HalfTurn(tr, l.angle - 135.0);
    HalfTurn(tr, l.angle - 45.0);
    assert l.angle - 135.0 + 180.0 == l.angle + 45.0;
    assert l.angle - 45.0 + 180.0 == l.angle + 135.0;
    QuarterTurnOrthogonal(tr, l.angle - 135.0);
    assert l.angle - 135.0 + 90.0 == l.angle - 45.0;
    CrossArm(c, h, d0);
    CrossArm(c, h, d1);
    calc {
      Dot(Scale(-2.0 * h, d0), Scale(-2.0 * h, d1));
      (-2.0 * h) * (-2.0 * h) * Dot(d0, d1);
    }
  }

  /** Opposite directions: half a turn negates the direction. */
  lemma HalfTurn(tr: Trig, a: real)
    requires tr.Sound()
    ensures tr.dir(a + 180.0) == Scale(-1.0, tr.dir(a))
  {
    QuarterTurnOrthogonal(tr, a);
    QuarterTurnOrthogonal(tr, a + 90.0);
    assert a + 90.0 + 90.0 == a + 180.0;
  }

  /** An arm from `c - h d` to `c + h d` is centred on `c`. */
  lemma CrossArm(c: Vec, h: real, d: Vec)
    ensures Midpoint(Add(c, Scale(h, d)), Add(c, Scale(h, Scale(-1.0, d)))) == c
    ensures Sub(Add(c, Scale(h, Scale(-1.0, d))), Add(c, Scale(h, d))) == Scale(-2.0 * h, d)
  {
  }

  // ---------------------------------------------------------------- LED strip

  datatype LEDStrip = LEDStrip(anchor: Vec, length: real, width: real, angle: real := 0.0,
                               lineWidth: real := 0.5, color: Color := "black")

  /** Circle diameter as a fraction of the strip width. */
  const CIRCLE_DIAMETER_TO_WIDTH: real := 0.6

  function Frame(s: LEDStrip): Primitive {
    Rectangle(s.anchor, s.length, s.width, s.angle, false, s.color, Some(s.lineWidth))
  }

  /** `floor(length / width)`. */
  function CircleCount(s: LEDStrip): int
    requires s.width != 0.0
  {
    (s.length / s.width).Floor
  }

  /** Circle `i` of `n`: `(2i + 1)` half-spacings along the strip, half the
      width across it. */
  function LEDCircle(s: LEDStrip, tr: Trig, n: int, i: int): Primitive
    requires n != 0
  {
    var center := CircleCenter(s, tr, 0.5 * s.length / n as real, 0.5 * s.width, i);
    Circle(center, 0.5 * CIRCLE_DIAMETER_TO_WIDTH * s.width, false, s.color, Some(s.lineWidth))
  }

  /** `(2i + 1) xOffset` along the strip and `yOffset` across it from the anchor. */
  function CircleCenter(s: LEDStrip, tr: Trig, xOffset: real, yOffset: real, i: int): (c: Vec)
    ensures Sub(c, s.anchor) == Add(Scale((2 * i + 1) as real * xOffset, tr.dir(s.angle)),
                                    Scale(yOffset, tr.dir(s.angle + 90.0)))
  {
    Vec(s.anchor.x + tr.Cos(s.angle) * (2 * i + 1) as real * xOffset
                   + tr.Cos(s.angle + 90.0) * yOffset,
        s.anchor.y + tr.Sin(s.angle) * (2 * i + 1) as real * xOffset
                   + tr.Sin(s.angle + 90.0) * yOffset)
  }

  /** The frame, then one circle per whole width that fits in the length.
      With no circle to place, the spacing divides by zero and drawing fails
      (after the frame was handed to the surface). */
  method DrawLEDStrip(s: LEDStrip, tr: Trig) returns (r: Result<seq<Primitive>>)
    ensures r.Failure? <==> s.width == 0.0 || CircleCount(s) == 0
    ensures r.Failure? ==> r.error == ZeroDivisionError
    ensures r.Success? ==>
      var n := CircleCount(s);
      && |r.value| == 1 + (if n < 0 then 0 else n)
      && r.value[0] == Frame(s)
      && forall i | 1 <= i < |r.value| :: r.value[i] == LEDCircle(s, tr, n, i - 1)
  {
    var rectangle := Frame(s);
    if s.width == 0.0 {
      return Failure(ZeroDivisionError);
    }
    var nCircles := (s.length / s.width).Floor;
    if nCircles == 0 {
      return Failure(ZeroDivisionError);
    }
    var xOffset := 0.5 * s.length / nCircles as real;
    var yOffset := 0.5 * s.width;
    var drawn := [rectangle];
    var i := 0;
    while i < nCircles
      invariant 0 <= i && (nCircles >= 0 ==> i <= nCircles) && (nCircles < 0 ==> i == 0)
      invariant |drawn| == 1 + i && drawn[0] == rectangle
      invariant forall j | 1 <= j < |drawn| :: drawn[j] == LEDCircle(s, tr, nCircles, j - 1)
    {
      var center := CircleCenter(s, tr, xOffset, yOffset, i);
      drawn := drawn + [Circle(center, 0.5 * CIRCLE_DIAMETER_TO_WIDTH * s.width, false,
                               s.color, Some(s.lineWidth))];
      i := i + 1;
    }
    return Success(drawn);
  }

  /** In the strip's own frame (along it, across it) circle `i` of `n` is
      centred at ((2i + 1) length / 2n, width / 2) with radius 0.3 width. */
  lemma LEDCircleLayout(s: LEDStrip, tr: Trig, n: int, i: int)
    requires Orthonormal(tr.dir(s.angle), tr.dir(s.angle + 90.0)) && n != 0
    ensures var c := LEDCircle(s, tr, n, i);
      && Dot(Sub(c.center, s.anchor), tr.dir(s.angle)) == (2 * i + 1) as real * s.length / (2 * n) as real
      && Dot(Sub(c.center, s.anchor), tr.dir(s.angle + 90.0)) == s.width / 2.0
      && c.radius == 0.3 * s.width
  {
    var d, e := tr.dir(s.angle), tr.dir(s.angle + 90.0);
    var along := (2 * i + 1) as real * (0.5 * s.length / n as real);
    assert along == (2 * i + 1) as real * s.length / (2 * n) as real;
    var c := LEDCircle(s, tr, n, i);
    assert Sub(c.center, s.anchor) == Add(Scale(along, d), Scale(0.5 * s.width, e));
    FrameCoordinates(d, e, along, 0.5 * s.width);
  }

  /** Consecutive circles are `length / n` apart along the strip. */
  lemma LEDCircleSpacing(s: LEDStrip, tr: Trig, n: int, i: int)
    requires tr.Sound() && n != 0
    ensures Sub(LEDCircle(s, tr, n, i + 1).center, LEDCircle(s, tr, n, i).center)
            == Scale(s.length / n as real, tr.dir(s.angle))
    ensures Dist2(LEDCircle(s, tr, n, i).center, LEDCircle(s, tr, n, i + 1).center)
            == (s.length / n as real) * (s.length / n as real)
  {
    var d, step := tr.dir(s.angle), s.length / n as real;
    var xOffset := 0.5 * s.length / n as real;
    assert (2 * (i + 1) + 1) as real * xOffset - (2 * i + 1) as real * xOffset == step;
    assert Sub(LEDCircle(s, tr, n, i + 1).center, LEDCircle(s, tr, n, i).center) == Scale(step, d);
    assert Dot(d, d) == 1.0;
    ScaledUnit(step, d);
  }

  /** Any `n` circles that each get at least a width of the length lie inside
      the frame, in the strip's own frame of reference. */
  lemma LEDCirclesInsideFrame(s: LEDStrip, tr: Trig, n: int, i: int)
    requires Orthonormal(tr.dir(s.angle), tr.dir(s.angle + 90.0)) && s.width > 0.0
    requires 1 <= n && n as real * s.width <= s.length && 0 <= i < n
    ensures var c := LEDCircle(s, tr, n, i);
      var along := Dot(Sub(c.center, s.anchor), tr.dir(s.angle));
      var across := Dot(Sub(c.center, s.anchor), tr.dir(s.angle + 90.0));
      0.0 < along - c.radius && along + c.radius < s.length
      && 0.0 < across - c.radius && across + c.radius < s.width
  {
    var c := LEDCircle(s, tr, n, i);
    LEDCircleLayout(s, tr, n, i);
    InsideFrame(Dot(Sub(c.center, s.anchor), tr.dir(s.angle)),
                Dot(Sub(c.center, s.anchor), tr.dir(s.angle + 90.0)),
                c.radius, s.length, s.width, n, i);
  }

  /** The number of circles the strip draws gives each at least a width. */
  lemma CircleCountFits(s: LEDStrip)
    requires s.width > 0.0 && s.length >= s.width
    ensures 1 <= CircleCount(s) && CircleCount(s) as real * s.width <= s.length
  {
    LEDStripCounts(s);
    FloorBound(s.length, s.width, CircleCount(s));
  }

  /** Every circle `DrawLEDStrip` draws lies strictly inside its frame. */
  lemma DrawnCirclesInsideFrame(s: LEDStrip, tr: Trig, i: int)
    requires tr.Sound() && s.width > 0.0 && s.length >= s.width
    requires 0 <= i < CircleCount(s)
    ensures var c := LEDCircle(s, tr, CircleCount(s), i);
      var along := Dot(Sub(c.center, s.anchor), tr.dir(s.angle));
      var across := Dot(Sub(c.center, s.anchor), tr.dir(s.angle + 90.0));
      0.0 < along - c.radius && along + c.radius < s.length
      && 0.0 < across - c.radius && across + c.radius < s.width
  {
    CircleCountFits(s);
    QuarterTurnOrthogonal(tr, s.angle);
    LEDCirclesInsideFrame(s, tr, CircleCount(s), i);
  }

  /** A circle at `along`, `across` in the frame, as laid out by `LEDCircleLayout`,
      lies strictly inside a `length` by `width` frame: the arithmetic of the
      containment, on plain numbers. */
  lemma InsideFrame(along: real, across: real, radius: real, length: real, width: real, n: int, i: int)
    requires width > 0.0 && n >= 1 && 0 <= i < n && n as real * width <= length
    requires along == (2 * i + 1) as real * length / (2 * n) as real
    requires across == width / 2.0 && radius == 0.3 * width
    ensures 0.0 < along - radius && along + radius < length
    ensures 0.0 < across - radius && across + radius < width
  {
    var spacing, m := length / n as real, (2 * i + 1) as real;
    CenterBounds(length, n, i);
    SpacingAtLeastWidth(length, width, n);
    assert spacing / 2.0 <= m * spacing / 2.0 <= length - spacing / 2.0;
  }

  /** The floor of `length / width` is at most `length / width`. */
  lemma FloorBound(length: real, width: real, n: int)
    requires width > 0.0 && n == (length / width).Floor
    ensures n as real * width <= length
  {
    var q := length / width;
    assert n as real <= q;
    assert n as real * width <= q * width;
  }

  /** At most `length / width` circles leave each at least a width of room. */
  lemma SpacingAtLeastWidth(length: real, width: real, n: int)
    requires width > 0.0 && n >= 1 && n as real * width <= length
    ensures length / n as real >= width
  {
    var spacing := length / n as real;
    assert spacing * n as real == length;
    if spacing < width {
      assert spacing * n as real < width * n as real;
    }
  }

  /** Centre `i` of `n` evenly spaced ones keeps half a spacing from both ends. */
  lemma CenterBounds(length: real, n: int, i: int)
    requires n >= 1 && 0 <= i < n
    ensures var spacing := length / n as real;
      var m := (2 * i + 1) as real;
      m * length / (2 * n) as real == m * spacing / 2.0
      && (length >= 0.0 ==> spacing / 2.0 <= m * spacing / 2.0 <= length - spacing / 2.0)
  {
    var spacing, m := length / n as real, (2 * i + 1) as real;
    assert spacing * n as real == length;
    var along := m * length / (2 * n) as real;
    assert along == m * spacing / 2.0;
    if length >= 0.0 {
      assert spacing >= 0.0;
      ScaleMonotone(1.0, m, spacing);
      ScaleMonotone(m, (2 * n - 1) as real, spacing);
      assert (2 * n - 1) as real * spacing == 2.0 * (n as real * spacing) - spacing;
    }
  }

  lemma ScaleMonotone(a: real, b: real, c: real)
    requires a <= b && c >= 0.0
    ensures a * c <= b * c
  {
  }

  /** A strip whose length is under one width has no circles and fails to
      draw; for length 1.0 and width 0.2 exactly five circles are drawn. */
  lemma LEDStripCounts(s: LEDStrip)
    requires s.width > 0.0 && s.length >= 0.0
    ensures CircleCount(s) == 0 <==> s.length < s.width
    ensures s.length == 1.0 && s.width == 0.2 ==> CircleCount(s) == 5
  {
    QuotientAtLeastOne(s.length, s.width);
  }

  lemma QuotientAtLeastOne(a: real, b: real)
    requires b > 0.0 && a >= 0.0
    ensures 0.0 <= a / b
    ensures a / b < 1.0 <==> a < b
  {
    var q := a / b;
    assert a == q * b;
  }

  // ---------------------------------------------------------------- switch

  datatype Switch = Switch(anchor: Vec, symbolLength: real, angle: real := 0.0, twoKey: bool := false,
                           passThrough: bool := false, lineWidth: real := 0.5, color: Color := "black")

  function Radius(s: Switch): real { s.symbolLength / 4.0 }

  function SwitchCenter(s: Switch, tr: Trig): Vec {
    Polar(tr, s.anchor, Radius(s), s.angle + RIGHT_ANGLE)
  }

  function KeyCorner(tr: Trig, center: Vec, radius: real, keyAngle: real): Vec {
    Polar(tr, center, 3.0 * radius, keyAngle)
  }

  function KeyTip(tr: Trig, center: Vec, radius: real, keyAngle: real): Vec {
    Polar(tr, KeyCorner(tr, center, radius, keyAngle), 4.0 / 3.0 * radius, keyAngle - 90.0)
  }

  function PassThroughStart(tr: Trig, center: Vec, radius: real, keyAngle: real): Vec {
    Polar(tr, center, 2.0 * radius, keyAngle)
  }

  function PassThroughEnd(tr: Trig, center: Vec, radius: real, keyAngle: real): Vec {
    Polar(tr, PassThroughStart(tr, center, radius, keyAngle), 2.0 / 3.0 * radius, keyAngle - 90.0)
  }

  /** One key: a stroke out of the circle, a tip turned a quarter turn
      clockwise, and for a pass-through switch a shorter second tip. */
  function KeySymbol(s: Switch, tr: Trig, center: Vec, radius: real, keyAngle: real): (r: seq<Primitive>)
    ensures |r| == if s.passThrough then 3 else 2
    ensures forall k | 0 <= k < |r| :: r[k].Segment?
    ensures r[0].start == center && r[0].end == KeyCorner(tr, center, radius, keyAngle)
    ensures r[1].start == r[0].end && r[1].end == KeyTip(tr, center, radius, keyAngle)
    ensures s.passThrough ==> r[2].start == PassThroughStart(tr, center, radius, keyAngle)
                              && r[2].end == PassThroughEnd(tr, center, radius, keyAngle)
  {
    var corner := KeyCorner(tr, center, radius, keyAngle);
    var key := [ Segment(center, corner, None, s.color, Some(s.lineWidth)),
                 Segment(corner, KeyTip(tr, center, radius, keyAngle), None, s.color, Some(s.lineWidth)) ];
    if s.passThrough then
      key + [Segment(PassThroughStart(tr, center, radius, keyAngle),
                     PassThroughEnd(tr, center, radius, keyAngle), None, s.color, Some(s.lineWidth))]
    else
      key
  }

  /** A filled circle and one key at a right angle to the orientation, plus
      a second key at half a right angle when `twoKey`. */
  function DrawSwitch(s: Switch, tr: Trig): (r: seq<Primitive>)
    ensures |r| == 1 + (if s.twoKey then 2 else 1) * (if s.passThrough then 3 else 2)
    ensures r[0] == Circle(SwitchCenter(s, tr), s.symbolLength / 4.0, true, s.color, Some(0.1))
    ensures var keyLength := if s.passThrough then 3 else 2;
      && r[1..1 + keyLength] == KeySymbol(s, tr, SwitchCenter(s, tr), Radius(s), s.angle + RIGHT_ANGLE)
      && (s.twoKey ==> r[1 + keyLength..] == KeySymbol(s, tr, SwitchCenter(s, tr), Radius(s),
                                                        s.angle + RIGHT_ANGLE / 2.0))
  {
    var radius := Radius(s);
    var center := SwitchCenter(s, tr);
    var circle := Circle(center, radius, true, s.color, Some(0.1));
    var first := KeySymbol(s, tr, center, radius, s.angle + RIGHT_ANGLE);
    if s.twoKey then
      [circle] + first + KeySymbol(s, tr, center, radius, s.angle + RIGHT_ANGLE / 2.0)
    else
      [circle] + first
  }

  /** The circle touches the anchor's wall point: its centre is one radius
      from the anchor. A key stroke is three radii long, its tip 4/3 of a
      radius and square to it; the pass-through tip starts two thirds of the
      way along the stroke, is 2/3 of a radius long and parallel to the tip. */
  lemma SwitchKeyGeometry(s: Switch, tr: Trig, keyAngle: real)
    requires tr.Sound()
    ensures Dist2(s.anchor, SwitchCenter(s, tr)) == Radius(s) * Radius(s)
    ensures var c, r := SwitchCenter(s, tr), Radius(s);
      var corner, tip := KeyCorner(tr, c, r, keyAngle), KeyTip(tr, c, r, keyAngle);
      var mid, tip2 := PassThroughStart(tr, c, r, keyAngle), PassThroughEnd(tr, c, r, keyAngle);
      && Dist2(c, corner) == (3.0 * r) * (3.0 * r)
      && Dist2(corner, tip) == (4.0 / 3.0 * r) * (4.0 / 3.0 * r)
      && Dot(Sub(corner, c), Sub(tip, corner)) == 0.0
      && Sub(mid, c) == Scale(2.0 / 3.0, Sub(corner, c))
      && Sub(tip2, mid) == Scale(1.0 / 2.0, Sub(tip, corner))
  {
    var c, r := SwitchCenter(s, tr), Radius(s);
    PolarDistance(tr, s.anchor, r, s.angle + RIGHT_ANGLE);
    PolarDistance(tr, c, 3.0 * r, keyAngle);
    PolarDistance(tr, KeyCorner(tr, c, r, keyAngle), 4.0 / 3.0 * r, keyAngle - 90.0);
    var d, e := tr.dir(keyAngle), tr.dir(keyAngle - 90.0);
    QuarterTurnOrthogonal(tr, keyAngle - 90.0);
    assert keyAngle - 90.0 + 90.0 == keyAngle;
    assert Dot(e, d) == 0.0;
    calc {
      Dot(Scale(3.0 * r, d), Scale(4.0 / 3.0 * r, e));
      (3.0 * r) * (4.0 / 3.0 * r) * Dot(d, e);
    }
  }
}
