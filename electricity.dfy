/** Power outlets. */
module Electricity {
  import opened Results
  import opened Geometry
  import opened Primitives

  datatype PowerOutlet = PowerOutlet(
    anchor: Vec, length: real, angle: real := 0.0, waterproof: bool := false,
    highVoltage: bool := false, lowCurrent: bool := false, lineWidth: real := 0.5,
    color: Color := "black")

  function Stroke(o: PowerOutlet, p: Vec, q: Vec): Primitive {
    Segment(p, q, None, o.color, Some(o.lineWidth))
  }

  /** The middle of the half circle, half the length out from the wall. */
  function ArcMiddle(o: PowerOutlet, tr: Trig): Vec {
    Polar(tr, o.anchor, 0.5 * o.length, o.angle + STRAIGHT_ANGLE)
  }

  function TipEnd(o: PowerOutlet, tr: Trig): Vec {
    Polar(tr, o.anchor, o.length, o.angle + STRAIGHT_ANGLE)
  }

  function BarLeftEnd(o: PowerOutlet, tr: Trig): Vec {
    var m := ArcMiddle(o, tr);
    Vec(m.x - 0.5 * o.length * tr.Cos(o.angle), m.y - 0.5 * o.length * tr.Sin(o.angle))
  }

  function BarRightEnd(o: PowerOutlet, tr: Trig): Vec {
    Polar(tr, ArcMiddle(o, tr), 0.5 * o.length, o.angle)
  }

  /** The waterproof mark: a radius of half the length, halfway between the
      wall and the stem. */
  function RadiusEnd(o: PowerOutlet, tr: Trig): Vec {
    Polar(tr, o.anchor, 0.5 * o.length, o.angle + 1.5 * STRAIGHT_ANGLE)
  }

  /** Half circle, stem, crossbar, tip, and the waterproof mark if set;
      `highVoltage` and `lowCurrent` draw nothing. */
  function DrawPowerOutlet(o: PowerOutlet, tr: Trig): (r: seq<Primitive>)
    ensures |r| == if o.waterproof then 5 else 4
    ensures r[0] == Arc(o.anchor, o.length, o.length, 0.0, o.angle, o.angle + 2.0 * STRAIGHT_ANGLE,
                        o.color, Some(o.lineWidth))
    ensures forall k | 1 <= k < |r| :: r[k].Segment?
    ensures r[1].start == o.anchor && r[1].end == ArcMiddle(o, tr)
    ensures r[2].start == BarLeftEnd(o, tr) && r[2].end == BarRightEnd(o, tr)
    ensures r[3].start == ArcMiddle(o, tr) && r[3].end == TipEnd(o, tr)
    ensures o.waterproof ==> r[4].start == o.anchor && r[4].end == RadiusEnd(o, tr)
  {
    var arc := Arc(o.anchor, o.length, o.length, 0.0, o.angle, o.angle + 2.0 * STRAIGHT_ANGLE,
                   o.color, Some(o.lineWidth));
    var middle := ArcMiddle(o, tr);
    var core := [ arc,
                  Stroke(o, o.anchor, middle),
                  Stroke(o, BarLeftEnd(o, tr), BarRightEnd(o, tr)),
                  Stroke(o, middle, TipEnd(o, tr)) ];
    if o.waterproof then core + [Stroke(o, o.anchor, RadiusEnd(o, tr))] else core
  }

  /** The arc is a half circle of diameter `length` centred on the anchor. */
  lemma OutletArc(o: PowerOutlet, tr: Trig)
    ensures var a := DrawPowerOutlet(o, tr)[0];
      a.center == o.anchor && a.width == a.height == o.length && Span(a) == 180.0
  {
  }

  /** The stem's far end is the midpoint of anchor and tip, and the crossbar
      is centred on it, has length `length` and is square to the stem. */
  lemma OutletStemAndBar(o: PowerOutlet, tr: Trig)
    requires tr.Sound()
    ensures ArcMiddle(o, tr) == Midpoint(o.anchor, TipEnd(o, tr))
    ensures ArcMiddle(o, tr) == Midpoint(BarLeftEnd(o, tr), BarRightEnd(o, tr))
    ensures Dist2(BarLeftEnd(o, tr), BarRightEnd(o, tr)) == o.length * o.length
    ensures Dist2(o.anchor, TipEnd(o, tr)) == o.length * o.length
    ensures Dot(Sub(TipEnd(o, tr), o.anchor), Sub(BarRightEnd(o, tr), BarLeftEnd(o, tr))) == 0.0
  {
    var d := tr.dir(o.angle);
    var up := tr.dir(o.angle + STRAIGHT_ANGLE);
    QuarterTurnOrthogonal(tr, o.angle);
    assert Sub(BarRightEnd(o, tr), BarLeftEnd(o, tr)) == Scale(o.length, d);
    assert Sub(TipEnd(o, tr), o.anchor) == Scale(o.length, up);
    assert Dot(d, d) == 1.0 && Dot(up, up) == 1.0;
    ScaledUnit(o.length, d);
    ScaledUnit(o.length, up);
    calc {
      Dot(Scale(o.length, up), Scale(o.length, d));
      o.length * o.length * Dot(up, d);
    }
  }

  /** The waterproof mark has length `length / 2`. */
  lemma OutletWaterproofMark(o: PowerOutlet, tr: Trig)
    requires tr.Sound() && o.waterproof
    ensures Length2(DrawPowerOutlet(o, tr)[4]) == (o.length / 2.0) * (o.length / 2.0)
  {
    PolarDistance(tr, o.anchor, 0.5 * o.length, o.angle + 1.5 * STRAIGHT_ANGLE);
  }

  /** `highVoltage` and `lowCurrent` are stored but change nothing drawn. */
  lemma OutletDecorationsIgnored(o: PowerOutlet, tr: Trig, highVoltage: bool, lowCurrent: bool)
    ensures DrawPowerOutlet(o.(highVoltage := highVoltage, lowCurrent := lowCurrent), tr)
            == DrawPowerOutlet(o, tr)
  {
    var p := o.(highVoltage := highVoltage, lowCurrent := lowCurrent);
    assert ArcMiddle(p, tr) == ArcMiddle(o, tr) && TipEnd(p, tr) == TipEnd(o, tr);
    assert BarLeftEnd(p, tr) == BarLeftEnd(o, tr) && BarRightEnd(p, tr) == BarRightEnd(o, tr);
    assert RadiusEnd(p, tr) == RadiusEnd(o, tr);
    assert forall a, b :: Stroke(p, a, b) == Stroke(o, a, b);
  }
}
