/** Dimension arrows: elements that annotate a drawing. */
module Info {
  import opened Geometry
  import opened Primitives

  datatype DimensionArrow = DimensionArrow(
    anchor: Vec, length: real, angle: real := 0.0, width: real := 0.01, tipLength: real := 0.1,
    fontSize: int := 10, annotateAbove: bool := false, color: Color := "black")

  /** The half-angle of each arrow tip is 30 degrees. */
  const SIN_30: real := 0.5

  function Cos30(tr: Trig): real { tr.sqrt3 / 2.0 }

  function Tan30(tr: Trig): PosReal { 1.0 / tr.sqrt3 }

  /** How far the label centre sits from the shaft, per unit of font size. */
  const LABEL_OFFSET_PER_FONT_SIZE: real := 0.0125

  /** Vertex k and vertex 14 - k share x and have opposite y. */
  predicate MirroredAcrossShaft(v: seq<Vec>, k: int)
    requires |v| == 14 && 1 <= k <= 6
  {
    v[k].x == v[14 - k].x && v[k].y == -v[14 - k].y
  }

  /** Vertex k and vertex 7 - k lie symmetrically about x = length / 2. */
  predicate MirroredAcrossMiddle(v: seq<Vec>, length: real, k: int)
    requires |v| == 14 && 1 <= k <= 6
  {
    v[k].x + v[7 - k].x == length && v[k].y == v[7 - k].y
  }

  /** The outline before rotation: the shaft along +X from (0, 0) to
      (length, 0), a tip at each end, traced counter-clockwise. */
  function Outline(a: DimensionArrow, tr: Trig): (v: seq<Vec>)
    ensures |v| == 14
    ensures v[0] == Vec(0.0, 0.0) && v[7] == Vec(a.length, 0.0)
    ensures forall k | 1 <= k <= 6 :: MirroredAcrossShaft(v, k)
    ensures forall k | 1 <= k <= 6 :: MirroredAcrossMiddle(v, a.length, k)
  {
    var w, tip, len := a.width, a.tipLength, a.length;
    var tipRise := Tan30(tr) * (tip - SIN_30 * w);
    var innerRise := tipRise - Cos30(tr) * w;
    var shaftInset := w / 2.0 / Tan30(tr) + w / SIN_30;
    [ Vec(0.0, 0.0),
      Vec(tip - SIN_30 * w, tipRise),
      Vec(tip, innerRise),
      Vec(shaftInset, w / 2.0),
      Vec(len - shaftInset, w / 2.0),
      Vec(len - tip, innerRise),
      Vec(len - tip + SIN_30 * w, tipRise),
      Vec(len, 0.0),
      Vec(len - tip + SIN_30 * w, -tipRise),
      Vec(len - tip, -tipRise + Cos30(tr) * w),
      Vec(len - shaftInset, -w / 2.0),
      Vec(shaftInset, -w / 2.0),
      Vec(tip, -tipRise + Cos30(tr) * w),
      Vec(tip - SIN_30 * w, -tipRise) ]
  }

  /** Rotation by the arrow's angle, then translation to its anchor. */
  function Place(a: DimensionArrow, tr: Trig, v: Vec): Vec {
    Add(Rotate(tr, a.angle, v), a.anchor)
  }

  /** Placing keeps the distance to the origin: it becomes the distance to the anchor. */
  lemma PlaceDistance(a: DimensionArrow, tr: Trig, u: Vec)
    requires tr.Sound()
    ensures Dist2(a.anchor, Place(a, tr, u)) == Dot(u, u)
  {
    RotateIsometry(tr, a.angle, u);
    assert Sub(Place(a, tr, u), a.anchor) == Rotate(tr, a.angle, u);
  }

  function Vertices(a: DimensionArrow, tr: Trig): (r: seq<Vec>)
    ensures |r| == 14 && r[0] == a.anchor && r[7] == Place(a, tr, Vec(a.length, 0.0))
    ensures forall k | 0 <= k < 14 :: r[k] == Place(a, tr, Outline(a, tr)[k])
  {
    var outline := Outline(a, tr);
    seq(14, k requires 0 <= k < 14 => Place(a, tr, outline[k]))
  }

  /** The label centre before rotation: mid-shaft, above or below it. */
  function LabelCenter(a: DimensionArrow): Vec {
    var offset := a.fontSize as real * LABEL_OFFSET_PER_FONT_SIZE;
    Vec(a.length / 2.0, if a.annotateAbove then offset else -offset)
  }

  /** The filled outline and its label, both rotated and shifted alike. */
  function DrawDimensionArrow(a: DimensionArrow, tr: Trig): (r: seq<Primitive>)
    ensures |r| == 2 && r[0].Polygon? && r[1].Label?
    ensures r[0].vertices == Vertices(a, tr) && r[0].color == a.color
    ensures r[1].position == Place(a, tr, LabelCenter(a))
    ensures r[1].value == a.length && r[1].rotation == a.angle
    ensures r[1].fontSize == a.fontSize && r[1].color == a.color
  {
    [ Polygon(Vertices(a, tr), a.color),
      Label(Place(a, tr, LabelCenter(a)), a.length, a.angle, a.fontSize, a.color) ]
  }

  /** Vertex 7, the far tip, lies `length` from the anchor. */
  lemma ArrowLength(a: DimensionArrow, tr: Trig)
    requires tr.Sound()
    ensures Dist2(a.anchor, Vertices(a, tr)[7]) == a.length * a.length
  {
    PlaceDistance(a, tr, Vec(a.length, 0.0));
  }

  /** Rotation keeps the outline's shape: every placed vertex is as far from
      the anchor as the unrotated vertex is from (0, 0). */
  lemma ArrowRigid(a: DimensionArrow, tr: Trig, k: int)
    requires tr.Sound() && 0 <= k < 14
    ensures Dist2(a.anchor, Vertices(a, tr)[k]) == Dot(Outline(a, tr)[k], Outline(a, tr)[k])
  {
    PlaceDistance(a, tr, Outline(a, tr)[k]);
  }

  /** At angle 0 the outline is only translated. */
  lemma ArrowUnrotated(a: DimensionArrow, tr: Trig)
    requires tr.Sound() && a.angle == 0.0
    ensures forall k | 0 <= k < 14 :: Vertices(a, tr)[k] == Add(Outline(a, tr)[k], a.anchor)
  {
    forall k | 0 <= k < 14
      ensures Vertices(a, tr)[k] == Add(Outline(a, tr)[k], a.anchor)
    {
      RotateZero(tr, Outline(a, tr)[k]);
    }
  }

  /** The label sits over the midpoint of the placed shaft (vertices 0 and
      7), moved across the shaft by the font-size offset: towards the side a
      quarter turn counter-clockwise when annotating above, else away. */
  lemma LabelAtShaftMiddle(a: DimensionArrow, tr: Trig)
    requires tr.Sound()
    ensures var v := Vertices(a, tr);
      var offset := a.fontSize as real * LABEL_OFFSET_PER_FONT_SIZE;
      DrawDimensionArrow(a, tr)[1].position
        == Add(Midpoint(v[0], v[7]),
               Scale(if a.annotateAbove then offset else -offset, tr.dir(a.angle + 90.0)))
  {
    var d, half := tr.dir(a.angle), a.length / 2.0;
    var offset := a.fontSize as real * LABEL_OFFSET_PER_FONT_SIZE;
    var across := if a.annotateAbove then offset else -offset;
    var v := Vertices(a, tr);
    assert v[7] == Vec(a.anchor.x + a.length * d.x, a.anchor.y + a.length * d.y);
    assert Midpoint(v[0], v[7]) == Add(a.anchor, Scale(half, d));
    assert LabelCenter(a) == Vec(half, across);
    assert Place(a, tr, Vec(half, across)) == Add(Add(Scale(half, d), Scale(across, Perp(d))), a.anchor);
    QuarterTurnOrthogonal(tr, a.angle);
  }
}
