/** Walls, windows and doors. */
module Basic {
  import opened Results
  import opened Geometry
  import opened Primitives

  datatype Wall = Wall(anchor: Vec, length: real, thickness: real, angle: real := 0.0,
                       color: Color := "black")

  /** A straight wall: one filled rectangle rotated about its anchor. */
  function DrawWall(w: Wall): (r: seq<Primitive>)
    ensures |r| == 1 && r[0].Rectangle? && r[0].filled
    ensures r[0].corner == w.anchor && r[0].width == w.length
    ensures r[0].height == w.thickness && r[0].angle == w.angle && r[0].color == w.color
  {
    [Rectangle(w.anchor, w.length, w.thickness, w.angle, true, w.color, None)]
  }

  datatype Window = Window(anchor: Vec, length: real, overallThickness: real,
                           singleLineThickness: real, angle: real := 0.0, color: Color := "black")

  /** The room left between the two lines of a window. */
  function InternalThickness(w: Window): real {
    w.overallThickness - 2.0 * w.singleLineThickness
  }

  /** `Window.__init__`: rejects thicknesses that leave no room between
      the two lines; the boundary value 0 is rejected too. */
  function NewWindow(anchor: Vec, length: real, overallThickness: real,
                     singleLineThickness: real, angle: real := 0.0,
                     color: Color := "black"): (r: Result<Window>)
    ensures r.Failure? <==> overallThickness - 2.0 * singleLineThickness <= 0.0
    ensures r.Failure? ==> r.error.ValueError?
    ensures r.Success? ==> r.value == Window(anchor, length, overallThickness,
                                             singleLineThickness, angle, color)
    ensures r.Success? ==> InternalThickness(r.value) > 0.0
  {
    var internalThickness := overallThickness - 2.0 * singleLineThickness;
    if internalThickness <= 0.0 then
      Failure(ValueError("Window can not be drawn due to invalid thicknesses."))
    else
      Success(Window(anchor, length, overallThickness, singleLineThickness, angle, color))
  }

  /** Two thin rectangles; the second one's anchor is moved
      `overall - single` along the direction a quarter turn from the window. */
  function DrawWindow(w: Window, tr: Trig): (r: seq<Primitive>)
    ensures |r| == 2 && r[0].Rectangle? && r[1].Rectangle?
    ensures r[0].corner == w.anchor
    ensures Sub(r[1].corner, r[0].corner)
            == Scale(w.overallThickness - w.singleLineThickness, tr.dir(w.angle + STRAIGHT_ANGLE))
    ensures forall k | 0 <= k < 2 :: r[k].width == w.length && r[k].height == w.singleLineThickness
                                      && r[k].angle == w.angle && r[k].filled && r[k].color == w.color
  {
    var first := Rectangle(w.anchor, w.length, w.singleLineThickness, w.angle, true, w.color, None);
    var shift := w.overallThickness - w.singleLineThickness;
    var second := Polar(tr, w.anchor, shift, w.angle + STRAIGHT_ANGLE);
    [first, Rectangle(second, w.length, w.singleLineThickness, w.angle, true, w.color, None)]
  }

  /** Measured across the window, the second line starts `overall - single`
      after the first, so the gap between the lines is `overall - 2 single`,
      positive for every window `NewWindow` accepts. */
  lemma WindowGap(w: Window, tr: Trig)
    requires tr.Sound()
    requires NewWindow(w.anchor, w.length, w.overallThickness, w.singleLineThickness,
                       w.angle, w.color).Success?
    ensures var r := DrawWindow(w, tr);
      var across := tr.dir(w.angle + STRAIGHT_ANGLE);
      && Dot(Sub(r[1].corner, r[0].corner), across) == w.overallThickness - w.singleLineThickness
      && Dot(Sub(r[1].corner, r[0].corner), across) - r[0].height == InternalThickness(w) > 0.0
  {
    var r := DrawWindow(w, tr);
    var across := tr.dir(w.angle + STRAIGHT_ANGLE);
    var shift := w.overallThickness - w.singleLineThickness;
    assert Dot(across, across) == 1.0;
    calc {
      Dot(Sub(r[1].corner, r[0].corner), across);
      Dot(Scale(shift, across), across);
      shift * Dot(across, across);
    }
  }

  /** Equal thicknesses are rejected; anything thicker is accepted and
      leaves exactly the extra thickness as gap. */
  lemma WindowBoundary(anchor: Vec, length: real, single: real, eps: real)
    ensures NewWindow(anchor, length, 2.0 * single, single).Failure?
    ensures eps > 0.0 ==> var r := NewWindow(anchor, length, 2.0 * single + eps, single);
                          r.Success? && InternalThickness(r.value) == eps
  {
  }

  datatype Door = Door(anchor: Vec, doorwayWidth: real, doorWidth: real, frameWidth: real,
                       thickness: real, angle: real := 0.0, toTheRight: bool := false,
                       color: Color := "black")

  /** `Door.__init__`: the frame on each side takes half of what the door
      leaves of the doorway. */
  function NewDoor(anchor: Vec, doorwayWidth: real, doorWidth: real, thickness: real,
                   angle: real := 0.0, toTheRight: bool := false,
                   color: Color := "black"): (d: Door)
    ensures d.frameWidth + d.doorWidth + d.frameWidth == d.doorwayWidth == doorwayWidth
    ensures d.doorWidth == doorWidth && d.thickness == thickness && d.anchor == anchor
    ensures d.angle == angle && d.toTheRight == toTheRight && d.color == color
  {
    Door(anchor, doorwayWidth, doorWidth, (doorwayWidth - doorWidth) / 2.0,
         thickness, angle, toTheRight, color)
  }

  /** Door frames are drawn a quarter turn back from the doorway. */
  function FrameAngle(d: Door): real { d.angle - STRAIGHT_ANGLE }

  function FarFrameAnchor(d: Door, tr: Trig): Vec {
    Polar(tr, d.anchor, d.frameWidth + d.doorWidth, d.angle)
  }

  /** The hinge: `frameWidth` along the doorway, and for a door opening to
      the right a further `thickness` along (sin, -cos) of the doorway. */
  function Hinge(d: Door, tr: Trig): Vec {
    var hinge := Polar(tr, d.anchor, d.frameWidth, d.angle);
    if d.toTheRight then
      Vec(hinge.x + tr.Sin(d.angle) * d.thickness, hinge.y - tr.Cos(d.angle) * d.thickness)
    else
      hinge
  }

  function Leaf(d: Door, tr: Trig): Primitive {
    if d.toTheRight then
      Rectangle(Hinge(d, tr), d.doorWidth, d.thickness, d.angle - STRAIGHT_ANGLE, true, d.color, None)
    else
      Rectangle(Hinge(d, tr), d.thickness, d.doorWidth, d.angle, true, d.color, None)
  }

  /** Extra degrees of swing so that the arc meets the leaf seamlessly. */
  const SMOOTH_CONNECTION_DEGREES: real := 2.0

  function SwingArc(d: Door, tr: Trig): Primitive {
    var center := Polar(tr, Hinge(d, tr), d.thickness, d.angle);
    var (start, end) :=
      if d.toTheRight then (-STRAIGHT_ANGLE - SMOOTH_CONNECTION_DEGREES, 0.0)
      else (0.0, STRAIGHT_ANGLE + SMOOTH_CONNECTION_DEGREES);
    Arc(center, 2.0 * (d.doorWidth - d.thickness), 2.0 * d.doorWidth, d.angle,
        start, end, d.color, Some(1.0))
  }

  /** Frame with hinges, frame without hinges, the leaf and its swing arc. */
  function DrawDoor(d: Door, tr: Trig): (r: seq<Primitive>)
    ensures |r| == 4 && r[0].Rectangle? && r[1].Rectangle? && r[2].Rectangle? && r[3].Arc?
    ensures r[0].corner == d.anchor && r[1].corner == FarFrameAnchor(d, tr)
    ensures forall k | 0 <= k < 2 :: r[k].width == d.thickness && r[k].height == d.frameWidth
                                      && r[k].angle == d.angle - STRAIGHT_ANGLE
    ensures r[2] == Leaf(d, tr) && r[3] == SwingArc(d, tr)
  {
    var frameWithHinges := Rectangle(d.anchor, d.thickness, d.frameWidth, FrameAngle(d), true, d.color, None);
    var frameWithoutHinges :=
      Rectangle(FarFrameAnchor(d, tr), d.thickness, d.frameWidth, FrameAngle(d), true, d.color, None);
    [frameWithHinges, frameWithoutHinges, Leaf(d, tr), SwingArc(d, tr)]
  }

  /** The far frame starts `frameWidth + doorWidth` along the doorway, so
      frame, door and frame together span the whole doorway. */
  lemma DoorFramesSpanDoorway(anchor: Vec, doorwayWidth: real, doorWidth: real, thickness: real,
                              angle: real, toTheRight: bool, tr: Trig)
    requires tr.Sound()
    ensures var d := NewDoor(anchor, doorwayWidth, doorWidth, thickness, angle, toTheRight);
      var r := DrawDoor(d, tr);
      && Sub(Polar(tr, r[1].corner, d.frameWidth, angle), anchor) == Scale(doorwayWidth, tr.dir(angle))
      && Dist2(anchor, Polar(tr, r[1].corner, d.frameWidth, angle)) == doorwayWidth * doorwayWidth
  {
    var d := NewDoor(anchor, doorwayWidth, doorWidth, thickness, angle, toTheRight);
    var far := FarFrameAnchor(d, tr);
    var dir := tr.dir(angle);
    assert Sub(Polar(tr, far, d.frameWidth, angle), anchor) == Scale(doorwayWidth, dir);
    assert Dot(dir, dir) == 1.0;
    ScaledUnit(doorwayWidth, dir);
  }

  /** The hinge sits `frameWidth` along the doorway; opening to the right
      moves it a further `thickness` a quarter turn clockwise, turns the
      leaf a quarter turn back and swaps its width and height. */
  lemma DoorHinge(d: Door, tr: Trig)
    requires tr.Sound()
    ensures !d.toTheRight ==> Hinge(d, tr) == Polar(tr, d.anchor, d.frameWidth, d.angle)
    ensures d.toTheRight ==>
      Hinge(d, tr) == Polar(tr, Polar(tr, d.anchor, d.frameWidth, d.angle), d.thickness, d.angle - 90.0)
    ensures Leaf(d, tr).angle == if d.toTheRight then d.angle - STRAIGHT_ANGLE else d.angle
    ensures Leaf(d, tr).corner == Hinge(d, tr)
    ensures d.toTheRight ==> Leaf(d, tr).width == d.doorWidth && Leaf(d, tr).height == d.thickness
    ensures !d.toTheRight ==> Leaf(d, tr).width == d.thickness && Leaf(d, tr).height == d.doorWidth
  {
    QuarterTurnBack(tr, d.angle);
  }

  /** The two hinge positions differ by exactly the door thickness. */
  lemma DoorHingeShift(d: Door, tr: Trig)
    requires tr.Sound()
    ensures Dist2(Hinge(d.(toTheRight := false), tr), Hinge(d.(toTheRight := true), tr))
            == d.thickness * d.thickness
  {
    DoorHinge(d.(toTheRight := true), tr);
    PolarDistance(tr, Polar(tr, d.anchor, d.frameWidth, d.angle), d.thickness, d.angle - 90.0);
  }

  /** The door opening to the right is the one opening to the left mirrored
      across the wall's centre line: the line along the doorway `thickness / 2`
      in from the doorway line through the anchor, towards θ − 90°. Its hinge
      and swing-arc centre are the mirror images, and its arc covers the
      negated angle range. (Across the doorway line itself the two are not
      mirror images: they lie `thickness` apart.) */
  lemma DoorMirror(d: Door, tr: Trig)
    requires tr.Sound()
    ensures var n := tr.dir(d.angle + 90.0);
      var m := Polar(tr, d.anchor, d.thickness / 2.0, d.angle - 90.0);
      var left, right := d.(toTheRight := false), d.(toTheRight := true);
      && Reflect(Hinge(left, tr), m, n) == Hinge(right, tr)
      && Reflect(SwingArc(left, tr).center, m, n) == SwingArc(right, tr).center
      && SwingArc(right, tr).theta1 == -SwingArc(left, tr).theta2
      && SwingArc(right, tr).theta2 == -SwingArc(left, tr).theta1
  {
    var left, right := d.(toTheRight := false), d.(toTheRight := true);
    var t, along, n := d.thickness, tr.dir(d.angle), tr.dir(d.angle + 90.0);
    QuarterTurnOrthogonal(tr, d.angle);
    var m := Polar(tr, d.anchor, t / 2.0, d.angle - 90.0);
    assert m == Sub(d.anchor, Scale(t / 2.0, n)) by {
      QuarterTurnBack(tr, d.angle);
      assert tr.dir(d.angle - 90.0) == Scale(-1.0, n);
      assert Sub(m, d.anchor) == Scale(t / 2.0, Scale(-1.0, n));
    }
    var hinge, center := Hinge(left, tr), SwingArc(left, tr).center;
    assert Sub(hinge, d.anchor) == Scale(left.frameWidth, along);
    assert Sub(center, d.anchor) == Scale(left.frameWidth + t, along);
    assert Hinge(right, tr) == Sub(hinge, Scale(t, n));
    assert SwingArc(right, tr).center == Sub(center, Scale(t, n));
    ShiftAcrossMirror(hinge, d.anchor, along, n, left.frameWidth, t);
    ShiftAcrossMirror(center, d.anchor, along, n, left.frameWidth + t, t);
  }

  /** A point `a` along the doorway from `o` is mirrored across the line
      `t / 2` from `o` on the side opposite to `n` onto the point `t` across. */
  lemma ShiftAcrossMirror(p: Vec, o: Vec, d: Vec, n: Vec, a: real, t: real)
    requires Orthonormal(d, n) && Sub(p, o) == Scale(a, d)
    ensures Reflect(p, Sub(o, Scale(t / 2.0, n)), n) == Sub(p, Scale(t, n))
  {
    var m := Sub(o, Scale(t / 2.0, n));
    assert Sub(p, m) == Add(Scale(a, d), Scale(t / 2.0, n));
    ReflectAcross(p, m, d, n, a, t / 2.0);
  }

  /** The swing arc is centred `thickness` past the hinge along the doorway,
      has radii `doorWidth - thickness` and `doorWidth`, and spans a quarter
      turn plus the smoothing degrees on either side. */
  lemma DoorSwing(d: Door, tr: Trig)
    ensures var a := SwingArc(d, tr);
      && a.center == Polar(tr, Hinge(d, tr), d.thickness, d.angle)
      && a.width == 2.0 * (d.doorWidth - d.thickness) && a.height == 2.0 * d.doorWidth
      && a.angle == d.angle
      && (d.toTheRight ==> a.theta1 == -92.0 && a.theta2 == 0.0)
      && (!d.toTheRight ==> a.theta1 == 0.0 && a.theta2 == 92.0)
      && Span(a) == STRAIGHT_ANGLE + SMOOTH_CONNECTION_DEGREES
  {
  }
}
