# renovation — a Dafny model of the element geometry and the page/project layer

`renovation` draws floor plans: a project is a list of floor plans (pages),
each page has a physical size derived from a scale, optional reference
grids and a title, and architectural symbols (walls, windows, doors, power
outlets, lamps, LED strips, switches, dimension arrows, lines) are drawn on
it. Every symbol's `draw` is a fixed chain of "point + d·(cos θ, sin θ)"
offsets from an anchor point that ends in a few matplotlib patches and
plots.

This project models that core in Dafny:

- `results.dfy` — `Option`, `Result` and the Python exceptions raised
  (`ValueError`, `KeyError`, `ZeroDivisionError`).
- `geometry.dfy` — points, the offset `Polar(origin, d, θ)`, the rotation
  matrix, and the `Trig` parameter that stands for cosine, sine, √2 and √3.
- `primitives.dfy` — what a `draw` hands to matplotlib, as records of the
  constructor arguments: rectangle, arc, circle, segment (`ax.plot`),
  polygon and text label.
- `basic.dfy`, `info.dfy`, `electricity.dfy`, `lighting.dfy`,
  `multipurpose.dfy` — one datatype per element, its constructor
  validation where the source has one, and its `draw` as a function to a
  sequence of primitives in drawing order. `LEDStrip.draw`, a loop, is a
  method with loop invariants.
- `floor_plan.dfy` — page size, `numpy.arange` grid ticks, and the
  `FloorPlan` class whose `AddTitle` updates its `title` field.
- `project.dfy` — the `Project` class: the PNG naming rule and the ordered
  PDF/PNG exports.

Concrete sine and cosine cannot be evaluated, so every drawing is
parametric in a `Trig` value: `tr.dir(a)` is (cos a, sin a) for an angle in
degrees. The identities the proofs use (unit length, a quarter turn maps
(c, s) to (−s, c), dir(0) = (1, 0), √2² = 2, √3² = 3) are collected in the
predicate `Trig.Sound()`, which each lemma that relies on them requires.
`STRAIGHT_ANGLE_IN_DEGREES` and `RIGHT_ANGLE_IN_DEGREES` live in
`renovation.constants`, which is not part of this model; both are 90 here,
as their uses show (the outlet's half circle spans `2·STRAIGHT`, the door's
swing `STRAIGHT + 2`).

Behaviours of the source worth knowing:

- The dimension-arrow outline has 14 vertices
  (`renovation/elements/info.py:68-125`).
- The `high_voltage` and `low_current` outlet flags are stored but draw
  nothing (`renovation/elements/electricity.py:66-131`).
- `Line`'s default style `'-'` is a matplotlib code, not a style name, so a
  `Line` built without an explicit style raises `KeyError`.
- An `LEDStrip` with `0 ≤ length < width` computes zero circles and then
  divides by zero, so its `draw` raises `ZeroDivisionError`.

Element records carry the source's default arguments (orientation 0, line
width 0.5, colour black, and the arrow's and wall lamp's own defaults).

## Model

| member | source | states |
|---|---|---|
| Geometry.Polar | renovation/elements/electricity.py:81-84 | the point lies `distance` along direction θ from the origin |
| Geometry.PolarDistance | renovation/elements/electricity.py:108-111 | the offset point is exactly `distance` from its origin |
| Geometry.QuarterTurnOrthogonal | renovation/elements/lighting.py:251-258 | restates for one angle the quarter-turn identity dir(θ+90°) = (−sin θ, cos θ) assumed by `Trig.Sound()`, and derives from it that dir(θ+90°) is orthogonal to dir(θ) |
| Geometry.QuarterTurnBack | renovation/elements/basic.py:216-220 | (sin θ, −cos θ) is the direction θ−90° |
| Geometry.Rotate | renovation/elements/info.py:126-131 | the rotation matrix maps (x, y) to x·dir(θ) + y·Perp(dir(θ)) |
| Geometry.RotateIsometry | renovation/elements/info.py:126-131 | rotation keeps the distance to the origin |
| Geometry.RotateZero | renovation/elements/info.py:126-131 | rotation by 0° is the identity |
| Basic.DrawWall | renovation/elements/basic.py:53-62 | exactly one filled rectangle with the wall's anchor, length, thickness, angle and colour |
| Basic.NewWindow | renovation/elements/basic.py:98-107 | construction fails with `ValueError` iff `overall − 2·single ≤ 0`; otherwise the fields are stored unchanged and the internal thickness is positive |
| Basic.WindowBoundary | renovation/elements/basic.py:98-100 | `overall = 2·single` is rejected; `2·single + ε` with ε > 0 is accepted with internal thickness exactly ε |
| Basic.DrawWindow | renovation/elements/basic.py:109-133 | two equal filled rectangles; the second anchor is the first moved `overall − single` along θ+STRAIGHT |
| Basic.WindowGap | renovation/elements/basic.py:120-133 | measured across the window the lines start `overall − single` apart, leaving a gap of `overall − 2·single`, positive for every accepted window |
| Basic.NewDoor | renovation/elements/basic.py:175-182 | frame + door + frame equals the doorway width; the other fields are stored unchanged |
| Basic.DrawDoor | renovation/elements/basic.py:184-259 | frame with hinges at the anchor, far frame, leaf and swing arc, in that order; both frames are `thickness × frame_width` at θ−STRAIGHT |
| Basic.DoorFramesSpanDoorway | renovation/elements/basic.py:198-210 | the far frame's outer edge is exactly `doorway_width` along θ from the anchor |
| Basic.DoorHinge | renovation/elements/basic.py:212-235 | the hinge is `frame_width` along θ, moved a further `thickness` along θ−90° only when `to_the_right`; the leaf starts at the hinge and is `door_width × thickness` at θ−STRAIGHT when `to_the_right`, else `thickness × door_width` at θ |
| Basic.DoorHingeShift | renovation/elements/basic.py:216-220 | the two hinge positions are exactly `thickness` apart |
| Basic.DoorMirror | renovation/elements/basic.py:212-258 | reflecting across the wall's centre line (`thickness / 2` in from the doorway line, towards θ−90°) maps the left-opening hinge and swing-arc centre onto the right-opening ones, and the right arc's angle range is the left one negated |
| Basic.DoorSwing | renovation/elements/basic.py:238-258 | the arc centre is `thickness` past the hinge along θ, radii `door − thickness` and `door`, angles [−92, 0] or [0, 92], so both branches span STRAIGHT + 2 |
| Info.Outline | renovation/elements/info.py:68-125 | 14 vertices, vertex 0 = (0, 0), vertex 7 = (length, 0), vertices k and 14−k mirrored across the shaft, k and 7−k mirrored across x = length/2 |
| Info.PlaceDistance | renovation/elements/info.py:126-133 | rotating and shifting a point keeps its distance, now measured from the anchor |
| Info.Vertices | renovation/elements/info.py:126-133 | each of the 14 vertices is `R(θ)·v + anchor`; vertex 0 is the anchor |
| Info.DrawDimensionArrow | renovation/elements/info.py:134-150 | a polygon of the placed vertices and a label carrying the length, rotated by θ, at the placed label centre, in the arrow's colour and font size |
| Info.ArrowLength | renovation/elements/info.py:126-133 | the far tip is exactly `length` from the anchor |
| Info.ArrowRigid | renovation/elements/info.py:126-133 | every placed vertex is as far from the anchor as the unrotated vertex from (0, 0) |
| Info.ArrowUnrotated | renovation/elements/info.py:126-133 | at θ = 0 the outline is only translated |
| Info.LabelAtShaftMiddle | renovation/elements/info.py:137-144 | the label is over the midpoint of the placed shaft, moved ±0.0125·font_size along θ+90° as `annotate_above` says |
| Electricity.DrawPowerOutlet | renovation/elements/electricity.py:66-131 | 4 primitives, 5 with `waterproof`: the arc, the stem from the anchor to the arc middle, the crossbar, the tip, and the waterproof radius |
| Electricity.OutletArc | renovation/elements/electricity.py:68-77 | the arc is centred on the anchor with diameter `length` and spans 180° |
| Electricity.OutletStemAndBar | renovation/elements/electricity.py:79-117 | the arc middle is the midpoint of anchor–tip and of the crossbar; stem-and-tip and crossbar both have length `length` and are square to each other |
| Electricity.OutletWaterproofMark | renovation/elements/electricity.py:119-131 | the waterproof stroke has length `length/2` |
| Electricity.OutletDecorationsIgnored | renovation/elements/electricity.py:60-62 | `high_voltage` and `low_current` do not change what is drawn |
| Lighting.DrawCeilingLamp | renovation/elements/lighting.py:46-81 | an open circle of radius `diameter/2` at the anchor and two diagonals centred on it, at ±√2/2·r per coordinate |
| Lighting.CeilingLampCrossOnCircle | renovation/elements/lighting.py:58-81 | all four diagonal ends lie on the circle |
| Lighting.DrawWallLamp | renovation/elements/lighting.py:124-190 | the stub rectangle, an arc of the symbol diameter around the lamp centre spanning [θ − 0.5·RIGHT, θ + 2.5·RIGHT], and the two cross arms |
| Lighting.WallLampStub | renovation/elements/lighting.py:126-149 | the anchor is the middle of the stub's wall edge, stub width² = diameter²/2, and the lamp centre is `depth + width/2` from the anchor, square to the wall |
| Lighting.WallLampCrossOnCircle | renovation/elements/lighting.py:161-190 | all four cross ends are `diameter/2` from the lamp centre |
| Lighting.WallLampCrossArms | renovation/elements/lighting.py:161-190 | both arms are centred on the lamp centre and are square to each other |
| Lighting.CircleCenter | renovation/elements/lighting.py:251-258 | the centre is `(2i+1)·x_offset` along θ and `y_offset` along θ+90° from the anchor |
| Lighting.DrawLEDStrip | renovation/elements/lighting.py:233-266 | fails with `ZeroDivisionError` iff the width is 0 or floor(length/width) is 0; otherwise the frame then circle 0 … n−1 in order |
| Lighting.LEDCircleLayout | renovation/elements/lighting.py:247-265 | in the strip's frame circle i is at ((2i+1)·length/2n, width/2) with radius 0.3·width |
| Lighting.LEDCircleSpacing | renovation/elements/lighting.py:248-258 | consecutive centres are `length/n` apart along θ |
| Lighting.LEDCirclesInsideFrame | renovation/elements/lighting.py:235-265 | when each of n circles gets at least a width of the length, every circle lies strictly inside the frame |
| Lighting.DrawnCirclesInsideFrame | renovation/elements/lighting.py:233-266 | every circle the strip draws (n = floor(length/width)) lies strictly inside its frame when `length ≥ width > 0` |
| Lighting.CircleCountFits | renovation/elements/lighting.py:247 | for `length ≥ width > 0` there is at least one circle and n·width ≤ length |
| Lighting.LEDStripCounts | renovation/elements/lighting.py:247-248 | no circles iff `length < width`; length 1.0 and width 0.2 give exactly 5 |
| Lighting.KeySymbol | renovation/elements/lighting.py:313-358 | a stroke from the centre to the key corner, the tip from the corner, and the pass-through tip only when `pass_through` |
| Lighting.DrawSwitch | renovation/elements/lighting.py:360-379 | a filled circle of radius `symbol_length/4`, a key at θ+RIGHT and, with `two_key`, a second key at θ+RIGHT/2 |
| Lighting.SwitchKeyGeometry | renovation/elements/lighting.py:321-373 | the circle centre is one radius from the anchor; the key stroke is 3r long, the tip 4/3·r and square to it; the pass-through tip starts at 2r and is half the tip, parallel to it |
| Multipurpose.NewLine | renovation/elements/multipurpose.py:16-44 | succeeds iff the style is a table key, storing its code; otherwise `KeyError(style)` |
| Multipurpose.DrawLine | renovation/elements/multipurpose.py:46-54 | one segment between the two points with the stored width, style code and colour |
| Multipurpose.StyleTable | renovation/elements/multipurpose.py:16 | exactly four styles, mapped to pairwise different codes |
| Multipurpose.DefaultStyleRejected | renovation/elements/multipurpose.py:23-43 | a line built with the default style raises `KeyError('-')` |
| FloorPlans.FigureSize | renovation/floor_plan.py:47-51 | fails iff the scale denominator is 0; otherwise width·0.0254·den = (tr.x − bl.x)·num, and likewise the height |
| FloorPlans.ExamplePageSize | renovation/floor_plan.py:47-51 | a 5 m × 3 m plan at 1:100 gives a page of 5·0.01/0.0254 × 3·0.01/0.0254 inches |
| FloorPlans.Arange | renovation/floor_plan.py:67-68 | fails iff the step is 0; otherwise max(ceil((stop − start)/step), 0) ticks, tick k = start + k·step |
| FloorPlans.ArangeTicks | renovation/floor_plan.py:66-77 | with a positive step the first tick is `start`, consecutive ticks differ by `step`, and `start + k·step` is a tick exactly when it is below `stop` |
| FloorPlans.GridFor | renovation/floor_plan.py:66-77 | no grid when the step is `None`; fails iff the step is 0; otherwise the `arange` ticks on both axes |
| FloorPlans.FloorPlan.constructor | renovation/floor_plan.py:20-81 | the page size and grids are those computed above, the title is `None`, no texts are placed |
| FloorPlans.FloorPlan.AddTitle | renovation/floor_plan.py:83-108 | the title becomes exactly the text, replacing an earlier one, and a centred text at (rel_x, rel_y) is appended |
| Projects.DecimalString | renovation/project.py:62 | `str(i)`: decimal digits with no leading zero |
| Projects.DecimalRoundTrip | renovation/project.py:62 | reading the digits back gives the index |
| Projects.PngName | renovation/project.py:62-64 | the title when it is non-empty, else `"<i>.png"`; `.png` appended iff the name does not end in `png`; every name ends in `png` |
| Projects.PngNameIdempotent | renovation/project.py:62-64 | applying the rule to its own output changes nothing |
| Projects.PngSuffixWithoutDot | renovation/project.py:63-64 | the test is on `png`, not `.png`: `floorpng` is kept, `floor` becomes `floor.png`, plan 12 without title is `12.png` |
| Projects.Project.constructor | renovation/project.py:19-35 | stores the plans and the dpi (default: the figure's own) |
| Projects.Project.RenderToPdf | renovation/project.py:37-48 | one page per plan, page i is plan i, every page at the stored dpi |
| Projects.Project.RenderToPng | renovation/project.py:50-65 | one file per plan in list order, file i named by the rule for plan i, every file at the stored dpi |

## Left out

- matplotlib itself: how rectangles, arcs, circles, plots and text are
  rendered, figure and axes creation, aspect ratio, tick and spine styling,
  grid opacity, `savefig` and `PdfPages`. Primitives are the constructor
  arguments; rendering methods record what was saved, where, at which dpi.
- `os.path.exists`, `os.mkdir` and `os.path.join` in `render_to_png`: the
  directory is kept as a field of each export.
- Floating point: all arithmetic is on reals; concrete sine and cosine and
  360° periodicity are not modelled beyond what `Trig.Sound()` states.
- The command-line entry point, configuration loading, the element registry
  and package re-exports, the legacy `renovation/elements.py`, the abstract
  `Element` base and packaging; `ElectricalCable`, `TextBox` and `Polygon`,
  whose source is not part of this model; `FloorPlan.add_element`, which the
  entry point calls but `renovation/floor_plan.py` does not define.
- Info.DrawDimensionArrow: the label carries the length as a number; the
  decimal formatting of `str(length)` for floats is not modelled.
- Lighting.DrawLEDStrip: when it fails, the source has already added the
  frame rectangle to the axes; the failure result does not carry it.
- FloorPlans.FloorPlan.constructor: it requires a non-zero scale
  denominator and non-zero grid steps; the failures for those inputs are
  stated by `FigureSize` and `GridFor`. matplotlib's own errors for a
  negative page size are not modelled.
- FloorPlans.Arange: numpy computes the tick count in floating point, which
  can give one tick more or fewer than the exact ceiling.
- FloorPlans.FloorPlan.AddTitle: the `**kwargs` style options forwarded to
  `fig.text` are not modelled.
- Projects.Project.RenderToPdf: the output path is recorded; writing the
  file is not modelled.
