/**
  The geometry kernel shared by every element: points, offsets along an
  angle given in degrees, and the rotation matrix.

  Concrete sine and cosine are not available, so every drawing is
  parametric in a `Trig` value: `dir(a)` is (cos a, sin a) for an angle
  `a` in degrees, and `sqrt2`, `sqrt3` stand for the square roots the
  elements use. The identities a property relies on are collected in
  `Trig.Sound()`, which the lemmas that need them require.
*/
module Geometry {

  /** A point or a displacement, in meters. */
  datatype Vec = Vec(x: real, y: real)

  type PosReal = r: real | r > 0.0 witness 1.0

  /** `STRAIGHT_ANGLE_IN_DEGREES`; its uses (a half-circle arc of twice this
      angle, a door swing of this angle plus two degrees) show it is 90. */
  const STRAIGHT_ANGLE: real := 90.0
  /** `RIGHT_ANGLE_IN_DEGREES`. */
  const RIGHT_ANGLE: real := 90.0

  datatype Trig = Trig(dir: real -> Vec, sqrt2: PosReal, sqrt3: PosReal) {

    function Cos(degrees: real): real { dir(degrees).x }

    function Sin(degrees: real): real { dir(degrees).y }

    /** The facts about cos, sin and the square roots that the proofs use. */
    ghost predicate Sound() {
      && (forall a {:trigger dir(a)} :: dir(a).x * dir(a).x + dir(a).y * dir(a).y == 1.0)
      && (forall a, b {:trigger dir(a), dir(b)} :: b == a + 90.0 ==> dir(b) == Perp(dir(a)))
      && dir(0.0) == Vec(1.0, 0.0)
      && sqrt2 * sqrt2 == 2.0
      && sqrt3 * sqrt3 == 3.0
    }
  }

  function Add(p: Vec, q: Vec): Vec { Vec(p.x + q.x, p.y + q.y) }

  function Sub(p: Vec, q: Vec): Vec { Vec(p.x - q.x, p.y - q.y) }

  function Scale(k: real, v: Vec): Vec { Vec(k * v.x, k * v.y) }

  function Dot(p: Vec, q: Vec): real { p.x * q.x + p.y * q.y }

  /** The vector turned a quarter turn counter-clockwise. */
  function Perp(v: Vec): Vec { Vec(-v.y, v.x) }

  function Midpoint(p: Vec, q: Vec): Vec { Vec((p.x + q.x) / 2.0, (p.y + q.y) / 2.0) }

  /** Squared Euclidean distance. */
  function Dist2(p: Vec, q: Vec): real { Dot(Sub(q, p), Sub(q, p)) }

  /** The mirror image of `p` across the line through `m` with unit normal `n`. */
  function Reflect(p: Vec, m: Vec, n: Vec): Vec {
    Sub(p, Scale(2.0 * Dot(Sub(p, m), n), n))
  }

  /** The point `distance` away from `origin` in the direction `degrees`:
      origin + distance * (cos, sin). */
  function Polar(tr: Trig, origin: Vec, distance: real, degrees: real): (r: Vec)
    ensures Sub(r, origin) == Scale(distance, tr.dir(degrees))
  {
    Vec(origin.x + distance * tr.Cos(degrees), origin.y + distance * tr.Sin(degrees))
  }

  /** The rotation matrix [[cos, -sin], [sin, cos]] applied to `v`. */
  function Rotate(tr: Trig, degrees: real, v: Vec): (r: Vec)
    ensures r == Add(Scale(v.x, tr.dir(degrees)), Scale(v.y, Perp(tr.dir(degrees))))
  {
    Vec(tr.Cos(degrees) * v.x - tr.Sin(degrees) * v.y,
        tr.Sin(degrees) * v.x + tr.Cos(degrees) * v.y)
  }

  /** A displacement of `k` along a unit direction has squared length k^2. */
  lemma ScaledUnit(k: real, d: Vec)
    requires Dot(d, d) == 1.0
    ensures Dot(Scale(k, d), Scale(k, d)) == k * k
  {
    calc {
      Dot(Scale(k, d), Scale(k, d));
      (k * d.x) * (k * d.x) + (k * d.y) * (k * d.y);
      k * k * (d.x * d.x + d.y * d.y);
    }
  }

  /** Two unit directions at right angles to each other. */
  predicate Orthonormal(d: Vec, e: Vec) {
    Dot(d, d) == 1.0 && Dot(e, e) == 1.0 && Dot(d, e) == 0.0
  }

  /** Coordinates in an orthonormal frame are read back by dot products. */
  lemma FrameCoordinates(d: Vec, e: Vec, a: real, b: real)
    requires Orthonormal(d, e)
    ensures Dot(Add(Scale(a, d), Scale(b, e)), d) == a
    ensures Dot(Add(Scale(a, d), Scale(b, e)), e) == b
  {
    calc {
      Dot(Add(Scale(a, d), Scale(b, e)), d);
      a * Dot(d, d) + b * Dot(e, d);
    }
    calc {
      Dot(Add(Scale(a, d), Scale(b, e)), e);
      a * Dot(d, e) + b * Dot(e, e);
    }
  }

  /** A point `b` along the normal from the mirror line is moved `2b` back across it. */
  lemma ReflectAcross(p: Vec, m: Vec, d: Vec, n: Vec, a: real, b: real)
    requires Orthonormal(d, n)
    requires Sub(p, m) == Add(Scale(a, d), Scale(b, n))
    ensures Reflect(p, m, n) == Sub(p, Scale(2.0 * b, n))
  {
    FrameCoordinates(d, n, a, b);
  }

  /** `Polar` moves exactly `distance` away from its origin. */
  lemma PolarDistance(tr: Trig, origin: Vec, distance: real, degrees: real)
    requires tr.Sound()
    ensures Dist2(origin, Polar(tr, origin, distance, degrees)) == distance * distance
  {
    var d := tr.dir(degrees);
    assert Dot(d, d) == 1.0;
    ScaledUnit(distance, d);
  }

  /** The quarter-turn identity of `Sound()`, restated for one angle, and the
      orthogonality of directions a quarter turn apart, derived from it. */
  lemma QuarterTurnOrthogonal(tr: Trig, a: real)
    requires tr.Sound()
    ensures tr.dir(a + 90.0) == Perp(tr.dir(a))
    ensures Dot(tr.dir(a), tr.dir(a + 90.0)) == 0.0
    ensures Orthonormal(tr.dir(a), tr.dir(a + 90.0))
  {
    var d := tr.dir(a);
    assert tr.dir(a + 90.0) == Perp(d);
  }

  /** (sin a, -cos a) is the direction a - 90 degrees. */
  lemma QuarterTurnBack(tr: Trig, a: real)
    requires tr.Sound()
    ensures tr.dir(a - 90.0) == Vec(tr.Sin(a), -tr.Cos(a))
  {
    var b := a - 90.0;
    assert tr.dir(b + 90.0) == Perp(tr.dir(b));
    assert b + 90.0 == a;
  }

  /** Rotation preserves the distance to the origin. */
  lemma RotateIsometry(tr: Trig, degrees: real, v: Vec)
    requires tr.Sound()
    ensures Dot(Rotate(tr, degrees, v), Rotate(tr, degrees, v)) == Dot(v, v)
  {
    var c, s := tr.Cos(degrees), tr.Sin(degrees);
    assert c * c + s * s == 1.0;
    calc {
      Dot(Rotate(tr, degrees, v), Rotate(tr, degrees, v));
      (c * v.x - s * v.y) * (c * v.x - s * v.y) + (s * v.x + c * v.y) * (s * v.x + c * v.y);
      (c * c + s * s) * (v.x * v.x) + (c * c + s * s) * (v.y * v.y);
      Dot(v, v);
    }
  }

  /** At angle 0 the rotation is the identity. */
  lemma RotateZero(tr: Trig, v: Vec)
    requires tr.Sound()
    ensures Rotate(tr, 0.0, v) == v
  {
  }
}
