/** Plane vectors of the scene graph: Cartesian points, polar offsets, and the
    rotation of an offset through its polar form. Every operation returns a
    new value; the receiver is never changed. */
module Vectors {

  /** A point or offset `{x, y}`. */
  datatype Cartesian = Cartesian(x: real, y: real)

  /** A polar offset `{angle, radius}`, the angle in radians. */
  datatype Polar = Polar(angle: real, radius: real)

  /** The argument forms the `Cartesian` constructor accepts: a number (the
      second coordinate then comes separately), an `[x, y]` pair, or an object
      carrying `x` and `y` (a plain record or another `Cartesian`). */
  datatype Coords = Scalar(value: real) | Pair(first: real, second: real) | Point(point: Cartesian)

  /** `new Cartesian(coords, y)`: the second argument only matters for a number. */
  function FromCoords(coords: Coords, y: real): (c: Cartesian)
    ensures coords.Scalar? ==> c.x == coords.value && c.y == y
    ensures coords.Pair? ==> c.x == coords.first && c.y == coords.second
    ensures coords.Point? ==> c == coords.point
  {
    match coords
    case Scalar(v) => Cartesian(v, y)
    case Pair(a, b) => Cartesian(a, b)
    case Point(p) => Cartesian(p.x, p.y)
  }

  /** `Cartesian.transform`: translation of `p` by the offset the arguments denote. */
  function Transform(p: Cartesian, coords: Coords, y: real): (r: Cartesian)
    ensures r.x == p.x + FromCoords(coords, y).x
    ensures r.y == p.y + FromCoords(coords, y).y
  {
    var offset := FromCoords(coords, y);
    Cartesian(p.x + offset.x, p.y + offset.y)
  }

  /** Translating by an offset and then by its opposite gives back the point. */
  lemma TransformUndone(p: Cartesian, d: Cartesian)
    ensures Transform(Transform(p, Point(d), 0.0), Point(Cartesian(-d.x, -d.y)), 0.0) == p
  {
  }

  /** Translations compose by adding their offsets, in either order. */
  lemma TransformComposes(p: Cartesian, d: Cartesian, e: Cartesian)
    ensures Transform(Transform(p, Point(d), 0.0), Point(e), 0.0)
         == Transform(p, Point(Cartesian(d.x + e.x, d.y + e.y)), 0.0)
         == Transform(Transform(p, Point(e), 0.0), Point(d), 0.0)
  {
  }

  /** `Polar.rotate`: turns the offset by `angle`; its length is kept. */
  function Rotate(p: Polar, angle: real): (r: Polar)
    ensures r.angle == p.angle + angle
    ensures r.radius == p.radius
  {
    Polar(p.angle + angle, p.radius)
  }

  /** `Polar.scale`: stretches the offset by `scalar`; its direction is kept. */
  function Scale(p: Polar, scalar: real): (r: Polar)
    ensures r.angle == p.angle
    ensures r.radius == p.radius * scalar
  {
    Polar(p.angle, p.radius * scalar)
  }

  /** Rotations compose by adding angles, which is what lets the evaluation
      engine accumulate a parent's rotation by plain addition. */
  lemma RotateComposes(p: Polar, a: real, b: real)
    ensures Rotate(Rotate(p, a), b) == Rotate(p, a + b)
  {
  }

  /** Rotating by `a` and then by `-a` gives back the offset. */
  lemma RotateUndone(p: Polar, a: real)
    ensures Rotate(Rotate(p, a), -a) == p
  {
  }

  /** Scaling and rotating act on different components, so they commute. */
  lemma RotateScaleCommute(p: Polar, angle: real, scalar: real)
    ensures Rotate(Scale(p, scalar), angle) == Scale(Rotate(p, angle), scalar)
  {
  }

  /** The two trigonometric conversions, `Cartesian.TOPOLAR` (atan2 and the
      hypotenuse) and `Polar.TOCARTESIAN` (cos and sin). They are parameters
      of the model: nothing is assumed about them. */
  datatype Conversions = Conversions(toPolar: Cartesian -> Polar, toCartesian: Polar -> Cartesian)

  /** `Polar.TOCARTESIAN(Cartesian.TOPOLAR(p).rotate(angle))`: the offset `p`
      turned by `angle` about the origin. */
  function RotateVec(conv: Conversions, p: Cartesian, angle: real): (r: Cartesian)
    ensures r == conv.toCartesian(Polar(conv.toPolar(p).angle + angle, conv.toPolar(p).radius))
    ensures angle == 0.0 ==> r == conv.toCartesian(conv.toPolar(p))
  {
    conv.toCartesian(Rotate(conv.toPolar(p), angle))
  }

  /** `points.map(f)`: each point of the list sent through `f`, in order. */
  function MapPoints(f: Cartesian -> Cartesian, points: seq<Cartesian>): (r: seq<Cartesian>)
    ensures |r| == |points|
    ensures forall i :: 0 <= i < |points| ==> r[i] == f(points[i])
  {
    if points == [] then [] else [f(points[0])] + MapPoints(f, points[1..])
  }

  /** `inRange`: whether `x` lies strictly between the two bounds. */
  function InRange(min: real, x: real, max: real): (b: bool)
    ensures b <==> min < x && x < max
    ensures b ==> min < max
  {
    min < x && x < max
  }
}
