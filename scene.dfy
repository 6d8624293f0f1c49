/** The authoring tree (`Shape`, `Polygon`), the evaluation engine that turns
    it into a world-space tree, and the flattening of that tree into one list
    of polygons. */
module SceneGraph {
  import opened Vectors

  datatype Option<T> = None | Some(value: T)

  /** An authored polygon: points in the owning shape's local frame. */
  datatype Polygon = Polygon(points: seq<Cartesian>, color: string, layer: int, lineOnly: bool)

  /** An authored shape: origin and rotation relative to its parent, owned
      polygons and owned child shapes, both in order. */
  datatype Shape = Shape(
    name: string,
    origin: Cartesian,
    rotation: real,
    root: bool,
    polygons: seq<Polygon>,
    shapes: seq<Shape>)

  /** The inherited state `{position, rotation}` handed from parent to child. */
  datatype State = State(position: Cartesian, rotation: real)

  /** A polygon with world-space points. */
  datatype EvaluatedPolygon = EvaluatedPolygon(points: seq<Cartesian>, color: string, layer: int, lineOnly: bool)

  /** A shape with world-space origin and accumulated rotation. */
  datatype EvaluatedShape = EvaluatedShape(
    name: string,
    root: bool,
    origin: Cartesian,
    rotation: real,
    shapes: seq<EvaluatedShape>,
    polygons: seq<EvaluatedPolygon>)

  // ---------------------------------------------------------------------------
  // Construction

  /** `new Shape(name, origin, polygons, shapes)`: a root with no rotation,
      its origin converted by `new Cartesian(origin)`, whose children have all
      been marked as non-root. */
  function NewShape(name: string, origin: Coords, polygons: seq<Polygon>, shapes: seq<Shape>): (s: Shape)
    ensures s.root && s.rotation == 0.0
    ensures s.name == name && s.origin == FromCoords(origin, 0.0) && s.polygons == polygons
    ensures |s.shapes| == |shapes|
    ensures forall i :: 0 <= i < |shapes| ==> s.shapes[i] == shapes[i].(root := false)
  {
    Shape(name, FromCoords(origin, 0.0), 0.0, true, polygons,
          seq(|shapes|, i requires 0 <= i < |shapes| => shapes[i].(root := false)))
  }

  predicate DescendantsNonRoot(s: Shape)
    decreases s
  {
    forall i :: 0 <= i < |s.shapes| ==> !s.shapes[i].root && DescendantsNonRoot(s.shapes[i])
  }

  /** Built bottom-up with the constructor, a tree has exactly one root flag
      set: the top shape's. */
  lemma NewShapeMarksTree(name: string, origin: Coords, polygons: seq<Polygon>, shapes: seq<Shape>)
    requires forall i :: 0 <= i < |shapes| ==> DescendantsNonRoot(shapes[i])
    ensures NewShape(name, origin, polygons, shapes).root
    ensures DescendantsNonRoot(NewShape(name, origin, polygons, shapes))
  {
  }

  // ---------------------------------------------------------------------------
  // Evaluation

  /** A local point carried into the frame `state`: turned by the frame's
      rotation, then translated by its position. */
  function Place(conv: Conversions, state: State, p: Cartesian): Cartesian
  {
    Transform(state.position, Point(RotateVec(conv, p, state.rotation)), 0.0)
  }

  /** The adjusted state of `Shape.evaluate`: the shape's own frame at a root
      call, otherwise its origin placed in the inherited frame and the two
      rotations added. */
  function Adjust(conv: Conversions, s: Shape, state: Option<State>): (a: State)
    ensures state.None? ==> a.position == s.origin && a.rotation == s.rotation
    ensures state.Some? ==> a.rotation == state.value.rotation + s.rotation
    ensures state.Some? ==>
      var turned := RotateVec(conv, s.origin, state.value.rotation);
      a.position == Cartesian(state.value.position.x + turned.x, state.value.position.y + turned.y)
  {
    match state
    case None => State(s.origin, s.rotation)
    case Some(inherited) => State(Place(conv, inherited, s.origin), inherited.rotation + s.rotation)
  }

  /** `Polygon.evaluate`: the same points in the same order, each carried into
      the frame; colour, layer and stroke flag copied. */
  function EvaluatePolygon(conv: Conversions, p: Polygon, state: State): (r: EvaluatedPolygon)
    ensures |r.points| == |p.points|
    ensures forall i :: 0 <= i < |p.points| ==> r.points[i] == Place(conv, state, p.points[i])
    ensures r.color == p.color && r.layer == p.layer && r.lineOnly == p.lineOnly
  {
    EvaluatedPolygon(MapPoints(q => Place(conv, state, q), p.points), p.color, p.layer, p.lineOnly)
  }

  /** `Shape.evaluate` as a function: the evaluated tree of `s`. */
  function Evaluate(conv: Conversions, s: Shape, state: Option<State>): (e: EvaluatedShape)
    ensures e.name == s.name && e.root == s.root
    ensures |e.polygons| == |s.polygons| && |e.shapes| == |s.shapes|
    decreases s
  {
    var adjusted := Adjust(conv, s, state);
    EvaluatedShape(
      s.name, s.root, adjusted.position, adjusted.rotation,
      seq(|s.shapes|, i requires 0 <= i < |s.shapes| => Evaluate(conv, s.shapes[i], Some(adjusted))),
      seq(|s.polygons|, i requires 0 <= i < |s.polygons| => EvaluatePolygon(conv, s.polygons[i], adjusted)))
  }

  /** `Shape.evaluate`: starts an empty result and pushes each evaluated
      polygon, then each evaluated child, in list order. */
  method EvaluateShape(conv: Conversions, s: Shape, state: Option<State>) returns (r: EvaluatedShape)
    ensures r == Evaluate(conv, s, state)
    decreases s
  {
    var adjusted := Adjust(conv, s, state);
    var polygons: seq<EvaluatedPolygon> := [];
    var i := 0;
    while i < |s.polygons|
      invariant 0 <= i <= |s.polygons|
      invariant |polygons| == i
      invariant forall k :: 0 <= k < i ==> polygons[k] == EvaluatePolygon(conv, s.polygons[k], adjusted)
    {
      polygons := polygons + [EvaluatePolygon(conv, s.polygons[i], adjusted)];
      i := i + 1;
    }
    var shapes: seq<EvaluatedShape> := [];
    i := 0;
    while i < |s.shapes|
      invariant 0 <= i <= |s.shapes|
      invariant |shapes| == i
      invariant forall k :: 0 <= k < i ==> shapes[k] == Evaluate(conv, s.shapes[k], Some(adjusted))
    {
      var child := EvaluateShape(conv, s.shapes[i], Some(adjusted));
      shapes := shapes + [child];
      i := i + 1;
    }
    r := EvaluatedShape(s.name, s.root, adjusted.position, adjusted.rotation, shapes, polygons);
  }

  /** The frame an evaluated shape hands to its children. */
  function FrameOf(e: EvaluatedShape): State
  {
    State(e.origin, e.rotation)
  }

  /** Where the evaluated shape sits: its own origin and rotation at a root
      call; otherwise its origin placed in the inherited frame and the
      inherited rotation added to its own. Every owned polygon and child is
      evaluated in the frame the evaluated shape reports. */
  lemma EvaluateFrame(conv: Conversions, s: Shape, state: Option<State>)
    ensures var e := Evaluate(conv, s, state);
      && (state.None? ==> e.origin == s.origin && e.rotation == s.rotation)
      && (state.Some? ==>
            e.origin == Place(conv, state.value, s.origin) && e.rotation == state.value.rotation + s.rotation)
      && (forall i :: 0 <= i < |s.polygons| ==> e.polygons[i] == EvaluatePolygon(conv, s.polygons[i], FrameOf(e)))
      && (forall i :: 0 <= i < |s.shapes| ==> e.shapes[i] == Evaluate(conv, s.shapes[i], Some(FrameOf(e))))
  {
  }

  /** An evaluated polygon mirrors its authored polygon. */
  predicate PolygonMirrors(p: Polygon, q: EvaluatedPolygon)
  {
    |q.points| == |p.points| && q.color == p.color && q.layer == p.layer && q.lineOnly == p.lineOnly
  }

  /** An evaluated tree mirrors an authored tree: same names and root flags,
      as many polygons and children at every node, pairwise mirrored. */
  predicate Mirrors(s: Shape, e: EvaluatedShape)
    decreases s
  {
    && e.name == s.name
    && e.root == s.root
    && |e.polygons| == |s.polygons|
    && |e.shapes| == |s.shapes|
    && (forall i :: 0 <= i < |s.polygons| ==> PolygonMirrors(s.polygons[i], e.polygons[i]))
    && (forall i :: 0 <= i < |s.shapes| ==> Mirrors(s.shapes[i], e.shapes[i]))
  }

  /** Evaluation keeps the shape of the tree and the attributes at every node. */
  lemma {:induction false} EvaluateMirrors(conv: Conversions, s: Shape, state: Option<State>)
    ensures Mirrors(s, Evaluate(conv, s, state))
    decreases s
  {
    var adjusted := Adjust(conv, s, state);
    var e := Evaluate(conv, s, state);
    forall i | 0 <= i < |s.shapes|
      ensures Mirrors(s.shapes[i], e.shapes[i])
    {
      EvaluateMirrors(conv, s.shapes[i], Some(adjusted));
    }
  }

  // ---------------------------------------------------------------------------
  // Paths into the tree

  /** `path` names a node of `s` by the child index taken at each level. */
  predicate ValidPath(s: Shape, path: seq<int>)
    decreases |path|
  {
    path == [] || (0 <= path[0] < |s.shapes| && ValidPath(s.shapes[path[0]], path[1..]))
  }

  /** The authored node that `path` names. */
  function ShapeAt(s: Shape, path: seq<int>): Shape
    requires ValidPath(s, path)
    decreases |path|
  {
    if path == [] then s else ShapeAt(s.shapes[path[0]], path[1..])
  }

  /** The evaluated node that `path` names, if there is one. */
  function EvaluatedAt(e: EvaluatedShape, path: seq<int>): Option<EvaluatedShape>
    decreases |path|
  {
    if path == [] then Some(e)
    else if 0 <= path[0] < |e.shapes| then EvaluatedAt(e.shapes[path[0]], path[1..])
    else None
  }

  /** The sum of the authored rotations from `s` down to the node `path` names. */
  function RotationAlong(s: Shape, path: seq<int>): real
    requires ValidPath(s, path)
    decreases |path|
  {
    if path == [] then s.rotation else s.rotation + RotationAlong(s.shapes[path[0]], path[1..])
  }

  /** The rotation a frame passes down; a root call inherits none. */
  function InheritedRotation(state: Option<State>): real
  {
    if state.Some? then state.value.rotation else 0.0
  }

  /** Rotation accumulates by addition: the node at `path` of the evaluated
      tree exists, carries the authored node's name, and its rotation is the
      inherited rotation plus every authored rotation on the way down. */
  lemma {:induction false} EvaluateAccumulatesRotation(conv: Conversions, s: Shape, state: Option<State>, path: seq<int>)
    requires ValidPath(s, path)
    ensures EvaluatedAt(Evaluate(conv, s, state), path).Some?
    ensures EvaluatedAt(Evaluate(conv, s, state), path).value.name == ShapeAt(s, path).name
    ensures EvaluatedAt(Evaluate(conv, s, state), path).value.rotation
         == InheritedRotation(state) + RotationAlong(s, path)
    decreases |path|
  {
    if path != [] {
      var adjusted := Adjust(conv, s, state);
      EvaluateAccumulatesRotation(conv, s.shapes[path[0]], Some(adjusted), path[1..]);
    }
  }

  // ---------------------------------------------------------------------------
  // Flattening

  /** The concatenation of a list of lists, in order. */
  function Concat<T>(xs: seq<seq<T>>): seq<T>
  {
    if xs == [] then [] else Concat(xs[..|xs| - 1]) + xs[|xs| - 1]
  }

  /** An element lies in the concatenation exactly when it lies in one of the parts. */
  lemma {:induction false} ConcatContains<T>(xs: seq<seq<T>>, x: T)
    ensures x in Concat(xs) <==> exists i :: 0 <= i < |xs| && x in xs[i]
  {
    if xs != [] {
      var init := xs[..|xs| - 1];
      ConcatContains(init, x);
      if x in Concat(xs) && x !in xs[|xs| - 1] {
        var i :| 0 <= i < |init| && x in init[i];
        assert x in xs[i];
      }
      if exists i :: 0 <= i < |xs| && x in xs[i] {
        var i :| 0 <= i < |xs| && x in xs[i];
        if i < |xs| - 1 {
          assert x in init[i];
        }
      }
    }
  }

  /** The sum of a list of counts. */
  function Sum(ns: seq<nat>): nat
  {
    if ns == [] then 0 else Sum(ns[..|ns| - 1]) + ns[|ns| - 1]
  }

  /** Concatenation adds up the lengths of the parts. */
  lemma {:induction false} ConcatLength<T>(xs: seq<seq<T>>, ns: seq<nat>)
    requires |xs| == |ns|
    requires forall i :: 0 <= i < |xs| ==> |xs[i]| == ns[i]
    ensures |Concat(xs)| == Sum(ns)
  {
    if xs != [] {
      ConcatLength(xs[..|xs| - 1], ns[..|ns| - 1]);
    }
  }

  /** `Shape.GETEVALUATEDPOLYGONS` as a function: the shape's own polygons,
      then the flattening of each child in list order (pre-order). */
  function Flatten(e: EvaluatedShape): (r: seq<EvaluatedPolygon>)
    ensures |e.polygons| <= |r| && r[..|e.polygons|] == e.polygons
    decreases e
  {
    e.polygons + Concat(seq(|e.shapes|, i requires 0 <= i < |e.shapes| => Flatten(e.shapes[i])))
  }

  /** `Shape.GETEVALUATEDPOLYGONS`: starts from the shape's own polygons and
      appends each child's flattening, one child at a time. */
  method GetEvaluatedPolygons(e: EvaluatedShape) returns (r: seq<EvaluatedPolygon>)
    ensures r == Flatten(e)
    decreases e
  {
    ghost var parts := seq(|e.shapes|, i requires 0 <= i < |e.shapes| => Flatten(e.shapes[i]));
    r := e.polygons;
    var i := 0;
    while i < |e.shapes|
      invariant 0 <= i <= |e.shapes|
      invariant r == e.polygons + Concat(parts[..i])
    {
      var sub := GetEvaluatedPolygons(e.shapes[i]);
      assert parts[..i + 1][..i] == parts[..i];
      r := r + sub;
      i := i + 1;
    }
    assert parts[..|e.shapes|] == parts;
  }

  /** `p` is one of the polygons of the node that `path` names. */
  predicate OwnedAt(e: EvaluatedShape, path: seq<int>, p: EvaluatedPolygon)
    decreases |path|
  {
    if path == [] then p in e.polygons
    else 0 <= path[0] < |e.shapes| && OwnedAt(e.shapes[path[0]], path[1..], p)
  }

  /** The flattening holds exactly the polygons owned somewhere in the tree. */
  lemma {:induction false} FlattenHoldsTreePolygons(e: EvaluatedShape, p: EvaluatedPolygon)
    ensures p in Flatten(e) <==> exists path :: OwnedAt(e, path, p)
    decreases e
  {
    var parts := seq(|e.shapes|, i requires 0 <= i < |e.shapes| => Flatten(e.shapes[i]));
    assert Flatten(e) == e.polygons + Concat(parts);
    ConcatContains(parts, p);
    if p in Flatten(e) {
      if p in e.polygons {
        assert OwnedAt(e, [], p);
      } else {
        var i :| 0 <= i < |parts| && p in parts[i];
        FlattenHoldsTreePolygons(e.shapes[i], p);
        var sub :| OwnedAt(e.shapes[i], sub, p);
        assert ([i] + sub)[1..] == sub;
        assert OwnedAt(e, [i] + sub, p);
      }
      assert exists path :: OwnedAt(e, path, p);
    }
    if exists path :: OwnedAt(e, path, p) {
      var path :| OwnedAt(e, path, p);
      if path != [] {
        var i := path[0];
        assert OwnedAt(e.shapes[i], path[1..], p);
        FlattenHoldsTreePolygons(e.shapes[i], p);
        assert exists q :: OwnedAt(e.shapes[i], q, p);
        assert p in Flatten(e.shapes[i]);
        assert p in parts[i];
        assert p in Concat(parts);
      } else {
        assert p in e.polygons;
      }
      assert p in Flatten(e);
    }
  }

  /** The number of polygons authored anywhere in the tree. */
  function PolygonCount(s: Shape): nat
    decreases s
  {
    |s.polygons| + Sum(seq(|s.shapes|, i requires 0 <= i < |s.shapes| => PolygonCount(s.shapes[i])))
  }

  /** The authored polygons of the tree in pre-order. */
  function AuthoredPolygons(s: Shape): seq<Polygon>
    decreases s
  {
    s.polygons + Concat(seq(|s.shapes|, i requires 0 <= i < |s.shapes| => AuthoredPolygons(s.shapes[i])))
  }

  /** Two polygon lists mirror each other position by position. */
  predicate ListMirrors(ps: seq<Polygon>, qs: seq<EvaluatedPolygon>)
  {
    |qs| == |ps| && forall k :: 0 <= k < |ps| ==> PolygonMirrors(ps[k], qs[k])
  }

  lemma ListMirrorsAppend(ps: seq<Polygon>, qs: seq<EvaluatedPolygon>, ps': seq<Polygon>, qs': seq<EvaluatedPolygon>)
    requires ListMirrors(ps, qs) && ListMirrors(ps', qs')
    ensures ListMirrors(ps + ps', qs + qs')
  {
  }

  lemma {:induction false} ConcatMirrors(xs: seq<seq<Polygon>>, ys: seq<seq<EvaluatedPolygon>>)
    requires |xs| == |ys|
    requires forall i :: 0 <= i < |xs| ==> ListMirrors(xs[i], ys[i])
    ensures ListMirrors(Concat(xs), Concat(ys))
  {
    if xs != [] {
      ConcatMirrors(xs[..|xs| - 1], ys[..|ys| - 1]);
      ListMirrorsAppend(Concat(xs[..|xs| - 1]), Concat(ys[..|ys| - 1]), xs[|xs| - 1], ys[|ys| - 1]);
    }
  }

  /** Flattening the evaluated tree lists one evaluated polygon per authored
      polygon, in the same pre-order, each mirroring its authored polygon;
      so its length is the tree's polygon count. */
  lemma {:induction false} FlattenEvaluateMirrors(conv: Conversions, s: Shape, state: Option<State>)
    ensures |AuthoredPolygons(s)| == PolygonCount(s)
    ensures |Flatten(Evaluate(conv, s, state))| == PolygonCount(s)
    ensures ListMirrors(AuthoredPolygons(s), Flatten(Evaluate(conv, s, state)))
    decreases s
  {
    var adjusted := Adjust(conv, s, state);
    var e := Evaluate(conv, s, state);
    var authored := seq(|s.shapes|, i requires 0 <= i < |s.shapes| => AuthoredPolygons(s.shapes[i]));
    var flattened := seq(|e.shapes|, i requires 0 <= i < |e.shapes| => Flatten(e.shapes[i]));
    var counts := seq(|s.shapes|, i requires 0 <= i < |s.shapes| => PolygonCount(s.shapes[i]));
    forall i | 0 <= i < |s.shapes|
      ensures |authored[i]| == counts[i] && ListMirrors(authored[i], flattened[i])
    {
      FlattenEvaluateMirrors(conv, s.shapes[i], Some(adjusted));
    }
    ConcatLength(authored, counts);
    ConcatMirrors(authored, flattened);
    assert ListMirrors(s.polygons, e.polygons);
    ListMirrorsAppend(s.polygons, e.polygons, Concat(authored), Concat(flattened));
  }
}
