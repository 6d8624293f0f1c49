/** Draw order: the flattened evaluated polygons are sorted by layer, lowest
    first, and each is handed to the canvas as a stroke or a fill. */
module Rendering {
  import opened Vectors
  import opened SceneGraph

  /** Lower layers come first. */
  predicate SortedByLayer(s: seq<EvaluatedPolygon>)
  {
    forall i, j :: 0 <= i < j < |s| ==> s[i].layer <= s[j].layer
  }

  /** The polygons of one layer, in the order they appear. */
  function OfLayer(s: seq<EvaluatedPolygon>, layer: int): seq<EvaluatedPolygon>
  {
    if s == [] then []
    else (if s[0].layer == layer then [s[0]] else []) + OfLayer(s[1..], layer)
  }

  /** `p` placed in front of the first polygon whose layer is not below its own. */
  function Insert(p: EvaluatedPolygon, s: seq<EvaluatedPolygon>): (r: seq<EvaluatedPolygon>)
    ensures |r| == |s| + 1
    ensures multiset(r) == multiset(s) + multiset{p}
  {
    if s == [] || p.layer <= s[0].layer then [p] + s
    else
      assert s == [s[0]] + s[1..];
      [s[0]] + Insert(p, s[1..])
  }

  /** Inserting a polygon no lower than `low` into a list no lower than
      `low` gives a list no lower than `low`. */
  lemma {:induction false} InsertAbove(p: EvaluatedPolygon, s: seq<EvaluatedPolygon>, low: int)
    requires low <= p.layer
    requires forall k :: 0 <= k < |s| ==> low <= s[k].layer
    ensures forall k :: 0 <= k < |Insert(p, s)| ==> low <= Insert(p, s)[k].layer
  {
    if s != [] && s[0].layer < p.layer {
      InsertAbove(p, s[1..], low);
    }
  }

  /** Inserting into a sorted list keeps it sorted. */
  lemma {:induction false} InsertSorted(p: EvaluatedPolygon, s: seq<EvaluatedPolygon>)
    requires SortedByLayer(s)
    ensures SortedByLayer(Insert(p, s))
  {
    if s != [] && s[0].layer < p.layer {
      InsertSorted(p, s[1..]);
      InsertAbove(p, s[1..], s[0].layer);
    }
  }

  /** The layer's sublist of a list with a polygon in front. */
  lemma OfLayerCons(x: EvaluatedPolygon, t: seq<EvaluatedPolygon>, layer: int)
    ensures OfLayer([x] + t, layer) == (if x.layer == layer then [x] else []) + OfLayer(t, layer)
  {
  }

  /** Inserting `p` puts it in front of every polygon of its own layer and
      leaves every layer's order otherwise as it was. */
  lemma {:induction false} InsertOfLayer(p: EvaluatedPolygon, s: seq<EvaluatedPolygon>, layer: int)
    ensures OfLayer(Insert(p, s), layer) == (if p.layer == layer then [p] else []) + OfLayer(s, layer)
  {
    if s == [] || p.layer <= s[0].layer {
      OfLayerCons(p, s, layer);
    } else {
      InsertOfLayer(p, s[1..], layer);
      OfLayerCons(s[0], Insert(p, s[1..]), layer);
    }
  }

  /** The `sort((a, b) => a.layer - b.layer)` of the render paths: a sort
      that takes polygons from the back of the list and inserts each in front
      of its layer. */
  function SortByLayer(s: seq<EvaluatedPolygon>): (r: seq<EvaluatedPolygon>)
    ensures |r| == |s|
    ensures multiset(r) == multiset(s)
    ensures SortedByLayer(r)
  {
    if s == [] then []
    else
      assert s == [s[0]] + s[1..];
      InsertSorted(s[0], SortByLayer(s[1..]));
      Insert(s[0], SortByLayer(s[1..]))
  }

  /** The sort is stable: the polygons of each layer keep the order the
      flattening found them in. */
  lemma {:induction false} SortByLayerStable(s: seq<EvaluatedPolygon>, layer: int)
    ensures OfLayer(SortByLayer(s), layer) == OfLayer(s, layer)
  {
    if s != [] {
      SortByLayerStable(s[1..], layer);
      InsertOfLayer(s[0], SortByLayer(s[1..]), layer);
    }
  }

  lemma {:induction false} OfLayerHolds(s: seq<EvaluatedPolygon>, p: EvaluatedPolygon)
    requires p in s
    ensures OfLayer(s, p.layer) != []
  {
    if s[0] != p {
      OfLayerHolds(s[1..], p);
    }
  }

  lemma {:induction false} OfLayerWithin(s: seq<EvaluatedPolygon>, layer: int, p: EvaluatedPolygon)
    requires p in OfLayer(s, layer)
    ensures p in s && p.layer == layer
  {
    if s[0] != p || s[0].layer != layer {
      OfLayerWithin(s[1..], layer, p);
    }
  }

  /** Sortedness and per-layer order pin the result down: any two sorted
      lists that agree layer by layer are equal. So whichever stable sort the
      engine runs, its result is `SortByLayer`'s. */
  lemma {:induction false} StableSortIsUnique(a: seq<EvaluatedPolygon>, b: seq<EvaluatedPolygon>)
    requires SortedByLayer(a) && SortedByLayer(b)
    requires forall layer :: OfLayer(a, layer) == OfLayer(b, layer)
    ensures a == b
    decreases |a| + |b|
  {
    if (a == []) != (b == []) {
      assert false;
    } else if a != [] {
      OfLayerHolds(a, a[0]);
      OfLayerHolds(b, b[0]);
      var fromA := OfLayer(b, a[0].layer);
      OfLayerWithin(b, a[0].layer, fromA[0]);
      var i :| 0 <= i < |b| && b[i] == fromA[0];
      var fromB := OfLayer(a, b[0].layer);
      OfLayerWithin(a, b[0].layer, fromB[0]);
      var j :| 0 <= j < |a| && a[j] == fromB[0];
      assert b[0].layer <= b[i].layer == a[0].layer <= a[j].layer == b[0].layer;
      assert a[0] == b[0];
      forall layer
        ensures OfLayer(a[1..], layer) == OfLayer(b[1..], layer)
      {
        var head := if a[0].layer == layer then [a[0]] else [];
        assert OfLayer(a, layer) == head + OfLayer(a[1..], layer);
        assert OfLayer(b, layer) == head + OfLayer(b[1..], layer);
        assert (head + OfLayer(a[1..], layer))[|head|..] == OfLayer(a[1..], layer);
        assert (head + OfLayer(b[1..], layer))[|head|..] == OfLayer(b[1..], layer);
      }
      StableSortIsUnique(a[1..], b[1..]);
      assert a == [a[0]] + a[1..];
      assert b == [b[0]] + b[1..];
    }
  }

  /** Polygons of layers 2, -1 and 0, found in that order, are drawn in the
      order -1, 0, 2. */
  lemma LayerOrderExample(first: EvaluatedPolygon, second: EvaluatedPolygon, third: EvaluatedPolygon)
    requires first.layer == 2 && second.layer == -1 && third.layer == 0
    ensures SortByLayer([first, second, third]) == [second, third, first]
  {
    assert SortByLayer([third]) == [third] by {
      assert [third][1..] == [];
    }
    assert SortByLayer([second, third]) == [second, third] by {
      assert [second, third][1..] == [third];
    }
    assert Insert(first, [third]) == [third, first] by {
      assert [third][1..] == [];
    }
    assert Insert(first, [second, third]) == [second, third, first] by {
      assert [second, third][1..] == [third];
    }
    assert [first, second, third][1..] == [second, third];
  }

  /** The polygons of the model in the order the render paths draw them. */
  function RenderList(conv: Conversions, s: Shape): (r: seq<EvaluatedPolygon>)
    ensures |r| == PolygonCount(s)
    ensures multiset(r) == multiset(Flatten(Evaluate(conv, s, None)))
    ensures SortedByLayer(r)
  {
    FlattenEvaluateMirrors(conv, s, None);
    SortByLayer(Flatten(Evaluate(conv, s, None)))
  }

  /** The render list holds every polygon of the tree exactly once, lowest
      layer first, and within a layer in pre-order. */
  lemma RenderListOrder(conv: Conversions, s: Shape)
    ensures |RenderList(conv, s)| == PolygonCount(s)
    ensures multiset(RenderList(conv, s)) == multiset(Flatten(Evaluate(conv, s, None)))
    ensures SortedByLayer(RenderList(conv, s))
    ensures forall layer :: OfLayer(RenderList(conv, s), layer) == OfLayer(Flatten(Evaluate(conv, s, None)), layer)
  {
    FlattenEvaluateMirrors(conv, s, None);
    forall layer
      ensures OfLayer(RenderList(conv, s), layer) == OfLayer(Flatten(Evaluate(conv, s, None)), layer)
    {
      SortByLayerStable(Flatten(Evaluate(conv, s, None)), layer);
    }
  }

  /** One call into the canvas helpers. */
  datatype DrawCall = Polyline(points: seq<Cartesian>, stroke: string) | FilledPolygon(points: seq<Cartesian>, fill: string)

  /** What `renderAll` draws for one polygon: a stroke when it is line-only,
      a fill otherwise, in its own colour and through its own points. */
  function DrawFor(p: EvaluatedPolygon): (c: DrawCall)
    ensures c.Polyline? <==> p.lineOnly
    ensures c.points == p.points
    ensures (if c.Polyline? then c.stroke else c.fill) == p.color
  {
    if p.lineOnly then Polyline(p.points, p.color) else FilledPolygon(p.points, p.color)
  }

  /** How many polygons of the list are drawn: `drawPolygon` and
      `drawPolyline` begin with `moveTo(...points[0])`, which throws for a
      polygon without points and so ends the `forEach` there. */
  function DrawnPrefix(polygons: seq<EvaluatedPolygon>): (n: nat)
    ensures n <= |polygons|
    ensures forall k :: 0 <= k < n ==> polygons[k].points != []
    ensures n < |polygons| ==> polygons[n].points == []
  {
    if polygons == [] || polygons[0].points == [] then 0 else 1 + DrawnPrefix(polygons[1..])
  }

  /** A list drawn to its end has points in every polygon, and only then. */
  lemma {:induction false} DrawnPrefixAll(polygons: seq<EvaluatedPolygon>)
    ensures DrawnPrefix(polygons) == |polygons| <==> forall k :: 0 <= k < |polygons| ==> polygons[k].points != []
  {
  }

  /** A permutation of a list that mirrors the authored polygons has a
      point-less polygon exactly when the authored list does. */
  lemma MirroredPointsPresent(authored: seq<Polygon>, flat: seq<EvaluatedPolygon>, list: seq<EvaluatedPolygon>)
    requires ListMirrors(authored, flat)
    requires multiset(list) == multiset(flat)
    ensures (forall m :: 0 <= m < |list| ==> list[m].points != [])
        <==> forall k :: 0 <= k < |authored| ==> authored[k].points != []
  {
    if forall k :: 0 <= k < |authored| ==> authored[k].points != [] {
      forall m | 0 <= m < |list|
        ensures list[m].points != []
      {
        assert list[m] in multiset(flat);
        var j :| 0 <= j < |flat| && flat[j] == list[m];
        assert PolygonMirrors(authored[j], flat[j]);
      }
    } else {
      var k :| 0 <= k < |authored| && authored[k].points == [];
      assert PolygonMirrors(authored[k], flat[k]);
      assert flat[k] in multiset(list);
      var m :| 0 <= m < |list| && list[m] == flat[k];
    }
  }

  /** The whole tree is drawn exactly when every authored polygon has a
      point; otherwise drawing stops at the first point-less polygon of the
      render list. */
  lemma RenderListDrawsAll(conv: Conversions, s: Shape)
    ensures DrawnPrefix(RenderList(conv, s)) == PolygonCount(s)
        <==> forall k :: 0 <= k < |AuthoredPolygons(s)| ==> AuthoredPolygons(s)[k].points != []
  {
    var list := RenderList(conv, s);
    FlattenEvaluateMirrors(conv, s, None);
    MirroredPointsPresent(AuthoredPolygons(s), Flatten(Evaluate(conv, s, None)), list);
    DrawnPrefixAll(list);
  }

  /** The `forEach` of `renderAll`: one call per polygon, in list order,
      until a polygon without points throws. */
  method StrokeOrFill(polygons: seq<EvaluatedPolygon>) returns (calls: seq<DrawCall>, threw: bool)
    ensures |calls| == DrawnPrefix(polygons)
    ensures threw <==> |calls| < |polygons|
    ensures forall k :: 0 <= k < |calls| ==> calls[k] == DrawFor(polygons[k])
  {
    calls := [];
    var i := 0;
    while i < |polygons|
      invariant 0 <= i <= |polygons|
      invariant |calls| == i
      invariant forall k :: 0 <= k < i ==> polygons[k].points != []
      invariant forall k :: 0 <= k < i ==> calls[k] == DrawFor(polygons[k])
    {
      if polygons[i].points == [] {
        return calls, true;
      }
      calls := calls + [DrawFor(polygons[i])];
      i := i + 1;
    }
    threw := false;
  }

  /** `Shape.renderAll`: evaluates, flattens and sorts the tree, then issues
      one draw call per polygon in that order, stopping with a throw at the
      first polygon without points. */
  method RenderAll(conv: Conversions, s: Shape) returns (calls: seq<DrawCall>, threw: bool)
    ensures |calls| == DrawnPrefix(RenderList(conv, s))
    ensures threw <==> |calls| < PolygonCount(s)
    ensures forall k :: 0 <= k < |calls| ==> calls[k] == DrawFor(RenderList(conv, s)[k])
  {
    var evaluated := EvaluateShape(conv, s, None);
    var flat := GetEvaluatedPolygons(evaluated);
    var polygons := SortByLayer(flat);
    calls, threw := StrokeOrFill(polygons);
  }

  /** The `forEach` of `renderShapes`: one fill per polygon, in list order,
      its points sent through `project`, until a polygon without points
      throws. */
  method FillProjected(project: Cartesian -> Cartesian, polygons: seq<EvaluatedPolygon>) returns (calls: seq<DrawCall>, threw: bool)
    ensures |calls| == DrawnPrefix(polygons)
    ensures threw <==> |calls| < |polygons|
    ensures forall k :: 0 <= k < |calls| ==>
      calls[k] == FilledPolygon(MapPoints(project, polygons[k].points), polygons[k].color)
  {
    calls := [];
    var i := 0;
    while i < |polygons|
      invariant 0 <= i <= |polygons|
      invariant |calls| == i
      invariant forall k :: 0 <= k < i ==> polygons[k].points != []
      invariant forall k :: 0 <= k < i ==> calls[k] == FilledPolygon(MapPoints(project, polygons[k].points), polygons[k].color)
    {
      var points := MapPoints(project, polygons[i].points);
      if points == [] {
        return calls, true;
      }
      calls := calls + [FilledPolygon(points, polygons[i].color)];
      i := i + 1;
    }
    threw := false;
  }

  /** `Camera.renderShapes`: the same order as `renderAll`, every point sent
      through the camera's `realToCanvas` (`project`), and every polygon
      filled, line-only ones included; a polygon without points throws. */
  method RenderShapes(conv: Conversions, project: Cartesian -> Cartesian, s: Shape) returns (calls: seq<DrawCall>, threw: bool)
    ensures |calls| == DrawnPrefix(RenderList(conv, s))
    ensures threw <==> |calls| < PolygonCount(s)
    ensures forall k :: 0 <= k < |calls| ==>
      calls[k] == FilledPolygon(MapPoints(project, RenderList(conv, s)[k].points), RenderList(conv, s)[k].color)
  {
    var evaluated := EvaluateShape(conv, s, None);
    var flat := GetEvaluatedPolygons(evaluated);
    var polygons := SortByLayer(flat);
    calls, threw := FillProjected(project, polygons);
  }
}
