# polydraw scene graph and key handlers in Dafny

This project models the core of polydraw's `draw/draw.ts`.

- **Vectors** (`vectors.dfy`): the `Cartesian` and `Polar` value types.
  - `Cartesian.transform` is a vector add. `Polar.rotate` and `Polar.scale` each change one component of the offset.
  - `inRange` is a strict between-test.
  - The trigonometric conversions `Cartesian.TOPOLAR` and `Polar.TOCARTESIAN` are a parameter, `Conversions`, about which nothing is assumed.
  - Rotating an offset ("to polar, rotate, back to Cartesian") is `RotateVec`.
- **Scene graph** (`scene.dfy`): the authoring tree of `Shape`s and `Polygon`s.
  - `Shape.evaluate` and `Polygon.evaluate` are the evaluation engine. They build a parallel evaluated tree in world coordinates, and each node adds its rotation to the one it inherits.
  - `Shape.GETEVALUATEDPOLYGONS` flattens the evaluated tree in pre-order.
  - The loops of `Shape.evaluate` and `GETEVALUATEDPOLYGONS` are methods proved equal to specification functions: `EvaluateShape` against `Evaluate`, and `GetEvaluatedPolygons` against `Flatten`. The constructor's `forEach` and `points.map` are functions over sequences (`NewShape`, `MapPoints`).
- **Rendering** (`rendering.dfy`): the draw order of `Shape.renderAll` and `Camera.renderShapes`.
  - Polygons are drawn flattened and then stably sorted by `layer`, lowest first.
  - Each polygon becomes one canvas call. A polygon without points makes the canvas helper throw, which ends the drawing loop; the model reports that as `threw`.
- **Key handlers** (`keys.dfy`):
  - `QAxis` is a class over a two-element `states` array, and `state` is kept equal to its sum.
  - `Button` is a class holding one boolean.
  - `Input.KEYCHANGE` hands an event to every registered handler that lists the key.

Coordinates are `real`s and layers are `int`s. Every shape, polygon and evaluated node is a datatype value.

## Model

| member | source | states |
|---|---|---|
| Vectors.FromCoords | draw/draw.ts:98-112 | a number gives `(number, y)`; a pair gives its two entries; a point or record gives its own `x` and `y` |
| Vectors.Transform | draw/draw.ts:113-116 | the result is the componentwise sum of the point and the offset the arguments denote (a new value; the point itself is untouched) |
| Vectors.TransformUndone | draw/draw.ts:113-116 | translating by `d` and then by `-d` gives back the point |
| Vectors.TransformComposes | draw/draw.ts:113-116 | two translations equal one translation by the summed offset, in either order |
| Vectors.Rotate | draw/draw.ts:144-146 | the angle grows by `angle` and the radius is kept |
| Vectors.Scale | draw/draw.ts:150-152 | the radius is multiplied by `scalar` and the angle is kept |
| Vectors.RotateComposes | draw/draw.ts:144-146 | rotating by `a` and then by `b` is rotating by `a + b`, which is what lets evaluation accumulate rotations by addition |
| Vectors.RotateUndone | draw/draw.ts:144-146 | rotating by `a` and then by `-a` gives back the offset |
| Vectors.RotateScaleCommute | draw/draw.ts:144-152 | rotating and scaling commute |
| Vectors.RotateVec | draw/draw.ts:166 | the offset converted to polar form, its angle increased by `angle` with its radius kept, and converted back; a zero angle is the bare round trip through the conversions |
| Vectors.MapPoints | draw/draw.ts:202-204 | `points.map(f)`: same length, and entry `i` is `f` of point `i` |
| Vectors.InRange | draw/draw.ts:4-6 | true exactly when `min < x < max`, which can only happen when `min < max` |
| SceneGraph.NewShape | draw/draw.ts:155-162 | a new shape is a root with rotation 0, keeps its name and polygons, stores its origin as `new Cartesian(origin)` converts it, and holds the same children in order with each child's `root` cleared |
| SceneGraph.NewShapeMarksTree | draw/draw.ts:158-161 | building a shape from children whose own descendants are non-root gives a root whose every descendant is non-root |
| SceneGraph.Adjust | draw/draw.ts:164-166 | with no inherited state the adjusted state is the shape's own origin and rotation; with inherited state S the position is `S.position` plus the origin turned by `S.rotation`, and the rotation is `S.rotation` plus the shape's own |
| SceneGraph.EvaluatePolygon | draw/draw.ts:201-206 | same number of points in the same order; point `i` is the position plus point `i` rotated by the state's rotation; colour, layer and line-only flag copied |
| SceneGraph.Evaluate | draw/draw.ts:163-175 | the evaluated node keeps the shape's name and root flag and has as many polygons and children as the shape |
| SceneGraph.EvaluateShape | draw/draw.ts:163-175 | the method's `forEach`/`push` loops and recursion build exactly the tree `Evaluate` specifies |
| SceneGraph.EvaluateFrame | draw/draw.ts:163-174 | with no inherited state the node sits at its own origin with its own rotation; with inherited state S it sits at `S.position + RotateVec(origin, S.rotation)` with rotation `S.rotation + rotation`; each child polygon and child shape is evaluated in that adjusted frame |
| SceneGraph.EvaluateMirrors | draw/draw.ts:167-174 | the evaluated tree mirrors the authoring tree at every depth: same name and root flag, as many polygons and children in the same order, polygon attributes copied |
| SceneGraph.EvaluateAccumulatesRotation | draw/draw.ts:163-173 | every path of child indices through the authoring tree reaches an evaluated node with the same name, whose rotation is the inherited rotation plus the sum of the rotations along the path |
| SceneGraph.ConcatContains | draw/draw.ts:177-180 | a polygon is in the concatenation of lists exactly when it is in one of them |
| SceneGraph.ConcatLength | draw/draw.ts:177-180 | the concatenation's length is the sum of the lengths |
| SceneGraph.Flatten | draw/draw.ts:176-182 | the flattening begins with the node's own polygons |
| SceneGraph.GetEvaluatedPolygons | draw/draw.ts:176-182 | the accumulator loop returns the node's own polygons followed by each child's flattening in list order (`Flatten`) |
| SceneGraph.FlattenHoldsTreePolygons | draw/draw.ts:176-182 | a polygon is in the flattened list exactly when some node of the evaluated tree owns it |
| SceneGraph.ListMirrorsAppend | draw/draw.ts:179 | appending keeps two lists' pointwise correspondence |
| SceneGraph.ConcatMirrors | draw/draw.ts:177-180 | concatenating corresponding lists keeps the pointwise correspondence |
| SceneGraph.FlattenEvaluateMirrors | draw/draw.ts:167-182 | evaluating and then flattening yields one evaluated polygon per authored polygon of the tree (total count), in pre-order, each with its source's attributes |
| Rendering.Insert | draw/draw.ts:184 | one step of the sort: one element longer, and the same multiset plus the inserted polygon |
| Rendering.InsertSorted | draw/draw.ts:184 | inserting into a list sorted by layer keeps it sorted |
| Rendering.InsertOfLayer | draw/draw.ts:184 | insertion puts the polygon in front of the others of its layer and changes no other layer's order |
| Rendering.SortByLayer | draw/draw.ts:184 | `sort((a, b) => a.layer - b.layer)`: a permutation of the input (same length and multiset), ordered non-decreasing by layer |
| Rendering.SortByLayerStable | draw/draw.ts:184 | the sort is stable: for every layer, the polygons of that layer keep their input order |
| Rendering.OfLayerHolds | draw/draw.ts:184 | a polygon of the list makes its layer's sublist non-empty |
| Rendering.OfLayerWithin | draw/draw.ts:184 | a layer's sublist holds only polygons of the list that have that layer |
| Rendering.StableSortIsUnique | draw/draw.ts:184 | two lists that are both sorted by layer and agree layer by layer are equal, so every stable layer sort of a list gives `SortByLayer`'s result |
| Rendering.LayerOrderExample | draw/draw.ts:184 | polygons of layers 2, -1 and 0 are drawn in the order -1, 0, 2 |
| Rendering.RenderList | draw/draw.ts:184 | the polygons `renderAll` and `renderShapes` draw: the tree's polygon count of them, a permutation of the flattening, sorted by layer |
| Rendering.RenderListOrder | draw/draw.ts:184 | the render list holds every polygon of the tree once (the tree's polygon count; a permutation of the flattening), sorted by layer, and pre-order within each layer |
| Rendering.DrawFor | draw/draw.ts:187-191 | a line-only polygon is stroked and any other filled, through its own points and in its own colour |
| Rendering.DrawnPrefix | draw/draw.ts:26-49 | drawing reaches exactly the polygons before the first one without points, where `moveTo(...points[0])` throws |
| Rendering.DrawnPrefixAll | draw/draw.ts:26-49 | a list is drawn to its end exactly when every polygon in it has a point |
| Rendering.MirroredPointsPresent | draw/draw.ts:184 | a permutation of the evaluated polygons has a point-less polygon exactly when the authored ones do |
| Rendering.RenderListDrawsAll | draw/draw.ts:183-193 | the whole tree is drawn exactly when every authored polygon has at least one point |
| Rendering.StrokeOrFill | draw/draw.ts:185-192 | one call per polygon in list order, a polyline for a line-only polygon and a fill otherwise, up to the first polygon without points, where it throws |
| Rendering.RenderAll | draw/draw.ts:183-193 | `renderAll` draws the render list in order, stroking or filling each polygon as its flag says, up to the first polygon without points; it throws exactly when it stops before the tree's polygon count |
| Rendering.FillProjected | draw/draw.ts:386-389 | one fill per polygon in list order, its points sent through the projection, up to the first polygon without points, where it throws |
| Rendering.RenderShapes | draw/draw.ts:382-390 | `renderShapes` fills the render list's polygons in order with projected points, up to the first polygon without points; it throws exactly when it stops before the tree's polygon count |
| KeyHandlers.FindIndex | draw/draw.ts:246 | `findIndex`: -1 exactly when the key is absent; otherwise a position holding the key with no earlier occurrence |
| KeyHandlers.AxisStep | draw/draw.ts:247 | pressing the first key sets its contribution to -1 and pressing the second sets its contribution to +1; releasing either sets it to 0; the other contribution is kept; a key at neither position changes nothing |
| KeyHandlers.AxisFollowsHeldKeys | draw/draw.ts:245-250 | for two distinct keys the first contributes -1 while held and the second +1, each according to its own last event alone, so the axis reads "second held minus first held" |
| KeyHandlers.QAxis.constructor | draw/draw.ts:240-244 | a new axis keeps the first two keys and starts at rest: contributions `[0, 0]`, state 0 |
| KeyHandlers.QAxis.Change | draw/draw.ts:245-250 | the changed key's contribution becomes -1/+1 when pressed and 0 when released, the other is kept, and `state` is their sum, in {-1, 0, 1}; the handler receives that state |
| KeyHandlers.Button.constructor | draw/draw.ts:228-232 | a new button keeps the first key and starts released |
| KeyHandlers.Button.Change | draw/draw.ts:233-236 | the state becomes `down` whatever the key, and the handler receives `down` |
| KeyHandlers.Deliver | draw/draw.ts:266-268 | a handler that lists the key gets the change (an axis then finds the key at position 0 or 1, never -1); one that does not list the key is left as it was |
| KeyHandlers.KeyChange | draw/draw.ts:265-269 | every registered handler ends as `Deliver` describes for it, each from its own state before the event, since the handlers share no objects |

## Left out

- The canvas helpers (`cleanCanvas`, `drawLine`, `drawPolygon`, `drawPolyline`, `drawRect`, `drawArc`, `drawCircle`, `drawText`, `borderCanvas`) are thin wrappers over the browser's 2D context. The model records the calls the render paths make as `DrawCall` values.
- DOM and event plumbing is left out because it is browser I/O: the listeners `Input.SETUP` installs, `realMouseCoords`, and the `Game`/`Input` singletons.
- `Camera.toggleFrames` and `Camera.render` depend on `requestAnimationFrame` and wall-clock time.
- Rendering.RenderShapes: a throw from a polygon without points also leaves `Camera.render` before it calls `requestAnimationFrame` again, so the frame loop stops. The model reports the throw as `threw`; the frame loop itself is not modelled.
- The camera projection `realToCanvas` is a parameter (`project`) of `RenderShapes`. `apertureAngles`, `radius`, `adjustedRadius` and the zoom factors 1.25/0.8 are floating-point trigonometry.
- The bodies of `Cartesian.TOPOLAR` and `Polar.TOCARTESIAN` (atan2, cos, sin, sqrt) are the `Conversions` parameter, so no geometric fact about rotation itself is proved.
- `Polar.transform` is built entirely on those conversions.
- `Force` is an unused physics type built on the same conversions.
- `toDigits` depends on JavaScript number formatting and `parseInt`.
- `pythag` is floating-point square root, and `toString` is string formatting.
- The sample hull model in `Game`'s constructor is data, not logic.
- The `Polar` constructor and the `Polygon` constructor (with default colour `""`, layer 0 and `lineOnly` false) are not modelled. Polygons are built directly as datatype values.
- JavaScript numbers are modelled as exact reals, and layers as integers. Rounding, NaN and infinities are not modelled.
- SceneGraph.NewShape: the constructor clears `root` on the caller's own child objects in place. The model returns copies with `root` cleared, so aliasing is not captured: the same child object reachable from elsewhere, or shared between two parents.
- SceneGraph.GetEvaluatedPolygons: `GETEVALUATEDPOLYGONS` never writes to its input, because `concat` allocates. For a node without children, though, it returns the node's own `polygons` array, and the `sort` that follows reorders that array in place. Values carry no identity, so this aliasing is not modelled.
- Rendering.SortByLayer: the engine's sort algorithm is replaced by a stable insertion sort. `StableSortIsUnique` shows that any stable sort by layer gives the same list. A non-stable engine sort is not modelled.
- KeyHandlers.QAxis.constructor and KeyHandlers.Button.constructor require at least two keys and at least one key respectively. Given fewer, the source would store `undefined` keys.
- KeyHandlers.QAxis.Change: for a key the axis does not list, `findIndex` gives -1 and the source writes an unread `"-1"` property of the array. The model leaves both contributions unchanged, which is what the array's elements do.
- The handlers' callbacks (the lambdas registered in `Input`'s constructor, draw/draw.ts:281-291) are left out because they act on the camera and the DOM: zooming by 1.25/0.8 and toggling frames. Each `Change` returns the value it passes to its callback, as `notified`.
- KeyHandlers.KeyChange: the `Map` of handlers is a sequence in insertion order. The handlers are required to be distinct objects; the same handler registered twice under two names is not modelled.
- The lower-casing of `event.key` happens in the event listeners, outside `KEYCHANGE`.
- Evaluated nodes carry no back-reference to their authoring node, because `draw/draw.ts` sets none.
- `draw/draw.js` is the compiled form of `draw/draw.ts` with the same logic; the model follows the `.ts`.
