# dagre-d3 render pipeline: attribute normalisation and bounding box

This project models the graph-facing part of the render function of
dagre-d3 (`lib/render.js`) in Dafny. The SVG drawing is left out. Rendering a
graph runs these steps in order:

1. `preProcessGraph` fills in each node's and each edge's attribute object in
   place:
   - the default label;
   - padding resolved from `paddingX`/`paddingY`/`padding`, then coerced with
     `Number`;
   - `shape`, `rx`, `ry`, `arrowhead` and `curve` defaults;
   - caller-supplied `width`/`height` saved into `_prevWidth`/`_prevHeight`.
2. The external layout engine writes positions and sizes.
3. Four accumulators, starting at 1000, 1000, -1000, -1000, fold the node
   boxes, the defined edge label boxes and the interior route points with
   `Math.min`/`Math.max`. The result is stored on the graph as `minX`, `minY`,
   `maxX`, `maxY`.
4. `postProcessGraph` puts `width`/`height` back from the side fields, or
   deletes them, and removes the side fields.

Modules:

- `JsValues` (js_values.dfy): the JavaScript values held in attribute
  objects. It covers NaN-propagating arithmetic and `Math.min`/`Math.max`,
  `Number(...)` coercion, and lodash's `_.has` and `_.defaults`.
- `Normalize` (normalize.dfy): the treatment of one node or edge. Each is a
  function; the node loop body is also a method (`NormalizeNodeAttrs`, with
  the coercion loop `CoercePadding`). The edge and restore loop bodies are
  map updates inside `Render.Graph.PreProcessEdges` and
  `Render.Graph.PostProcessGraph`. A per-property
  reference (`ExpectedNodeSlot`, `ExpectedEdgeSlot`) states what each property
  ends up holding, and is proved against the step-by-step definition.
- `BoundingBox` (bounding_box.dfy): the accumulator loops as methods over the
  laid-out attribute objects. They are proved against a fold (`GraphBox`),
  and the fold is characterised by enclosure and attainment lemmas.
- `Render` (render.dfy): a `Graph` class. It holds the node and edge order,
  the children relation, and the attribute maps and box fields that the passes
  update in place. The loops of both passes and the whole render are methods
  proved against functions of the old state. Lemmas about those functions give
  the key-by-key results: idempotence, the dimension round trip, no keys added
  or removed, and nothing touched outside the named properties.

A node or edge without an attribute object makes the source throw a
`TypeError` part-way through a pass. The model returns a failure and keeps the
partial progress: the entries before the failing one are processed, the rest
untouched. `Render` reports how many nodes and edges pre-processing got
through. An edge without an array of points makes the bounding-box loop throw.
The render then stops with the objects laid out but not restored, and no box
stored.

## Model

| member | source | states |
|---|---|---|
| JsValues.ToNumber | lib/render.js:180 | `Number(v)` on the values an attribute object can hold: `undefined` is NaN, `null` is 0, booleans are 0/1, numbers are themselves, strings are parsed (white space, sign, decimal literal), a curve is NaN and an array is 0 when empty and NaN otherwise |
| JsValues.Defaults | lib/render.js:155-177 | lodash `_.defaults(object, source)`: the result has the keys of both, takes the source's value where the object's own value is `undefined`, and keeps the object's value elsewhere |
| JsValues.DefaultsSlot | lib/render.js:177 | `_.defaults` gives a property the source's value exactly when the object's own value is `undefined` (missing or explicitly undefined), and otherwise leaves it as it is |
| JsValues.DefaultsIdempotent | lib/render.js:177 | filling defaults a second time from the same source changes nothing |
| JsValues.ToNumberIdempotent | lib/render.js:179-181 | `Number(Number(x))` equals `Number(x)`, so re-coercing a padding is a no-op |
| Normalize.DefaultLabelSlot | lib/render.js:152 | a node without a `label` property and without children gets its key as label; any other node keeps its label state, and no other property changes |
| Normalize.FillFromShorthandSlot | lib/render.js:154-159 | a shorthand that is present fills only the sides that are still undefined, and touches no other property |
| Normalize.ResolvePaddingSlot | lib/render.js:154-175 | each padding side becomes the first defined of the side itself, its axis shorthand (`paddingX` or `paddingY`), and `padding`; every other property is unchanged |
| Normalize.CoerceKeysSlot | lib/render.js:179-181 | after coercion each listed key holds `Number` of its value before, and every other key is unchanged |
| Normalize.CoercePadding | lib/render.js:179-181 | the coercion loop over the four sides, in order, computes the coerced object |
| Normalize.SaveDimensionsSlot | lib/render.js:184-185 | `_prevWidth`/`_prevHeight` take a present `width`/`height`, and nothing else changes |
| Normalize.NormalizedNode | lib/render.js:151-185 | the treatment of one node in the source's order: default label, padding shorthands, `NODE_DEFAULT_ATTRS`, `Number` on the four sides, dimensions saved into the side fields |
| Normalize.NormalizeNodeAttrs | lib/render.js:151-185 | the in-place updates of the node loop body compute the pre-processed node |
| Normalize.NormalizedNodeSteps | lib/render.js:151-185 | the pre-processed node, property by property, in terms of the object after label, padding and defaults |
| Normalize.DefaultedNodeSlot | lib/render.js:152-177 | after label, padding and defaults: sides follow the precedence side, shorthand, `padding`, 10; `shape`/`rx`/`ry` keep a defined value, otherwise `'rect'`/0/0; `label` defaults to the key on leaves only; nothing else changes |
| Normalize.NormalizedNodeSpec | lib/render.js:134-186 | every property of a pre-processed node equals the reference `ExpectedNodeSlot`: all four sides present and numeric, `shape`/`rx`/`ry` present, defined values never overwritten, side fields copied from present dimensions, all other properties untouched |
| Normalize.NormalizedNodeIdempotent | lib/render.js:150-186 | pre-processing a node twice gives what pre-processing it once gives |
| Normalize.NormalizedEdge | lib/render.js:189-191 | the treatment of one edge: an edge without a `label` property gets `''`, then `EDGE_DEFAULT_ATTRS` fill `arrowhead` and `curve` |
| Normalize.NormalizedEdgeSpec | lib/render.js:144-191 | every property of a pre-processed edge equals the reference: `label` kept if present, else `''`; `arrowhead`/`curve` keep a defined value, else `'normal'`/linear; all other properties untouched |
| Normalize.NormalizedEdgeIdempotent | lib/render.js:188-192 | pre-processing an edge twice gives what pre-processing it once gives |
| Normalize.RestoredNode | lib/render.js:197-213 | the restore of one node: `width`/`height` set from `_prevWidth`/`_prevHeight` or deleted when there is none, then both side fields deleted |
| Normalize.RestoredNodeSpec | lib/render.js:196-214 | after restoring, `width` is exactly what `_prevWidth` was (absent if it was absent), likewise `height`; both side fields are gone; all other properties are unchanged |
| Normalize.RestoreAfterLayout | lib/render.js:195-215 | after a layout that writes only layout properties, restoring takes the dimensions from the untouched side fields and leaves no side field |
| Normalize.DimensionsRoundTrip | lib/render.js:184-213 | save, any layout, restore: `width` ends present exactly when it was present before (or a stale `_prevWidth` was), holding that value, likewise `height`; no side field is left; nothing else differs from the pre-processed node outside the layout properties |
| Normalize.DimensionsRestoredExactly | lib/render.js:184-213 | without stale side fields, a node ends with exactly the `width`/`height` it came with, or none |
| BoundingBox.CentredBox | lib/render.js:44-47 | the box of a node or an edge label: `x - width / 2`, `y - height / 2`, `x + width / 2`, `y + height / 2`, each property read with `Number`, so a missing one gives NaN (also lines 53-56) |
| BoundingBox.GraphBox | lib/render.js:37-66 | the stored box as a fold: from the sentinels (1000, 1000, -1000, -1000), `Math.min`/`Math.max` over every node box in node order, then edge by edge over the label box (when `label`, `x` and `y` are defined) and the interior points |
| BoundingBox.Interior | lib/render.js:58 | `points.slice(1, points.length - 1)` is the route without its first and last point |
| BoundingBox.FoldNodes | lib/render.js:37-48 | the node loop from the sentinels folds every node's centred box in order |
| BoundingBox.FoldEdge | lib/render.js:50-66 | one edge contributes its label box when `label`, `x` and `y` are defined, then its interior points; it fails exactly when `points` is not an array |
| BoundingBox.FoldBoundingBox | lib/render.js:37-66 | both loops succeed exactly when every edge has an array of points, and then compute `GraphBox` |
| BoundingBox.GraphBoxFlat | lib/render.js:37-66 | the result is the fold, from the sentinels, of every node box followed by every edge's contributions |
| BoundingBox.FoldBoxesNaN | lib/render.js:44-64 | a side is NaN exactly when the start or some folded box is NaN on that side (`Math.min`/`Math.max` propagate NaN) |
| BoundingBox.EdgeBoxesMembers | lib/render.js:52-65 | an edge's contributions are exactly its defined label box and one box per interior route point |
| BoundingBox.GraphBoxEncloses | lib/render.js:37-71 | each numeric side of the stored box lies at or beyond its sentinel, every node box, every defined edge label box and every interior route point |
| BoundingBox.GraphBoxAttained | lib/render.js:37-71 | each side of the stored box is its sentinel or the side of some node box, defined edge label box or interior route point |
| BoundingBox.EmptyGraphBox | lib/render.js:37-40 | an empty graph stores (1000, 1000, -1000, -1000), so `minX > maxX` |
| BoundingBox.SingleNodeBox | lib/render.js:43-48 | a node at the origin, 20 by 10, gives (-10, -5, 10, 5) |
| BoundingBox.FarNodeBoxKeepsSentinel | lib/render.js:37-48 | a lone node at (2000, 2000), 20 by 10, is stored as (1000, 1000, 2010, 2005) |
| BoundingBox.SentinelWidensTightBox | lib/render.js:37-66 | folding from the sentinels equals the box of the contributions alone with `minX`/`minY` capped at 1000 and `maxX`/`maxY` raised to at least -1000 |
| BoundingBox.GraphBoxWidensTightBox | lib/render.js:37-71 | the stored box is the sentinel-free box with `minX`/`minY` capped at 1000 and `maxX`/`maxY` raised to at least -1000, or the sentinels when nothing is measured |
| BoundingBox.TightGraphBoxEmpty | lib/render.js:37-71 | the sentinel-free box is missing exactly when there is no node, no defined edge label and no interior route point |
| BoundingBox.TightGraphBoxEncloses | lib/render.js:37-71 | each numeric side of the sentinel-free box lies at or beyond every node box, defined edge label box and interior route point |
| BoundingBox.TightGraphBoxAttained | lib/render.js:37-71 | each side of the sentinel-free box is the side of some contribution |
| BoundingBox.TightGraphBoxExamples | lib/render.js:37-48 | the far node gives (1990, 1995, 2010, 2005), and an empty graph has no box |
| Render.AttrList | lib/render.js:43 | `graph.nodes().map(n => graph.node(n))`: the attribute objects in node order |
| Render.VisitNode | lib/render.js:150-186 | one turn of the node loop treats the next node in order and keeps the keys |
| Render.Graph.PreProcessNodes | lib/render.js:150-186 | the node loop treats the nodes in order and stops at the first node without an attribute object; it adds or removes no node |
| Render.Graph.PreProcessEdges | lib/render.js:188-192 | the edge loop treats the edges in order and stops at the first edge without an attribute object; it adds or removes no edge |
| Render.Graph.PreProcessGraph | lib/render.js:149-193 | nodes then edges. It succeeds exactly when every node and edge has an attribute object. On failure it stops at the first missing one, the earlier ones processed and the later ones untouched |
| Render.Graph.Layout | lib/render.js:35 | the layout step overwrites only `x`, `y`, `width`, `height` and `points`, and adds or removes no node or edge |
| Render.Graph.ComputeBoundingBox | lib/render.js:37-71 | the stored `minX`..`maxY` are `GraphBox` of the laid-out objects, stored exactly when every edge has an array of points; otherwise nothing is stored |
| Render.Graph.PostProcessGraph | lib/render.js:195-215 | the restore loop treats the nodes in order, stops at the first node without an attribute object, and adds or removes no node |
| Render.Graph.LayOutAndMeasure | lib/render.js:35-80 | layout, then the bounding box, then post-processing; a failing box stops the render before post-processing |
| Render.Graph.Render | lib/render.js:24-81 | the whole render is pre-processing, layout, the stored box and post-processing, in that order. It fails in pre-processing exactly when some node or edge lacks an attribute object, and then reports how far it got: the nodes before the first missing one are pre-processed, then (only if every node was) the edges before the first missing one, and everything after is untouched. A box failure leaves the laid-out objects unrestored and stores nothing |
| Render.NormalizeNodesAt | lib/render.js:149-186 | pre-processing keeps the node keys and changes each node by the one-node treatment, and no other |
| Render.NormalizeEdgesAt | lib/render.js:188-192 | pre-processing keeps the edge keys and changes each edge by the one-edge treatment, and no other |
| Render.RestoreNodesAt | lib/render.js:195-215 | post-processing keeps the node keys and restores each node, and no other |
| Render.LayOutAllAt | lib/render.js:35 | layout keeps the keys and changes nothing outside the layout properties |
| Render.PreProcessIdempotent | lib/render.js:149-193 | pre-processing the whole graph twice gives the same node and edge maps as once |
| Render.RenderKeepsGraph | lib/render.js:24-81 | a complete render adds or removes no node key and no edge key |
| Render.RenderedNodeAt | lib/render.js:24-81 | a node after a complete render is the restored form of its laid-out, pre-processed object |
| Render.RenderedNodeDimensions | lib/render.js:184-213 | after a complete render, whatever the layout wrote, every node has the `width`/`height` it came with (from a stale side field when it had none) and no side field |
| Render.RenderedNodeSpec | lib/render.js:149-186 | after a complete render, every node property other than the layout properties and side fields is what the pre-processing reference says |
| Render.RenderedEdgeSpec | lib/render.js:188-192 | after a complete render, every edge property other than the layout properties is what the edge reference says |

## Left out

- The SVG work is not modelled: clearing the SVG, creating the groups, and the
  `create*`/`position*` helpers with their `shapes` and `arrows`. Their source
  is not part of this model. The sizes measured by
  `createNodes`/`createEdgeLabels` are folded into the layout parameters.
- `dagre.layout` is external. Its results are parameters of `Render.Graph.Layout`,
  which overlays only `x`, `y`, `width`, `height` and `points`. The graph-level
  width and height that the engine writes are not modelled.
- Render.Graph.Render, Render.RenderedNodeSpec and Render.RenderedEdgeSpec assume
  that `dagre.layout` and the drawing helpers write no property of a node or an
  edge other than `x`, `y`, `width`, `height` and `points`, and add or remove
  none. Every other property is claimed to be exactly what pre-processing left;
  a helper that wrote one would break that claim.
- Render.Graph.Render takes `dagre.layout` and the drawing helpers (lines 27-35
  and 73-78) never to throw. In the source such a throw would end the render
  after pre-processing: no box stored, `postProcessGraph` not run, and
  `_prevWidth`/`_prevHeight` left on the nodes. `Outcome` has no case for it.
- The fluent getters and setters of the render function are configuration
  plumbing and are not modelled.
- `Number(...)` on strings covers white space, an optional sign and a plain
  decimal literal. Exponents, hexadecimal, binary and octal literals and
  `Infinity` are treated as NaN.
- Arithmetic is on reals with a NaN case. IEEE rounding, infinities and signed
  zero are not represented, although the source can meet them: a
  caller-supplied padding of `Infinity`, or `Number('1e999')`, gives an
  infinity.
- BoundingBox.CentredBox reads `x + width / 2` as a numeric addition. A string
  `x` would make JavaScript concatenate; the layout engine writes numbers there.
- BoundingBox.FoldEdge treats a `points` property that is not an array as a
  failure. The source agrees for every value without a `slice` method: a
  missing property, `undefined`, `null`, a number, a boolean, a curve function.
  It differs only for a string, which would be sliced and its characters read
  as points with NaN coordinates.
- Render.Graph.Render does not model aliasing. An attribute object shared by two
  nodes or edges would be updated once for each of them; the model treats every
  object as separate.
- Render.PreProcessIdempotent and the other key-by-key lemmas take as a
  precondition that node and edge keys are unique, as graphlib guarantees.
  `Render.Graph.Valid` carries the same invariant, so those lemmas apply to the
  maps of any valid graph. `Render.Graph.Render` states its result as functions
  of the old maps rather than key by key.
- The test harness (`test/demo-test.js`) and the re-export module (`index.js`)
  are not modelled.

## Findings

| source | as written | input that shows it | evidently intended | confidence | as-written member | corrected member |
|---|---|---|---|---|---|---|
| lib/render.js:37-40 | the accumulators start at 1000, 1000, -1000, -1000, so the stored `minX`/`minY` are never above 1000 and `maxX`/`maxY` never below -1000: a drawing lying entirely beyond 1000 (or below -1000) on an axis has that side clamped to the sentinel | one node centred at (2000, 2000), 20 wide and 10 high, is stored as (1000, 1000, 2010, 2005) instead of (1990, 1995, 2010, 2005); an empty graph stores (1000, 1000, -1000, -1000) | the box of the drawing alone, and no box for an empty graph | medium, not executed | BoundingBox.FarNodeBoxKeepsSentinel | BoundingBox.TightGraphBoxAttained |

The render model still stores the box as written, because that is what the
code stores on the graph. `BoundingBox.GraphBoxWidensTightBox` states exactly
how the stored box differs from the sentinel-free `TightGraphBox`. The latter
is proved to enclose every contribution (`TightGraphBoxEncloses`), to be
attained by one (`TightGraphBoxAttained`), and to be missing exactly for a
drawing with nothing to measure (`TightGraphBoxEmpty`).
