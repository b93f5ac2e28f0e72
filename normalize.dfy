/** The attribute normaliser of the render pipeline: the pre-layout pass that
    fills in node and edge defaults and saves caller-supplied dimensions, and
    the post-layout pass that restores them (lib/render.js, preProcessGraph and
    postProcessGraph). Each node or edge step is a function on one attribute
    object; the graph-wide loops live in module Render. */
module Normalize {
  import opened JsValues

  type NodeKey = string

  /** The padding sides, in the order the coercion loop visits them. */
  const PaddingKeys: seq<string> := ["paddingLeft", "paddingRight", "paddingTop", "paddingBottom"]

  /** NODE_DEFAULT_ATTRS. */
  const NodeDefaultAttrs: Attrs := map[
    "paddingLeft" := Num(Finite(10.0)),
    "paddingRight" := Num(Finite(10.0)),
    "paddingTop" := Num(Finite(10.0)),
    "paddingBottom" := Num(Finite(10.0)),
    "rx" := Num(Finite(0.0)),
    "ry" := Num(Finite(0.0)),
    "shape" := Str("rect")]

  /** d3.curveLinear. */
  const LinearCurve: Value := Curve("curveLinear")

  /** EDGE_DEFAULT_ATTRS. */
  const EdgeDefaultAttrs: Attrs := map["arrowhead" := Str("normal"), "curve" := LinearCurve]

  /** The bookkeeping fields that carry caller-supplied dimensions across layout. */
  const SideKeys: set<string> := {"_prevWidth", "_prevHeight"}

  /** The properties the layout engine may write on a node or an edge. */
  const LayoutKeys: set<string> := {"x", "y", "width", "height", "points"}

  // ---------------------------------------------------------------------
  // Pre-layout, one node

  /** A leaf node without a `label` property is labelled with its key. */
  function DefaultLabel(v: NodeKey, isCluster: bool, node: Attrs): Attrs {
    if !("label" in node) && !isCluster then node["label" := Str(v)] else node
  }

  /** `if (_.has(node, short)) _.defaults(node, {side: node[short], ...})`:
      the sides in `sides` that are still `undefined` take the shorthand. */
  function FillFromShorthand(node: Attrs, short: string, sides: set<string>): Attrs {
    if short in node then Defaults(node, map s | s in sides :: node[short]) else node
  }

  /** The padding shorthands: `paddingX` for the left and right sides, then
      `paddingY` for top and bottom, then `padding` for all four. */
  function ResolvePadding(node: Attrs): Attrs {
    var n1 := FillFromShorthand(node, "paddingX", {"paddingLeft", "paddingRight"});
    var n2 := FillFromShorthand(n1, "paddingY", {"paddingTop", "paddingBottom"});
    FillFromShorthand(n2, "padding", {"paddingLeft", "paddingRight", "paddingTop", "paddingBottom"})
  }

  /** `node[k] = Number(node[k])` for each `k` of `keys` in turn. */
  function CoerceKeys(node: Attrs, keys: seq<string>): Attrs {
    if keys == [] then node
    else
      var n := CoerceKeys(node, keys[..|keys| - 1]);
      var k := keys[|keys| - 1];
      n[k := Num(ToNumber(Get(n, k)))]
  }

  /** Caller-supplied `width`/`height` are copied into the side fields. */
  function SaveDimensions(node: Attrs): Attrs {
    var n1 := if "width" in node then node["_prevWidth" := node["width"]] else node;
    if "height" in n1 then n1["_prevHeight" := n1["height"]] else n1
  }

  /** The whole pre-layout treatment of one node, step by step as the source
      does it. */
  function NormalizedNode(v: NodeKey, isCluster: bool, node: Attrs): Attrs {
    SaveDimensions(CoerceKeys(Defaults(ResolvePadding(DefaultLabel(v, isCluster, node)), NodeDefaultAttrs), PaddingKeys))
  }

  /** The coercion loop, `node[k] = Number(node[k])` over the padding sides. */
  method CoercePadding(node: Attrs) returns (r: Attrs)
    ensures r == CoerceKeys(node, PaddingKeys)
  {
    r := node;
    var i := 0;
    while i < |PaddingKeys|
      invariant 0 <= i <= |PaddingKeys|
      invariant r == CoerceKeys(node, PaddingKeys[..i])
    {
      var k := PaddingKeys[i];
      assert PaddingKeys[..i + 1][..i] == PaddingKeys[..i];
      r := r[k := Num(ToNumber(Get(r, k)))];
      i := i + 1;
    }
    assert PaddingKeys[..i] == PaddingKeys;
  }

  /** The treatment of one node as the source's loop body performs it, one
      update of the attribute object after another. */
  method NormalizeNodeAttrs(v: NodeKey, isCluster: bool, node: Attrs) returns (r: Attrs)
    ensures r == NormalizedNode(v, isCluster, node)
  {
    r := DefaultLabel(v, isCluster, node);
    r := ResolvePadding(r);
    r := Defaults(r, NodeDefaultAttrs);
    r := CoercePadding(r);
    r := SaveDimensions(r);
  }

  // ---------------------------------------------------------------------
  // The per-property reference for the pre-layout node treatment

  /** `a` unless it is `undefined`, else `b`. */
  function Fallback(a: Value, b: Value): Value {
    if a != Undefined then a else b
  }

  /** The shorthand a padding side falls back to before `padding`. */
  function ShorthandFor(side: string): string {
    if side == "paddingLeft" || side == "paddingRight" then "paddingX" else "paddingY"
  }

  /** What property `k` of a node holds after pre-processing, stated directly
      from the original attributes: each padding side is the number of the
      first defined of the side itself, its axis shorthand, `padding` and 10;
      `shape`, `rx` and `ry` keep a defined value and are otherwise "rect", 0
      and 0; `label` defaults to the key on leaves only; the side fields take a
      present `width`/`height`; nothing else changes. */
  function ExpectedNodeSlot(v: NodeKey, isCluster: bool, node: Attrs, k: string): Slot {
    if k in PaddingKeys then
      Present(Num(ToNumber(
        Fallback(Get(node, k), Fallback(Get(node, ShorthandFor(k)), Fallback(Get(node, "padding"), Num(Finite(10.0))))))))
    else if k == "shape" || k == "rx" || k == "ry" then
      Present(if Defined(node, k) then node[k] else NodeDefaultAttrs[k])
    else if k == "label" then
      if k in node then Present(node[k]) else if isCluster then Absent else Present(Str(v))
    else if k == "_prevWidth" then
      if "width" in node then Present(node["width"]) else Lookup(node, k)
    else if k == "_prevHeight" then
      if "height" in node then Present(node["height"]) else Lookup(node, k)
    else
      Lookup(node, k)
  }

  /** Two attribute objects with the same lookups are equal. */
  lemma SlotsDetermineAttrs(a: Attrs, b: Attrs)
    requires forall k :: Lookup(a, k) == Lookup(b, k)
    ensures a == b
  {
    forall k | k in a ensures k in b && a[k] == b[k] {
      assert Lookup(a, k) == Lookup(b, k);
    }
    forall k | k in b ensures k in a {
      assert Lookup(a, k) == Lookup(b, k);
    }
  }

  lemma FillFromShorthandSlot(node: Attrs, short: string, sides: set<string>, k: string)
    ensures k in sides ==> Get(FillFromShorthand(node, short, sides), k) == Fallback(Get(node, k), Get(node, short))
    ensures k !in sides ==> Lookup(FillFromShorthand(node, short, sides), k) == Lookup(node, k)
  {
    if short in node {
      DefaultsSlot(node, map s | s in sides :: node[short], k);
    }
  }

  lemma ResolvePaddingSlot(node: Attrs, k: string)
    ensures k in PaddingKeys ==>
      Get(ResolvePadding(node), k) == Fallback(Get(node, k), Fallback(Get(node, ShorthandFor(k)), Get(node, "padding")))
    ensures k !in PaddingKeys ==> Lookup(ResolvePadding(node), k) == Lookup(node, k)
  {
    var xs: set<string> := {"paddingLeft", "paddingRight"};
    var ys: set<string> := {"paddingTop", "paddingBottom"};
    var n1 := FillFromShorthand(node, "paddingX", xs);
    var n2 := FillFromShorthand(n1, "paddingY", ys);
    FillFromShorthandSlot(n2, "padding", xs + ys, k);
    FillFromShorthandSlot(n1, "paddingY", ys, k);
    FillFromShorthandSlot(node, "paddingX", xs, k);
    if k in xs + ys {
      FillFromShorthandSlot(n1, "paddingY", ys, "padding");
      FillFromShorthandSlot(node, "paddingX", xs, "padding");
      if k in ys {
        FillFromShorthandSlot(node, "paddingX", xs, "paddingY");
      }
    }
  }

  lemma CoerceKeysSlot(node: Attrs, keys: seq<string>, k: string)
    ensures k in keys ==> Lookup(CoerceKeys(node, keys), k) == Present(Num(ToNumber(Get(node, k))))
    ensures k !in keys ==> Lookup(CoerceKeys(node, keys), k) == Lookup(node, k)
  {
    if keys != [] {
      var init := keys[..|keys| - 1];
      CoerceKeysSlot(node, init, k);
      if k in init && k != keys[|keys| - 1] {
        ToNumberIdempotent(Get(node, k));
      }
      if k == keys[|keys| - 1] && k in init {
        ToNumberIdempotent(Get(node, k));
      }
    }
  }

  lemma DefaultLabelSlot(v: NodeKey, isCluster: bool, node: Attrs, k: string)
    ensures Lookup(DefaultLabel(v, isCluster, node), k) ==
      if k == "label" && "label" !in node && !isCluster then Present(Str(v)) else Lookup(node, k)
  {
  }

  lemma SaveDimensionsSlot(node: Attrs, k: string)
    ensures Lookup(SaveDimensions(node), k) ==
      if k == "_prevWidth" && "width" in node then Present(node["width"])
      else if k == "_prevHeight" && "height" in node then Present(node["height"])
      else Lookup(node, k)
  {
  }

  /** The pre-processed node, written as the value of each step. */
  lemma NormalizedNodeSteps(v: NodeKey, isCluster: bool, node: Attrs, k: string)
    ensures var n0 := DefaultLabel(v, isCluster, node);
            var n4 := Defaults(ResolvePadding(n0), NodeDefaultAttrs);
            Lookup(NormalizedNode(v, isCluster, node), k) ==
              if k == "_prevWidth" && "width" in n4 then Present(n4["width"])
              else if k == "_prevHeight" && "height" in n4 then Present(n4["height"])
              else if k in PaddingKeys then Present(Num(ToNumber(Get(n4, k))))
              else Lookup(n4, k)
  {
    var n0 := DefaultLabel(v, isCluster, node);
    var n4 := Defaults(ResolvePadding(n0), NodeDefaultAttrs);
    var n5 := CoerceKeys(n4, PaddingKeys);
    SaveDimensionsSlot(n5, k);
    CoerceKeysSlot(n4, PaddingKeys, k);
    CoerceKeysSlot(n4, PaddingKeys, "width");
    CoerceKeysSlot(n4, PaddingKeys, "height");
  }

  /** Before coercion and saving, each property is the reference's value
      (uncoerced for the padding sides, unsaved for the side fields). */
  lemma DefaultedNodeSlot(v: NodeKey, isCluster: bool, node: Attrs, k: string)
    ensures var n4 := Defaults(ResolvePadding(DefaultLabel(v, isCluster, node)), NodeDefaultAttrs);
            if k in PaddingKeys then
              Get(n4, k) == Fallback(Get(node, k), Fallback(Get(node, ShorthandFor(k)), Fallback(Get(node, "padding"), Num(Finite(10.0)))))
            else if k == "shape" || k == "rx" || k == "ry" then
              Lookup(n4, k) == Present(if Defined(node, k) then node[k] else NodeDefaultAttrs[k])
            else if k == "label" then
              Lookup(n4, k) == (if k in node then Present(node[k]) else if isCluster then Absent else Present(Str(v)))
            else
              Lookup(n4, k) == Lookup(node, k)
  {
    var n0 := DefaultLabel(v, isCluster, node);
    var n3 := ResolvePadding(n0);
    DefaultsSlot(n3, NodeDefaultAttrs, k);
    ResolvePaddingSlot(n0, k);
    DefaultLabelSlot(v, isCluster, node, k);
    if k in PaddingKeys {
      DefaultLabelSlot(v, isCluster, node, ShorthandFor(k));
      DefaultLabelSlot(v, isCluster, node, "padding");
    }
  }

  /** Pre-processing a node agrees, property by property, with the reference. */
  lemma {:induction false} NormalizedNodeSpec(v: NodeKey, isCluster: bool, node: Attrs, k: string)
    ensures Lookup(NormalizedNode(v, isCluster, node), k) == ExpectedNodeSlot(v, isCluster, node, k)
  {
    NormalizedNodeSteps(v, isCluster, node, k);
    DefaultedNodeSlot(v, isCluster, node, k);
    DefaultedNodeSlot(v, isCluster, node, "width");
    DefaultedNodeSlot(v, isCluster, node, "height");
  }

  /** Any attribute object that already has the reference's properties for
      some original is left as it is by the reference. */
  lemma ExpectedNodeSlotFixed(v: NodeKey, isCluster: bool, node: Attrs, n1: Attrs, k: string)
    requires forall j :: Lookup(n1, j) == ExpectedNodeSlot(v, isCluster, node, j)
    ensures ExpectedNodeSlot(v, isCluster, n1, k) == Lookup(n1, k)
  {
    assert Lookup(n1, k) == ExpectedNodeSlot(v, isCluster, node, k);
    if k == "_prevWidth" {
      assert Lookup(n1, "width") == ExpectedNodeSlot(v, isCluster, node, "width");
    } else if k == "_prevHeight" {
      assert Lookup(n1, "height") == ExpectedNodeSlot(v, isCluster, node, "height");
    }
  }

  /** Pre-processing a node a second time changes nothing. */
  lemma NormalizedNodeIdempotent(v: NodeKey, isCluster: bool, node: Attrs)
    ensures NormalizedNode(v, isCluster, NormalizedNode(v, isCluster, node)) == NormalizedNode(v, isCluster, node)
  {
    var n1 := NormalizedNode(v, isCluster, node);
    var n2 := NormalizedNode(v, isCluster, n1);
    forall j ensures Lookup(n1, j) == ExpectedNodeSlot(v, isCluster, node, j) {
      NormalizedNodeSpec(v, isCluster, node, j);
    }
    forall k ensures Lookup(n2, k) == Lookup(n1, k) {
      NormalizedNodeSpec(v, isCluster, n1, k);
      ExpectedNodeSlotFixed(v, isCluster, node, n1, k);
    }
    SlotsDetermineAttrs(n2, n1);
  }

  // ---------------------------------------------------------------------
  // Pre-layout, one edge

  /** An edge without a `label` property gets the empty label; `arrowhead` and
      `curve` are defaulted. */
  function NormalizedEdge(edge: Attrs): Attrs {
    Defaults(if !("label" in edge) then edge["label" := Str("")] else edge, EdgeDefaultAttrs)
  }

  /** What property `k` of an edge holds after pre-processing. */
  function ExpectedEdgeSlot(edge: Attrs, k: string): Slot {
    if k == "label" then
      Present(if k in edge then edge[k] else Str(""))
    else if k == "arrowhead" || k == "curve" then
      Present(if Defined(edge, k) then edge[k] else EdgeDefaultAttrs[k])
    else
      Lookup(edge, k)
  }

  lemma NormalizedEdgeSpec(edge: Attrs, k: string)
    ensures Lookup(NormalizedEdge(edge), k) == ExpectedEdgeSlot(edge, k)
  {
  }

  /** Pre-processing an edge a second time changes nothing. */
  lemma NormalizedEdgeIdempotent(edge: Attrs)
    ensures NormalizedEdge(NormalizedEdge(edge)) == NormalizedEdge(edge)
  {
    var e1 := NormalizedEdge(edge);
    forall k ensures Lookup(NormalizedEdge(e1), k) == Lookup(e1, k) {
      NormalizedEdgeSpec(e1, k);
      NormalizedEdgeSpec(edge, k);
    }
    SlotsDetermineAttrs(NormalizedEdge(e1), e1);
  }

  // ---------------------------------------------------------------------
  // Post-layout, one node

  /** `width`/`height` are put back from the side fields, or deleted when
      there is none; the side fields are deleted. */
  function RestoredNode(node: Attrs): Attrs {
    var n1 := if "_prevWidth" in node then node["width" := node["_prevWidth"]] else node - {"width"};
    var n2 := if "_prevHeight" in n1 then n1["height" := n1["_prevHeight"]] else n1 - {"height"};
    n2 - SideKeys
  }

  /** After restoring, `width` is exactly what `_prevWidth` was (absent when
      it was absent), likewise `height`; the side fields are gone and every
      other property is unchanged. */
  lemma RestoredNodeSpec(node: Attrs, k: string)
    ensures Lookup(RestoredNode(node), k) ==
      if k == "width" then Lookup(node, "_prevWidth")
      else if k == "height" then Lookup(node, "_prevHeight")
      else if k in SideKeys then Absent
      else Lookup(node, k)
  {
  }

  /** Restoring after a layout that wrote only layout properties: `width` and
      `height` come from the side fields the layout did not touch, and all
      other non-layout properties are as before the layout. */
  lemma RestoreAfterLayout(n: Attrs, laidOut: Attrs)
    requires SameOutside(n, laidOut, LayoutKeys)
    ensures Lookup(RestoredNode(laidOut), "width") == Lookup(n, "_prevWidth")
    ensures Lookup(RestoredNode(laidOut), "height") == Lookup(n, "_prevHeight")
    ensures "_prevWidth" !in RestoredNode(laidOut) && "_prevHeight" !in RestoredNode(laidOut)
    ensures SameOutside(RestoredNode(laidOut), n, LayoutKeys + SideKeys)
  {
    var r := RestoredNode(laidOut);
    RestoredNodeSpec(laidOut, "width");
    RestoredNodeSpec(laidOut, "height");
    RestoredNodeSpec(laidOut, "_prevWidth");
    RestoredNodeSpec(laidOut, "_prevHeight");
    assert "_prevWidth" in laidOut - LayoutKeys <==> "_prevWidth" in n - LayoutKeys;
    assert "_prevHeight" in laidOut - LayoutKeys <==> "_prevHeight" in n - LayoutKeys;
    var a := r - (LayoutKeys + SideKeys);
    var b := n - (LayoutKeys + SideKeys);
    forall k ensures Lookup(a, k) == Lookup(b, k) {
      if k !in LayoutKeys + SideKeys {
        RestoredNodeSpec(laidOut, k);
        assert k in laidOut - LayoutKeys <==> k in n - LayoutKeys;
      }
    }
    SlotsDetermineAttrs(a, b);
  }

  /** Save then restore: whatever the layout engine writes in between, a
      node ends with `width` present exactly when it had a `width` (or a stale
      `_prevWidth`) before, holding that value; likewise `height`. No side
      field is left behind, and every property outside the layout's and the
      side fields is as pre-processing left it. */
  lemma DimensionsRoundTrip(v: NodeKey, isCluster: bool, node: Attrs, laidOut: Attrs)
    requires SameOutside(NormalizedNode(v, isCluster, node), laidOut, LayoutKeys)
    ensures Lookup(RestoredNode(laidOut), "width") ==
      (if "width" in node then Present(node["width"]) else Lookup(node, "_prevWidth"))
    ensures Lookup(RestoredNode(laidOut), "height") ==
      (if "height" in node then Present(node["height"]) else Lookup(node, "_prevHeight"))
    ensures "_prevWidth" !in RestoredNode(laidOut) && "_prevHeight" !in RestoredNode(laidOut)
    ensures SameOutside(RestoredNode(laidOut), NormalizedNode(v, isCluster, node), LayoutKeys + SideKeys)
  {
    RestoreAfterLayout(NormalizedNode(v, isCluster, node), laidOut);
    NormalizedNodeSpec(v, isCluster, node, "_prevWidth");
    NormalizedNodeSpec(v, isCluster, node, "_prevHeight");
  }

  /** When the caller left no stale side fields, a render gives every node
      back exactly the `width` and `height` it came with, or none. */
  lemma DimensionsRestoredExactly(v: NodeKey, isCluster: bool, node: Attrs, laidOut: Attrs)
    requires "_prevWidth" !in node && "_prevHeight" !in node
    requires SameOutside(NormalizedNode(v, isCluster, node), laidOut, LayoutKeys)
    ensures Lookup(RestoredNode(laidOut), "width") == Lookup(node, "width")
    ensures Lookup(RestoredNode(laidOut), "height") == Lookup(node, "height")
  {
    DimensionsRoundTrip(v, isCluster, node, laidOut);
  }
}
