/** The render function of lib/render.js as far as it concerns the graph:
    pre-processing, the (external) layout, the bounding box stored on the
    graph, and post-processing, in that order. The graph is an object whose
    node and edge attribute objects these steps change in place. */
module Render {
  import opened JsValues
  import opened Normalize
  import opened BoundingBox

  /** A graphlib edge: its two end nodes and an optional name. */
  datatype EdgeKey = EdgeKey(v: NodeKey, w: NodeKey, name: string)

  predicate Distinct<K(==)>(s: seq<K>) {
    forall i, j :: 0 <= i < j < |s| ==> s[i] != s[j]
  }

  /** `g.children(v).length`. */
  function ChildCount(children: map<NodeKey, seq<NodeKey>>, v: NodeKey): nat {
    if v in children then |children[v]| else 0
  }

  // ---------------------------------------------------------------------
  // The graph-wide passes as functions of the attribute maps

  /** The node attributes after the pre-processing loop has visited the
      nodes of `done`, one in-place update after another. */
  function NormalizeNodes(attrs: map<NodeKey, Attrs>, children: map<NodeKey, seq<NodeKey>>, done: seq<NodeKey>): (r: map<NodeKey, Attrs>)
    decreases |done|, 1
  {
    if done == [] then attrs else NormalizeLastNode(attrs, children, done)
  }

  /** The visit of the last node of `done`, after the ones before it. */
  function NormalizeLastNode(attrs: map<NodeKey, Attrs>, children: map<NodeKey, seq<NodeKey>>, done: seq<NodeKey>): (r: map<NodeKey, Attrs>)
    requires done != []
    decreases |done|, 0
  {
    var r := NormalizeNodes(attrs, children, done[..|done| - 1]);
    var v := done[|done| - 1];
    if v in r then r[v := NormalizedNode(v, ChildCount(children, v) > 0, r[v])] else r
  }

  /** One turn of the pre-processing loop: the node `order[i]`, which has an
      attribute object, is treated in place. */
  method VisitNode(ghost attrs: map<NodeKey, Attrs>, current: map<NodeKey, Attrs>,
                   children: map<NodeKey, seq<NodeKey>>, order: seq<NodeKey>, i: nat)
    returns (next: map<NodeKey, Attrs>)
    requires i < |order| && order[i] in current
    requires current == NormalizeNodes(attrs, children, order[..i])
    ensures next.Keys == current.Keys
    ensures next == NormalizeNodes(attrs, children, order[..i + 1])
  {
    var v := order[i];
    var node := NormalizeNodeAttrs(v, ChildCount(children, v) > 0, current[v]);
    next := current[v := node];
    assert order[..i + 1][..i] == order[..i];
  }

  /** The edge attributes after the pre-processing loop has visited the
      edges of `done`. */
  function NormalizeEdges(attrs: map<EdgeKey, Attrs>, done: seq<EdgeKey>): (r: map<EdgeKey, Attrs>)
  {
    if done == [] then attrs
    else
      var r := NormalizeEdges(attrs, done[..|done| - 1]);
      var e := done[|done| - 1];
      if e in r then r[e := NormalizedEdge(r[e])] else r
  }

  /** The node attributes after the post-processing loop has visited the
      nodes of `done`. */
  function RestoreNodes(attrs: map<NodeKey, Attrs>, done: seq<NodeKey>): (r: map<NodeKey, Attrs>)
  {
    if done == [] then attrs
    else
      var r := RestoreNodes(attrs, done[..|done| - 1]);
      var v := done[|done| - 1];
      if v in r then r[v := RestoredNode(r[v])] else r
  }

  /** One attribute object after the layout engine wrote `u`: only the layout
      properties of `u` are taken over. */
  function LaidOut(a: Attrs, u: Attrs): Attrs {
    a + map k | k in u && k in LayoutKeys :: u[k]
  }

  /** Every attribute object after layout. The layout engine may write the
      layout properties and nothing else. */
  function LayOutAll<K(==)>(attrs: map<K, Attrs>, layout: map<K, Attrs>): map<K, Attrs> {
    map k | k in attrs :: if k in layout then LaidOut(attrs[k], layout[k]) else attrs[k]
  }

  /** `keys.map(k => g.node(k))` for keys that all have attribute objects. */
  function AttrList<K(==)>(keys: seq<K>, attrs: map<K, Attrs>): (r: seq<Attrs>)
    requires forall i :: 0 <= i < |keys| ==> keys[i] in attrs
    ensures |r| == |keys|
    ensures forall i :: 0 <= i < |keys| ==> r[i] == attrs[keys[i]]
  {
    seq(|keys|, i requires 0 <= i < |keys| => attrs[keys[i]])
  }

  /** What a complete render leaves on the nodes: pre-processed, laid out and
      post-processed. */
  function RenderedNodes(attrs: map<NodeKey, Attrs>, children: map<NodeKey, seq<NodeKey>>, nodes: seq<NodeKey>,
                         layout: map<NodeKey, Attrs>): map<NodeKey, Attrs> {
    RestoreNodes(LayOutAll(NormalizeNodes(attrs, children, nodes), layout), nodes)
  }

  /** What a complete render leaves on the edges: pre-processed and laid out. */
  function RenderedEdges(attrs: map<EdgeKey, Attrs>, edges: seq<EdgeKey>, layout: map<EdgeKey, Attrs>): map<EdgeKey, Attrs> {
    LayOutAll(NormalizeEdges(attrs, edges), layout)
  }

  // ---------------------------------------------------------------------
  // The graph

  /** How a render ends: completed, stopped by pre-processing (a node or an
      edge without an attribute object), or stopped in the bounding-box loop
      (a laid-out edge without an array of points). */
  datatype Outcome = Done | PreFailed | BoxFailed

  class Graph {
    /** `g.nodes()`, in order. */
    const nodes: seq<NodeKey>
    /** `g.children(v)` for the compound graph's parents. */
    const children: map<NodeKey, seq<NodeKey>>
    /** `g.node(v)`; a node without an entry has an `undefined` label. */
    var nodeAttrs: map<NodeKey, Attrs>
    /** `g.edges()`, in order. */
    const edges: seq<EdgeKey>
    /** `g.edge(e)`; an edge without an entry has an `undefined` label. */
    var edgeAttrs: map<EdgeKey, Attrs>
    /** `graph.minX`, `graph.minY`, `graph.maxX`, `graph.maxY`. */
    var minX: Value
    var minY: Value
    var maxX: Value
    var maxY: Value

    /** graphlib lists each node and each edge once, and every attribute
        object belongs to a node or an edge of the graph. */
    predicate Valid()
      reads this
    {
      Distinct(nodes) && Distinct(edges) &&
      (forall v :: v in nodeAttrs ==> v in nodes) &&
      (forall e :: e in edgeAttrs ==> e in edges)
    }

    constructor (nodes: seq<NodeKey>, children: map<NodeKey, seq<NodeKey>>, nodeAttrs: map<NodeKey, Attrs>,
                 edges: seq<EdgeKey>, edgeAttrs: map<EdgeKey, Attrs>)
      requires Distinct(nodes) && Distinct(edges)
      requires forall v :: v in nodeAttrs ==> v in nodes
      requires forall e :: e in edgeAttrs ==> e in edges
      ensures Valid()
      ensures this.nodes == nodes && this.children == children && this.nodeAttrs == nodeAttrs
      ensures this.edges == edges && this.edgeAttrs == edgeAttrs
      ensures minX == Undefined && minY == Undefined && maxX == Undefined && maxY == Undefined
    {
      this.nodes := nodes;
      this.children := children;
      this.nodeAttrs := nodeAttrs;
      this.edges := edges;
      this.edgeAttrs := edgeAttrs;
      minX, minY, maxX, maxY := Undefined, Undefined, Undefined, Undefined;
    }

    /** `graph.minX` ... `graph.maxY` hold the corners of `b`. */
    predicate StoredBox(b: Box)
      reads this
    {
      minX == Num(b.minX) && minY == Num(b.minY) && maxX == Num(b.maxX) && maxY == Num(b.maxY)
    }

    /** Every node and every edge has an attribute object. */
    predicate AllAttrsPresent()
      reads this
    {
      (forall i :: 0 <= i < |nodes| ==> nodes[i] in nodeAttrs) &&
      (forall j :: 0 <= j < |edges| ==> edges[j] in edgeAttrs)
    }

    /** Pre-processing, started from the attribute maps `nodes0` and
        `edges0`, has treated the first `nodesDone` nodes, each of which has
        an attribute object, and then the first `edgesDone` edges, each of
        which has one too. It went on to the edges only once every node was
        treated, and it stopped at the first node or edge without an
        attribute object. */
    ghost predicate PreProcessedUpTo(nodes0: map<NodeKey, Attrs>, edges0: map<EdgeKey, Attrs>, nodesDone: nat, edgesDone: nat)
      reads this
    {
      nodesDone <= |nodes| && edgesDone <= |edges| &&
      (forall k :: 0 <= k < nodesDone ==> nodes[k] in nodes0) &&
      (nodesDone < |nodes| ==> nodes[nodesDone] !in nodes0 && edgesDone == 0) &&
      (forall k :: 0 <= k < edgesDone ==> edges[k] in edges0) &&
      (edgesDone < |edges| && nodesDone == |nodes| ==> edges[edgesDone] !in edges0) &&
      nodeAttrs == NormalizeNodes(nodes0, children, nodes[..nodesDone]) &&
      edgeAttrs == NormalizeEdges(edges0, edges[..edgesDone])
    }

    /** The node loop of `preProcessGraph(g)`. It stops, as the source
        throws, at the first node without an attribute object, and returns
        how many nodes it processed. */
    method PreProcessNodes() returns (i: nat)
      modifies this`nodeAttrs
      ensures i <= |nodes| && (i < |nodes| ==> nodes[i] !in old(nodeAttrs))
      ensures forall k :: 0 <= k < i ==> nodes[k] in old(nodeAttrs)
      ensures nodeAttrs.Keys == old(nodeAttrs).Keys
      ensures nodeAttrs == NormalizeNodes(old(nodeAttrs), children, nodes[..i])
    {
      ghost var before := nodeAttrs;
      var attrs := nodeAttrs;
      i := 0;
      while i < |nodes|
        invariant i <= |nodes|
        invariant forall k :: 0 <= k < i ==> nodes[k] in before
        invariant attrs.Keys == before.Keys
        invariant attrs == NormalizeNodes(before, children, nodes[..i])
      {
        var v := nodes[i];
        if v !in attrs {
          break;
        }
        attrs := VisitNode(before, attrs, children, nodes, i);
        i := i + 1;
      }
      nodeAttrs := attrs;
    }

    /** The edge loop of `preProcessGraph(g)`, likewise. */
    method PreProcessEdges() returns (j: nat)
      modifies this`edgeAttrs
      ensures j <= |edges| && (j < |edges| ==> edges[j] !in old(edgeAttrs))
      ensures forall k :: 0 <= k < j ==> edges[k] in old(edgeAttrs)
      ensures edgeAttrs.Keys == old(edgeAttrs).Keys
      ensures edgeAttrs == NormalizeEdges(old(edgeAttrs), edges[..j])
    {
      var attrs := edgeAttrs;
      j := 0;
      while j < |edges|
        invariant j <= |edges|
        invariant forall k :: 0 <= k < j ==> edges[k] in edgeAttrs
        invariant attrs.Keys == edgeAttrs.Keys
        invariant attrs == NormalizeEdges(edgeAttrs, edges[..j])
      {
        var e := edges[j];
        if e !in attrs {
          break;
        }
        assert edges[..j + 1][..j] == edges[..j];
        attrs := attrs[e := NormalizedEdge(attrs[e])];
        j := j + 1;
      }
      edgeAttrs := attrs;
    }

    /** `preProcessGraph(g)`: the nodes in order, then the edges in order. It
        throws at the first node or edge without an attribute object, leaving
        the ones before it processed and the rest untouched; the ghost results
        count the nodes and edges processed. */
    method PreProcessGraph() returns (ok: bool, ghost nodesDone: nat, ghost edgesDone: nat)
      requires Valid()
      modifies this`nodeAttrs, this`edgeAttrs
      ensures Valid()
      ensures PreProcessedUpTo(old(nodeAttrs), old(edgeAttrs), nodesDone, edgesDone)
      ensures ok <==> nodesDone == |nodes| && edgesDone == |edges|
      ensures ok <==> old(AllAttrsPresent())
      ensures nodeAttrs.Keys == old(nodeAttrs).Keys && edgeAttrs.Keys == old(edgeAttrs).Keys
    {
      var i := PreProcessNodes();
      nodesDone := i;
      if i < |nodes| {
        assert edges[..0] == [];
        return false, nodesDone, 0;
      }
      var j := PreProcessEdges();
      edgesDone := j;
      ok := j == |edges|;
    }

    /** `dagre.layout(g)`: the engine's results are parameters; it writes the
        layout properties of the nodes and edges and nothing else. */
    method Layout(nodeLayout: map<NodeKey, Attrs>, edgeLayout: map<EdgeKey, Attrs>)
      requires Valid()
      modifies this`nodeAttrs, this`edgeAttrs
      ensures Valid()
      ensures nodeAttrs == LayOutAll(old(nodeAttrs), nodeLayout)
      ensures edgeAttrs == LayOutAll(old(edgeAttrs), edgeLayout)
      ensures nodeAttrs.Keys == old(nodeAttrs).Keys && edgeAttrs.Keys == old(edgeAttrs).Keys
    {
      nodeAttrs := LayOutAll(nodeAttrs, nodeLayout);
      edgeAttrs := LayOutAll(edgeAttrs, edgeLayout);
    }

    /** The accumulator loops and `graph.minX = minX` ... `graph.maxY = maxY`.
        An edge without an array of points throws before the box is stored. */
    method ComputeBoundingBox() returns (ok: bool)
      requires AllAttrsPresent()
      modifies this`minX, this`minY, this`maxX, this`maxY
      ensures ok <==> forall j :: 0 <= j < |edges| ==> HasPointList(edgeAttrs[edges[j]])
      ensures ok ==> StoredBox(GraphBox(AttrList(nodes, nodeAttrs), AttrList(edges, edgeAttrs)))
      ensures !ok ==> unchanged(this`minX, this`minY, this`maxX, this`maxY)
    {
      var nodeList := AttrList(nodes, nodeAttrs);
      var edgeList := AttrList(edges, edgeAttrs);
      var box;
      ok, box := FoldBoundingBox(nodeList, edgeList);
      if ok {
        minX, minY, maxX, maxY := Num(box.minX), Num(box.minY), Num(box.maxX), Num(box.maxY);
      }
    }

    /** `postProcessGraph(g)`: each node in order. It throws at the first node
        without an attribute object, leaving the ones before it processed; the
        ghost result counts the nodes processed. */
    method PostProcessGraph() returns (ok: bool, ghost done: nat)
      requires Valid()
      modifies this`nodeAttrs
      ensures Valid()
      ensures done <= |nodes|
      ensures forall k :: 0 <= k < done ==> nodes[k] in old(nodeAttrs)
      ensures done < |nodes| ==> nodes[done] !in old(nodeAttrs)
      ensures ok <==> done == |nodes|
      ensures nodeAttrs.Keys == old(nodeAttrs).Keys
      ensures nodeAttrs == RestoreNodes(old(nodeAttrs), nodes[..done])
    {
      var attrs := nodeAttrs;
      var i := 0;
      while i < |nodes|
        invariant i <= |nodes|
        invariant forall k :: 0 <= k < i ==> nodes[k] in nodeAttrs
        invariant attrs.Keys == nodeAttrs.Keys
        invariant attrs == RestoreNodes(nodeAttrs, nodes[..i])
      {
        var v := nodes[i];
        if v !in attrs {
          break;
        }
        assert nodes[..i + 1][..i] == nodes[..i];
        attrs := attrs[v := RestoredNode(attrs[v])];
        i := i + 1;
      }
      nodeAttrs := attrs;
      ok, done := i == |nodes|, i;
    }

    /** The part of `fn(svg, g)` after pre-processing: layout, the bounding
        box, post-processing. The ghost result is the node attributes after
        layout. */
    method LayOutAndMeasure(nodeLayout: map<NodeKey, Attrs>, edgeLayout: map<EdgeKey, Attrs>)
      returns (ok: bool, ghost laidOut: map<NodeKey, Attrs>)
      requires Valid() && AllAttrsPresent()
      modifies this`nodeAttrs, this`edgeAttrs, this`minX, this`minY, this`maxX, this`maxY
      ensures Valid()
      ensures laidOut == LayOutAll(old(nodeAttrs), nodeLayout)
      ensures edgeAttrs == LayOutAll(old(edgeAttrs), edgeLayout)
      ensures (forall i :: 0 <= i < |nodes| ==> nodes[i] in laidOut) &&
              (forall j :: 0 <= j < |edges| ==> edges[j] in edgeAttrs)
      ensures ok ==>
        nodeAttrs == RestoreNodes(laidOut, nodes) &&
        StoredBox(GraphBox(AttrList(nodes, laidOut), AttrList(edges, edgeAttrs)))
      ensures !ok ==>
        nodeAttrs == laidOut && (exists j :: 0 <= j < |edges| && !HasPointList(edgeAttrs[edges[j]])) &&
        unchanged(this`minX, this`minY, this`maxX, this`maxY)
    {
      Layout(nodeLayout, edgeLayout);
      laidOut := nodeAttrs;
      ok := ComputeBoundingBox();
      if ok {
        var postOk, done := PostProcessGraph();
        assert nodes[..|nodes|] == nodes;
      }
    }

    /** The render function `fn(svg, g)` with the drawing left out:
        pre-processing, layout, the bounding box, post-processing. The ghost
        results are the node attributes after pre-processing and after
        layout, and how many nodes and edges pre-processing got through. */
    method Render(nodeLayout: map<NodeKey, Attrs>, edgeLayout: map<EdgeKey, Attrs>)
      returns (outcome: Outcome, ghost normalized: map<NodeKey, Attrs>, ghost laidOut: map<NodeKey, Attrs>,
               ghost nodesDone: nat, ghost edgesDone: nat)
      requires Valid()
      modifies this`nodeAttrs, this`edgeAttrs, this`minX, this`minY, this`maxX, this`maxY
      ensures Valid()
      ensures outcome == PreFailed <==> !old(AllAttrsPresent())
      ensures outcome == PreFailed ==>
        PreProcessedUpTo(old(nodeAttrs), old(edgeAttrs), nodesDone, edgesDone) &&
        (nodesDone < |nodes| || edgesDone < |edges|)
      ensures outcome != PreFailed ==>
        normalized == NormalizeNodes(old(nodeAttrs), children, nodes) &&
        laidOut == LayOutAll(normalized, nodeLayout) &&
        edgeAttrs == RenderedEdges(old(edgeAttrs), edges, edgeLayout) &&
        (forall i :: 0 <= i < |nodes| ==> nodes[i] in laidOut) &&
        (forall j :: 0 <= j < |edges| ==> edges[j] in edgeAttrs)
      ensures outcome == Done ==>
        nodeAttrs == RestoreNodes(laidOut, nodes) &&
        StoredBox(GraphBox(AttrList(nodes, laidOut), AttrList(edges, edgeAttrs)))
      ensures outcome == BoxFailed ==>
        nodeAttrs == laidOut && exists j :: 0 <= j < |edges| && !HasPointList(edgeAttrs[edges[j]])
      ensures outcome != Done ==> unchanged(this`minX, this`minY, this`maxX, this`maxY)
    {
      outcome, normalized, laidOut := PreFailed, nodeAttrs, nodeAttrs;
      var preOk;
      preOk, nodesDone, edgesDone := PreProcessGraph();
      if preOk {
        assert nodes[..|nodes|] == nodes && edges[..|edges|] == edges;
        normalized := nodeAttrs;
        var ok;
        ok, laidOut := LayOutAndMeasure(nodeLayout, edgeLayout);
        outcome := if ok then Done else BoxFailed;
      }
    }
  }

  // ---------------------------------------------------------------------
  // The graph-wide passes, key by key

  lemma DistinctPrefix<K>(s: seq<K>)
    requires Distinct(s) && s != []
    ensures Distinct(s[..|s| - 1]) && s[|s| - 1] !in s[..|s| - 1]
  {
  }

  /** Pre-processing keeps the node keys, and changes each visited node by the
      one-node treatment and no other. */
  lemma {:induction false} NormalizeNodesAt(attrs: map<NodeKey, Attrs>, children: map<NodeKey, seq<NodeKey>>, done: seq<NodeKey>, v: NodeKey)
    requires Distinct(done)
    ensures NormalizeNodes(attrs, children, done).Keys == attrs.Keys
    ensures v in attrs ==>
      NormalizeNodes(attrs, children, done)[v] ==
        (if v in done then NormalizedNode(v, ChildCount(children, v) > 0, attrs[v]) else attrs[v])
  {
    if done != [] {
      var init := done[..|done| - 1];
      DistinctPrefix(done);
      NormalizeNodesAt(attrs, children, init, v);
      assert v in done <==> v in init || v == done[|done| - 1];
    }
  }

  /** Pre-processing keeps the edge keys, and changes each visited edge by the
      one-edge treatment and no other. */
  lemma {:induction false} NormalizeEdgesAt(attrs: map<EdgeKey, Attrs>, done: seq<EdgeKey>, e: EdgeKey)
    requires Distinct(done)
    ensures NormalizeEdges(attrs, done).Keys == attrs.Keys
    ensures e in attrs ==> NormalizeEdges(attrs, done)[e] == (if e in done then NormalizedEdge(attrs[e]) else attrs[e])
  {
    if done != [] {
      var init := done[..|done| - 1];
      DistinctPrefix(done);
      NormalizeEdgesAt(attrs, init, e);
      assert e in done <==> e in init || e == done[|done| - 1];
    }
  }

  /** Post-processing keeps the node keys, and restores each visited node and
      no other. */
  lemma {:induction false} RestoreNodesAt(attrs: map<NodeKey, Attrs>, done: seq<NodeKey>, v: NodeKey)
    requires Distinct(done)
    ensures RestoreNodes(attrs, done).Keys == attrs.Keys
    ensures v in attrs ==> RestoreNodes(attrs, done)[v] == (if v in done then RestoredNode(attrs[v]) else attrs[v])
  {
    if done != [] {
      var init := done[..|done| - 1];
      DistinctPrefix(done);
      RestoreNodesAt(attrs, init, v);
      assert v in done <==> v in init || v == done[|done| - 1];
    }
  }

  /** Layout keeps the keys and changes nothing outside the layout properties. */
  lemma LayOutAllAt<K>(attrs: map<K, Attrs>, layout: map<K, Attrs>, k: K)
    ensures LayOutAll(attrs, layout).Keys == attrs.Keys
    ensures k in attrs ==> SameOutside(attrs[k], LayOutAll(attrs, layout)[k], LayoutKeys)
  {
    if k in attrs && k in layout {
      var a := attrs[k];
      var r := LaidOut(a, layout[k]);
      assert a - LayoutKeys == r - LayoutKeys;
    }
  }

  // ---------------------------------------------------------------------
  // Properties of a render

  /** Pre-processing the whole graph twice gives what pre-processing it once
      gives. */
  lemma PreProcessIdempotent(nodeAttrs: map<NodeKey, Attrs>, children: map<NodeKey, seq<NodeKey>>, nodes: seq<NodeKey>,
                             edgeAttrs: map<EdgeKey, Attrs>, edges: seq<EdgeKey>)
    requires Distinct(nodes) && Distinct(edges)
    ensures NormalizeNodes(NormalizeNodes(nodeAttrs, children, nodes), children, nodes) == NormalizeNodes(nodeAttrs, children, nodes)
    ensures NormalizeEdges(NormalizeEdges(edgeAttrs, edges), edges) == NormalizeEdges(edgeAttrs, edges)
  {
    var n1 := NormalizeNodes(nodeAttrs, children, nodes);
    var n2 := NormalizeNodes(n1, children, nodes);
    NormalizeNodesAt(nodeAttrs, children, nodes, "");
    NormalizeNodesAt(n1, children, nodes, "");
    forall v | v in nodeAttrs ensures v in n1 && v in n2 && n2[v] == n1[v] {
      NormalizeNodesAt(nodeAttrs, children, nodes, v);
      NormalizeNodesAt(n1, children, nodes, v);
      if v in nodes {
        NormalizedNodeIdempotent(v, ChildCount(children, v) > 0, nodeAttrs[v]);
      }
    }
    var e1 := NormalizeEdges(edgeAttrs, edges);
    var e2 := NormalizeEdges(e1, edges);
    NormalizeEdgesAt(edgeAttrs, edges, EdgeKey("", "", ""));
    NormalizeEdgesAt(e1, edges, EdgeKey("", "", ""));
    forall e | e in edgeAttrs ensures e in e1 && e in e2 && e2[e] == e1[e] {
      NormalizeEdgesAt(edgeAttrs, edges, e);
      NormalizeEdgesAt(e1, edges, e);
      if e in edges {
        NormalizedEdgeIdempotent(edgeAttrs[e]);
      }
    }
  }

  /** A complete render keeps every node key and every edge key. */
  lemma RenderKeepsGraph(nodeAttrs: map<NodeKey, Attrs>, children: map<NodeKey, seq<NodeKey>>, nodes: seq<NodeKey>,
                         nodeLayout: map<NodeKey, Attrs>, edgeAttrs: map<EdgeKey, Attrs>, edges: seq<EdgeKey>,
                         edgeLayout: map<EdgeKey, Attrs>)
    requires Distinct(nodes) && Distinct(edges)
    ensures RenderedNodes(nodeAttrs, children, nodes, nodeLayout).Keys == nodeAttrs.Keys
    ensures RenderedEdges(edgeAttrs, edges, edgeLayout).Keys == edgeAttrs.Keys
  {
    var n := NormalizeNodes(nodeAttrs, children, nodes);
    NormalizeNodesAt(nodeAttrs, children, nodes, "");
    LayOutAllAt(n, nodeLayout, "");
    RestoreNodesAt(LayOutAll(n, nodeLayout), nodes, "");
    NormalizeEdgesAt(edgeAttrs, edges, EdgeKey("", "", ""));
    LayOutAllAt(NormalizeEdges(edgeAttrs, edges), edgeLayout, EdgeKey("", "", ""));
  }

  /** A node after a complete render: pre-processed, then laid out, then
      restored. */
  lemma RenderedNodeAt(attrs: map<NodeKey, Attrs>, children: map<NodeKey, seq<NodeKey>>, nodes: seq<NodeKey>,
                       layout: map<NodeKey, Attrs>, v: NodeKey)
    requires Distinct(nodes) && v in nodes && v in attrs
    ensures v in RenderedNodes(attrs, children, nodes, layout)
    ensures v in LayOutAll(NormalizeNodes(attrs, children, nodes), layout)
    ensures var laid := LayOutAll(NormalizeNodes(attrs, children, nodes), layout)[v];
      SameOutside(NormalizedNode(v, ChildCount(children, v) > 0, attrs[v]), laid, LayoutKeys) &&
      RenderedNodes(attrs, children, nodes, layout)[v] == RestoredNode(laid)
  {
    var n := NormalizeNodes(attrs, children, nodes);
    NormalizeNodesAt(attrs, children, nodes, v);
    LayOutAllAt(n, layout, v);
    RestoreNodesAt(LayOutAll(n, layout), nodes, v);
  }

  /** After a complete render, whatever the layout engine wrote, every node
      has the `width` and `height` it came with (from a stale side field when
      it had none), has no side field, and every property outside the layout
      properties and the side fields is as pre-processing made it. */
  lemma RenderedNodeDimensions(attrs: map<NodeKey, Attrs>, children: map<NodeKey, seq<NodeKey>>, nodes: seq<NodeKey>,
                               layout: map<NodeKey, Attrs>, v: NodeKey)
    requires Distinct(nodes) && v in nodes && v in attrs
    ensures v in RenderedNodes(attrs, children, nodes, layout)
    ensures var r := RenderedNodes(attrs, children, nodes, layout)[v];
      var node := attrs[v];
      Lookup(r, "width") == (if "width" in node then Present(node["width"]) else Lookup(node, "_prevWidth")) &&
      Lookup(r, "height") == (if "height" in node then Present(node["height"]) else Lookup(node, "_prevHeight")) &&
      "_prevWidth" !in r && "_prevHeight" !in r &&
      SameOutside(r, NormalizedNode(v, ChildCount(children, v) > 0, node), LayoutKeys + SideKeys)
  {
    RenderedNodeAt(attrs, children, nodes, layout, v);
    var laid := LayOutAll(NormalizeNodes(attrs, children, nodes), layout)[v];
    DimensionsRoundTrip(v, ChildCount(children, v) > 0, attrs[v], laid);
  }

  /** After a complete render, each property of a node other than the layout
      properties and the side fields is what the pre-processing reference
      says: defaults filled, paddings resolved and coerced, the label
      defaulted, everything else untouched. */
  lemma RenderedNodeSpec(attrs: map<NodeKey, Attrs>, children: map<NodeKey, seq<NodeKey>>, nodes: seq<NodeKey>,
                         layout: map<NodeKey, Attrs>, v: NodeKey, k: string)
    requires Distinct(nodes) && v in nodes && v in attrs && k !in LayoutKeys && k !in SideKeys
    ensures v in RenderedNodes(attrs, children, nodes, layout)
    ensures Lookup(RenderedNodes(attrs, children, nodes, layout)[v], k) ==
      ExpectedNodeSlot(v, ChildCount(children, v) > 0, attrs[v], k)
  {
    var isCluster := ChildCount(children, v) > 0;
    RenderedNodeDimensions(attrs, children, nodes, layout, v);
    var r := RenderedNodes(attrs, children, nodes, layout)[v];
    NormalizedNodeSpec(v, isCluster, attrs[v], k);
    assert k in r - (LayoutKeys + SideKeys) <==> k in NormalizedNode(v, isCluster, attrs[v]) - (LayoutKeys + SideKeys);
  }

  /** After a complete render, each property of an edge other than the layout
      properties is what the edge pre-processing reference says. */
  lemma RenderedEdgeSpec(attrs: map<EdgeKey, Attrs>, edges: seq<EdgeKey>, layout: map<EdgeKey, Attrs>, e: EdgeKey, k: string)
    requires Distinct(edges) && e in edges && e in attrs && k !in LayoutKeys
    ensures e in RenderedEdges(attrs, edges, layout)
    ensures Lookup(RenderedEdges(attrs, edges, layout)[e], k) == ExpectedEdgeSlot(attrs[e], k)
  {
    var n := NormalizeEdges(attrs, edges);
    NormalizeEdgesAt(attrs, edges, e);
    LayOutAllAt(n, layout, e);
    var r := RenderedEdges(attrs, edges, layout)[e];
    NormalizedEdgeSpec(attrs[e], k);
    assert k in r - LayoutKeys <==> k in n[e] - LayoutKeys;
  }
}
