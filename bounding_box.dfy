/** The extent of the laid-out drawing, computed between layout and
    positioning (lib/render.js, the accumulator loops of the render function).
    Four accumulators start at fixed sentinels and are folded with
    `Math.min`/`Math.max` over every node box, every edge label box whose
    `label`, `x` and `y` are defined, and every interior point of every edge
    route. */
module BoundingBox {
  import opened JsValues

  /** minX, minY, maxX, maxY. */
  datatype Box = Box(minX: JsNum, minY: JsNum, maxX: JsNum, maxY: JsNum)

  /** The accumulators' starting values: 1000, 1000, -1000, -1000. */
  const Sentinel: Box := Box(Finite(1000.0), Finite(1000.0), Finite(-1000.0), Finite(-1000.0))

  /** One accumulator step. */
  function Extend(acc: Box, b: Box): Box {
    Box(Min(acc.minX, b.minX), Min(acc.minY, b.minY), Max(acc.maxX, b.maxX), Max(acc.maxY, b.maxY))
  }

  /** The accumulators after folding `bs` in order, starting from `acc`. */
  function FoldBoxes(acc: Box, bs: seq<Box>): Box {
    if bs == [] then acc else Extend(FoldBoxes(acc, bs[..|bs| - 1]), bs[|bs| - 1])
  }

  /** The box of something centred at (`x`, `y`) with size `width` x
      `height`: `x - width / 2` ... `y + height / 2`. The properties are read
      as numbers, so a missing one gives NaN. */
  function CentredBox(m: Attrs): Box {
    var x := ToNumber(Get(m, "x"));
    var y := ToNumber(Get(m, "y"));
    var hw := Half(ToNumber(Get(m, "width")));
    var hh := Half(ToNumber(Get(m, "height")));
    Box(Sub(x, hw), Sub(y, hh), Add(x, hw), Add(y, hh))
  }

  function PointBox(p: Point): Box {
    Box(p.x, p.y, p.x, p.y)
  }

  /** `edge.label !== undefined && edge.x !== undefined && edge.y !== undefined`. */
  predicate HasLabelBox(edge: Attrs) {
    Defined(edge, "label") && Defined(edge, "x") && Defined(edge, "y")
  }

  /** The edge's `points` property holds an array of points. */
  predicate HasPointList(edge: Attrs) {
    "points" in edge && edge["points"].Points?
  }

  function PointsOf(edge: Attrs): seq<Point> {
    if HasPointList(edge) then edge["points"].ps else []
  }

  /** `points.slice(1, points.length - 1)`: the route without its two ends. */
  function Interior(ps: seq<Point>): (r: seq<Point>)
    ensures |r| == if |ps| >= 2 then |ps| - 2 else 0
    ensures forall i :: 0 <= i < |r| ==> r[i] == ps[i + 1]
  {
    if |ps| <= 2 then [] else ps[1..|ps| - 1]
  }

  function NodeBoxes(nodes: seq<Attrs>): seq<Box> {
    if nodes == [] then [] else NodeBoxes(nodes[..|nodes| - 1]) + [CentredBox(nodes[|nodes| - 1])]
  }

  function PointBoxes(ps: seq<Point>): seq<Box> {
    if ps == [] then [] else PointBoxes(ps[..|ps| - 1]) + [PointBox(ps[|ps| - 1])]
  }

  function LabelBoxes(edge: Attrs): seq<Box> {
    if HasLabelBox(edge) then [CentredBox(edge)] else []
  }

  /** What one edge contributes, in the order it is folded. */
  function EdgeBoxes(edge: Attrs): seq<Box> {
    LabelBoxes(edge) + PointBoxes(Interior(PointsOf(edge)))
  }

  /** The parts laid end to end. */
  function Concat(parts: seq<seq<Box>>): seq<Box> {
    if parts == [] then [] else Concat(parts[..|parts| - 1]) + parts[|parts| - 1]
  }

  /** The contributions of each edge, edge by edge. */
  function EdgeBoxLists(edges: seq<Attrs>): (r: seq<seq<Box>>)
    ensures |r| == |edges|
  {
    seq(|edges|, j requires 0 <= j < |edges| => EdgeBoxes(edges[j]))
  }

  function AllEdgeBoxes(edges: seq<Attrs>): seq<Box> {
    Concat(EdgeBoxLists(edges))
  }

  /** Every box the accumulators see, nodes first, then edge by edge. */
  function Contributions(nodes: seq<Attrs>, edges: seq<Attrs>): seq<Box> {
    NodeBoxes(nodes) + AllEdgeBoxes(edges)
  }

  /** The accumulators after the edge loop, edge by edge from `acc`. */
  function FoldEdges(acc: Box, edges: seq<Attrs>): Box {
    if edges == [] then acc else FoldBoxes(FoldEdges(acc, edges[..|edges| - 1]), EdgeBoxes(edges[|edges| - 1]))
  }

  /** The stored `minX`/`minY`/`maxX`/`maxY`: the node loop from the
      sentinels, then the edge loop. */
  function GraphBox(nodes: seq<Attrs>, edges: seq<Attrs>): Box {
    FoldEdges(FoldBoxes(Sentinel, NodeBoxes(nodes)), edges)
  }

  // ---------------------------------------------------------------------
  // The loops

  lemma FoldBoxesSnoc(acc: Box, bs: seq<Box>, b: Box)
    ensures FoldBoxes(acc, bs + [b]) == Extend(FoldBoxes(acc, bs), b)
  {
    assert (bs + [b])[..|bs|] == bs;
  }

  /** Folding a concatenation is folding the second part from where the first
      part left the accumulators. */
  lemma {:induction false} FoldBoxesAppend(acc: Box, a: seq<Box>, b: seq<Box>)
    ensures FoldBoxes(acc, a + b) == FoldBoxes(FoldBoxes(acc, a), b)
    decreases |b|
  {
    if b == [] {
      assert a + b == a;
    } else {
      var init := b[..|b| - 1];
      var last := b[|b| - 1];
      assert b == init + [last];
      assert a + b == (a + init) + [last];
      FoldBoxesAppend(acc, a, init);
      FoldBoxesSnoc(acc, a + init, last);
      FoldBoxesSnoc(FoldBoxes(acc, a), init, last);
    }
  }

  /** The body of the edge loop: the label box when `label`, `x` and `y` are
      defined, then each interior point. It fails, as `edge.points.slice`
      throws, when the edge has no array of points. */
  method FoldEdge(acc: Box, edge: Attrs) returns (ok: bool, r: Box)
    ensures ok == HasPointList(edge)
    ensures ok ==> r == FoldBoxes(acc, EdgeBoxes(edge))
  {
    var minX, minY, maxX, maxY := acc.minX, acc.minY, acc.maxX, acc.maxY;
    if Defined(edge, "label") && Defined(edge, "x") && Defined(edge, "y") {
      var x, y := ToNumber(Get(edge, "x")), ToNumber(Get(edge, "y"));
      var w, h := ToNumber(Get(edge, "width")), ToNumber(Get(edge, "height"));
      minX := Min(minX, Sub(x, Half(w)));
      minY := Min(minY, Sub(y, Half(h)));
      maxX := Max(maxX, Add(x, Half(w)));
      maxY := Max(maxY, Add(y, Half(h)));
    }
    var labelled := Box(minX, minY, maxX, maxY);
    assert labelled == FoldBoxes(acc, LabelBoxes(edge)) by {
      if HasLabelBox(edge) {
        FoldBoxesSnoc(acc, [], CentredBox(edge));
      }
    }
    if !HasPointList(edge) {
      return false, labelled;
    }
    var points := Interior(edge["points"].ps);
    var k := 0;
    while k < |points|
      invariant 0 <= k <= |points|
      invariant Box(minX, minY, maxX, maxY) == FoldBoxes(labelled, PointBoxes(points[..k]))
    {
      var point := points[k];
      minX := Min(minX, point.x);
      minY := Min(minY, point.y);
      maxX := Max(maxX, point.x);
      maxY := Max(maxY, point.y);
      assert points[..k + 1][..k] == points[..k];
      FoldBoxesSnoc(labelled, PointBoxes(points[..k]), PointBox(point));
      k := k + 1;
    }
    assert points[..k] == points;
    FoldBoxesAppend(acc, LabelBoxes(edge), PointBoxes(points));
    ok, r := true, Box(minX, minY, maxX, maxY);
  }

  lemma FoldEdgesPrefix(acc: Box, edges: seq<Attrs>, j: nat)
    requires j < |edges|
    ensures FoldEdges(acc, edges[..j + 1]) == FoldBoxes(FoldEdges(acc, edges[..j]), EdgeBoxes(edges[j]))
  {
    assert edges[..j + 1][..j] == edges[..j];
  }

  /** The edge loop folds exactly the boxes of all edges, in order. */
  lemma AllEdgeBoxesSnoc(edges: seq<Attrs>)
    requires edges != []
    ensures AllEdgeBoxes(edges) == AllEdgeBoxes(edges[..|edges| - 1]) + EdgeBoxes(edges[|edges| - 1])
  {
    assert EdgeBoxLists(edges)[..|edges| - 1] == EdgeBoxLists(edges[..|edges| - 1]);
  }

  /** The edge loop folds exactly the boxes of all edges, in order. */
  lemma {:induction false} FoldEdgesFlat(acc: Box, edges: seq<Attrs>)
    ensures FoldEdges(acc, edges) == FoldBoxes(acc, AllEdgeBoxes(edges))
  {
    if edges == [] {
      assert AllEdgeBoxes(edges) == [];
    } else {
      var init := edges[..|edges| - 1];
      FoldEdgesFlat(acc, init);
      AllEdgeBoxesSnoc(edges);
      FoldBoxesAppend(acc, AllEdgeBoxes(init), EdgeBoxes(edges[|edges| - 1]));
    }
  }

  /** The stored box is the fold of every contribution from the sentinels. */
  lemma GraphBoxFlat(nodes: seq<Attrs>, edges: seq<Attrs>)
    ensures GraphBox(nodes, edges) == FoldBoxes(Sentinel, Contributions(nodes, edges))
  {
    FoldEdgesFlat(FoldBoxes(Sentinel, NodeBoxes(nodes)), edges);
    FoldBoxesAppend(Sentinel, NodeBoxes(nodes), AllEdgeBoxes(edges));
  }

  /** The node loop: the sentinels, then each node's box in turn. */
  method FoldNodes(nodes: seq<Attrs>) returns (box: Box)
    ensures box == FoldBoxes(Sentinel, NodeBoxes(nodes))
  {
    var minX, minY, maxX, maxY := Finite(1000.0), Finite(1000.0), Finite(-1000.0), Finite(-1000.0);
    var i := 0;
    while i < |nodes|
      invariant 0 <= i <= |nodes|
      invariant Box(minX, minY, maxX, maxY) == FoldBoxes(Sentinel, NodeBoxes(nodes[..i]))
    {
      var node := nodes[i];
      var x, y := ToNumber(Get(node, "x")), ToNumber(Get(node, "y"));
      var w, h := ToNumber(Get(node, "width")), ToNumber(Get(node, "height"));
      minX := Min(minX, Sub(x, Half(w)));
      minY := Min(minY, Sub(y, Half(h)));
      maxX := Max(maxX, Add(x, Half(w)));
      maxY := Max(maxY, Add(y, Half(h)));
      assert nodes[..i + 1][..i] == nodes[..i];
      i := i + 1;
    }
    assert nodes[..i] == nodes;
    box := Box(minX, minY, maxX, maxY);
  }

  /** The accumulator loops over the laid-out nodes and edges. They fail when
      an edge has no array of points. */
  method FoldBoundingBox(nodes: seq<Attrs>, edges: seq<Attrs>) returns (ok: bool, box: Box)
    ensures ok <==> forall j :: 0 <= j < |edges| ==> HasPointList(edges[j])
    ensures ok ==> box == GraphBox(nodes, edges)
  {
    box := FoldNodes(nodes);
    ghost var nodesBox := box;
    var j := 0;
    while j < |edges|
      invariant 0 <= j <= |edges|
      invariant forall k :: 0 <= k < j ==> HasPointList(edges[k])
      invariant box == FoldEdges(nodesBox, edges[..j])
    {
      var edgeOk, next := FoldEdge(box, edges[j]);
      if !edgeOk {
        return false, box;
      }
      assert forall k :: 0 <= k < j + 1 ==> HasPointList(edges[k]);
      FoldEdgesPrefix(nodesBox, edges, j);
      box := next;
      j := j + 1;
    }
    assert edges[..j] == edges;
    ok := true;
  }

  // ---------------------------------------------------------------------
  // What the fold computes

  datatype Corner = MinX | MinY | MaxX | MaxY

  function At(b: Box, c: Corner): JsNum {
    match c
    case MinX => b.minX
    case MinY => b.minY
    case MaxX => b.maxX
    case MaxY => b.maxY
  }

  predicate IsLow(c: Corner) {
    c == MinX || c == MinY
  }

  /** `r` lies at or beyond `x` on side `c`: both are numbers, and `r <= x`
      for a minimum, `r >= x` for a maximum. */
  predicate Beyond(c: Corner, r: JsNum, x: JsNum) {
    r.Finite? && x.Finite? && (if IsLow(c) then r.r <= x.r else r.r >= x.r)
  }

  lemma ExtendAt(acc: Box, b: Box, c: Corner)
    ensures At(Extend(acc, b), c) == if IsLow(c) then Min(At(acc, c), At(b, c)) else Max(At(acc, c), At(b, c))
  {
  }

  /** A numeric result lies beyond the start and beyond every folded box. */
  lemma {:induction false} FoldBoxesEncloses(acc: Box, bs: seq<Box>, c: Corner)
    ensures At(FoldBoxes(acc, bs), c).Finite? ==>
      Beyond(c, At(FoldBoxes(acc, bs), c), At(acc, c)) &&
      forall b :: b in bs ==> Beyond(c, At(FoldBoxes(acc, bs), c), At(b, c))
  {
    if bs != [] {
      var init := bs[..|bs| - 1];
      assert bs == init + [bs[|bs| - 1]];
      FoldBoxesEncloses(acc, init, c);
      ExtendAt(FoldBoxes(acc, init), bs[|bs| - 1], c);
    }
  }

  /** The result is the start value or the value of one of the folded boxes. */
  lemma {:induction false} FoldBoxesAttained(acc: Box, bs: seq<Box>, c: Corner)
    ensures At(FoldBoxes(acc, bs), c) == At(acc, c) ||
      exists b :: b in bs && At(FoldBoxes(acc, bs), c) == At(b, c)
  {
    if bs != [] {
      var init := bs[..|bs| - 1];
      assert bs == init + [bs[|bs| - 1]];
      FoldBoxesAttained(acc, init, c);
      ExtendAt(FoldBoxes(acc, init), bs[|bs| - 1], c);
    }
  }

  /** The result is NaN exactly when the start or some folded box is NaN. */
  lemma {:induction false} FoldBoxesNaN(acc: Box, bs: seq<Box>, c: Corner)
    ensures At(FoldBoxes(acc, bs), c).NaN? <==>
      At(acc, c).NaN? || exists b :: b in bs && At(b, c).NaN?
  {
    if bs != [] {
      var init := bs[..|bs| - 1];
      assert bs == init + [bs[|bs| - 1]];
      FoldBoxesNaN(acc, init, c);
      ExtendAt(FoldBoxes(acc, init), bs[|bs| - 1], c);
    }
  }

  // ---------------------------------------------------------------------
  // Which boxes are folded

  lemma {:induction false} NodeBoxesAt(nodes: seq<Attrs>)
    ensures |NodeBoxes(nodes)| == |nodes|
    ensures forall i :: 0 <= i < |nodes| ==> NodeBoxes(nodes)[i] == CentredBox(nodes[i])
  {
    if nodes != [] {
      NodeBoxesAt(nodes[..|nodes| - 1]);
    }
  }

  lemma {:induction false} PointBoxesAt(ps: seq<Point>)
    ensures |PointBoxes(ps)| == |ps|
    ensures forall i :: 0 <= i < |ps| ==> PointBoxes(ps)[i] == PointBox(ps[i])
  {
    if ps != [] {
      PointBoxesAt(ps[..|ps| - 1]);
    }
  }

  /** The box of the `k`-th interior point of edge `j`. */
  function InteriorPointBox(edges: seq<Attrs>, j: nat, k: nat): Box
    requires j < |edges| && k < |Interior(PointsOf(edges[j]))|
  {
    PointBox(Interior(PointsOf(edges[j]))[k])
  }

  /** Every box of a part lands in the concatenation. */
  lemma {:induction false} ConcatComplete(parts: seq<seq<Box>>, j: nat, b: Box)
    requires j < |parts| && b in parts[j]
    ensures b in Concat(parts)
  {
    var init := parts[..|parts| - 1];
    if j < |parts| - 1 {
      assert init[j] == parts[j];
      ConcatComplete(init, j, b);
    }
  }

  /** Every box of the concatenation comes from some part. */
  lemma {:induction false} ConcatSound(parts: seq<seq<Box>>, b: Box)
    requires b in Concat(parts)
    ensures exists j :: 0 <= j < |parts| && b in parts[j]
  {
    var init := parts[..|parts| - 1];
    if b !in parts[|parts| - 1] {
      ConcatSound(init, b);
      var j :| 0 <= j < |init| && b in init[j];
      assert init[j] == parts[j];
    }
  }

  /** Every box an edge contributes lands among the boxes of all edges. */
  lemma AllEdgeBoxesComplete(edges: seq<Attrs>, j: nat, b: Box)
    requires j < |edges| && b in EdgeBoxes(edges[j])
    ensures b in AllEdgeBoxes(edges)
  {
    ConcatComplete(EdgeBoxLists(edges), j, b);
  }

  /** Every box among those of all edges comes from some edge. */
  lemma AllEdgeBoxesSound(edges: seq<Attrs>, b: Box)
    requires b in AllEdgeBoxes(edges)
    ensures exists j :: 0 <= j < |edges| && b in EdgeBoxes(edges[j])
  {
    ConcatSound(EdgeBoxLists(edges), b);
    var j :| 0 <= j < |edges| && b in EdgeBoxLists(edges)[j];
    assert EdgeBoxLists(edges)[j] == EdgeBoxes(edges[j]);
  }

  /** The boxes of one edge: its label box when it has one, and one box per
      interior route point. */
  lemma EdgeBoxesMembers(edges: seq<Attrs>, j: nat)
    requires j < |edges|
    ensures HasLabelBox(edges[j]) ==> CentredBox(edges[j]) in EdgeBoxes(edges[j])
    ensures forall k :: 0 <= k < |Interior(PointsOf(edges[j]))| ==> InteriorPointBox(edges, j, k) in EdgeBoxes(edges[j])
    ensures forall b :: b in EdgeBoxes(edges[j]) ==>
      (HasLabelBox(edges[j]) && b == CentredBox(edges[j])) ||
      exists k :: 0 <= k < |Interior(PointsOf(edges[j]))| && b == InteriorPointBox(edges, j, k)
  {
    var ps := Interior(PointsOf(edges[j]));
    PointBoxesAt(ps);
    forall k | 0 <= k < |ps| ensures InteriorPointBox(edges, j, k) in EdgeBoxes(edges[j]) {
      assert PointBoxes(ps)[k] == InteriorPointBox(edges, j, k);
    }
    forall b | b in PointBoxes(ps)
      ensures exists k :: 0 <= k < |ps| && b == InteriorPointBox(edges, j, k)
    {
      var k :| 0 <= k < |PointBoxes(ps)| && PointBoxes(ps)[k] == b;
      assert b == InteriorPointBox(edges, j, k);
    }
  }

  /** `r` lies on side `c` at or beyond every node box, every edge label box
      whose `label`, `x` and `y` are defined, and every interior route point. */
  predicate EnclosesContributions(c: Corner, r: JsNum, nodes: seq<Attrs>, edges: seq<Attrs>) {
    (forall i :: 0 <= i < |nodes| ==> Beyond(c, r, At(CentredBox(nodes[i]), c))) &&
    (forall j :: 0 <= j < |edges| && HasLabelBox(edges[j]) ==> Beyond(c, r, At(CentredBox(edges[j]), c))) &&
    (forall j, k :: 0 <= j < |edges| && 0 <= k < |Interior(PointsOf(edges[j]))| ==>
       Beyond(c, r, At(InteriorPointBox(edges, j, k), c)))
  }

  /** `r` is side `c` of some node box, defined edge label box or interior
      route point. */
  predicate AttainedByContribution(c: Corner, r: JsNum, nodes: seq<Attrs>, edges: seq<Attrs>) {
    (exists i :: 0 <= i < |nodes| && r == At(CentredBox(nodes[i]), c)) ||
    (exists j :: 0 <= j < |edges| && HasLabelBox(edges[j]) && r == At(CentredBox(edges[j]), c)) ||
    (exists j, k :: 0 <= j < |edges| && 0 <= k < |Interior(PointsOf(edges[j]))| &&
       r == At(InteriorPointBox(edges, j, k), c))
  }

  /** Whatever lies beyond every contribution encloses the node boxes, the
      label boxes and the interior points. */
  lemma EnclosesFromMembers(nodes: seq<Attrs>, edges: seq<Attrs>, c: Corner, r: JsNum)
    requires forall b :: b in Contributions(nodes, edges) ==> Beyond(c, r, At(b, c))
    ensures EnclosesContributions(c, r, nodes, edges)
  {
    var bs := Contributions(nodes, edges);
    NodeBoxesAt(nodes);
    forall i | 0 <= i < |nodes| ensures Beyond(c, r, At(CentredBox(nodes[i]), c)) {
      assert bs[i] == CentredBox(nodes[i]);
    }
    forall j | 0 <= j < |edges| && HasLabelBox(edges[j]) ensures Beyond(c, r, At(CentredBox(edges[j]), c)) {
      EdgeBoxesMembers(edges, j);
      AllEdgeBoxesComplete(edges, j, CentredBox(edges[j]));
    }
    forall j, k | 0 <= j < |edges| && 0 <= k < |Interior(PointsOf(edges[j]))|
      ensures Beyond(c, r, At(InteriorPointBox(edges, j, k), c))
    {
      EdgeBoxesMembers(edges, j);
      AllEdgeBoxesComplete(edges, j, InteriorPointBox(edges, j, k));
    }
  }

  /** A side of one contribution is a side of a node box, a label box or an
      interior point. */
  lemma AttainedFromMember(nodes: seq<Attrs>, edges: seq<Attrs>, c: Corner, b: Box)
    requires b in Contributions(nodes, edges)
    ensures AttainedByContribution(c, At(b, c), nodes, edges)
  {
    if b in NodeBoxes(nodes) {
      NodeBoxesAt(nodes);
      var i :| 0 <= i < |NodeBoxes(nodes)| && NodeBoxes(nodes)[i] == b;
      assert At(b, c) == At(CentredBox(nodes[i]), c);
    } else {
      AllEdgeBoxesSound(edges, b);
      var j :| 0 <= j < |edges| && b in EdgeBoxes(edges[j]);
      EdgeBoxesMembers(edges, j);
    }
  }

  /** The stored box encloses the sentinels, every node box, every defined
      edge label box and every interior route point; it is a number at all only
      when each of these is. */
  lemma GraphBoxEncloses(nodes: seq<Attrs>, edges: seq<Attrs>, c: Corner)
    ensures var r := At(GraphBox(nodes, edges), c);
      r.Finite? ==> Beyond(c, r, At(Sentinel, c)) && EnclosesContributions(c, r, nodes, edges)
  {
    var r := At(GraphBox(nodes, edges), c);
    GraphBoxFlat(nodes, edges);
    FoldBoxesEncloses(Sentinel, Contributions(nodes, edges), c);
    if r.Finite? {
      EnclosesFromMembers(nodes, edges, c, r);
    }
  }

  /** The stored box is attained: each corner is its sentinel, or the value of
      some node box, edge label box or interior route point. */
  lemma GraphBoxAttained(nodes: seq<Attrs>, edges: seq<Attrs>, c: Corner)
    ensures var r := At(GraphBox(nodes, edges), c);
      r == At(Sentinel, c) || AttainedByContribution(c, r, nodes, edges)
  {
    var bs := Contributions(nodes, edges);
    var r := At(GraphBox(nodes, edges), c);
    GraphBoxFlat(nodes, edges);
    FoldBoxesAttained(Sentinel, bs, c);
    if r != At(Sentinel, c) {
      var b :| b in bs && r == At(b, c);
      AttainedFromMember(nodes, edges, c, b);
    }
  }

  /** A graph with no nodes and no edges keeps the sentinels, so that
      `minX > maxX`. */
  lemma EmptyGraphBox()
    ensures GraphBox([], []) == Sentinel
    ensures GraphBox([], []).minX.r > GraphBox([], []).maxX.r
  {
  }

  /** The attribute object of a node centred at (`x`, `y`), `w` wide and
      `h` high. */
  function NodeAt(x: real, y: real, w: real, h: real): Attrs {
    map["x" := Num(Finite(x)), "y" := Num(Finite(y)), "width" := Num(Finite(w)), "height" := Num(Finite(h))]
  }

  lemma CentredBoxAt(x: real, y: real, w: real, h: real)
    ensures CentredBox(NodeAt(x, y, w, h)) ==
      Box(Finite(x - w / 2.0), Finite(y - h / 2.0), Finite(x + w / 2.0), Finite(y + h / 2.0))
  {
    var n := NodeAt(x, y, w, h);
    assert Get(n, "x") == Num(Finite(x)) && Get(n, "y") == Num(Finite(y));
    assert Get(n, "width") == Num(Finite(w)) && Get(n, "height") == Num(Finite(h));
  }

  /** A lone node's box, folded from the sentinels. */
  lemma LoneNodeBox(n: Attrs)
    ensures GraphBox([n], []) == Extend(Sentinel, CentredBox(n))
  {
    assert NodeBoxes([n]) == [CentredBox(n)] by {
      assert [n][..0] == [];
    }
    FoldBoxesSnoc(Sentinel, [], CentredBox(n));
  }

  /** A single node centred at the origin, 20 wide and 10 high, gives the
      box (-10, -5, 10, 5). */
  lemma SingleNodeBox()
    ensures GraphBox([NodeAt(0.0, 0.0, 20.0, 10.0)], []) == Box(Finite(-10.0), Finite(-5.0), Finite(10.0), Finite(5.0))
  {
    CentredBoxAt(0.0, 0.0, 20.0, 10.0);
    LoneNodeBox(NodeAt(0.0, 0.0, 20.0, 10.0));
  }

  /** The sentinels bias the box: a lone node far from the origin, centred at
      (2000, 2000), is reported with `minX == minY == 1000`, not 1990/1995. */
  lemma FarNodeBoxKeepsSentinel()
    ensures GraphBox([NodeAt(2000.0, 2000.0, 20.0, 10.0)], []) ==
      Box(Finite(1000.0), Finite(1000.0), Finite(2010.0), Finite(2005.0))
  {
    CentredBoxAt(2000.0, 2000.0, 20.0, 10.0);
    LoneNodeBox(NodeAt(2000.0, 2000.0, 20.0, 10.0));
  }

  // ---------------------------------------------------------------------
  // The box without the sentinels

  /** The extent of a drawing: nothing to measure, or a box. */
  datatype Extent = NoExtent | Extent(box: Box)

  /** The box the contributions span on their own: the fold starts from the
      first contribution instead of from fixed sentinels, and a drawing with
      nothing to measure has no box. */
  function TightBox(bs: seq<Box>): Extent {
    if bs == [] then NoExtent else Extent(FoldBoxes(bs[0], bs[1..]))
  }

  /** The bounding box of a laid-out graph without the sentinels' bias. */
  function TightGraphBox(nodes: seq<Attrs>, edges: seq<Attrs>): Extent {
    TightBox(Contributions(nodes, edges))
  }

  lemma ExtendAssociative(a: Box, b: Box, c: Box)
    ensures Extend(Extend(a, b), c) == Extend(a, Extend(b, c))
  {
  }

  /** Starting a fold from `a` widened by `b` is widening the fold from `b`
      by `a`. */
  lemma {:induction false} FoldBoxesFrom(a: Box, b: Box, bs: seq<Box>)
    ensures FoldBoxes(Extend(a, b), bs) == Extend(a, FoldBoxes(b, bs))
  {
    if bs != [] {
      var init := bs[..|bs| - 1];
      FoldBoxesFrom(a, b, init);
      ExtendAssociative(a, FoldBoxes(b, init), bs[|bs| - 1]);
    }
  }

  /** Folding from the sentinels is the tight box with `minX`/`minY` capped
      at 1000 and `maxX`/`maxY` raised to at least -1000, or the sentinels
      themselves when there is nothing to fold. */
  lemma SentinelWidensTightBox(bs: seq<Box>)
    ensures FoldBoxes(Sentinel, bs) ==
      match TightBox(bs)
      case NoExtent => Sentinel
      case Extent(t) => Extend(Sentinel, t)
  {
    if bs != [] {
      assert bs == [bs[0]] + bs[1..];
      FoldBoxesAppend(Sentinel, [bs[0]], bs[1..]);
      FoldBoxesSnoc(Sentinel, [], bs[0]);
      FoldBoxesFrom(Sentinel, bs[0], bs[1..]);
    }
  }

  /** The box the render stores is the tight box with `minX`/`minY` capped
      at 1000 and `maxX`/`maxY` raised to at least -1000 (the sentinels when
      nothing is measured). A drawing that lies entirely beyond 1000 or below
      -1000 on one axis has that side clamped to the sentinel; the two boxes
      agree when the tight `minX`/`minY` are at most 1000 and the tight
      `maxX`/`maxY` at least -1000. */
  lemma GraphBoxWidensTightBox(nodes: seq<Attrs>, edges: seq<Attrs>)
    ensures GraphBox(nodes, edges) ==
      match TightGraphBox(nodes, edges)
      case NoExtent => Sentinel
      case Extent(t) => Extend(Sentinel, t)
  {
    GraphBoxFlat(nodes, edges);
    SentinelWidensTightBox(Contributions(nodes, edges));
  }

  /** The tight box is missing exactly when there is nothing to measure: no
      node, no defined edge label and no interior route point. */
  lemma TightGraphBoxEmpty(nodes: seq<Attrs>, edges: seq<Attrs>)
    ensures TightGraphBox(nodes, edges) == NoExtent <==>
      |nodes| == 0 &&
      forall j :: 0 <= j < |edges| ==> !HasLabelBox(edges[j]) && |Interior(PointsOf(edges[j]))| == 0
  {
    var bs := Contributions(nodes, edges);
    NodeBoxesAt(nodes);
    if bs != [] && |nodes| == 0 {
      assert bs[0] in AllEdgeBoxes(edges);
      AllEdgeBoxesSound(edges, bs[0]);
      var j :| 0 <= j < |edges| && bs[0] in EdgeBoxes(edges[j]);
      EdgeBoxesMembers(edges, j);
    }
    forall j | 0 <= j < |edges| && (HasLabelBox(edges[j]) || |Interior(PointsOf(edges[j]))| > 0)
      ensures bs != []
    {
      EdgeBoxesMembers(edges, j);
      if HasLabelBox(edges[j]) {
        AllEdgeBoxesComplete(edges, j, CentredBox(edges[j]));
      } else {
        AllEdgeBoxesComplete(edges, j, InteriorPointBox(edges, j, 0));
      }
    }
  }

  /** Each numeric side of the tight box lies at or beyond every node box,
      defined edge label box and interior route point. */
  lemma TightGraphBoxEncloses(nodes: seq<Attrs>, edges: seq<Attrs>, c: Corner)
    ensures match TightGraphBox(nodes, edges)
      case NoExtent => true
      case Extent(t) => At(t, c).Finite? ==> EnclosesContributions(c, At(t, c), nodes, edges)
  {
    var bs := Contributions(nodes, edges);
    if bs != [] {
      var r := At(FoldBoxes(bs[0], bs[1..]), c);
      FoldBoxesEncloses(bs[0], bs[1..], c);
      if r.Finite? {
        forall b | b in bs ensures Beyond(c, r, At(b, c)) {
          assert b == bs[0] || b in bs[1..];
        }
        EnclosesFromMembers(nodes, edges, c, r);
      }
    }
  }

  /** Each side of the tight box is the side of some node box, defined edge
      label box or interior route point: no fixed value takes part. */
  lemma TightGraphBoxAttained(nodes: seq<Attrs>, edges: seq<Attrs>, c: Corner)
    ensures match TightGraphBox(nodes, edges)
      case NoExtent => true
      case Extent(t) => AttainedByContribution(c, At(t, c), nodes, edges)
  {
    var bs := Contributions(nodes, edges);
    if bs != [] {
      var r := At(FoldBoxes(bs[0], bs[1..]), c);
      FoldBoxesAttained(bs[0], bs[1..], c);
      var b :| (b == bs[0] || b in bs[1..]) && r == At(b, c);
      AttainedFromMember(nodes, edges, c, b);
    }
  }

  /** The lone node centred at (2000, 2000), 20 wide and 10 high, spans
      (1990, 1995) .. (2010, 2005), and an empty graph has no box. */
  lemma TightGraphBoxExamples()
    ensures TightGraphBox([NodeAt(2000.0, 2000.0, 20.0, 10.0)], []) ==
      Extent(Box(Finite(1990.0), Finite(1995.0), Finite(2010.0), Finite(2005.0)))
    ensures TightGraphBox([], []) == NoExtent
  {
    var n := NodeAt(2000.0, 2000.0, 20.0, 10.0);
    CentredBoxAt(2000.0, 2000.0, 20.0, 10.0);
    assert NodeBoxes([n]) == [CentredBox(n)] by {
      assert [n][..0] == [];
    }
    assert Contributions([n], []) == [CentredBox(n)];
  }
}
