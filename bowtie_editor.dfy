/** The node logic of src/views/RiskAssessment/BowtieEditor.tsx: the `onNodeDrag` handler
    (barrier reordering and endpoint stickiness) and the layout effect that turns an assessment
    into React Flow nodes. Edges, styles and z-order are not modelled. */
module BowtieEditor {
  import opened Types
  import Seqs
  import opened Bezier
  import RiskAssessments

  /** The React Flow node `type`s the editor uses. */
  datatype FlowKind = AssetFlow | TopEventFlow | ThreatFlow | ConsequenceFlow | BarrierFlow

  /** A node's `data`: a label, an asset's label and type, or a barrier's placement data. */
  datatype NodeData =
    | Labelled(labelText: string)
    | AssetData(labelText: string, assetType: AssetType)
    | BarrierData(labelText: string, barrierType: BarrierType, parentId: string, index: int, total: int)

  datatype FlowNode = FlowNode(id: string, kind: FlowKind, position: Point, data: NodeData)

  /** `n.data.parentId`, with a missing value read as the falsy "". */
  function ParentOf(n: FlowNode): string {
    if n.data.BarrierData? then n.data.parentId else ""
  }

  function NodeId(n: FlowNode): string { n.id }

  /** `n.data.index`, the sort key of the current order. */
  function IndexKey(n: FlowNode): real {
    if n.data.BarrierData? then n.data.index as real else 0.0
  }

  predicate IsTopEventNode(n: FlowNode) { n.kind.TopEventFlow? }

  function HasNodeId(id: string): FlowNode -> bool {
    (n: FlowNode) => n.id == id
  }

  function Center(n: FlowNode): Point { Add(n.position, CenterOffset) }

  // --- Dragging a barrier ---

  /** The edge a barrier of the given type sits on: threat to top event for a preventive
      barrier, top event to consequence otherwise. */
  function DragCurve(barrierType: BarrierType, parentPos: Point, topEventPos: Point): Curve {
    if barrierType.Preventive? then EdgeCurve(Add(parentPos, ThreatHandleOffset), Add(topEventPos, TopEventInOffset))
    else EdgeCurve(Add(topEventPos, TopEventOutOffset), Add(parentPos, ConsHandleOffset))
  }

  /** `n.type === 'barrier' && n.data.parentId === parentId`. */
  function IsSibling(parentId: string): FlowNode -> bool {
    (n: FlowNode) => n.kind.BarrierFlow? && ParentOf(n) == parentId
  }

  function Siblings(nodes: seq<FlowNode>, parentId: string): seq<FlowNode> {
    Seqs.Filter(nodes, IsSibling(parentId))
  }

  datatype Projection = Projection(id: string, t: real)

  function ProjT(p: Projection): real { p.t }
  function ProjId(p: Projection): string { p.id }

  /** The dragged node projects to `t`; every other sibling to its own closest t. */
  function ProjectOnto(c: Curve, dragged: string, t: real): FlowNode -> Projection {
    (sib: FlowNode) => if sib.id == dragged then Projection(sib.id, t) else Projection(sib.id, ClosestT(Center(sib), c))
  }

  /** `newOrderIds`: siblings' ids by ascending projection. */
  function NewOrder(siblings: seq<FlowNode>, c: Curve, dragged: string, t: real): seq<string> {
    Seqs.Map(Seqs.SortBy(Seqs.Map(siblings, ProjectOnto(c, dragged, t)), ProjT), ProjId)
  }

  /** `currentOrderIds`: siblings' ids by ascending `data.index`. */
  function CurrentOrder(siblings: seq<FlowNode>): seq<string> {
    Seqs.Map(Seqs.SortBy(siblings, IndexKey), NodeId)
  }

  /** `a.some((id, idx) => id !== b[idx])`. */
  predicate SomeDiffers(a: seq<string>, b: seq<string>) {
    exists idx :: 0 <= idx < |a| && (idx >= |b| || a[idx] != b[idx])
  }

  function SnapDragged(node: FlowNode, snapped: Point): FlowNode -> FlowNode {
    (n: FlowNode) => if n.id == node.id then node.(position := snapped) else n
  }

  /** The call `onBarrierReorder(parentId, newOrderIds)`. */
  datatype Reorder = Reorder(parentId: string, ids: seq<string>)

  /** The nodes `setNodes` receives, and the reorder call made, if any. */
  datatype DragResult = DragResult(nodes: seq<FlowNode>, reorder: Option<Reorder>)

  function DragBarrier(nodes: seq<FlowNode>, node: FlowNode, topEventPos: Point): DragResult {
    var parentId := ParentOf(node);
    if parentId == "" then DragResult(nodes, None)
    else
      match Seqs.Find(nodes, HasNodeId(parentId))
      case None => DragResult(nodes, None)
      case Some(parent) =>
        var c := DragCurve(node.data.barrierType, parent.position, topEventPos);
        var t := ClosestT(Center(node), c);
        var siblings := Siblings(nodes, parentId);
        var newOrder := NewOrder(siblings, c, node.id, t);
        DragResult(Seqs.Map(nodes, SnapDragged(node, Sub(At(c, t), CenterOffset))),
                   if SomeDiffers(newOrder, CurrentOrder(siblings)) then Some(Reorder(parentId, newOrder)) else None)
  }

  // --- Dragging an endpoint ---

  /** The new position of barrier `n` when `node` is dragged: re-clustered on its edge when the
      edge's threat or consequence, or the top event, is the dragged node; detective barriers and
      barriers whose parent is missing stay. */
  function Restick(sqrt: Sqrt, nodes: seq<FlowNode>, node: FlowNode, topEventId: Option<string>,
                   topEventPos: Point, n: FlowNode): FlowNode
    requires n.data.BarrierData?
  {
    var parentId := n.data.parentId;
    var movesTop := topEventId == Some(node.id);
    if !(node.id == parentId || movesTop) || n.data.barrierType.Detective? then n
    else
      match Seqs.Find(nodes, HasNodeId(parentId))
      case None => n
      case Some(parent) =>
        var parentPos := if node.id == parentId then node.position else parent.position;
        var tePos := if movesTop then node.position else topEventPos;
        if n.data.barrierType.Preventive? then
          n.(position := ClusteredPosition(sqrt, Add(parentPos, ThreatHandleOffset), Add(tePos, TopEventInOffset),
                                           n.data.index, n.data.total))
        else
          n.(position := ClusteredPosition(sqrt, Add(tePos, TopEventOutOffset), Add(parentPos, ConsHandleOffset),
                                           n.data.index, n.data.total))
  }

  function Stick(sqrt: Sqrt, nodes: seq<FlowNode>, node: FlowNode, topEventId: Option<string>,
                 topEventPos: Point): FlowNode -> FlowNode {
    (n: FlowNode) =>
      if n.id == node.id then node
      else if n.kind.BarrierFlow? && ParentOf(n) != "" then Restick(sqrt, nodes, node, topEventId, topEventPos, n)
      else n
  }

  /** `onNodeDrag`, applied to the current nodes. `topEventId` is the top event id the handler
      captured when it was created. */
  function OnNodeDrag(sqrt: Sqrt, nodes: seq<FlowNode>, node: FlowNode, topEventId: Option<string>): (r: DragResult)
    ensures |r.nodes| == |nodes|
    ensures (forall i :: 0 <= i < |nodes| ==> !nodes[i].kind.TopEventFlow?) ==> r == DragResult(nodes, None)
    ensures !node.kind.BarrierFlow? ==> r.reorder.None?
  {
    match Seqs.Find(nodes, IsTopEventNode)
    case None => DragResult(nodes, None)
    case Some(topEvent) =>
      var topEventPos := if topEventId == Some(node.id) then node.position else topEvent.position;
      if node.kind.BarrierFlow? then DragBarrier(nodes, node, topEventPos)
      else DragResult(Seqs.Map(nodes, Stick(sqrt, nodes, node, topEventId, topEventPos)), None)
  }

  // --- Properties of dragging ---

  /** On sequences of one length the `some` check is exactly inequality. */
  lemma SomeDiffersIff(a: seq<string>, b: seq<string>)
    requires |a| == |b|
    ensures SomeDiffers(a, b) <==> a != b
  {
    if a != b {
      assert exists idx :: 0 <= idx < |a| && a[idx] != b[idx];
    }
  }

  /** The new order lists the siblings' ids, each once, ordered by their projections. */
  lemma NewOrderPermutes(siblings: seq<FlowNode>, c: Curve, dragged: string, t: real)
    ensures multiset(NewOrder(siblings, c, dragged, t)) == multiset(Seqs.Map(siblings, NodeId))
    ensures var ps := Seqs.SortBy(Seqs.Map(siblings, ProjectOnto(c, dragged, t)), ProjT);
      Seqs.SortedBy(ps, ProjT) && NewOrder(siblings, c, dragged, t) == Seqs.Map(ps, ProjId)
  {
    var proj := ProjectOnto(c, dragged, t);
    var projected := Seqs.Map(siblings, proj);
    var ps := Seqs.SortBy(projected, ProjT);
    Seqs.SortBySorted(projected, ProjT);
    Seqs.MapPermutation(ps, projected, ProjId);
    ProjectedIds(siblings, c, dragged, t);
  }

  /** The current order lists the same ids. */
  lemma CurrentOrderPermutes(siblings: seq<FlowNode>)
    ensures multiset(CurrentOrder(siblings)) == multiset(Seqs.Map(siblings, NodeId))
  {
    Seqs.MapPermutation(Seqs.SortBy(siblings, IndexKey), siblings, NodeId);
  }

  /** When the siblings, taken in their current index order, already project in strictly
      ascending order, the new order is the current one. */
  lemma ConsistentOrderKept(siblings: seq<FlowNode>, c: Curve, dragged: string, t: real)
    requires Seqs.StrictlySortedBy(Seqs.Map(Seqs.SortBy(siblings, IndexKey), ProjectOnto(c, dragged, t)), ProjT)
    ensures NewOrder(siblings, c, dragged, t) == CurrentOrder(siblings)
  {
    var proj := ProjectOnto(c, dragged, t);
    var current := Seqs.SortBy(siblings, IndexKey);
    var a := Seqs.Map(current, proj);
    Seqs.MapPermutation(current, siblings, proj);
    Seqs.SortByUnique(Seqs.Map(siblings, proj), a, ProjT);
    ProjectedIds(current, c, dragged, t);
  }

  lemma ProjectedIds(s: seq<FlowNode>, c: Curve, dragged: string, t: real)
    ensures Seqs.Map(Seqs.Map(s, ProjectOnto(c, dragged, t)), ProjId) == Seqs.Map(s, NodeId)
  {
  }

  /** A dragged barrier moved in front of every other sibling comes first in the new order. */
  lemma DraggedFirst(siblings: seq<FlowNode>, c: Curve, dragged: string, t: real)
    requires exists k :: 0 <= k < |siblings| && siblings[k].id == dragged
    requires forall k :: 0 <= k < |siblings| && siblings[k].id != dragged ==> t < ClosestT(Center(siblings[k]), c)
    ensures |NewOrder(siblings, c, dragged, t)| > 0 && NewOrder(siblings, c, dragged, t)[0] == dragged
  {
    var proj := ProjectOnto(c, dragged, t);
    var projected := Seqs.Map(siblings, proj);
    var ps := Seqs.SortBy(projected, ProjT);
    Seqs.SortBySorted(projected, ProjT);
    var k :| 0 <= k < |siblings| && siblings[k].id == dragged;
    assert projected[k] == Projection(dragged, t);
    assert projected[k] in multiset(ps);
    var m :| 0 <= m < |ps| && ps[m] == projected[k];
    assert ps[0] in multiset(projected);
    var j :| 0 <= j < |projected| && projected[j] == ps[0];
  }

  /** Dragging a barrier whose parent is missing, or that has no parent, changes nothing. */
  lemma DragMissingParent(sqrt: Sqrt, nodes: seq<FlowNode>, node: FlowNode, topEventId: Option<string>)
    requires node.kind.BarrierFlow?
    requires ParentOf(node) == "" || forall i :: 0 <= i < |nodes| ==> nodes[i].id != ParentOf(node)
    ensures OnNodeDrag(sqrt, nodes, node, topEventId) == DragResult(nodes, None)
  {
  }

  /** Dragging a barrier: it snaps onto its edge at the closest t found, nothing else moves, and
      a reorder is reported, with the parent's id and a permutation of its siblings' ids, exactly
      when the new order differs from the current one. */
  lemma DragBarrierOutcome(sqrt: Sqrt, nodes: seq<FlowNode>, node: FlowNode, topEventId: Option<string>,
                           topEvent: FlowNode, parent: FlowNode)
    requires node.kind.BarrierFlow? && ParentOf(node) != ""
    requires Seqs.Find(nodes, IsTopEventNode) == Some(topEvent)
    requires Seqs.Find(nodes, HasNodeId(ParentOf(node))) == Some(parent)
    ensures var tePos := if topEventId == Some(node.id) then node.position else topEvent.position;
      var c := DragCurve(node.data.barrierType, parent.position, tePos);
      var t := ClosestT(Center(node), c);
      var siblings := Siblings(nodes, ParentOf(node));
      var r := OnNodeDrag(sqrt, nodes, node, topEventId);
      0.0 <= t <= 1.0
      && (forall i :: 0 <= i < |nodes| && nodes[i].id != node.id ==> r.nodes[i] == nodes[i])
      && (forall i :: 0 <= i < |nodes| && nodes[i].id == node.id ==>
            r.nodes[i].id == node.id && r.nodes[i].data == node.data && Center(r.nodes[i]) == At(c, t))
      && (r.reorder.Some? <==> NewOrder(siblings, c, node.id, t) != CurrentOrder(siblings))
      && (r.reorder.Some? ==>
            r.reorder.value.parentId == ParentOf(node) && multiset(r.reorder.value.ids) == multiset(Seqs.Map(siblings, NodeId)))
  {
    var tePos := if topEventId == Some(node.id) then node.position else topEvent.position;
    var c := DragCurve(node.data.barrierType, parent.position, tePos);
    var t := ClosestT(Center(node), c);
    var siblings := Siblings(nodes, ParentOf(node));
    var snapped := Sub(At(c, t), CenterOffset);
    ClosestIsBest(Center(node), c);
    NewOrderPermutes(siblings, c, node.id, t);
    SomeDiffersIff(NewOrder(siblings, c, node.id, t), CurrentOrder(siblings));
    DragBarrierUnfold(sqrt, nodes, node, topEventId, topEvent, parent, tePos, c, t, siblings);
    SnapFrame(nodes, node, snapped);
    assert Center(node.(position := snapped)) == At(c, t);
  }

  /** With the top event and the parent present, the drag is the snap and the reorder check. */
  lemma DragBarrierUnfold(sqrt: Sqrt, nodes: seq<FlowNode>, node: FlowNode, topEventId: Option<string>,
                          topEvent: FlowNode, parent: FlowNode, tePos: Point, c: Curve, t: real,
                          siblings: seq<FlowNode>)
    requires node.kind.BarrierFlow? && ParentOf(node) != ""
    requires Seqs.Find(nodes, IsTopEventNode) == Some(topEvent)
    requires Seqs.Find(nodes, HasNodeId(ParentOf(node))) == Some(parent)
    requires tePos == if topEventId == Some(node.id) then node.position else topEvent.position
    requires c == DragCurve(node.data.barrierType, parent.position, tePos)
    requires t == ClosestT(Center(node), c) && siblings == Siblings(nodes, ParentOf(node))
    ensures var newOrder := NewOrder(siblings, c, node.id, t);
      OnNodeDrag(sqrt, nodes, node, topEventId)
        == DragResult(Seqs.Map(nodes, SnapDragged(node, Sub(At(c, t), CenterOffset))),
                      if SomeDiffers(newOrder, CurrentOrder(siblings)) then Some(Reorder(ParentOf(node), newOrder)) else None)
  {
  }

  /** Snapping changes the dragged node's position and nothing else. */
  lemma SnapFrame(nodes: seq<FlowNode>, node: FlowNode, snapped: Point)
    ensures var r := Seqs.Map(nodes, SnapDragged(node, snapped));
      (forall i :: 0 <= i < |nodes| && nodes[i].id != node.id ==> r[i] == nodes[i])
      && (forall i :: 0 <= i < |nodes| && nodes[i].id == node.id ==> r[i] == node.(position := snapped))
  {
  }

  /** Dragging a threat, consequence or the top event: the dragged node is taken as given, only
      positions change, and every node other than a non-detective barrier attached to the dragged
      node (or to the top event, when that is dragged) stays. */
  lemma DragEndpointOutcome(sqrt: Sqrt, nodes: seq<FlowNode>, node: FlowNode, topEventId: Option<string>)
    requires !node.kind.BarrierFlow?
    ensures var r := OnNodeDrag(sqrt, nodes, node, topEventId);
      r.reorder.None?
      && (forall i :: 0 <= i < |nodes| && nodes[i].id == node.id && Seqs.Find(nodes, IsTopEventNode).Some?
            ==> r.nodes[i] == node)
      && (forall i :: 0 <= i < |nodes| && nodes[i].id != node.id ==>
            r.nodes[i].id == nodes[i].id && r.nodes[i].kind == nodes[i].kind && r.nodes[i].data == nodes[i].data)
      && (forall i :: 0 <= i < |nodes| && nodes[i].id != node.id
            && !(nodes[i].kind.BarrierFlow? && ParentOf(nodes[i]) != "" && !nodes[i].data.barrierType.Detective?
                 && (ParentOf(nodes[i]) == node.id || topEventId == Some(node.id)))
            ==> r.nodes[i] == nodes[i])
  {
    match Seqs.Find(nodes, IsTopEventNode)
    case None =>
    case Some(topEvent) =>
      var topEventPos := if topEventId == Some(node.id) then node.position else topEvent.position;
      var stick := Stick(sqrt, nodes, node, topEventId, topEventPos);
      var r := Seqs.Map(nodes, stick);
      forall i | 0 <= i < |nodes| && nodes[i].id != node.id
        ensures r[i].id == nodes[i].id && r[i].kind == nodes[i].kind && r[i].data == nodes[i].data
        ensures !(nodes[i].kind.BarrierFlow? && ParentOf(nodes[i]) != "" && !nodes[i].data.barrierType.Detective?
                  && (ParentOf(nodes[i]) == node.id || topEventId == Some(node.id)))
                ==> r[i] == nodes[i]
      {
        if nodes[i].kind.BarrierFlow? && ParentOf(nodes[i]) != "" {
          RestickFrame(sqrt, nodes, node, topEventId, topEventPos, nodes[i]);
        }
      }
  }

  /** Re-sticking a barrier only moves it, and leaves it where it is unless it is a preventive
      or mitigative barrier attached to the dragged node or the top event is dragged. */
  lemma RestickFrame(sqrt: Sqrt, nodes: seq<FlowNode>, node: FlowNode, topEventId: Option<string>,
                     topEventPos: Point, n: FlowNode)
    requires n.data.BarrierData?
    ensures var r := Restick(sqrt, nodes, node, topEventId, topEventPos, n);
      r.id == n.id && r.kind == n.kind && r.data == n.data
    ensures n.data.barrierType.Detective? || (n.data.parentId != node.id && topEventId != Some(node.id)) ==>
      Restick(sqrt, nodes, node, topEventId, topEventPos, n) == n
  {
  }

  /** A preventive barrier whose threat is dragged is re-clustered onto the edge from the
      threat's new handle to the top event's input handle. */
  lemma StickyPreventive(sqrt: Sqrt, nodes: seq<FlowNode>, node: FlowNode, topEventId: Option<string>,
                         topEvent: FlowNode, i: nat)
    requires !node.kind.BarrierFlow? && Seqs.Find(nodes, IsTopEventNode) == Some(topEvent)
    requires i < |nodes| && nodes[i].id != node.id && nodes[i].kind.BarrierFlow? && nodes[i].data.BarrierData?
    requires nodes[i].data.barrierType.Preventive? && nodes[i].data.parentId == node.id && node.id != ""
    requires exists j :: 0 <= j < |nodes| && nodes[j].id == node.id
    ensures var tePos := if topEventId == Some(node.id) then node.position else topEvent.position;
      var r := OnNodeDrag(sqrt, nodes, node, topEventId);
      exists t :: 0.0 <= t <= 1.0 && Center(r.nodes[i]) ==
        At(EdgeCurve(Add(node.position, ThreatHandleOffset), Add(tePos, TopEventInOffset)), t)
  {
    var tePos := if topEventId == Some(node.id) then node.position else topEvent.position;
    ClusteredOnCurve(sqrt, Add(node.position, ThreatHandleOffset), Add(tePos, TopEventInOffset),
                     nodes[i].data.index, nodes[i].data.total);
  }

  /** A mitigative barrier whose consequence is dragged is re-clustered onto the edge from the
      top event's output handle to the consequence's new handle. */
  lemma StickyMitigative(sqrt: Sqrt, nodes: seq<FlowNode>, node: FlowNode, topEventId: Option<string>,
                         topEvent: FlowNode, i: nat)
    requires !node.kind.BarrierFlow? && Seqs.Find(nodes, IsTopEventNode) == Some(topEvent)
    requires i < |nodes| && nodes[i].id != node.id && nodes[i].kind.BarrierFlow? && nodes[i].data.BarrierData?
    requires nodes[i].data.barrierType.Mitigative? && nodes[i].data.parentId == node.id && node.id != ""
    requires exists j :: 0 <= j < |nodes| && nodes[j].id == node.id
    ensures var tePos := if topEventId == Some(node.id) then node.position else topEvent.position;
      var r := OnNodeDrag(sqrt, nodes, node, topEventId);
      exists t :: 0.0 <= t <= 1.0 && Center(r.nodes[i]) ==
        At(EdgeCurve(Add(tePos, TopEventOutOffset), Add(node.position, ConsHandleOffset)), t)
  {
    var tePos := if topEventId == Some(node.id) then node.position else topEvent.position;
    ClusteredOnCurve(sqrt, Add(tePos, TopEventOutOffset), Add(node.position, ConsHandleOffset),
                     nodes[i].data.index, nodes[i].data.total);
  }

  // --- Layout ---

  const CenterX: real := 400.0
  const CenterY: real := 300.0
  const SpacingX: real := 250.0
  const SpacingY: real := 150.0
  const AssetNodeId: string := "asset-node"
  const AssetNodePos: Point := Point(400.0, 100.0)
  /** The handle offsets the layout uses; dragging uses a y of 50 instead of 12. */
  const LayoutThreatHandle: Point := Point(200.0, 12.0)
  const LayoutConsHandle: Point := Point(0.0, 12.0)

  /** `new Map(nodes.map(n => [n.id, n]))`. */
  function NodeMap(nodes: seq<FlowNode>): (m: map<string, FlowNode>)
    ensures forall id :: id in m <==> exists i :: 0 <= i < |nodes| && nodes[i].id == id
    decreases |nodes|
  {
    if nodes == [] then map[]
    else
      var init := nodes[..|nodes| - 1];
      assert forall i :: 0 <= i < |init| ==> init[i] == nodes[i];
      NodeMap(init)[nodes[|nodes| - 1].id := nodes[|nodes| - 1]]
  }

  /** With repeated ids the last node wins. */
  lemma {:induction false} NodeMapLast(nodes: seq<FlowNode>, i: nat)
    requires i < |nodes| && forall j :: i < j < |nodes| ==> nodes[j].id != nodes[i].id
    ensures nodes[i].id in NodeMap(nodes) && NodeMap(nodes)[nodes[i].id] == nodes[i]
    decreases |nodes|
  {
    if i < |nodes| - 1 {
      var init := nodes[..|nodes| - 1];
      NodeMapLast(init, i);
    }
  }

  /** The slot of item `index` of `count`, centred on CENTER_Y. */
  function DefaultY(index: nat, count: nat): real {
    CenterY + (index as real - (count as real - 1.0) / 2.0) * SpacingY
  }

  function TopEventPos(prev: map<string, FlowNode>, a: RiskAssessment): Point {
    if a.topEvent.id in prev then prev[a.topEvent.id].position else Point(CenterX, CenterY)
  }

  function TopNode(a: RiskAssessment, pos: Point): FlowNode {
    FlowNode(a.topEvent.id, TopEventFlow, pos, Labelled(a.topEvent.labelText))
  }

  function AssetNodes(asset: Option<Asset>): seq<FlowNode> {
    match asset
    case None => []
    case Some(x) => [FlowNode(AssetNodeId, AssetFlow, AssetNodePos, AssetData(x.name, x.assetType))]
  }

  /** Barrier `k` of `path`, clustered on the edge from `p0` to `p3`. */
  function BarrierNode(sqrt: Sqrt, p0: Point, p3: Point, parentId: string, path: seq<Barrier>, k: nat): FlowNode
    requires k < |path|
  {
    FlowNode(path[k].id(), BarrierFlow, ClusteredPosition(sqrt, p0, p3, k, |path|),
             BarrierData(path[k].node.labelText, path[k].barrierType, parentId, k, |path|))
  }

  /** The first `k` barrier nodes of a path. */
  function BarrierNodes(sqrt: Sqrt, p0: Point, p3: Point, parentId: string, path: seq<Barrier>, k: nat): (r: seq<FlowNode>)
    requires k <= |path|
    ensures |r| == k
  {
    if k == 0 then [] else BarrierNodes(sqrt, p0, p3, parentId, path, k - 1) + [BarrierNode(sqrt, p0, p3, parentId, path, k - 1)]
  }

  lemma {:induction false} BarrierNodesAt(sqrt: Sqrt, p0: Point, p3: Point, parentId: string, path: seq<Barrier>,
                                          k: nat, j: nat)
    requires j < k <= |path|
    ensures BarrierNodes(sqrt, p0, p3, parentId, path, k)[j] == BarrierNode(sqrt, p0, p3, parentId, path, j)
  {
    if j < k - 1 {
      BarrierNodesAt(sqrt, p0, p3, parentId, path, k - 1, j);
    }
  }

  function ThreatPos(prev: map<string, FlowNode>, a: RiskAssessment, i: nat): Point
    requires i < |a.threats|
  {
    var id := a.threats[i].id;
    if id in prev then prev[id].position else Point(CenterX - SpacingX * 2.0, DefaultY(i, |a.threats|))
  }

  function ConsPos(prev: map<string, FlowNode>, a: RiskAssessment, i: nat): Point
    requires i < |a.consequences|
  {
    var id := a.consequences[i].id;
    if id in prev then prev[id].position else Point(CenterX + SpacingX * 2.0, DefaultY(i, |a.consequences|))
  }

  /** Threat `i` and its path's barriers. */
  function ThreatBlock(sqrt: Sqrt, prev: map<string, FlowNode>, a: RiskAssessment, tePos: Point, i: nat): seq<FlowNode>
    requires i < |a.threats|
  {
    var threat := a.threats[i];
    var pos := ThreatPos(prev, a, i);
    var path := RiskAssessments.Group(a, threat.id);
    [FlowNode(threat.id, ThreatFlow, pos, Labelled(threat.labelText))]
      + BarrierNodes(sqrt, Add(pos, LayoutThreatHandle), Add(tePos, TopEventInOffset), threat.id, path, |path|)
  }

  function ThreatBlocks(sqrt: Sqrt, prev: map<string, FlowNode>, a: RiskAssessment, tePos: Point, k: nat): seq<FlowNode>
    requires k <= |a.threats|
  {
    if k == 0 then [] else ThreatBlocks(sqrt, prev, a, tePos, k - 1) + ThreatBlock(sqrt, prev, a, tePos, k - 1)
  }

  /** Consequence `i` and its path's barriers. */
  function ConsBlock(sqrt: Sqrt, prev: map<string, FlowNode>, a: RiskAssessment, tePos: Point, i: nat): seq<FlowNode>
    requires i < |a.consequences|
  {
    var cons := a.consequences[i];
    var pos := ConsPos(prev, a, i);
    var path := RiskAssessments.Group(a, cons.id);
    [FlowNode(cons.id, ConsequenceFlow, pos, Labelled(cons.labelText))]
      + BarrierNodes(sqrt, Add(tePos, TopEventOutOffset), Add(pos, LayoutConsHandle), cons.id, path, |path|)
  }

  function ConsBlocks(sqrt: Sqrt, prev: map<string, FlowNode>, a: RiskAssessment, tePos: Point, k: nat): seq<FlowNode>
    requires k <= |a.consequences|
  {
    if k == 0 then [] else ConsBlocks(sqrt, prev, a, tePos, k - 1) + ConsBlock(sqrt, prev, a, tePos, k - 1)
  }

  function NotAssessment(id: string): RiskAssessment -> bool {
    (x: RiskAssessment) => x.id != id
  }

  /** The faded node of another assessment: alternately left and right of the centre, one
      SPACING_X further out every second one. */
  function GhostNode(other: RiskAssessment, idx: nat): FlowNode {
    var dir := if idx % 2 == 0 then -1 else 1;
    var multiplier := idx / 2 + 1;
    var offsetX := (dir * multiplier * 250) as real;
    FlowNode("ghost-" + other.id, TopEventFlow, Point(CenterX + offsetX, CenterY - 100.0),
             Labelled(if other.title == "" then "Other Assessment" else other.title))
  }

  function GhostNodes(others: seq<RiskAssessment>, k: nat): (r: seq<FlowNode>)
    requires k <= |others|
    ensures |r| == k
    ensures forall j :: 0 <= j < k ==> r[j] == GhostNode(others[j], j)
  {
    if k == 0 then [] else GhostNodes(others, k - 1) + [GhostNode(others[k - 1], k - 1)]
  }

  /** The nodes the layout effect sets for an assessment. */
  function LayoutNodes(sqrt: Sqrt, a: RiskAssessment, allAssessments: seq<RiskAssessment>, asset: Option<Asset>,
                       nodes: seq<FlowNode>): seq<FlowNode> {
    var prev := NodeMap(nodes);
    var tePos := TopEventPos(prev, a);
    var others := Seqs.Filter(allAssessments, NotAssessment(a.id));
    AssetNodes(asset) + [TopNode(a, tePos)]
      + ThreatBlocks(sqrt, prev, a, tePos, |a.threats|)
      + ConsBlocks(sqrt, prev, a, tePos, |a.consequences|)
      + GhostNodes(others, |others|)
  }

  /** `new Map(nodes.map(n => [n.id, n]))`, built entry by entry. */
  method BuildNodeMap(nodes: seq<FlowNode>) returns (m: map<string, FlowNode>)
    ensures m == NodeMap(nodes)
  {
    m := map[];
    for i := 0 to |nodes|
      invariant m == NodeMap(nodes[..i])
    {
      assert nodes[..i + 1][..i] == nodes[..i];
      m := m[nodes[i].id := nodes[i]];
    }
    assert nodes[..|nodes|] == nodes;
  }

  /** The nodes of one path's barriers, as pushed by the inner `forEach`. */
  method PathNodes(sqrt: Sqrt, p0: Point, p3: Point, parentId: string, pathBarriers: seq<Barrier>)
    returns (block: seq<FlowNode>)
    ensures block == BarrierNodes(sqrt, p0, p3, parentId, pathBarriers, |pathBarriers|)
  {
    block := [];
    for bIndex := 0 to |pathBarriers|
      invariant block == BarrierNodes(sqrt, p0, p3, parentId, pathBarriers, bIndex)
    {
      var barrier := pathBarriers[bIndex];
      var pos := GetClusteredBezierPosition(sqrt, p0, p3, bIndex, |pathBarriers|);
      block := block + [FlowNode(barrier.id(), BarrierFlow, pos,
                                 BarrierData(barrier.node.labelText, barrier.barrierType, parentId, bIndex, |pathBarriers|))];
    }
  }

  /** The body of `assessment.threats.forEach`, for threat `index`. */
  method LayThreat(sqrt: Sqrt, currentNodesMap: map<string, FlowNode>, a: RiskAssessment, topEventPos: Point, index: nat)
    returns (block: seq<FlowNode>)
    requires index < |a.threats|
    ensures block == ThreatBlock(sqrt, currentNodesMap, a, topEventPos, index)
  {
    var threat := a.threats[index];
    var defaultY := CenterY + (index as real - (|a.threats| as real - 1.0) / 2.0) * SpacingY;
    var defaultX := CenterX - SpacingX * 2.0;
    var threatPos := if threat.id in currentNodesMap then currentNodesMap[threat.id].position else Point(defaultX, defaultY);
    var pathBarriers := Seqs.Filter(a.barriers, RiskAssessments.ParentIs(threat.id));
    var barriers := PathNodes(sqrt, Add(threatPos, LayoutThreatHandle), Add(topEventPos, TopEventInOffset),
                              threat.id, pathBarriers);
    assert threatPos == ThreatPos(currentNodesMap, a, index);
    assert pathBarriers == RiskAssessments.Group(a, threat.id);
    block := [FlowNode(threat.id, ThreatFlow, threatPos, Labelled(threat.labelText))] + barriers;
  }

  /** The body of `assessment.consequences.forEach`, for consequence `index`. */
  method LayConsequence(sqrt: Sqrt, currentNodesMap: map<string, FlowNode>, a: RiskAssessment, topEventPos: Point, index: nat)
    returns (block: seq<FlowNode>)
    requires index < |a.consequences|
    ensures block == ConsBlock(sqrt, currentNodesMap, a, topEventPos, index)
  {
    var cons := a.consequences[index];
    var defaultY := CenterY + (index as real - (|a.consequences| as real - 1.0) / 2.0) * SpacingY;
    var defaultX := CenterX + SpacingX * 2.0;
    var consPos := if cons.id in currentNodesMap then currentNodesMap[cons.id].position else Point(defaultX, defaultY);
    var pathBarriers := Seqs.Filter(a.barriers, RiskAssessments.ParentIs(cons.id));
    var barriers := PathNodes(sqrt, Add(topEventPos, TopEventOutOffset), Add(consPos, LayoutConsHandle),
                              cons.id, pathBarriers);
    assert consPos == ConsPos(currentNodesMap, a, index);
    assert pathBarriers == RiskAssessments.Group(a, cons.id);
    block := [FlowNode(cons.id, ConsequenceFlow, consPos, Labelled(cons.labelText))] + barriers;
  }

  /** The ghost nodes, as pushed by `ghosts.forEach`. */
  method LayGhosts(ghosts: seq<RiskAssessment>) returns (block: seq<FlowNode>)
    ensures block == GhostNodes(ghosts, |ghosts|)
  {
    block := [];
    if |ghosts| > 0 {
      for idx := 0 to |ghosts|
        invariant block == GhostNodes(ghosts, idx)
      {
        var other := ghosts[idx];
        var dir := if idx % 2 == 0 then -1 else 1;
        var multiplier := idx / 2 + 1;
        var offsetX := (dir * multiplier * 250) as real;
        var node := FlowNode("ghost-" + other.id, TopEventFlow, Point(CenterX + offsetX, CenterY - 100.0),
                             Labelled(if other.title == "" then "Other Assessment" else other.title));
        assert node == GhostNode(other, idx);
        block := block + [node];
      }
    }
  }

  lemma ThreatBlocksStep(sqrt: Sqrt, prev: map<string, FlowNode>, a: RiskAssessment, tePos: Point, k: nat,
                         block: seq<FlowNode>)
    requires k < |a.threats| && block == ThreatBlock(sqrt, prev, a, tePos, k)
    ensures ThreatBlocks(sqrt, prev, a, tePos, k) + block == ThreatBlocks(sqrt, prev, a, tePos, k + 1)
  {
  }

  lemma ConsBlocksStep(sqrt: Sqrt, prev: map<string, FlowNode>, a: RiskAssessment, tePos: Point, k: nat,
                       block: seq<FlowNode>)
    requires k < |a.consequences| && block == ConsBlock(sqrt, prev, a, tePos, k)
    ensures ConsBlocks(sqrt, prev, a, tePos, k) + block == ConsBlocks(sqrt, prev, a, tePos, k + 1)
  {
  }

  /** `assessment.threats.forEach`: every threat's block, in order. */
  method LayThreats(sqrt: Sqrt, currentNodesMap: map<string, FlowNode>, a: RiskAssessment, topEventPos: Point)
    returns (nodes: seq<FlowNode>)
    ensures nodes == ThreatBlocks(sqrt, currentNodesMap, a, topEventPos, |a.threats|)
  {
    nodes := [];
    for index := 0 to |a.threats|
      invariant nodes == ThreatBlocks(sqrt, currentNodesMap, a, topEventPos, index)
    {
      var block := LayThreat(sqrt, currentNodesMap, a, topEventPos, index);
      ThreatBlocksStep(sqrt, currentNodesMap, a, topEventPos, index, block);
      nodes := nodes + block;
    }
  }

  /** `assessment.consequences.forEach`: every consequence's block, in order. */
  method LayConsequences(sqrt: Sqrt, currentNodesMap: map<string, FlowNode>, a: RiskAssessment, topEventPos: Point)
    returns (nodes: seq<FlowNode>)
    ensures nodes == ConsBlocks(sqrt, currentNodesMap, a, topEventPos, |a.consequences|)
  {
    nodes := [];
    for index := 0 to |a.consequences|
      invariant nodes == ConsBlocks(sqrt, currentNodesMap, a, topEventPos, index)
    {
      var block := LayConsequence(sqrt, currentNodesMap, a, topEventPos, index);
      ConsBlocksStep(sqrt, currentNodesMap, a, topEventPos, index, block);
      nodes := nodes + block;
    }
  }

  /** The layout effect: nothing without an assessment, else the nodes built from it. */
  method Layout(sqrt: Sqrt, assessment: Option<RiskAssessment>, allAssessments: seq<RiskAssessment>,
                asset: Option<Asset>, nodes: seq<FlowNode>) returns (flowNodes: seq<FlowNode>)
    ensures assessment.None? ==> flowNodes == nodes
    ensures assessment.Some? ==> flowNodes == LayoutNodes(sqrt, assessment.value, allAssessments, asset, nodes)
  {
    if assessment.None? {
      return nodes;
    }
    flowNodes := LayAssessment(sqrt, assessment.value, allAssessments, asset, nodes);
  }

  /** The layout effect's body for an assessment `a`. */
  method LayAssessment(sqrt: Sqrt, a: RiskAssessment, allAssessments: seq<RiskAssessment>,
                       asset: Option<Asset>, nodes: seq<FlowNode>) returns (flowNodes: seq<FlowNode>)
    ensures flowNodes == LayoutNodes(sqrt, a, allAssessments, asset, nodes)
  {
    var currentNodesMap := BuildNodeMap(nodes);

    flowNodes := [];
    var topEventNodeId := a.topEvent.id;
    var topEventPos := if topEventNodeId in currentNodesMap then currentNodesMap[topEventNodeId].position
                       else Point(CenterX, CenterY);
    if asset.Some? {
      flowNodes := flowNodes + [FlowNode(AssetNodeId, AssetFlow, AssetNodePos, AssetData(asset.value.name, asset.value.assetType))];
    }
    flowNodes := flowNodes + [FlowNode(topEventNodeId, TopEventFlow, topEventPos, Labelled(a.topEvent.labelText))];
    ghost var head := flowNodes;
    assert head == AssetNodes(asset) + [TopNode(a, topEventPos)];
    assert topEventPos == TopEventPos(currentNodesMap, a);

    var threatNodes := LayThreats(sqrt, currentNodesMap, a, topEventPos);
    flowNodes := flowNodes + threatNodes;
    ghost var middle := flowNodes;
    var consNodes := LayConsequences(sqrt, currentNodesMap, a, topEventPos);
    flowNodes := flowNodes + consNodes;
    ghost var tail := flowNodes;

    var ghosts := Seqs.Filter(allAssessments, NotAssessment(a.id));
    var ghostNodes := LayGhosts(ghosts);
    flowNodes := flowNodes + ghostNodes;
    LayoutAssembled(sqrt, a, allAssessments, asset, nodes, currentNodesMap, topEventPos, ghosts,
                    head, middle, tail, flowNodes);
  }

  /** The pieces the layout pushes, in order, make up `LayoutNodes`. */
  lemma LayoutAssembled(sqrt: Sqrt, a: RiskAssessment, allAssessments: seq<RiskAssessment>,
                        asset: Option<Asset>, nodes: seq<FlowNode>,
                        prev: map<string, FlowNode>, tePos: Point, others: seq<RiskAssessment>,
                        head: seq<FlowNode>, middle: seq<FlowNode>, tail: seq<FlowNode>, all: seq<FlowNode>)
    requires prev == NodeMap(nodes) && tePos == TopEventPos(prev, a)
    requires others == Seqs.Filter(allAssessments, NotAssessment(a.id))
    requires head == AssetNodes(asset) + [TopNode(a, tePos)]
    requires middle == head + ThreatBlocks(sqrt, prev, a, tePos, |a.threats|)
    requires tail == middle + ConsBlocks(sqrt, prev, a, tePos, |a.consequences|)
    requires all == tail + GhostNodes(others, |others|)
    ensures all == LayoutNodes(sqrt, a, allAssessments, asset, nodes)
  {
  }

  // --- Properties of the layout ---

  /** The first `topEvent` node of a layout is the assessment's own top event, which is what
      `onNodeDrag` looks up: the ghosts, which share its type, come after it. */
  lemma TopEventFoundFirst(sqrt: Sqrt, a: RiskAssessment, allAssessments: seq<RiskAssessment>,
                           asset: Option<Asset>, nodes: seq<FlowNode>)
    ensures Seqs.Find(LayoutNodes(sqrt, a, allAssessments, asset, nodes), IsTopEventNode)
         == Some(TopNode(a, TopEventPos(NodeMap(nodes), a)))
  {
    var l := LayoutNodes(sqrt, a, allAssessments, asset, nodes);
    var k := |AssetNodes(asset)|;
    assert l[k] == TopNode(a, TopEventPos(NodeMap(nodes), a));
    Seqs.FindFirst(l, IsTopEventNode, k);
  }

  /** The top event is laid out where the last node with its id was, or, without one, at the
      centre. */
  lemma TopEventKept(a: RiskAssessment, nodes: seq<FlowNode>)
    ensures (forall j :: 0 <= j < |nodes| ==> nodes[j].id != a.topEvent.id) ==>
      TopEventPos(NodeMap(nodes), a) == Point(CenterX, CenterY)
    ensures forall j :: 0 <= j < |nodes| && nodes[j].id == a.topEvent.id
                        && (forall j' :: j < j' < |nodes| ==> nodes[j'].id != nodes[j].id) ==>
      TopEventPos(NodeMap(nodes), a) == nodes[j].position
  {
    forall j | 0 <= j < |nodes| && nodes[j].id == a.topEvent.id
               && (forall j' :: j < j' < |nodes| ==> nodes[j'].id != nodes[j].id)
      ensures TopEventPos(NodeMap(nodes), a) == nodes[j].position
    {
      NodeMapLast(nodes, j);
    }
  }

  /** Default slots are SPACING_Y apart and symmetric about CENTER_Y. */
  lemma DefaultSlots(index: nat, count: nat)
    ensures DefaultY(index + 1, count) - DefaultY(index, count) == SpacingY
    ensures index < count ==> DefaultY(index, count) + DefaultY(count - 1 - index, count) == 2.0 * CenterY
  {
  }

  lemma {:induction false} ThreatBlockIn(sqrt: Sqrt, prev: map<string, FlowNode>, a: RiskAssessment, tePos: Point,
                                         i: nat, k: nat, x: FlowNode)
    requires i < k <= |a.threats| && x in ThreatBlock(sqrt, prev, a, tePos, i)
    ensures x in ThreatBlocks(sqrt, prev, a, tePos, k)
  {
    if i < k - 1 {
      ThreatBlockIn(sqrt, prev, a, tePos, i, k - 1, x);
    }
  }

  lemma {:induction false} ConsBlockIn(sqrt: Sqrt, prev: map<string, FlowNode>, a: RiskAssessment, tePos: Point,
                                       i: nat, k: nat, x: FlowNode)
    requires i < k <= |a.consequences| && x in ConsBlock(sqrt, prev, a, tePos, i)
    ensures x in ConsBlocks(sqrt, prev, a, tePos, k)
  {
    if i < k - 1 {
      ConsBlockIn(sqrt, prev, a, tePos, i, k - 1, x);
    }
  }

  lemma InLayout(sqrt: Sqrt, a: RiskAssessment, allAssessments: seq<RiskAssessment>, asset: Option<Asset>,
                 nodes: seq<FlowNode>, x: FlowNode)
    requires var prev := NodeMap(nodes); var tePos := TopEventPos(prev, a);
      x in ThreatBlocks(sqrt, prev, a, tePos, |a.threats|) || x in ConsBlocks(sqrt, prev, a, tePos, |a.consequences|)
    ensures x in LayoutNodes(sqrt, a, allAssessments, asset, nodes)
  {
  }

  /** Threat `i` is laid out where the last node with its id was, or, without one, in its
      default slot in the left column. */
  lemma ThreatPlaced(sqrt: Sqrt, a: RiskAssessment, allAssessments: seq<RiskAssessment>, asset: Option<Asset>,
                     nodes: seq<FlowNode>, i: nat)
    requires i < |a.threats|
    ensures (forall j :: 0 <= j < |nodes| ==> nodes[j].id != a.threats[i].id) ==>
      FlowNode(a.threats[i].id, ThreatFlow, Point(CenterX - 2.0 * SpacingX, DefaultY(i, |a.threats|)),
               Labelled(a.threats[i].labelText)) in LayoutNodes(sqrt, a, allAssessments, asset, nodes)
    ensures forall j :: 0 <= j < |nodes| && nodes[j].id == a.threats[i].id
                        && (forall j' :: j < j' < |nodes| ==> nodes[j'].id != nodes[j].id) ==>
      FlowNode(a.threats[i].id, ThreatFlow, nodes[j].position, Labelled(a.threats[i].labelText))
        in LayoutNodes(sqrt, a, allAssessments, asset, nodes)
  {
    var prev := NodeMap(nodes);
    var tePos := TopEventPos(prev, a);
    var x := ThreatBlock(sqrt, prev, a, tePos, i)[0];
    ThreatBlockIn(sqrt, prev, a, tePos, i, |a.threats|, x);
    InLayout(sqrt, a, allAssessments, asset, nodes, x);
    forall j | 0 <= j < |nodes| && nodes[j].id == a.threats[i].id
               && (forall j' :: j < j' < |nodes| ==> nodes[j'].id != nodes[j].id)
      ensures x.position == nodes[j].position
    {
      NodeMapLast(nodes, j);
    }
  }

  /** Consequence `i` is laid out where the last node with its id was, or, without one, in its
      default slot in the right column. */
  lemma ConsequencePlaced(sqrt: Sqrt, a: RiskAssessment, allAssessments: seq<RiskAssessment>, asset: Option<Asset>,
                          nodes: seq<FlowNode>, i: nat)
    requires i < |a.consequences|
    ensures (forall j :: 0 <= j < |nodes| ==> nodes[j].id != a.consequences[i].id) ==>
      FlowNode(a.consequences[i].id, ConsequenceFlow, Point(CenterX + 2.0 * SpacingX, DefaultY(i, |a.consequences|)),
               Labelled(a.consequences[i].labelText)) in LayoutNodes(sqrt, a, allAssessments, asset, nodes)
    ensures forall j :: 0 <= j < |nodes| && nodes[j].id == a.consequences[i].id
                        && (forall j' :: j < j' < |nodes| ==> nodes[j'].id != nodes[j].id) ==>
      FlowNode(a.consequences[i].id, ConsequenceFlow, nodes[j].position, Labelled(a.consequences[i].labelText))
        in LayoutNodes(sqrt, a, allAssessments, asset, nodes)
  {
    var prev := NodeMap(nodes);
    var tePos := TopEventPos(prev, a);
    var x := ConsBlock(sqrt, prev, a, tePos, i)[0];
    ConsBlockIn(sqrt, prev, a, tePos, i, |a.consequences|, x);
    InLayout(sqrt, a, allAssessments, asset, nodes, x);
    forall j | 0 <= j < |nodes| && nodes[j].id == a.consequences[i].id
               && (forall j' :: j < j' < |nodes| ==> nodes[j'].id != nodes[j].id)
      ensures x.position == nodes[j].position
    {
      NodeMapLast(nodes, j);
    }
  }

  /** The number of barriers before position `m` that sit on the same path. */
  function Rank(a: RiskAssessment, m: nat): nat
    requires m < |a.barriers|
  {
    |Seqs.Filter(a.barriers[..m], RiskAssessments.ParentIs(a.barriers[m].parentId))|
  }

  /** A barrier on a threat's path is laid out with its rank on that path as `index`, the
      path's length as `total`, and its centre on the edge from the threat's handle to the top
      event's input handle. */
  lemma ThreatBarrierPlaced(sqrt: Sqrt, a: RiskAssessment, allAssessments: seq<RiskAssessment>, asset: Option<Asset>,
                            nodes: seq<FlowNode>, i: nat, m: nat)
    requires i < |a.threats| && m < |a.barriers| && a.barriers[m].parentId == a.threats[i].id
    ensures var prev := NodeMap(nodes);
      var b := a.barriers[m];
      exists n :: n in LayoutNodes(sqrt, a, allAssessments, asset, nodes)
        && n.id == b.id() && n.kind.BarrierFlow?
        && n.data == BarrierData(b.node.labelText, b.barrierType, b.parentId, Rank(a, m),
                                 |RiskAssessments.Group(a, b.parentId)|)
        && exists t :: 0.0 <= t <= 1.0 && Center(n) ==
             At(EdgeCurve(Add(ThreatPos(prev, a, i), LayoutThreatHandle), Add(TopEventPos(prev, a), TopEventInOffset)), t)
  {
    var prev := NodeMap(nodes);
    var tePos := TopEventPos(prev, a);
    var b := a.barriers[m];
    var path := RiskAssessments.Group(a, b.parentId);
    var p0 := Add(ThreatPos(prev, a, i), LayoutThreatHandle);
    var p3 := Add(tePos, TopEventInOffset);
    Seqs.FilterRank(a.barriers, RiskAssessments.ParentIs(b.parentId), m);
    var rank := Rank(a, m);
    var n := BarrierNode(sqrt, p0, p3, b.parentId, path, rank);
    BarrierNodesAt(sqrt, p0, p3, b.parentId, path, |path|, rank);
    assert n in ThreatBlock(sqrt, prev, a, tePos, i);
    ThreatBlockIn(sqrt, prev, a, tePos, i, |a.threats|, n);
    InLayout(sqrt, a, allAssessments, asset, nodes, n);
    ClusteredOnCurve(sqrt, p0, p3, rank, |path|);
    var t :| 0.0 <= t <= 1.0 && Add(ClusteredPosition(sqrt, p0, p3, rank, |path|), CenterOffset) == At(EdgeCurve(p0, p3), t);
    assert n.position == ClusteredPosition(sqrt, p0, p3, rank, |path|);
    assert Center(n) == At(EdgeCurve(p0, p3), t);
    assert n.data == BarrierData(b.node.labelText, b.barrierType, b.parentId, rank, |path|);
  }

  /** The same for a barrier on a consequence's path. */
  lemma ConsBarrierPlaced(sqrt: Sqrt, a: RiskAssessment, allAssessments: seq<RiskAssessment>, asset: Option<Asset>,
                          nodes: seq<FlowNode>, i: nat, m: nat)
    requires i < |a.consequences| && m < |a.barriers| && a.barriers[m].parentId == a.consequences[i].id
    ensures var prev := NodeMap(nodes);
      var b := a.barriers[m];
      exists n :: n in LayoutNodes(sqrt, a, allAssessments, asset, nodes)
        && n.id == b.id() && n.kind.BarrierFlow?
        && n.data == BarrierData(b.node.labelText, b.barrierType, b.parentId, Rank(a, m),
                                 |RiskAssessments.Group(a, b.parentId)|)
        && exists t :: 0.0 <= t <= 1.0 && Center(n) ==
             At(EdgeCurve(Add(TopEventPos(prev, a), TopEventOutOffset), Add(ConsPos(prev, a, i), LayoutConsHandle)), t)
  {
    var prev := NodeMap(nodes);
    var tePos := TopEventPos(prev, a);
    var b := a.barriers[m];
    var path := RiskAssessments.Group(a, b.parentId);
    var p0 := Add(tePos, TopEventOutOffset);
    var p3 := Add(ConsPos(prev, a, i), LayoutConsHandle);
    Seqs.FilterRank(a.barriers, RiskAssessments.ParentIs(b.parentId), m);
    var rank := Rank(a, m);
    var n := BarrierNode(sqrt, p0, p3, b.parentId, path, rank);
    BarrierNodesAt(sqrt, p0, p3, b.parentId, path, |path|, rank);
    assert n in ConsBlock(sqrt, prev, a, tePos, i);
    ConsBlockIn(sqrt, prev, a, tePos, i, |a.consequences|, n);
    InLayout(sqrt, a, allAssessments, asset, nodes, n);
    ClusteredOnCurve(sqrt, p0, p3, rank, |path|);
    var t :| 0.0 <= t <= 1.0 && Add(ClusteredPosition(sqrt, p0, p3, rank, |path|), CenterOffset) == At(EdgeCurve(p0, p3), t);
    assert n.position == ClusteredPosition(sqrt, p0, p3, rank, |path|);
    assert Center(n) == At(EdgeCurve(p0, p3), t);
    assert n.data == BarrierData(b.node.labelText, b.barrierType, b.parentId, rank, |path|);
  }

  /** `id` names one of the assessment's threats or consequences. */
  predicate ParentNamed(a: RiskAssessment, id: string) {
    (exists i :: 0 <= i < |a.threats| && a.threats[i].id == id)
    || (exists i :: 0 <= i < |a.consequences| && a.consequences[i].id == id)
  }

  /** Node `n` stands for a barrier of the assessment whose parent is a threat or consequence. */
  ghost predicate Explained(a: RiskAssessment, n: FlowNode) {
    ParentNamed(a, ParentOf(n))
    && exists m :: 0 <= m < |a.barriers| && a.barriers[m].id() == n.id && a.barriers[m].parentId == ParentOf(n)
  }

  ghost predicate AllExplained(a: RiskAssessment, s: seq<FlowNode>) {
    forall j :: 0 <= j < |s| && s[j].kind.BarrierFlow? ==> Explained(a, s[j])
  }

  lemma ExplainedConcat(a: RiskAssessment, s: seq<FlowNode>, t: seq<FlowNode>)
    requires AllExplained(a, s)
    requires forall j :: 0 <= j < |t| && j > 0 ==> t[j].kind.BarrierFlow? ==> Explained(a, t[j])
    requires t != [] ==> !t[0].kind.BarrierFlow?
    ensures AllExplained(a, s + t)
  {
    forall j | 0 <= j < |s + t| && (s + t)[j].kind.BarrierFlow? ensures Explained(a, (s + t)[j]) {
      if j >= |s| {
        assert (s + t)[j] == t[j - |s|];
      }
    }
  }

  lemma ExplainedAppend(a: RiskAssessment, s: seq<FlowNode>, t: seq<FlowNode>)
    requires AllExplained(a, s) && AllExplained(a, t)
    ensures AllExplained(a, s + t)
  {
    forall j | 0 <= j < |s + t| && (s + t)[j].kind.BarrierFlow? ensures Explained(a, (s + t)[j]) {
      if j >= |s| {
        assert (s + t)[j] == t[j - |s|];
      }
    }
  }

  lemma PathExplained(sqrt: Sqrt, p0: Point, p3: Point, a: RiskAssessment, parentId: string)
    requires ParentNamed(a, parentId)
    ensures AllExplained(a, BarrierNodes(sqrt, p0, p3, parentId, RiskAssessments.Group(a, parentId),
                                         |RiskAssessments.Group(a, parentId)|))
  {
    var path := RiskAssessments.Group(a, parentId);
    Seqs.FilterMembers(a.barriers, RiskAssessments.ParentIs(parentId));
    forall j | 0 <= j < |path|
      ensures Explained(a, BarrierNodes(sqrt, p0, p3, parentId, path, |path|)[j])
    {
      BarrierNodesAt(sqrt, p0, p3, parentId, path, |path|, j);
      assert path[j] in a.barriers && RiskAssessments.ParentIs(parentId)(path[j]);
      var m :| 0 <= m < |a.barriers| && a.barriers[m] == path[j];
      assert a.barriers[m].id() == BarrierNode(sqrt, p0, p3, parentId, path, j).id;
    }
  }

  lemma {:induction false} ThreatBlocksExplained(sqrt: Sqrt, prev: map<string, FlowNode>, a: RiskAssessment,
                                                 tePos: Point, k: nat)
    requires k <= |a.threats|
    ensures AllExplained(a, ThreatBlocks(sqrt, prev, a, tePos, k))
  {
    if k > 0 {
      ThreatBlocksExplained(sqrt, prev, a, tePos, k - 1);
      var threat := a.threats[k - 1];
      assert ParentNamed(a, threat.id);
      var p0 := Add(ThreatPos(prev, a, k - 1), LayoutThreatHandle);
      var p3 := Add(tePos, TopEventInOffset);
      var path := RiskAssessments.Group(a, threat.id);
      var block := BarrierNodes(sqrt, p0, p3, threat.id, path, |path|);
      PathExplained(sqrt, p0, p3, a, threat.id);
      assert ThreatBlock(sqrt, prev, a, tePos, k - 1) == [FlowNode(threat.id, ThreatFlow, ThreatPos(prev, a, k - 1), Labelled(threat.labelText))] + block;
      ExplainedConcat(a, ThreatBlocks(sqrt, prev, a, tePos, k - 1), [FlowNode(threat.id, ThreatFlow, ThreatPos(prev, a, k - 1), Labelled(threat.labelText))] + block);
    }
  }

  lemma {:induction false} ConsBlocksExplained(sqrt: Sqrt, prev: map<string, FlowNode>, a: RiskAssessment,
                                               tePos: Point, k: nat)
    requires k <= |a.consequences|
    ensures AllExplained(a, ConsBlocks(sqrt, prev, a, tePos, k))
  {
    if k > 0 {
      ConsBlocksExplained(sqrt, prev, a, tePos, k - 1);
      var cons := a.consequences[k - 1];
      assert ParentNamed(a, cons.id);
      var p0 := Add(tePos, TopEventOutOffset);
      var p3 := Add(ConsPos(prev, a, k - 1), LayoutConsHandle);
      var path := RiskAssessments.Group(a, cons.id);
      var block := BarrierNodes(sqrt, p0, p3, cons.id, path, |path|);
      PathExplained(sqrt, p0, p3, a, cons.id);
      assert ConsBlock(sqrt, prev, a, tePos, k - 1) == [FlowNode(cons.id, ConsequenceFlow, ConsPos(prev, a, k - 1), Labelled(cons.labelText))] + block;
      ExplainedConcat(a, ConsBlocks(sqrt, prev, a, tePos, k - 1), [FlowNode(cons.id, ConsequenceFlow, ConsPos(prev, a, k - 1), Labelled(cons.labelText))] + block);
    }
  }

  /** Every barrier node of a layout stands for a barrier of the assessment, under a parent
      that is one of its threats or consequences. */
  lemma LaidOutBarriersExplained(sqrt: Sqrt, a: RiskAssessment, allAssessments: seq<RiskAssessment>,
                                 asset: Option<Asset>, nodes: seq<FlowNode>)
    ensures AllExplained(a, LayoutNodes(sqrt, a, allAssessments, asset, nodes))
  {
    var prev := NodeMap(nodes);
    var tePos := TopEventPos(prev, a);
    var others := Seqs.Filter(allAssessments, NotAssessment(a.id));
    var head := AssetNodes(asset) + [TopNode(a, tePos)];
    var threats := ThreatBlocks(sqrt, prev, a, tePos, |a.threats|);
    var conses := ConsBlocks(sqrt, prev, a, tePos, |a.consequences|);
    var ghosts := GhostNodes(others, |others|);
    assert AllExplained(a, head);
    assert AllExplained(a, ghosts);
    ThreatBlocksExplained(sqrt, prev, a, tePos, |a.threats|);
    ConsBlocksExplained(sqrt, prev, a, tePos, |a.consequences|);
    ExplainedAppend(a, head, threats);
    ExplainedAppend(a, head + threats, conses);
    ExplainedAppend(a, head + threats + conses, ghosts);
  }

  /** A barrier whose parent is neither a threat nor a consequence (an orphan) is never laid
      out, when barrier ids are distinct. */
  lemma OrphanNotLaidOut(sqrt: Sqrt, a: RiskAssessment, allAssessments: seq<RiskAssessment>,
                         asset: Option<Asset>, nodes: seq<FlowNode>, m: nat)
    requires Seqs.Distinct(RiskAssessments.BarrierIds(a.barriers))
    requires m < |a.barriers| && !ParentNamed(a, a.barriers[m].parentId)
    ensures forall n :: n in LayoutNodes(sqrt, a, allAssessments, asset, nodes) && n.kind.BarrierFlow? ==>
      n.id != a.barriers[m].id()
  {
    var l := LayoutNodes(sqrt, a, allAssessments, asset, nodes);
    LaidOutBarriersExplained(sqrt, a, allAssessments, asset, nodes);
    forall n | n in l && n.kind.BarrierFlow? ensures n.id != a.barriers[m].id() {
      var j :| 0 <= j < |l| && l[j] == n;
      assert Explained(a, l[j]);
      var m' :| 0 <= m' < |a.barriers| && a.barriers[m'].id() == n.id && a.barriers[m'].parentId == ParentOf(n);
    }
  }

  /** Ghost nodes sit off the centre line, even ones to the left and odd ones to the right,
      and no two share a position. */
  lemma GhostSlots(x: RiskAssessment, y: RiskAssessment, i: nat, j: nat)
    ensures (i % 2 == 0 ==> GhostNode(x, i).position.x < CenterX) && (i % 2 == 1 ==> GhostNode(x, i).position.x > CenterX)
    ensures i != j ==> GhostNode(x, i).position != GhostNode(y, j).position
  {
    if i != j && i % 2 == j % 2 {
      assert i / 2 != j / 2;
    }
  }
}
