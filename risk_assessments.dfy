/** The bowtie graph operations of src/hooks/useRiskAssessments.ts.

    Each operation of the hook finds the assessment by id in its `assessments` state and does
    nothing when there is none; otherwise it builds a new assessment with spread, `map` and
    `filter` and saves it. The construction is modelled as pure functions on `RiskAssessment`;
    the hook, with its state and the storage it writes, as the class `RiskAssessmentHook`.
    Fresh ids (`crypto.randomUUID()`) and timestamps are parameters. */
module RiskAssessments {
  import opened Types
  import Seqs

  // --- Nodes ---

  function PlainNode(id: string, kind: NodeKind, text: string): BowtieNode {
    BowtieNode(id, kind, text, None, None, None, None)
  }

  /** The barrier `addBarrier` builds: efficacy 0.8, active, nothing else set. */
  function NewBarrier(id: string, parentId: string, text: string, barrierType: BarrierType): (b: Barrier)
    ensures b.id() == id && b.node.kind == BarrierKind && b.node.labelText == text
    ensures b.parentId == parentId && b.barrierType == barrierType
    ensures b.efficacy == 0.8 && b.active && b.cost.None?
  {
    Barrier(PlainNode(id, BarrierKind, text), barrierType, parentId, 0.8, None, true, None, None, None)
  }

  function BarrierIdOf(b: Barrier): string { b.id() }
  function NodeIdOf(n: BowtieNode): string { n.id }

  function BarrierIds(bs: seq<Barrier>): seq<string> { Seqs.Map(bs, BarrierIdOf) }
  function NodeIds(ns: seq<BowtieNode>): seq<string> { Seqs.Map(ns, NodeIdOf) }

  /** Everything of an assessment but its four node collections. */
  predicate SameHeader(a: RiskAssessment, b: RiskAssessment) {
    a.id == b.id && a.assetId == b.assetId && a.title == b.title && a.status == b.status
    && a.fairData == b.fairData && a.lastUpdated == b.lastUpdated
  }

  // --- Adding nodes ---

  /** `{ ...assessment, threats: [...threats, { id, type: 'threat', label }] }`. */
  function WithThreat(a: RiskAssessment, id: string, text: string): (r: RiskAssessment)
    ensures r.threats == a.threats + [PlainNode(id, Threat, text)]
    ensures SameHeader(r, a) && r.consequences == a.consequences && r.barriers == a.barriers
    ensures r.topEvent == a.topEvent
  {
    a.(threats := a.threats + [PlainNode(id, Threat, text)])
  }

  function WithConsequence(a: RiskAssessment, id: string, text: string): (r: RiskAssessment)
    ensures r.consequences == a.consequences + [PlainNode(id, Consequence, text)]
    ensures SameHeader(r, a) && r.threats == a.threats && r.barriers == a.barriers
    ensures r.topEvent == a.topEvent
  {
    a.(consequences := a.consequences + [PlainNode(id, Consequence, text)])
  }

  /** `addBarrier` takes `'Preventive' | 'Mitigative'` and does not check that the parent exists. */
  function WithBarrier(a: RiskAssessment, id: string, parentId: string, text: string,
                       barrierType: BarrierType): (r: RiskAssessment)
    requires !barrierType.Detective?
    ensures r.barriers == a.barriers + [NewBarrier(id, parentId, text, barrierType)]
    ensures SameHeader(r, a) && r.threats == a.threats && r.consequences == a.consequences
    ensures r.topEvent == a.topEvent
  {
    a.(barriers := a.barriers + [NewBarrier(id, parentId, text, barrierType)])
  }

  /** The default FAIR inputs of a new assessment: 1 attempt a year, capability and resistance
      50, primary loss 10000. */
  function DefaultFairData(): FAIRFactors {
    FAIRFactors(Scalar(1.0), Scalar(50.0), Scalar(50.0), None, Scalar(10000.0), Absent, None)
  }

  /** `createAssessment`'s new assessment, and (titled 'Initial Assessment') the seed. */
  function NewAssessment(id: string, assetId: string, title: string, topEventId: string,
                         now: string): (r: RiskAssessment)
    ensures r.id == id && r.assetId == assetId && r.title == title && r.status == Draft
    ensures r.threats == [] && r.consequences == [] && r.barriers == []
    ensures r.topEvent.id == topEventId && r.topEvent.kind == TopEvent
    ensures r.topEvent.labelText == "Threat Event"
    ensures r.fairData.attemptCheckFrequency == Scalar(1.0)
    ensures r.fairData.threatCapability == Scalar(50.0) && r.fairData.resistanceStrength == Scalar(50.0)
    ensures r.fairData.primaryLoss == Scalar(10000.0) && r.fairData.secondaryLoss.Absent?
    ensures r.lastUpdated == now
  {
    RiskAssessment(id, assetId, title, Draft, [], [], [], PlainNode(topEventId, TopEvent, "Threat Event"),
                   DefaultFairData(), now)
  }

  function SeedAssessment(id: string, assetId: string, topEventId: string, now: string): (r: RiskAssessment)
    ensures r.title == "Initial Assessment" && r.assetId == assetId && r.status == Draft
    ensures r.threats == [] && r.consequences == [] && r.barriers == []
  {
    NewAssessment(id, assetId, "Initial Assessment", topEventId, now)
  }

  // --- Updating a node ---

  /** The fields the properties panel sends: the node's own fields always, the barrier fields
      for barriers. `Set(None)` clears an optional field. */
  datatype NodeUpdate = NodeUpdate(
    labelText: Patch<string>,
    description: Patch<Option<string>>,
    mitreAttackId: Patch<Option<string>>,
    mitreTechniqueName: Patch<Option<string>>,
    mitreUrl: Patch<Option<string>>,
    efficacy: Patch<real>,
    d3fendId: Patch<Option<string>>,
    d3fendName: Patch<Option<string>>,
    d3fendUrl: Patch<Option<string>>)

  /** `{ ...n, ...updates }` on a node: the id and kind are never among the updates. */
  function PatchNode(n: BowtieNode, u: NodeUpdate): BowtieNode {
    BowtieNode(n.id, n.kind, u.labelText.Apply(n.labelText), u.description.Apply(n.description),
               u.mitreAttackId.Apply(n.mitreAttackId), u.mitreTechniqueName.Apply(n.mitreTechniqueName),
               u.mitreUrl.Apply(n.mitreUrl))
  }

  function PatchBarrier(b: Barrier, u: NodeUpdate): Barrier {
    b.(node := PatchNode(b.node, u), efficacy := u.efficacy.Apply(b.efficacy),
       d3fendId := u.d3fendId.Apply(b.d3fendId), d3fendName := u.d3fendName.Apply(b.d3fendName),
       d3fendUrl := u.d3fendUrl.Apply(b.d3fendUrl))
  }

  function PatchNodeIf(nodeId: string, u: NodeUpdate): BowtieNode -> BowtieNode {
    (n: BowtieNode) => if n.id == nodeId then PatchNode(n, u) else n
  }

  function PatchBarrierIf(nodeId: string, u: NodeUpdate): Barrier -> Barrier {
    (b: Barrier) => if b.id() == nodeId then PatchBarrier(b, u) else b
  }

  /** `updateNode`: the updates go into every node with the id, among threats, consequences,
      barriers and the top event; every other node, every length and every order stay. */
  function NodeUpdated(a: RiskAssessment, nodeId: string, u: NodeUpdate): (r: RiskAssessment)
    ensures SameHeader(r, a)
    ensures |r.threats| == |a.threats| && |r.consequences| == |a.consequences|
    ensures |r.barriers| == |a.barriers|
    ensures forall i :: 0 <= i < |a.threats| ==>
      r.threats[i] == if a.threats[i].id == nodeId then PatchNode(a.threats[i], u) else a.threats[i]
    ensures forall i :: 0 <= i < |a.consequences| ==>
      r.consequences[i] == if a.consequences[i].id == nodeId then PatchNode(a.consequences[i], u) else a.consequences[i]
    ensures forall i :: 0 <= i < |a.barriers| ==>
      r.barriers[i] == if a.barriers[i].id() == nodeId then PatchBarrier(a.barriers[i], u) else a.barriers[i]
    ensures r.topEvent == if a.topEvent.id == nodeId then PatchNode(a.topEvent, u) else a.topEvent
  {
    var threats := Seqs.Map(a.threats, PatchNodeIf(nodeId, u));
    var consequences := Seqs.Map(a.consequences, PatchNodeIf(nodeId, u));
    var barriers := Seqs.Map(a.barriers, PatchBarrierIf(nodeId, u));
    var topEvent := if a.topEvent.id == nodeId then PatchNode(a.topEvent, u) else a.topEvent;
    a.(threats := threats, consequences := consequences, barriers := barriers, topEvent := topEvent)
  }

  // --- Removing a node ---

  function NodeNotId(nodeId: string): BowtieNode -> bool {
    (n: BowtieNode) => n.id != nodeId
  }

  /** The nodes `removeNode` drops from threats and consequences. */
  function NodeIsId(nodeId: string): BowtieNode -> bool {
    (n: BowtieNode) => n.id == nodeId
  }

  /** The barriers `removeNode` drops: the node itself and those hanging on it. */
  function BarrierDropped(nodeId: string): Barrier -> bool {
    (b: Barrier) => b.id() == nodeId || b.parentId == nodeId
  }

  /** A barrier survives the removal of `nodeId` unless it is that node or hangs on it. */
  function BarrierSurvives(nodeId: string): Barrier -> bool {
    (b: Barrier) => b.id() != nodeId && b.parentId != nodeId
  }

  /** `removeNode`: drops the node from threats and consequences, and drops every barrier that is
      the node or whose parent is the node. The top event is never removed. */
  function NodeRemoved(a: RiskAssessment, nodeId: string): (r: RiskAssessment)
    ensures SameHeader(r, a) && r.topEvent == a.topEvent
    ensures forall i :: 0 <= i < |r.threats| ==> r.threats[i].id != nodeId && r.threats[i] in a.threats
    ensures forall i :: 0 <= i < |r.consequences| ==>
      r.consequences[i].id != nodeId && r.consequences[i] in a.consequences
    ensures forall i :: 0 <= i < |r.barriers| ==>
      r.barriers[i].id() != nodeId && r.barriers[i].parentId != nodeId && r.barriers[i] in a.barriers
    ensures forall i :: 0 <= i < |a.threats| && a.threats[i].id != nodeId ==> a.threats[i] in r.threats
    ensures forall i :: 0 <= i < |a.consequences| && a.consequences[i].id != nodeId ==>
      a.consequences[i] in r.consequences
    ensures forall i :: 0 <= i < |a.barriers| && a.barriers[i].id() != nodeId && a.barriers[i].parentId != nodeId ==>
      a.barriers[i] in r.barriers
  {
    Seqs.FilterMembers(a.threats, NodeNotId(nodeId));
    Seqs.FilterMembers(a.consequences, NodeNotId(nodeId));
    Seqs.FilterMembers(a.barriers, BarrierSurvives(nodeId));
    a.(threats := Seqs.Filter(a.threats, NodeNotId(nodeId)),
       consequences := Seqs.Filter(a.consequences, NodeNotId(nodeId)),
       barriers := Seqs.Filter(a.barriers, BarrierSurvives(nodeId)))
  }

  // --- Reordering barriers ---

  function ParentIs(parentId: string): Barrier -> bool {
    (b: Barrier) => b.parentId == parentId
  }

  function ParentIsNot(parentId: string): Barrier -> bool {
    (b: Barrier) => b.parentId != parentId
  }

  /** `new Map(group.map(b => [b.id, b])).get(id)`: with repeated ids the last entry wins. */
  function LastWithId(bs: seq<Barrier>, id: string): (r: Option<Barrier>)
    ensures r.None? <==> forall i :: 0 <= i < |bs| ==> bs[i].id() != id
    ensures r.Some? ==> r.value in bs && r.value.id() == id
  {
    if bs == [] then None
    else if bs[|bs| - 1].id() == id then Some(bs[|bs| - 1])
    else LastWithId(bs[..|bs| - 1], id)
  }

  /** `ids.map(id => map.get(id)).filter(b => !!b)`. */
  function Resolve(group: seq<Barrier>, ids: seq<string>): (r: seq<Barrier>)
    ensures |r| <= |ids|
    ensures forall k :: 0 <= k < |r| ==> r[k] in group
  {
    if ids == [] then []
    else
      var first := match LastWithId(group, ids[0]) case Some(b) => [b] case None => [];
      first + Resolve(group, ids[1..])
  }

  /** `reorderBarriers`: the other parents' barriers first, in their order, then this parent's
      barriers in the order of `barrierIds`. `None` (nothing saved) when the number of barriers
      found for the ids differs from the size of the parent's group. */
  function BarriersReordered(a: RiskAssessment, parentId: string, barrierIds: seq<string>): (r: Option<RiskAssessment>)
    ensures var group := Seqs.Filter(a.barriers, ParentIs(parentId));
      r.Some? <==> |Resolve(group, barrierIds)| == |group|
    ensures r.Some? ==>
      SameHeader(r.value, a) && r.value.threats == a.threats
      && r.value.consequences == a.consequences && r.value.topEvent == a.topEvent
    ensures r.Some? ==>
      r.value.barriers == Seqs.Filter(a.barriers, ParentIsNot(parentId))
                          + Resolve(Seqs.Filter(a.barriers, ParentIs(parentId)), barrierIds)
  {
    var others := Seqs.Filter(a.barriers, ParentIsNot(parentId));
    var group := Seqs.Filter(a.barriers, ParentIs(parentId));
    var reordered := Resolve(group, barrierIds);
    if |reordered| != |group| then None
    else Some(a.(barriers := others + reordered))
  }

  // --- Storage (`riskStorage`) ---

  function AssessmentHasId(id: string): RiskAssessment -> bool {
    (a: RiskAssessment) => a.id == id
  }

  function OfAsset(assetId: string): RiskAssessment -> bool {
    (a: RiskAssessment) => a.assetId == assetId
  }

  /** `localStorage.setItem('verge_assessment_' + a.id, …)`: the entry under the id is replaced
      where it is, or a new entry is appended. */
  function Put(store: seq<RiskAssessment>, a: RiskAssessment): (r: seq<RiskAssessment>)
    ensures a in r
    ensures forall i :: 0 <= i < |store| && store[i].id != a.id ==> store[i] in r
    ensures forall i :: 0 <= i < |r| ==> r[i] == a || r[i] in store
    ensures |r| == if forall i :: 0 <= i < |store| ==> store[i].id != a.id then |store| + 1 else |store|
  {
    var k := Seqs.FindIndex(store, AssessmentHasId(a.id));
    if k < |store| then
      var r := store[..k] + [a] + store[k + 1..];
      assert |r| == |store| && r[k] == a;
      assert forall i :: 0 <= i < |store| && i != k ==> r[i] == store[i];
      r
    else store + [a]
  }

  /** `getAssessments(assetId)`: the stored assessments of the asset, in key order. */
  function StoredFor(store: seq<RiskAssessment>, assetId: string): (r: seq<RiskAssessment>)
    ensures forall i :: 0 <= i < |r| ==> r[i].assetId == assetId && r[i] in store
    ensures forall i :: 0 <= i < |store| && store[i].assetId == assetId ==> store[i] in r
  {
    Seqs.FilterMembers(store, OfAsset(assetId));
    Seqs.Filter(store, OfAsset(assetId))
  }

  /** `assessments.find(a => a.id === id)`. */
  function FindAssessment(assessments: seq<RiskAssessment>, id: string): (r: Option<RiskAssessment>)
    ensures r.None? <==> forall i :: 0 <= i < |assessments| ==> assessments[i].id != id
    ensures r.Some? ==> r.value.id == id && r.value in assessments
  {
    Seqs.Find(assessments, AssessmentHasId(id))
  }

  // --- Properties ---

  /** No node of the assessment has the id, and no barrier hangs on it. */
  predicate Unused(a: RiskAssessment, id: string) {
    (forall i :: 0 <= i < |a.threats| ==> a.threats[i].id != id)
    && (forall i :: 0 <= i < |a.consequences| ==> a.consequences[i].id != id)
    && (forall i :: 0 <= i < |a.barriers| ==> a.barriers[i].id() != id && a.barriers[i].parentId != id)
  }

  /** Removing an id the assessment does not use changes nothing. */
  lemma RemoveUnused(a: RiskAssessment, id: string)
    requires Unused(a, id)
    ensures NodeRemoved(a, id) == a
  {
    Seqs.FilterKeepsAll(a.threats, NodeNotId(id));
    Seqs.FilterKeepsAll(a.consequences, NodeNotId(id));
    Seqs.FilterKeepsAll(a.barriers, BarrierSurvives(id));
  }

  /** Removing a node just added under a fresh id gives the assessment back. */
  lemma RemoveAfterAddThreat(a: RiskAssessment, id: string, text: string)
    requires Unused(a, id)
    ensures NodeRemoved(WithThreat(a, id, text), id) == a
  {
    RemoveUnused(a, id);
    Seqs.FilterConcat(a.threats, [PlainNode(id, Threat, text)], NodeNotId(id));
    Seqs.FilterCons(PlainNode(id, Threat, text), [], NodeNotId(id));
  }

  lemma RemoveAfterAddConsequence(a: RiskAssessment, id: string, text: string)
    requires Unused(a, id)
    ensures NodeRemoved(WithConsequence(a, id, text), id) == a
  {
    RemoveUnused(a, id);
    Seqs.FilterConcat(a.consequences, [PlainNode(id, Consequence, text)], NodeNotId(id));
    Seqs.FilterCons(PlainNode(id, Consequence, text), [], NodeNotId(id));
  }

  lemma RemoveAfterAddBarrier(a: RiskAssessment, id: string, parentId: string, text: string,
                              barrierType: BarrierType)
    requires Unused(a, id) && !barrierType.Detective?
    ensures NodeRemoved(WithBarrier(a, id, parentId, text, barrierType), id) == a
  {
    RemoveUnused(a, id);
    var b := NewBarrier(id, parentId, text, barrierType);
    Seqs.FilterConcat(a.barriers, [b], BarrierSurvives(id));
    Seqs.FilterCons(b, [], BarrierSurvives(id));
  }

  /** Removal keeps the survivors in their relative order, and a second removal does nothing. */
  lemma RemoveKeepsOrder(a: RiskAssessment, id: string)
    ensures Seqs.Subsequence(NodeRemoved(a, id).threats, a.threats)
    ensures Seqs.Subsequence(NodeRemoved(a, id).consequences, a.consequences)
    ensures Seqs.Subsequence(NodeRemoved(a, id).barriers, a.barriers)
    ensures multiset(NodeRemoved(a, id).threats) + multiset(Seqs.Filter(a.threats, NodeIsId(id)))
      == multiset(a.threats)
    ensures multiset(NodeRemoved(a, id).consequences) + multiset(Seqs.Filter(a.consequences, NodeIsId(id)))
      == multiset(a.consequences)
    ensures multiset(NodeRemoved(a, id).barriers) + multiset(Seqs.Filter(a.barriers, BarrierDropped(id)))
      == multiset(a.barriers)
    ensures NodeRemoved(NodeRemoved(a, id), id) == NodeRemoved(a, id)
  {
    Seqs.FilterPartition(a.threats, NodeNotId(id), NodeIsId(id));
    Seqs.FilterPartition(a.consequences, NodeNotId(id), NodeIsId(id));
    Seqs.FilterPartition(a.barriers, BarrierSurvives(id), BarrierDropped(id));
    Seqs.FilterSubsequence(a.threats, NodeNotId(id));
    Seqs.FilterSubsequence(a.consequences, NodeNotId(id));
    Seqs.FilterSubsequence(a.barriers, BarrierSurvives(id));
    RemoveUnused(NodeRemoved(a, id), id);
  }

  /** An update never changes an id or a barrier's parent, so every id list stays the same. */
  lemma UpdateKeepsIds(a: RiskAssessment, nodeId: string, u: NodeUpdate)
    ensures NodeIds(NodeUpdated(a, nodeId, u).threats) == NodeIds(a.threats)
    ensures NodeIds(NodeUpdated(a, nodeId, u).consequences) == NodeIds(a.consequences)
    ensures BarrierIds(NodeUpdated(a, nodeId, u).barriers) == BarrierIds(a.barriers)
    ensures NodeUpdated(a, nodeId, u).topEvent.id == a.topEvent.id
    ensures forall i :: 0 <= i < |a.barriers| ==>
      NodeUpdated(a, nodeId, u).barriers[i].parentId == a.barriers[i].parentId
  {
  }

  /** Updating an id nobody has changes nothing. */
  lemma UpdateUnused(a: RiskAssessment, nodeId: string, u: NodeUpdate)
    requires Unused(a, nodeId) && a.topEvent.id != nodeId
    ensures NodeUpdated(a, nodeId, u) == a
  {
    var r := NodeUpdated(a, nodeId, u);
    assert r.threats == a.threats && r.consequences == a.consequences && r.barriers == a.barriers;
  }

  /** Removing a node after updating it is removing it. */
  lemma RemoveAfterUpdate(a: RiskAssessment, nodeId: string, u: NodeUpdate)
    ensures NodeRemoved(NodeUpdated(a, nodeId, u), nodeId) == NodeRemoved(a, nodeId).(topEvent := NodeUpdated(a, nodeId, u).topEvent)
  {
    Seqs.FilterAfterMap(a.threats, PatchNodeIf(nodeId, u), NodeNotId(nodeId));
    Seqs.FilterAfterMap(a.consequences, PatchNodeIf(nodeId, u), NodeNotId(nodeId));
    Seqs.FilterAfterMap(a.barriers, PatchBarrierIf(nodeId, u), BarrierSurvives(nodeId));
  }

  /** With repeated ids the map keeps the last entry: the barrier that no later one shares its id
      with is the one found. */
  lemma {:induction false} LastWithIdLast(bs: seq<Barrier>, i: nat)
    requires i < |bs| && forall j :: i < j < |bs| ==> bs[j].id() != bs[i].id()
    ensures LastWithId(bs, bs[i].id()) == Some(bs[i])
    decreases |bs|
  {
    if i < |bs| - 1 {
      LastWithIdLast(bs[..|bs| - 1], i);
    }
  }

  /** With distinct ids, the map lookup finds the one barrier with the id. */
  lemma LastWithIdUnique(bs: seq<Barrier>, i: nat)
    requires Seqs.Distinct(BarrierIds(bs)) && i < |bs|
    ensures LastWithId(bs, bs[i].id()) == Some(bs[i])
  {
    var r := LastWithId(bs, bs[i].id());
    assert r.Some?;
    var j :| 0 <= j < |bs| && bs[j] == r.value;
    var ids := BarrierIds(bs);
    assert ids[i] == bs[i].id() && ids[j] == bs[j].id();
  }

  /** When every id is known, the reordered group follows `ids` one for one. */
  lemma {:induction false} ResolveKnown(group: seq<Barrier>, ids: seq<string>)
    requires forall k :: 0 <= k < |ids| ==> ids[k] in BarrierIds(group)
    ensures |Resolve(group, ids)| == |ids|
    ensures forall k :: 0 <= k < |ids| ==>
      LastWithId(group, ids[k]).Some? && Resolve(group, ids)[k] == LastWithId(group, ids[k]).value
      && Resolve(group, ids)[k].id() == ids[k]
  {
    if ids != [] {
      ResolveKnown(group, ids[1..]);
      var j :| 0 <= j < |group| && BarrierIds(group)[j] == ids[0];
      assert group[j].id() == ids[0];
      var b := LastWithId(group, ids[0]).value;
      assert Resolve(group, ids) == [b] + Resolve(group, ids[1..]);
    }
  }

  /** The barriers of one parent. */
  function Group(a: RiskAssessment, parentId: string): seq<Barrier> {
    Seqs.Filter(a.barriers, ParentIs(parentId))
  }

  /** When every id is known, the resolved barriers carry exactly the ids, in order. */
  lemma ResolveIds(group: seq<Barrier>, ids: seq<string>)
    requires forall k :: 0 <= k < |ids| ==> ids[k] in BarrierIds(group)
    ensures BarrierIds(Resolve(group, ids)) == ids
  {
    ResolveKnown(group, ids);
  }

  /** Whether an id names a barrier of the group. */
  function KnownIn(group: seq<Barrier>): string -> bool {
    (k: string) => k in BarrierIds(group)
  }

  /** Unfolds one step of `Resolve` on ids given as head and tail. */
  lemma ResolveCons(group: seq<Barrier>, x: string, rest: seq<string>)
    ensures Resolve(group, [x] + rest)
      == (match LastWithId(group, x) case Some(b) => [b] case None => []) + Resolve(group, rest)
  {
    assert ([x] + rest)[0] == x && ([x] + rest)[1..] == rest;
  }

  /** An id that names no barrier of the group is not found. */
  lemma UnknownNotFound(group: seq<Barrier>, x: string)
    requires x !in BarrierIds(group)
    ensures LastWithId(group, x).None?
  {
    forall k | 0 <= k < |group| ensures group[k].id() != x {
      assert BarrierIds(group)[k] == group[k].id();
    }
  }

  /** An id that names no barrier of the group contributes nothing: resolving is resolving the
      known ids alone. */
  lemma {:induction false} ResolveDropsUnknown(group: seq<Barrier>, ids: seq<string>)
    ensures Resolve(group, ids) == Resolve(group, Seqs.Filter(ids, KnownIn(group)))
  {
    if ids != [] {
      var x, rest := ids[0], ids[1..];
      var known := Seqs.Filter(rest, KnownIn(group));
      ResolveDropsUnknown(group, rest);
      assert ids == [x] + rest;
      Seqs.FilterCons(x, rest, KnownIn(group));
      ResolveCons(group, x, rest);
      if x in BarrierIds(group) {
        ResolveCons(group, x, known);
      } else {
        UnknownNotFound(group, x);
        assert !KnownIn(group)(x);
        assert Resolve(group, ids) == Resolve(group, rest);
        assert Seqs.Filter(ids, KnownIn(group)) == [] + known == known;
      }
    }
  }

  /** The resolved barriers carry the known ids, in the order `ids` gives them; unknown ids are
      dropped. */
  lemma ResolveOrder(group: seq<Barrier>, ids: seq<string>)
    ensures BarrierIds(Resolve(group, ids)) == Seqs.Filter(ids, KnownIn(group))
  {
    var known := Seqs.Filter(ids, KnownIn(group));
    ResolveDropsUnknown(group, ids);
    Seqs.FilterMembers(ids, KnownIn(group));
    ResolveIds(group, known);
  }

  /** Barriers with distinct ids are distinct. */
  lemma DistinctByIds(bs: seq<Barrier>)
    requires Seqs.Distinct(BarrierIds(bs))
    ensures Seqs.Distinct(bs)
  {
    forall k, l | 0 <= k < l < |bs| ensures bs[k] != bs[l] {
      assert BarrierIds(bs)[k] != BarrierIds(bs)[l];
    }
  }

  /** Every barrier of the group whose id is listed is among the resolved ones. */
  lemma ResolveCovers(group: seq<Barrier>, ids: seq<string>, i: nat)
    requires Seqs.Distinct(BarrierIds(group)) && i < |group| && group[i].id() in ids
    requires forall k :: 0 <= k < |ids| ==> ids[k] in BarrierIds(group)
    ensures group[i] in Resolve(group, ids)
  {
    ResolveKnown(group, ids);
    var k :| 0 <= k < |ids| && ids[k] == group[i].id();
    LastWithIdUnique(group, i);
    assert Resolve(group, ids)[k] == group[i];
  }

  /** Distinct ids naming exactly the group's barriers resolve to a permutation of the group. */
  lemma ResolvePermutes(group: seq<Barrier>, ids: seq<string>)
    requires Seqs.Distinct(ids) && Seqs.Distinct(BarrierIds(group))
    requires forall k :: 0 <= k < |ids| ==> ids[k] in BarrierIds(group)
    requires forall i :: 0 <= i < |group| ==> group[i].id() in ids
    ensures multiset(Resolve(group, ids)) == multiset(group)
  {
    var resolved := Resolve(group, ids);
    ResolveKnown(group, ids);
    assert Seqs.Distinct(resolved) by {
      forall k, l | 0 <= k < l < |resolved| ensures resolved[k] != resolved[l] {
        assert ids[k] != ids[l];
      }
    }
    DistinctByIds(group);
    forall x | x in group ensures x in resolved {
      var i :| 0 <= i < |group| && group[i] == x;
      ResolveCovers(group, ids, i);
    }
    Seqs.DistinctSameMembers(resolved, group);
  }

  /** With distinct ids naming exactly the parent's barriers, the reorder goes through, the
      group comes out in the order of the ids, and no barrier is lost or duplicated. */
  lemma ReorderPermutes(a: RiskAssessment, parentId: string, barrierIds: seq<string>)
    requires Seqs.Distinct(barrierIds) && Seqs.Distinct(BarrierIds(Group(a, parentId)))
    requires forall k :: 0 <= k < |barrierIds| ==> barrierIds[k] in BarrierIds(Group(a, parentId))
    requires forall i :: 0 <= i < |Group(a, parentId)| ==> Group(a, parentId)[i].id() in barrierIds
    ensures BarriersReordered(a, parentId, barrierIds).Some?
    ensures multiset(BarriersReordered(a, parentId, barrierIds).value.barriers) == multiset(a.barriers)
    ensures BarrierIds(Resolve(Group(a, parentId), barrierIds)) == barrierIds
  {
    var group := Group(a, parentId);
    var others := Seqs.Filter(a.barriers, ParentIsNot(parentId));
    var resolved := Resolve(group, barrierIds);
    ResolvePermutes(group, barrierIds);
    ResolveIds(group, barrierIds);
    assert |resolved| == |group| by {
      assert |multiset(resolved)| == |multiset(group)|;
    }
    Seqs.FilterPartition(a.barriers, ParentIsNot(parentId), ParentIs(parentId));
    assert BarriersReordered(a, parentId, barrierIds).value.barriers == others + resolved;
  }

  /** The count check alone does not catch a repeated id: with barriers x and y on one parent,
      the ids [x, x] pass it, and the saved barriers hold x twice and no y. */
  lemma RepeatedIdPassesCheck(x: Barrier, y: Barrier)
    requires x.id() != y.id() && x.parentId == y.parentId
    ensures var a := NewAssessment("a", "asset", "t", "top", "now").(barriers := [x, y]);
      BarriersReordered(a, x.parentId, [x.id(), x.id()]) == Some(a.(barriers := [x, x]))
  {
    var a := NewAssessment("a", "asset", "t", "top", "now").(barriers := [x, y]);
    var p := x.parentId;
    assert [x, y] == [x] + [y];
    Seqs.FilterCons(x, [y], ParentIs(p));
    Seqs.FilterCons(y, [], ParentIs(p));
    Seqs.FilterCons(x, [y], ParentIsNot(p));
    Seqs.FilterCons(y, [], ParentIsNot(p));
    assert Group(a, p) == [x, y];
    assert Seqs.Filter(a.barriers, ParentIsNot(p)) == [];
    assert LastWithId([x, y], x.id()) == Some(x) by {
      assert [x, y][..1] == [x];
    }
    var ids := [x.id(), x.id()];
    assert ids[1..] == [x.id()] && ids[1..][1..] == [];
    assert Resolve([x, y], ids[1..]) == [x];
    assert Resolve([x, y], ids) == [x, x];
    assert [] + [x, x] == [x, x];
    assert BarriersReordered(a, p, ids) == Some(a.(barriers := [] + [x, x]));
  }

  /** What is saved can be read back for its asset. */
  lemma SavedIsListed(store: seq<RiskAssessment>, a: RiskAssessment)
    ensures a in StoredFor(Put(store, a), a.assetId)
  {
    var r := Put(store, a);
    var i :| 0 <= i < |r| && r[i] == a;
    assert OfAsset(a.assetId)(r[i]);
    Seqs.FilterMembers(r, OfAsset(a.assetId));
  }

  // --- The hook ---

  /** `useRiskAssessments(assetId)`: `assessments` and `loading` are the hook's state, `store`
      the assessments held in local storage. An `assetId` of "" stands for a missing one. */
  class RiskAssessmentHook {
    const assetId: string
    var assessments: seq<RiskAssessment>
    var loading: bool
    var store: seq<RiskAssessment>

    constructor (assetId: string, store: seq<RiskAssessment>)
      ensures this.assetId == assetId && this.store == store
      ensures assessments == [] && loading
    {
      this.assetId := assetId;
      this.store := store;
      assessments := [];
      loading := true;
    }

    /** The mount effect: the stored assessments of the asset, or a seeded one saved first. */
    method Load(seedId: string, topEventId: string, now: string)
      modifies this
      ensures !loading
      ensures assetId == "" ==> assessments == [] && store == old(store)
      ensures assetId != "" && |StoredFor(old(store), assetId)| > 0 ==>
        assessments == StoredFor(old(store), assetId) && store == old(store)
      ensures assetId != "" && |StoredFor(old(store), assetId)| == 0 ==>
        var seed := SeedAssessment(seedId, assetId, topEventId, now);
        assessments == [seed] && store == Put(old(store), seed)
    {
      if assetId == "" {
        assessments := [];
      } else {
        var stored := StoredFor(store, assetId);
        if |stored| > 0 {
          assessments := stored;
        } else {
          var seed := SeedAssessment(seedId, assetId, topEventId, now);
          store := Put(store, seed);
          assessments := [seed];
        }
      }
      loading := false;
    }

    method Refresh()
      modifies this`assessments
      ensures assessments == if assetId != "" then StoredFor(store, assetId) else old(assessments)
    {
      if assetId != "" {
        assessments := StoredFor(store, assetId);
      }
    }

    /** Stamps the assessment, stores it, and reloads the list from storage. */
    method SaveAssessment(a: RiskAssessment, now: string)
      modifies this`store, this`assessments
      ensures store == Put(old(store), a.(lastUpdated := now))
      ensures assessments == if assetId != "" then StoredFor(store, assetId) else old(assessments)
    {
      store := Put(store, a.(lastUpdated := now));
      Refresh();
    }

    method AddThreat(assessmentId: string, text: string, nodeId: string, now: string)
      modifies this`store, this`assessments
      ensures var found := FindAssessment(old(assessments), assessmentId);
        if found.None? then store == old(store) && assessments == old(assessments)
        else (store == Put(old(store), WithThreat(found.value, nodeId, text).(lastUpdated := now))
          && assessments == (if assetId != "" then StoredFor(store, assetId) else old(assessments)))
    {
      var found := FindAssessment(assessments, assessmentId);
      if found.None? {
        return;
      }
      SaveAssessment(WithThreat(found.value, nodeId, text), now);
    }

    method AddConsequence(assessmentId: string, text: string, nodeId: string, now: string)
      modifies this`store, this`assessments
      ensures var found := FindAssessment(old(assessments), assessmentId);
        if found.None? then store == old(store) && assessments == old(assessments)
        else (store == Put(old(store), WithConsequence(found.value, nodeId, text).(lastUpdated := now))
          && assessments == (if assetId != "" then StoredFor(store, assetId) else old(assessments)))
    {
      var found := FindAssessment(assessments, assessmentId);
      if found.None? {
        return;
      }
      SaveAssessment(WithConsequence(found.value, nodeId, text), now);
    }

    method AddBarrier(assessmentId: string, parentId: string, text: string, barrierType: BarrierType,
                      nodeId: string, now: string)
      requires !barrierType.Detective?
      modifies this`store, this`assessments
      ensures var found := FindAssessment(old(assessments), assessmentId);
        if found.None? then store == old(store) && assessments == old(assessments)
        else (store == Put(old(store), WithBarrier(found.value, nodeId, parentId, text, barrierType).(lastUpdated := now))
          && assessments == (if assetId != "" then StoredFor(store, assetId) else old(assessments)))
    {
      var found := FindAssessment(assessments, assessmentId);
      if found.None? {
        return;
      }
      SaveAssessment(WithBarrier(found.value, nodeId, parentId, text, barrierType), now);
    }

    /** Stores a new assessment for `forAsset` (not stamped again) and reloads the hook's list,
        which only shows it when `forAsset` is the hook's own asset. */
    method CreateAssessment(forAsset: string, title: string, id: string, topEventId: string, now: string)
      modifies this`store, this`assessments
      ensures store == Put(old(store), NewAssessment(id, forAsset, title, topEventId, now))
      ensures assessments == if assetId != "" then StoredFor(store, assetId) else old(assessments)
    {
      store := Put(store, NewAssessment(id, forAsset, title, topEventId, now));
      Refresh();
    }

    method UpdateNode(assessmentId: string, nodeId: string, u: NodeUpdate, now: string)
      modifies this`store, this`assessments
      ensures var found := FindAssessment(old(assessments), assessmentId);
        if found.None? then store == old(store) && assessments == old(assessments)
        else (store == Put(old(store), NodeUpdated(found.value, nodeId, u).(lastUpdated := now))
          && assessments == (if assetId != "" then StoredFor(store, assetId) else old(assessments)))
    {
      var found := FindAssessment(assessments, assessmentId);
      if found.None? {
        return;
      }
      SaveAssessment(NodeUpdated(found.value, nodeId, u), now);
    }

    method RemoveNode(assessmentId: string, nodeId: string, now: string)
      modifies this`store, this`assessments
      ensures var found := FindAssessment(old(assessments), assessmentId);
        if found.None? then store == old(store) && assessments == old(assessments)
        else (store == Put(old(store), NodeRemoved(found.value, nodeId).(lastUpdated := now))
          && assessments == (if assetId != "" then StoredFor(store, assetId) else old(assessments)))
    {
      var found := FindAssessment(assessments, assessmentId);
      if found.None? {
        return;
      }
      SaveAssessment(NodeRemoved(found.value, nodeId), now);
    }

    method ReorderBarriers(assessmentId: string, parentId: string, barrierIds: seq<string>, now: string)
      modifies this`store, this`assessments
      ensures var found := FindAssessment(old(assessments), assessmentId);
        var reordered := if found.None? then None else BarriersReordered(found.value, parentId, barrierIds);
        if reordered.None? then store == old(store) && assessments == old(assessments)
        else (store == Put(old(store), reordered.value.(lastUpdated := now))
          && assessments == (if assetId != "" then StoredFor(store, assetId) else old(assessments)))
    {
      var found := FindAssessment(assessments, assessmentId);
      if found.None? {
        return;
      }
      var reordered := BarriersReordered(found.value, parentId, barrierIds);
      if reordered.None? {
        return;
      }
      SaveAssessment(reordered.value, now);
    }
  }
}
