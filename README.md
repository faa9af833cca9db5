# VERGE bowtie risk core, modelled in Dafny

VERGE is a browser application for defence asset and risk management. This project models
four pieces of its logic in Dafny and proves properties of them:

- **Bowtie assessments** (`src/hooks/useRiskAssessments.ts`): a risk assessment is a bowtie
  made of threats on the left, a top event in the middle, consequences on the right, and
  barriers on the paths between them. The hook adds, updates and removes its nodes, reorders
  the barriers of one path, creates and seeds assessments, and saves each result to storage.
  Module `RiskAssessments`: every operation is a pure function on the `RiskAssessment`
  datatype. The hook itself is the class `RiskAssessmentHook`, whose methods replace its
  `assessments` and `store` fields.
- **The bowtie editor** (`src/views/RiskAssessment/BowtieEditor.tsx`):
  - Module `Bezier` holds the cubic Bezier helpers: the edge's control points, the 101-entry
    arc-length table, the distance-to-t lookup, clustered barrier placement, and the two-phase
    closest-t search. Each loop of the source is a method proved equal to a specification
    function.
  - Module `BowtieEditor` holds the `onNodeDrag` handler and the layout effect. The handler
    reorders barriers by where they are dragged and keeps barriers stuck to a dragged endpoint.
    The layout effect turns an assessment into React Flow nodes.
- **The FAIR engine** (`src/utils/fairEngine.ts`), module `FairEngine`: the Monte Carlo
  annual-loss-expectancy simulation. Random draws come from a sampler `tri(d, k)`, which
  returns the `k`-th draw of the stream for distribution `d`. `FAIREngine.CalculateALE` keeps
  the source's three nested loops. Its loop invariants tie the loops to the function
  `Simulate`, and the lemmas state what `Simulate` returns.
- **The asset inventory** (`src/hooks/useAssets.ts`), module `Assets`: add, update, delete and
  find assets, plus the choice between the stored list and the six seeded assets. The hook is
  the class `AssetInventory`.

Shared pieces:
- Module `Types` holds the records of `src/types.ts`, plus `Option` and `Patch`. A `Patch` is
  one field of a `Partial<…>` update: either keep the old value or set a new one.
- Module `Seqs` holds `filter`, `map`, `find` and a stable insertion sort `SortBy`. `SortBy`
  stands for `Array.prototype.sort`, whose stability the source relies on.

Inputs the source reads from its environment become parameters of the model:
- `crypto.randomUUID()` becomes an `id` parameter.
- `new Date().toISOString()` becomes a `now` parameter.
- `Math.sqrt` becomes a function parameter `sqrt`. It is required to be non-negative only
  where a lemma needs that.
- `Math.random` is behind the sampler `tri`.
- Local storage is the `store` field, or a stored value passed in.

## Model

| member | source | states |
|---|---|---|
| Seqs.Find | src/hooks/useAssets.ts:100 | `find` returns the first matching element, or None exactly when no element matches |
| Seqs.SortBySorted | src/utils/fairEngine.ts:89 | the sort's result is sorted by the key and is a permutation of its input |
| Seqs.SortByStable | src/views/RiskAssessment/BowtieEditor.tsx:258 | elements with equal keys keep their relative order (the stable `Array.prototype.sort`) |
| Seqs.FilterMembers | src/hooks/useAssets.ts:96-98 | `filter` keeps every element that satisfies the test, and only elements of the input that satisfy it |
| Seqs.FilterKeepsDistinct | src/hooks/useAssets.ts:96-98 | `filter` keeps the images of its elements under a key distinct when they were distinct |
| Assets.NewAsset | src/hooks/useAssets.ts:80-84 | the new asset carries the draft's fields, the fresh id and the timestamp |
| Assets.WithAsset | src/hooks/useAssets.ts:85 | the list grows by one; the earlier assets are the old list, in order; the new asset is last |
| Assets.Updated | src/hooks/useAssets.ts:88-94 | same length; assets with another id are untouched; matching assets are merged and stamped `now` |
| Assets.Without | src/hooks/useAssets.ts:96-98 | no survivor has the id; every asset with another id survives; the survivors keep their order, and together with the assets of that id they make up the old list, duplicates included |
| Assets.WithoutKeepsDistinct | src/hooks/useAssets.ts:96-98 | deleting keeps the ids distinct |
| Assets.Lookup | src/hooks/useAssets.ts:100 | None exactly when no asset has the id; otherwise an asset of the list with that id |
| Assets.InitialState | src/hooks/useAssets.ts:70-73 | a stored list is used as is; without one, the ids are "1".."6" |
| Assets.InitialAssetsShape | src/hooks/useAssets.ts:6-67 | the seed has six assets with distinct ids, all stamped `now`, none with a parent |
| Assets.LookupAfterAdd | src/hooks/useAssets.ts:79-86 | after adding under a fresh id, looking the id up finds the new asset |
| Assets.DeleteAfterAdd | src/hooks/useAssets.ts:79-98 | deleting a freshly added asset gives back the previous list |
| Assets.DeleteRemoves | src/hooks/useAssets.ts:96-98 | after a delete the id is not found, and a second delete changes nothing |
| Assets.DeleteMissing | src/hooks/useAssets.ts:96-98 | deleting an absent id changes nothing |
| Assets.UpdateMissing | src/hooks/useAssets.ts:88-94 | updating an absent id changes nothing |
| Assets.UpdateKeepsIds | src/hooks/useAssets.ts:88-94 | an update that leaves the id alone keeps the ids in order, and lookups still succeed |
| Assets.DistinctIdsPreserved | src/hooks/useAssets.ts:79-94 | distinct ids stay distinct after an add under a fresh id and after an id-preserving update |
| Assets.AssetInventory.constructor | src/hooks/useAssets.ts:70-73 | the state starts as the stored list, or as the seed |
| Assets.AssetInventory.AddAsset | src/hooks/useAssets.ts:79-86 | the new state is the old list with the new asset appended |
| Assets.AssetInventory.UpdateAsset | src/hooks/useAssets.ts:88-94 | the new state is `Updated` of the old list |
| Assets.AssetInventory.DeleteAsset | src/hooks/useAssets.ts:96-98 | the new state is `Without` of the old list: the other assets, in order, none lost |
| Assets.AssetInventory.GetAsset | src/hooks/useAssets.ts:100 | None exactly when no asset has the id; otherwise an asset of the state with that id |
| RiskAssessments.NewBarrier | src/hooks/useRiskAssessments.ts:90-98 | the barrier has the id, the parent, the type and the label, efficacy 0.8, active, and no cost |
| RiskAssessments.WithThreat | src/hooks/useRiskAssessments.ts:66-69 | one threat node with the label is appended; everything else is unchanged |
| RiskAssessments.WithConsequence | src/hooks/useRiskAssessments.ts:77-80 | one consequence node with the label is appended; everything else is unchanged |
| RiskAssessments.WithBarrier | src/hooks/useRiskAssessments.ts:84-99 | one new barrier is appended, and the parent's existence is not checked; everything else is unchanged |
| RiskAssessments.NewAssessment | src/hooks/useRiskAssessments.ts:103-120 | a Draft with empty lists; the top event is labelled "Threat Event"; FAIR data 1 / 50 / 50 / 10000 |
| RiskAssessments.SeedAssessment | src/hooks/useRiskAssessments.ts:23-39 | the seed is titled "Initial Assessment", for the hook's asset, a Draft with empty lists |
| RiskAssessments.NodeUpdated | src/hooks/useRiskAssessments.ts:125-140 | every node with the id, in all three lists and the top event, is patched; every other node and every length is unchanged |
| RiskAssessments.NodeRemoved | src/hooks/useRiskAssessments.ts:142-158 | no threat, consequence or barrier with the id, and no barrier whose parent has the id, survives; every other node survives; the top event stays (`RemoveKeepsOrder` states order and copies) |
| RiskAssessments.LastWithId | src/hooks/useRiskAssessments.ts:171 | the `Map` built from the group holds an id exactly when some barrier of the group has it; `LastWithIdLast` says which barrier |
| RiskAssessments.Resolve | src/hooks/useRiskAssessments.ts:172-174 | at most one barrier per id, each one from the group; `ResolveOrder` states the order and the dropped unknown ids |
| RiskAssessments.BarriersReordered | src/hooks/useRiskAssessments.ts:160-182 | saved exactly when the count check passes; then the other parents' barriers come first, then the group in id order; nothing else changes |
| RiskAssessments.Put | src/services/storage.ts:40-47 | saving by id: the new assessment is stored, other ids are kept, and nothing else appears |
| RiskAssessments.StoredFor | src/services/storage.ts:20-38 | reading an asset's assessments returns exactly the stored ones for that asset |
| RiskAssessments.FindAssessment | src/hooks/useRiskAssessments.ts:63 | None exactly when no assessment has the id |
| RiskAssessments.RemoveUnused | src/hooks/useRiskAssessments.ts:142-158 | removing an id no node or barrier uses changes nothing |
| RiskAssessments.RemoveAfterAddThreat | src/hooks/useRiskAssessments.ts:62-71 | removing a freshly added threat gives back the assessment |
| RiskAssessments.RemoveAfterAddConsequence | src/hooks/useRiskAssessments.ts:73-82 | removing a freshly added consequence gives back the assessment |
| RiskAssessments.RemoveAfterAddBarrier | src/hooks/useRiskAssessments.ts:84-101 | removing a freshly added barrier gives back the assessment |
| RiskAssessments.RemoveKeepsOrder | src/hooks/useRiskAssessments.ts:147-154 | each list after removal is a subsequence of the old one; it and the dropped elements together make up the old list, every copy of a survivor included; removal is idempotent |
| RiskAssessments.UpdateKeepsIds | src/hooks/useRiskAssessments.ts:130-136 | an update keeps every list's ids in order, and keeps the top event's id |
| RiskAssessments.UpdateUnused | src/hooks/useRiskAssessments.ts:125-140 | updating an unused id changes nothing |
| RiskAssessments.RemoveAfterUpdate | src/hooks/useRiskAssessments.ts:125-158 | updating then removing a node equals removing it, except for the top event's patch |
| RiskAssessments.LastWithIdLast | src/hooks/useRiskAssessments.ts:171 | with repeated ids the map keeps the last entry: a barrier that no later barrier shares its id with is the one found |
| RiskAssessments.LastWithIdUnique | src/hooks/useRiskAssessments.ts:171 | with distinct ids, the map lookup of a barrier's id gives that barrier |
| RiskAssessments.ResolveKnown | src/hooks/useRiskAssessments.ts:172-174 | when every id is known, nothing is dropped, and position k holds a barrier with id k |
| RiskAssessments.ResolveIds | src/hooks/useRiskAssessments.ts:172-174 | the resolved barriers' ids are the requested ids |
| RiskAssessments.ResolveDropsUnknown | src/hooks/useRiskAssessments.ts:172-174 | an id naming no barrier of the group adds nothing: resolving the ids is resolving the known ones |
| RiskAssessments.ResolveOrder | src/hooks/useRiskAssessments.ts:172-174 | the resolved barriers' ids are the known requested ids, in the requested order, unknown ones dropped |
| RiskAssessments.DistinctByIds | src/hooks/useRiskAssessments.ts:171 | distinct ids make distinct barriers |
| RiskAssessments.ResolveCovers | src/hooks/useRiskAssessments.ts:172-174 | every group member whose id is requested is in the result |
| RiskAssessments.ResolvePermutes | src/hooks/useRiskAssessments.ts:165-174 | distinct ids that cover the group give a permutation of the group |
| RiskAssessments.ReorderPermutes | src/hooks/useRiskAssessments.ts:160-184 | with distinct ids covering the group, the reorder is saved and the barriers are a permutation of the old ones |
| RiskAssessments.RepeatedIdPassesCheck | src/hooks/useRiskAssessments.ts:176-180 | the length-only check lets a repeated id through, duplicating one barrier and losing another |
| RiskAssessments.SavedIsListed | src/hooks/useRiskAssessments.ts:55-58 | a saved assessment is listed again for its asset |
| RiskAssessments.RiskAssessmentHook.constructor | src/hooks/useRiskAssessments.ts:5-7 | the hook starts with no assessments, loading |
| RiskAssessments.RiskAssessmentHook.Load | src/hooks/useRiskAssessments.ts:10-47 | no asset: empty; stored assessments: those; none stored: a seed, saved and shown |
| RiskAssessments.RiskAssessmentHook.Refresh | src/hooks/useRiskAssessments.ts:49-53 | reloads the asset's assessments from storage, and does nothing without an asset |
| RiskAssessments.RiskAssessmentHook.SaveAssessment | src/hooks/useRiskAssessments.ts:55-60 | stores the assessment stamped `now`, then refreshes |
| RiskAssessments.RiskAssessmentHook.AddThreat | src/hooks/useRiskAssessments.ts:62-71 | unknown assessment: nothing changes; otherwise `WithThreat` is saved, stamped, and the list is reloaded from storage |
| RiskAssessments.RiskAssessmentHook.AddConsequence | src/hooks/useRiskAssessments.ts:73-82 | unknown assessment: nothing changes; otherwise `WithConsequence` is saved, stamped, and the list is reloaded from storage |
| RiskAssessments.RiskAssessmentHook.AddBarrier | src/hooks/useRiskAssessments.ts:84-101 | unknown assessment: nothing changes; otherwise `WithBarrier` is saved, stamped, and the list is reloaded from storage |
| RiskAssessments.RiskAssessmentHook.CreateAssessment | src/hooks/useRiskAssessments.ts:103-123 | stores `NewAssessment` unstamped, then refreshes |
| RiskAssessments.RiskAssessmentHook.UpdateNode | src/hooks/useRiskAssessments.ts:125-140 | unknown assessment: nothing changes; otherwise `NodeUpdated` is saved, stamped, and the list is reloaded from storage |
| RiskAssessments.RiskAssessmentHook.RemoveNode | src/hooks/useRiskAssessments.ts:142-158 | unknown assessment: nothing changes; otherwise `NodeRemoved` is saved, stamped, and the list is reloaded from storage |
| RiskAssessments.RiskAssessmentHook.ReorderBarriers | src/hooks/useRiskAssessments.ts:160-184 | unknown assessment or a failed count check: nothing changes; otherwise the reordered assessment is saved, stamped, and the list is reloaded from storage |
| FairEngine.SampleValue | src/utils/fairEngine.ts:17-21 | undefined gives the default and a number gives itself, neither drawing; a distribution consumes one draw |
| FairEngine.Round | src/utils/fairEngine.ts:66 | `Math.round` gives the integer within half of x, rounding halves up |
| FairEngine.Attempts | src/utils/fairEngine.ts:67-76 | there are never more loss events than attempts |
| FairEngine.Trials | src/utils/fairEngine.ts:40-86 | the trial loop produces exactly one loss per iteration |
| FairEngine.RankIndex | src/utils/fairEngine.ts:94-95 | the nearest-rank index is in bounds and equals floor(n·q) |
| FairEngine.FAIREngine.constructor | src/utils/fairEngine.ts:35-37 | keeps the iteration count (default 1000) |
| FairEngine.FAIREngine.CalculateALE | src/utils/fairEngine.ts:39-98 | the three loops and the sort compute `Simulate`, the statistics of the sorted trial losses |
| FairEngine.NoFrequencyNoDraws | src/utils/fairEngine.ts:51-57 | a sampled frequency ≤ 0 records loss 0 and draws nothing after the frequency |
| FairEngine.LossEventsBounded | src/utils/fairEngine.ts:66-76 | loss events ≤ round(tef) attempts, and draws only move forward |
| FairEngine.NoBreachNoEvents | src/utils/fairEngine.ts:70-75 | capability not strictly above resistance never yields a loss event |
| FairEngine.NoBreachNoLoss | src/utils/fairEngine.ts:66-85 | with no loss events the trial's loss is 0 (for example both factors absent, both 50) |
| FairEngine.LossesNonNegative | src/utils/fairEngine.ts:79-83 | the summed loss is ≥ 0 when the loss draws are ≥ 0 |
| FairEngine.TrialNonNegative | src/utils/fairEngine.ts:43-85 | a trial's loss is ≥ 0 when the loss draws are ≥ 0 |
| FairEngine.FixedAttempts | src/utils/fairEngine.ts:69-76 | with fixed factors every attempt counts, or none does |
| FairEngine.FixedLosses | src/utils/fairEngine.ts:79-83 | with fixed factors the loss is events·(primary+secondary) |
| FairEngine.FixedTrial | src/utils/fairEngine.ts:43-85 | with fixed factors every trial has the same loss and draws nothing |
| FairEngine.TrialsAll | src/utils/fairEngine.ts:42-86 | a property of every trial holds of every recorded loss |
| FairEngine.SumBounds | src/utils/fairEngine.ts:90 | the sum of n values in [lo, hi] lies in [n·lo, n·hi] |
| FairEngine.MeanBounded | src/utils/fairEngine.ts:90-91 | the mean of values in [lo, hi] is in [lo, hi] |
| FairEngine.RanksOrdered | src/utils/fairEngine.ts:94-95 | the p10 index is never after the p90 index |
| FairEngine.StatisticsOrdered | src/utils/fairEngine.ts:89-97 | on sorted losses: min ≤ p10 ≤ p90 ≤ max and min ≤ mean ≤ max |
| FairEngine.MeanBetween | src/utils/fairEngine.ts:91 | a sum within [n·lo, n·hi], divided by n, is in [lo, hi] |
| FairEngine.SortConstant | src/utils/fairEngine.ts:89 | sorting equal values gives equal values |
| FairEngine.StatisticsConstant | src/utils/fairEngine.ts:89-97 | equal losses give equal statistics |
| FairEngine.MeanConstant | src/utils/fairEngine.ts:90-91 | the mean of equal values is that value |
| FairEngine.SimulateOrdered | src/utils/fairEngine.ts:39-97 | the result is ordered and echoes `iterations` |
| FairEngine.SimulateNonNegative | src/utils/fairEngine.ts:39-97 | non-negative loss draws give non-negative statistics |
| FairEngine.SimulateFixed | src/utils/fairEngine.ts:39-97 | fixed factors make every statistic round(tef)·(primary+secondary) on a breach, or 0 without one |
| FairEngine.SimulateNoFrequency | src/utils/fairEngine.ts:51-57 | a fixed frequency ≤ 0 gives all-zero statistics |
| FairEngine.SimulateNoBreach | src/utils/fairEngine.ts:70-76 | fixed capability ≤ fixed resistance gives all-zero statistics |
| FairEngine.ScenarioFixedBreach | src/utils/fairEngine.ts:39-97 | 5 attempts at 80 against 20 with a 10000 loss: every statistic is 50000 over 1000 iterations |
| FairEngine.MeanAboveP90 | src/utils/fairEngine.ts:91-95 | the mean can exceed p90 (ten zeros and one 1100), so p10 ≤ mean ≤ p90 does not hold in general |
| Bezier.PointOnBezier | src/views/RiskAssessment/BowtieEditor.tsx:40-57 | the curve starts at p0 (t = 0) and ends at p3 (t = 1) |
| Bezier.ControlPoints | src/views/RiskAssessment/BowtieEditor.tsx:60-70 | both control points are at the midpoint's x; p1 has the source's y and p2 the target's |
| Bezier.BezierReversed | src/views/RiskAssessment/BowtieEditor.tsx:40-57 | reversing the control points traces the curve backwards (t becomes 1 − t) |
| Bezier.EdgeReversed | src/views/RiskAssessment/BowtieEditor.tsx:59-70 | the edge from tgt to src is the edge from src to tgt traced backwards |
| Bezier.EdgeMidpoint | src/views/RiskAssessment/BowtieEditor.tsx:59-70 | an edge passes through the midpoint of its endpoints at t = 0.5 |
| Bezier.SquaredDistance | src/views/RiskAssessment/BowtieEditor.tsx:92 | squared distances are ≥ 0 |
| Bezier.LutPrefix | src/views/RiskAssessment/BowtieEditor.tsx:83-96 | after i samples the table has i + 1 entries and starts at (t 0, len 0, p0) |
| Bezier.GenerateBezierLUT | src/views/RiskAssessment/BowtieEditor.tsx:77-99 | the loop builds `BezierLut`, and `totalLen` is the last entry's length |
| Bezier.LutSamples | src/views/RiskAssessment/BowtieEditor.tsx:89-94 | entry k has t = k/100 and lies on the curve at that t |
| Bezier.LutMonotone | src/views/RiskAssessment/BowtieEditor.tsx:89-96 | with a non-negative sqrt, lengths never decrease along the table |
| Bezier.LutShape | src/views/RiskAssessment/BowtieEditor.tsx:74-99 | 101 entries from (0, 0) to (t 1, p3); lengths non-decreasing when sqrt ≥ 0 |
| Bezier.GetTForDistance | src/views/RiskAssessment/BowtieEditor.tsx:102-114 | the scan with early return computes `TForDistance` |
| Bezier.InterpolateBetween | src/views/RiskAssessment/BowtieEditor.tsx:105-110 | a bracketing pair interpolates to a t between its two t values |
| Bezier.TForDistanceFirst | src/views/RiskAssessment/BowtieEditor.tsx:104-111 | the result comes from the first bracketing pair and lies in that pair's t range |
| Bezier.TForDistanceNone | src/views/RiskAssessment/BowtieEditor.tsx:104-113 | with no bracketing pair the result is 1 |
| Bezier.TForDistanceWithin | src/views/RiskAssessment/BowtieEditor.tsx:102-114 | over ascending t values the result is 1 or lies within some pair |
| Bezier.TForDistanceInUnit | src/views/RiskAssessment/BowtieEditor.tsx:102-114 | on an edge's table the lookup returns a t in [0, 1] |
| Bezier.Clamp | src/views/RiskAssessment/BowtieEditor.tsx:137 | the clamp lands in [0, hi] and leaves values already inside unchanged |
| Bezier.GetClusteredBezierPosition | src/views/RiskAssessment/BowtieEditor.tsx:118-146 | computes `ClusteredPosition` |
| Bezier.ClusterSpacing | src/views/RiskAssessment/BowtieEditor.tsx:131-134 | consecutive targets are 140 apart; targets of i and total − 1 − i sum to totalLen |
| Bezier.ClusteredOnCurve | src/views/RiskAssessment/BowtieEditor.tsx:118-146 | the position plus (60, 55) is a point of the edge at some t in [0, 1] |
| Bezier.ClampedOnCurve | src/views/RiskAssessment/BowtieEditor.tsx:136-137 | with sqrt ≥ 0 the clamped distance is in [0, totalLen] |
| Bezier.GetClosestTOnBezier | src/views/RiskAssessment/BowtieEditor.tsx:148-180 | the two loops compute `ClosestT` |
| Bezier.CoarseBest | src/views/RiskAssessment/BowtieEditor.tsx:158-168 | after the coarse loop, the best t is in [0, 1], a sample was taken, and none of the 51 samples is closer |
| Bezier.FineBest | src/views/RiskAssessment/BowtieEditor.tsx:170-177 | the refinement keeps t in [0, 1] and never worsens the distance |
| Bezier.ClosestIsBest | src/views/RiskAssessment/BowtieEditor.tsx:158-179 | the result is in [0, 1] and at least as close as every coarse sample |
| BowtieEditor.OnNodeDrag | src/views/RiskAssessment/BowtieEditor.tsx:195-328 | the node count is kept; without a top event nothing happens; only a barrier drag can ask for a reorder |
| BowtieEditor.SomeDiffersIff | src/views/RiskAssessment/BowtieEditor.tsx:264 | on equal lengths, the `some` test is exactly inequality of the orders |
| BowtieEditor.NewOrderPermutes | src/views/RiskAssessment/BowtieEditor.tsx:248-260 | the new order is a permutation of the sibling ids, sorted by projected t |
| BowtieEditor.CurrentOrderPermutes | src/views/RiskAssessment/BowtieEditor.tsx:261-262 | the current order is a permutation of the sibling ids |
| BowtieEditor.ConsistentOrderKept | src/views/RiskAssessment/BowtieEditor.tsx:258-270 | when the index order already matches the projected order, the new and current orders agree, so no reorder is sent |
| BowtieEditor.ProjectedIds | src/views/RiskAssessment/BowtieEditor.tsx:251-256 | projecting keeps the siblings' ids in order |
| BowtieEditor.DraggedFirst | src/views/RiskAssessment/BowtieEditor.tsx:251-260 | a barrier dragged before every sibling's projection comes first in the new order |
| BowtieEditor.DragMissingParent | src/views/RiskAssessment/BowtieEditor.tsx:205-221 | a barrier with no or an unknown parent changes nothing |
| BowtieEditor.DragBarrierOutcome | src/views/RiskAssessment/BowtieEditor.tsx:204-271 | only the dragged barrier moves, its centre snapped onto the edge; a reorder is sent exactly when the orders differ, and it permutes the sibling ids |
| BowtieEditor.DragBarrierUnfold | src/views/RiskAssessment/BowtieEditor.tsx:204-271 | with the top event and the parent present, a barrier drag is the snap plus the reorder check on the new order |
| BowtieEditor.SnapFrame | src/views/RiskAssessment/BowtieEditor.tsx:237-270 | the snap moves the dragged node to the snapped position and leaves every other node as it was |
| BowtieEditor.DragEndpointOutcome | src/views/RiskAssessment/BowtieEditor.tsx:273-326 | when there is a top event the dragged node is taken as is; only positions change; nodes other than attached barriers stay |
| BowtieEditor.RestickFrame | src/views/RiskAssessment/BowtieEditor.tsx:277-325 | re-sticking keeps a barrier's id, kind and data, and leaves detective barriers and barriers of undragged parents in place |
| BowtieEditor.StickyPreventive | src/views/RiskAssessment/BowtieEditor.tsx:291-303 | a preventive barrier of a dragged threat is re-clustered onto the threat's new edge |
| BowtieEditor.StickyMitigative | src/views/RiskAssessment/BowtieEditor.tsx:304-316 | a mitigative barrier of a dragged consequence is re-clustered onto the consequence's new edge |
| BowtieEditor.NodeMap | src/views/RiskAssessment/BowtieEditor.tsx:335 | the position map has exactly the ids of the current nodes |
| BowtieEditor.NodeMapLast | src/views/RiskAssessment/BowtieEditor.tsx:335 | an id maps to the last node that has it |
| BowtieEditor.BarrierNodes | src/views/RiskAssessment/BowtieEditor.tsx:407-428 | one node per path barrier |
| BowtieEditor.BarrierNodesAt | src/views/RiskAssessment/BowtieEditor.tsx:408-427 | node j is the j-th path barrier, laid out with index j |
| BowtieEditor.GhostNodes | src/views/RiskAssessment/BowtieEditor.tsx:488-509 | node j is the ghost of the j-th other assessment |
| BowtieEditor.BuildNodeMap | src/views/RiskAssessment/BowtieEditor.tsx:335 | the loop builds `NodeMap` |
| BowtieEditor.PathNodes | src/views/RiskAssessment/BowtieEditor.tsx:407-428 | the loop builds the path's `BarrierNodes` |
| BowtieEditor.LayThreat | src/views/RiskAssessment/BowtieEditor.tsx:393-428 | builds the threat's block: its node, then its barriers |
| BowtieEditor.LayConsequence | src/views/RiskAssessment/BowtieEditor.tsx:441-475 | builds the consequence's block: its node, then its barriers |
| BowtieEditor.LayGhosts | src/views/RiskAssessment/BowtieEditor.tsx:488-509 | builds the ghost nodes |
| BowtieEditor.ThreatBlocksStep | src/views/RiskAssessment/BowtieEditor.tsx:393 | appending threat k's block extends the first k blocks to k + 1 |
| BowtieEditor.ConsBlocksStep | src/views/RiskAssessment/BowtieEditor.tsx:441 | appending consequence k's block extends the first k blocks to k + 1 |
| BowtieEditor.Layout | src/views/RiskAssessment/BowtieEditor.tsx:331-514 | without an assessment the nodes stay; otherwise the pushes build `LayoutNodes` |
| BowtieEditor.LayAssessment | src/views/RiskAssessment/BowtieEditor.tsx:335-512 | for an assessment, the pushes build `LayoutNodes` |
| BowtieEditor.LayThreats | src/views/RiskAssessment/BowtieEditor.tsx:393-438 | the threats loop appends every threat's block, in order |
| BowtieEditor.LayConsequences | src/views/RiskAssessment/BowtieEditor.tsx:441-485 | the consequences loop appends every consequence's block, in order |
| BowtieEditor.LayoutAssembled | src/views/RiskAssessment/BowtieEditor.tsx:335-512 | asset node, top event, threat blocks, consequence blocks and ghosts, in that order, make up `LayoutNodes` |
| BowtieEditor.TopEventFoundFirst | src/views/RiskAssessment/BowtieEditor.tsx:366-372 | the first top-event-typed node laid out is the assessment's top event, not a ghost |
| BowtieEditor.TopEventKept | src/views/RiskAssessment/BowtieEditor.tsx:345-349 | the top event keeps its previous position, or is placed at (400, 300) |
| BowtieEditor.DefaultSlots | src/views/RiskAssessment/BowtieEditor.tsx:395 | default slots are 150 apart and symmetric about y = 300 |
| BowtieEditor.ThreatBlockIn | src/views/RiskAssessment/BowtieEditor.tsx:393-438 | what threat i's block lays out is in the threat blocks |
| BowtieEditor.ConsBlockIn | src/views/RiskAssessment/BowtieEditor.tsx:441-485 | what consequence i's block lays out is in the consequence blocks |
| BowtieEditor.InLayout | src/views/RiskAssessment/BowtieEditor.tsx:393-485 | path nodes are part of the layout |
| BowtieEditor.ThreatPlaced | src/views/RiskAssessment/BowtieEditor.tsx:393-405 | a threat keeps its previous position, or takes its default slot at x = −100 |
| BowtieEditor.ConsequencePlaced | src/views/RiskAssessment/BowtieEditor.tsx:441-453 | a consequence keeps its previous position, or takes its default slot at x = 900 |
| BowtieEditor.ThreatBarrierPlaced | src/views/RiskAssessment/BowtieEditor.tsx:407-427 | a threat's barrier is laid out with its rank on the path as index and the path size as total, centred on the threat's edge |
| BowtieEditor.ConsBarrierPlaced | src/views/RiskAssessment/BowtieEditor.tsx:455-474 | the same for a consequence's barrier on the consequence's edge |
| BowtieEditor.ExplainedConcat | src/views/RiskAssessment/BowtieEditor.tsx:393-485 | blocks whose head is not a barrier keep every laid-out barrier explained |
| BowtieEditor.ExplainedAppend | src/views/RiskAssessment/BowtieEditor.tsx:393-485 | joining explained node lists keeps them explained |
| BowtieEditor.PathExplained | src/views/RiskAssessment/BowtieEditor.tsx:407-428 | every barrier node of a path is a barrier of the assessment on a named parent |
| BowtieEditor.ThreatBlocksExplained | src/views/RiskAssessment/BowtieEditor.tsx:393-438 | every barrier node among the threat blocks belongs to a threat |
| BowtieEditor.ConsBlocksExplained | src/views/RiskAssessment/BowtieEditor.tsx:441-485 | every barrier node among the consequence blocks belongs to a consequence |
| BowtieEditor.LaidOutBarriersExplained | src/views/RiskAssessment/BowtieEditor.tsx:331-514 | every laid-out barrier is an assessment barrier whose parent is a threat or consequence |
| BowtieEditor.OrphanNotLaidOut | src/views/RiskAssessment/BowtieEditor.tsx:393-485 | a barrier whose parent is neither a threat nor a consequence is never laid out |
| BowtieEditor.GhostSlots | src/views/RiskAssessment/BowtieEditor.tsx:491-497 | ghosts alternate left and right of the centre, and no two share a position |

## Left out

- Bezier.GetTForDistance: a bracketing pair of equal lengths divides 0 by 0, which gives NaN in JavaScript. The model takes the fraction as 0 and returns that pair's first t, because Dafny reals have no NaN.
- Bezier.GetClosestTOnBezier: the loop steps are exact reals (k·0.02, lo + j·0.002). The source's repeated float additions can end its loops one sample early or late.
- FairEngine.FAIREngine.CalculateALE: takes `iterations ≥ 1`, because with 0 the source reads `annualLosses[-1]`. A non-integer or negative iteration count (a JavaScript number) is not modelled. The in-place `sort` is the pure `Seqs.SortBy`, since `annualLosses` is local and unaliased.
- `sampleTriangular` (src/utils/fairEngine.ts:7-15) is the sampler `tri`: `Math.random` and the square roots are not modelled. The module-level engine instance is not modelled.
- `Math.sqrt` is an uninterpreted parameter. Only `LutMonotone`, `LutShape` and `ClampedOnCurve` ask for it to be non-negative.
- Floating point in general: coordinates, losses and lengths are exact reals, with no rounding, overflow or NaN. `Math.round` is floor(x + 0.5), which matches JavaScript for the finite values modelled.
- The statement that a simulation's mean lies between p10 and p90 is not what `calculateALE` computes. `MeanAboveP90` exhibits a sorted loss list whose mean exceeds p90; only min ≤ mean ≤ max is proved.
- `src/services/storage.ts` is reduced to a list of stored assessments. Saving replaces the entry with the same id or appends one; reading filters by asset. The order of local-storage keys, JSON parse failures and the rethrow of a failed save are not modelled.
- The `localStorage` write effect in `useAssets.ts` (75-77) and JSON parsing of the stored asset list are not modelled. A stored list reaches `InitialState` as `Some`, a missing or empty one as `None`.
- Console logging (`saveAssessment`, the reorder count mismatch) is not modelled.
- RiskAssessments.RiskAssessmentHook: React's batching and the stale `assessments` closure between a save and the next render are not modelled. Each method sees the state its predecessor left.
- RiskAssessments.NodeUpdated: the update record covers the fields that node and barrier updates use. A barrier-only field patched onto a plain node is dropped, where JavaScript would add a stray property. An update never changes a node's `id` or `type`.
- BowtieEditor.OnNodeDrag: the handler's captured top-event id, which can be stale, is the parameter `topEventId`. The optional `onBarrierReorder` callback is modelled as the requested `Reorder` value, whether or not a callback is attached. The `Map`, `zIndex`, `draggable` and style props of nodes are not modelled.
- BowtieEditor.Layout: edges (asset link, threat and consequence edges), their styles and ids, and `setEdges` are not modelled. Node `zIndex`, `draggable` and the ghost styling are not modelled either.
- Barrier `index` and `total` in node data are integers in the model. The source reads them as `number` casts that could be missing or non-numeric in foreign node data.
- `src/utils/mitre.ts`, `src/utils/d3fend.ts`, the selector and inventory search filters, and all other views and components are not part of this model.
