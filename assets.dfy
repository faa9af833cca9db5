/** The asset inventory of src/hooks/useAssets.ts: the list the hook keeps in its `assets`
    state, and the add / update / delete / get operations on it.

    `crypto.randomUUID()` and `new Date().toISOString()` are parameters (`id`, `now`). The
    value read back from storage is an `Option`: `Some` when a non-empty stored string parses. */
module Assets {
  import opened Types
  import Seqs

  /** `Omit<Asset, 'id' | 'lastUpdated'>`: what the caller of `addAsset` supplies. */
  datatype AssetDraft = AssetDraft(
    name: string,
    assetType: AssetType,
    location: string,
    owner: string,
    criticality: AssetCriticality,
    status: AssetStatus,
    parentAsset: Option<string>,
    ipAddress: Option<string>)

  /** `Partial<Asset>`: one `Patch` per field of `Asset`. */
  datatype AssetUpdate = AssetUpdate(
    id: Patch<string>,
    name: Patch<string>,
    assetType: Patch<AssetType>,
    location: Patch<string>,
    owner: Patch<string>,
    criticality: Patch<AssetCriticality>,
    status: Patch<AssetStatus>,
    lastUpdated: Patch<string>,
    parentAsset: Patch<Option<string>>,
    ipAddress: Patch<Option<string>>)

  function HasId(id: string): Asset -> bool {
    (a: Asset) => a.id == id
  }

  function HasOtherId(id: string): Asset -> bool {
    (a: Asset) => a.id != id
  }

  function AssetIdOf(a: Asset): string { a.id }

  /** The ids of a list, in order. */
  function Ids(assets: seq<Asset>): seq<string> {
    Seqs.Map(assets, AssetIdOf)
  }

  /** The asset `addAsset` builds: the draft's fields, then the fresh id and the timestamp. */
  function NewAsset(draft: AssetDraft, id: string, now: string): (a: Asset)
    ensures a.id == id && a.lastUpdated == now
    ensures a.name == draft.name && a.assetType == draft.assetType && a.location == draft.location
    ensures a.owner == draft.owner && a.criticality == draft.criticality && a.status == draft.status
    ensures a.parentAsset == draft.parentAsset && a.ipAddress == draft.ipAddress
  {
    Asset(id, draft.name, draft.assetType, draft.location, draft.owner, draft.criticality,
          draft.status, now, draft.parentAsset, draft.ipAddress)
  }

  /** `[...prev, newAsset]`. */
  function WithAsset(assets: seq<Asset>, draft: AssetDraft, id: string, now: string): (r: seq<Asset>)
    ensures |r| == |assets| + 1
    ensures r[..|assets|] == assets
    ensures r[|assets|] == NewAsset(draft, id, now)
  {
    assets + [NewAsset(draft, id, now)]
  }

  /** `{ ...asset, ...updates, lastUpdated: now }`. */
  function Merge(a: Asset, u: AssetUpdate, now: string): Asset {
    Asset(u.id.Apply(a.id), u.name.Apply(a.name), u.assetType.Apply(a.assetType),
          u.location.Apply(a.location), u.owner.Apply(a.owner), u.criticality.Apply(a.criticality),
          u.status.Apply(a.status), now, u.parentAsset.Apply(a.parentAsset),
          u.ipAddress.Apply(a.ipAddress))
  }

  function MergeInto(id: string, u: AssetUpdate, now: string): Asset -> Asset {
    (a: Asset) => if a.id == id then Merge(a, u, now) else a
  }

  /** `prev.map(asset => asset.id === id ? { ... } : asset)`: every asset with the id is merged
      and stamped with `now`; every other asset, and the length and order, stay. */
  function Updated(assets: seq<Asset>, id: string, u: AssetUpdate, now: string): (r: seq<Asset>)
    ensures |r| == |assets|
    ensures forall i :: 0 <= i < |assets| && assets[i].id != id ==> r[i] == assets[i]
    ensures forall i :: 0 <= i < |assets| && assets[i].id == id ==>
      r[i] == Merge(assets[i], u, now) && r[i].lastUpdated == now
  {
    Seqs.Map(assets, MergeInto(id, u, now))
  }

  /** `prev.filter(asset => asset.id !== id)`. */
  function Without(assets: seq<Asset>, id: string): (r: seq<Asset>)
    ensures forall i :: 0 <= i < |r| ==> r[i].id != id && r[i] in assets
    ensures forall i :: 0 <= i < |assets| && assets[i].id != id ==> assets[i] in r
    ensures Seqs.Subsequence(r, assets)
    ensures multiset(r) + multiset(Seqs.Filter(assets, HasId(id))) == multiset(assets)
  {
    Seqs.FilterMembers(assets, HasOtherId(id));
    Seqs.FilterSubsequence(assets, HasOtherId(id));
    Seqs.FilterPartition(assets, HasOtherId(id), HasId(id));
    Seqs.Filter(assets, HasOtherId(id))
  }

  /** `assets.find(a => a.id === id)`. */
  function Lookup(assets: seq<Asset>, id: string): (r: Option<Asset>)
    ensures r.None? <==> forall i :: 0 <= i < |assets| ==> assets[i].id != id
    ensures r.Some? ==> r.value.id == id && r.value in assets
  {
    Seqs.Find(assets, HasId(id))
  }

  function Seeded(id: string, name: string, assetType: AssetType, location: string, owner: string,
                  criticality: AssetCriticality, status: AssetStatus, now: string): Asset {
    Asset(id, name, assetType, location, owner, criticality, status, now, None, None)
  }

  /** `INITIAL_ASSETS`, every one stamped with the time the module was loaded. */
  function InitialAssets(now: string): seq<Asset> {
    [ Seeded("1", "Forward Command Post Alpha", Facilities, "Sector 7", "HQ Command", Critical, Active, now),
      Seeded("2", "Bravo Squadron", Personnel, "Base Camp", "HR / Ops", High, Active, now),
      Seeded("3", "Mission Data Link", Information, "Cloud / SatCom", "Comms Unit", Critical, Active, now),
      Seeded("4", "Logistics Convoy", Activities, "Route 66", "Logistics", Medium, Active, now),
      Seeded("5", "Main Generator", Materiel, "Power Plant", "Engineering", High, Maintenance, now),
      Seeded("6", "Surveillance Op", Operations, "Northern Border", "Intel", Medium, Active, now) ]
  }

  /** The `useState` initialiser: the stored list when there is one, else the seed. */
  function InitialState(stored: Option<seq<Asset>>, now: string): (r: seq<Asset>)
    ensures stored.Some? ==> r == stored.value
    ensures stored.None? ==> Ids(r) == ["1", "2", "3", "4", "5", "6"]
  {
    match stored
    case Some(assets) => assets
    case None => InitialAssets(now)
  }

  // --- Properties ---

  /** The seed has six assets with distinct ids, all stamped `now`, none with a parent. */
  lemma InitialAssetsShape(now: string)
    ensures |InitialAssets(now)| == 6
    ensures Seqs.Distinct(Ids(InitialAssets(now)))
    ensures forall i :: 0 <= i < 6 ==>
      InitialAssets(now)[i].lastUpdated == now && InitialAssets(now)[i].parentAsset.None?
  {
    assert Ids(InitialAssets(now)) == ["1", "2", "3", "4", "5", "6"];
  }

  /** Adding finds the new asset again, and no earlier asset changes. */
  lemma LookupAfterAdd(assets: seq<Asset>, draft: AssetDraft, id: string, now: string)
    requires forall i :: 0 <= i < |assets| ==> assets[i].id != id
    ensures Lookup(WithAsset(assets, draft, id, now), id) == Some(NewAsset(draft, id, now))
  {
    Seqs.FindFirst(WithAsset(assets, draft, id, now), HasId(id), |assets|);
  }

  /** Deleting what was just added (under a fresh id) gives the list back. */
  lemma DeleteAfterAdd(assets: seq<Asset>, draft: AssetDraft, id: string, now: string)
    requires forall i :: 0 <= i < |assets| ==> assets[i].id != id
    ensures Without(WithAsset(assets, draft, id, now), id) == assets
  {
    Seqs.FilterConcat(assets, [NewAsset(draft, id, now)], HasOtherId(id));
    Seqs.FilterKeepsAll(assets, HasOtherId(id));
    Seqs.FilterCons(NewAsset(draft, id, now), [], HasOtherId(id));
  }

  /** After a delete the id is gone; deleting twice is deleting once. */
  lemma DeleteRemoves(assets: seq<Asset>, id: string)
    ensures Lookup(Without(assets, id), id).None?
    ensures Without(Without(assets, id), id) == Without(assets, id)
  {
    Seqs.FilterKeepsAll(Without(assets, id), HasOtherId(id));
  }

  /** Deleting an id that is not there changes nothing. */
  lemma DeleteMissing(assets: seq<Asset>, id: string)
    requires forall i :: 0 <= i < |assets| ==> assets[i].id != id
    ensures Without(assets, id) == assets
  {
    Seqs.FilterKeepsAll(assets, HasOtherId(id));
  }

  /** Updating an id that is not there changes nothing. */
  lemma UpdateMissing(assets: seq<Asset>, id: string, u: AssetUpdate, now: string)
    requires forall i :: 0 <= i < |assets| ==> assets[i].id != id
    ensures Updated(assets, id, u, now) == assets
  {
  }

  /** An update that leaves the id alone keeps the list's ids, so later lookups by id find the
      merged asset in the same place. */
  lemma UpdateKeepsIds(assets: seq<Asset>, id: string, u: AssetUpdate, now: string)
    requires u.id.Keep?
    ensures Ids(Updated(assets, id, u, now)) == Ids(assets)
    ensures Lookup(Updated(assets, id, u, now), id).Some? == Lookup(assets, id).Some?
  {
    var r := Updated(assets, id, u, now);
    assert forall i :: 0 <= i < |assets| ==> r[i].id == assets[i].id;
  }

  /** Deleting keeps the ids distinct: what is left is part of the list, in its order. */
  lemma WithoutKeepsDistinct(assets: seq<Asset>, id: string)
    requires Seqs.Distinct(Ids(assets))
    ensures Seqs.Distinct(Ids(Without(assets, id)))
  {
    Seqs.FilterKeepsDistinct(assets, HasOtherId(id), AssetIdOf);
  }

  /** Adding under a fresh id keeps the ids distinct, and so does an id-preserving update
      (`WithoutKeepsDistinct` covers delete). */
  lemma DistinctIdsPreserved(assets: seq<Asset>, draft: AssetDraft, id: string, u: AssetUpdate, now: string)
    requires Seqs.Distinct(Ids(assets))
    requires forall i :: 0 <= i < |assets| ==> assets[i].id != id
    ensures Seqs.Distinct(Ids(WithAsset(assets, draft, id, now)))
    ensures u.id.Keep? ==> Seqs.Distinct(Ids(Updated(assets, id, u, now)))
  {
    var r := WithAsset(assets, draft, id, now);
    forall i, j | 0 <= i < j < |r| ensures Ids(r)[i] != Ids(r)[j] {
      if j < |assets| {
        assert Ids(assets)[i] != Ids(assets)[j];
      }
    }
    if u.id.Keep? {
      UpdateKeepsIds(assets, id, u, now);
    }
  }

  /** The hook's state: the `assets` list that every operation replaces. */
  class AssetInventory {
    var assets: seq<Asset>

    constructor (stored: Option<seq<Asset>>, now: string)
      ensures assets == InitialState(stored, now)
    {
      assets := InitialState(stored, now);
    }

    method AddAsset(draft: AssetDraft, id: string, now: string)
      modifies this
      ensures assets == WithAsset(old(assets), draft, id, now)
    {
      assets := assets + [NewAsset(draft, id, now)];
    }

    method UpdateAsset(id: string, u: AssetUpdate, now: string)
      modifies this
      ensures assets == Updated(old(assets), id, u, now)
    {
      assets := Seqs.Map(assets, MergeInto(id, u, now));
    }

    method DeleteAsset(id: string)
      modifies this
      ensures assets == Without(old(assets), id)
    {
      assets := Seqs.Filter(assets, HasOtherId(id));
    }

    function GetAsset(id: string): (r: Option<Asset>)
      reads this
      ensures r.None? <==> forall i :: 0 <= i < |assets| ==> assets[i].id != id
      ensures r.Some? ==> r.value.id == id && r.value in assets
    {
      Lookup(assets, id)
    }
  }
}
