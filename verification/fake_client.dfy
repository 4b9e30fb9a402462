/** The in-memory Kuma client (internal/kuma/fake.go), proved to behave as the store the state
    machines are stated over. */
module FakeClient {
  import opened Wrappers
  import opened Spec
  import opened Strconv
  import opened Store
  import Iteration

  lemma SameMap(a: map<int, MonitorSpec>, b: map<int, MonitorSpec>)
    requires forall id :: id in a <==> id in b
    requires forall id :: id in a ==> a[id] == b[id]
    ensures a == b
  {
    forall id
      ensures id in a.Keys <==> id in b.Keys
    {}
    forall id | id in a
      ensures a[id] == b[id]
    {}
  }

  class FakeClient {
    var nextID: int
    var monitors: map<int, MonitorSpec>
    var upsertFails: bool
    var deleteFails: bool
    var listFails: bool
    var upsertCalls: nat
    var deleteCalls: nat
    var tagIDs: map<string, int>
    var monitorTags: map<int, seq<int>>
    var nextTagID: int
    ghost var store: Kuma

    /** The fields show the store. */
    ghost predicate Shows()
      reads this
    {
      monitors == store.monitors && nextID == store.nextID
    }

    /** Every monitor has an id that was issued. */
    ghost predicate Issued()
      reads this
    {
      0 <= nextID && forall id :: id in monitors ==> 1 <= id <= nextID
    }

    /** No two tags share an id. */
    ghost predicate TagsDistinct()
      reads this
    {
      forall a, b :: a in tagIDs && b in tagIDs && tagIDs[a] == tagIDs[b] ==> a == b
    }

    constructor ()
      ensures Shows() && Issued() && monitors == map[] && nextID == 0 && upsertCalls == 0 && deleteCalls == 0
      ensures !upsertFails && !deleteFails && !listFails && tagIDs == map[] && monitorTags == map[] && nextTagID == 0
    {
      nextID, monitors, upsertFails, deleteFails, listFails := 0, map[], false, false, false;
      upsertCalls, deleteCalls, tagIDs, monitorTags, nextTagID := 0, 0, map[], map[], 0;
      store := Kuma(map[], map[], 0, map[], {}, map[], map[], {});
    }

    /** The store's Upsert, counted even when it fails; a failing one changes nothing else. The
        counter wraps around like an int64. A creation never overwrites a monitor as long as all
        ids were issued, and that stays so exactly if the caller passes 0 or an issued id. */
    method Upsert(id: int, spec: MonitorSpec, ghost who: Owner) returns (r: Result<int>)
      requires Shows()
      modifies this`nextID, this`monitors, this`upsertCalls, this`store
      ensures Shows() && upsertCalls == old(upsertCalls) + 1
      ensures r.Err? <==> upsertFails
      ensures r.Err? ==> store == old(store)
      ensures r.Ok? && (id != 0 || old(nextID) < MAX_INT64) ==> Store.Upsert(old(store), who, id, spec) == Some((store, r.value))
      ensures r.Ok? && id == 0 && old(nextID) >= MAX_INT64 ==> r.value == nextID == MIN_INT64 && monitors == old(monitors)[MIN_INT64 := spec]
      ensures old(Issued()) && r.Ok? && id == 0 ==> r.value !in old(monitors)
      ensures old(Issued()) && r.Ok? && old(nextID) < MAX_INT64 ==> (Issued() <==> id == 0 || 1 <= id <= old(nextID))
    {
      upsertCalls := upsertCalls + 1;
      if upsertFails {
        return Err;
      }
      var got := id;
      if got == 0 {
        nextID := if nextID >= MAX_INT64 then MIN_INT64 else nextID + 1;
        got := nextID;
        store := store.(owner := store.owner[got := who]);
      }
      monitors := monitors[got := spec];
      store := store.(monitors := monitors, nextID := nextID);
      assert got in monitors && forall other :: other in monitors ==> other == got || other in old(monitors);
      return Ok(got);
    }

    /** The store's Delete; deleting what is gone already changes nothing. */
    method Delete(id: int) returns (ok: bool)
      requires Shows()
      modifies this`monitors, this`deleteCalls, this`store
      ensures Shows() && deleteCalls == old(deleteCalls) + 1 && (ok <==> !deleteFails)
      ensures store == if ok then Store.Delete(old(store), id) else old(store)
      ensures ok && id !in old(monitors) ==> monitors == old(monitors)
      ensures old(Issued()) ==> Issued()
    {
      deleteCalls := deleteCalls + 1;
      if deleteFails {
        return false;
      }
      monitors := monitors - {id};
      store := Store.Delete(store, id);
      return true;
    }

    /** A copy of the monitors, built one by one in any order. */
    method ExistingSpecs() returns (r: Result<map<int, MonitorSpec>>)
      requires Shows()
      ensures r == if listFails then Err else Ok(store.monitors)
    {
      if listFails {
        return Err;
      }
      var all, specs: map<int, MonitorSpec> := monitors, map[];
      var order := Iteration.AnyOrder(all.Keys);
      for i := 0 to |order|
        invariant forall j :: 0 <= j < i ==> order[j] in specs
        invariant forall id :: id in specs ==> id in all && specs[id] == all[id]
      {
        assert order[i] in order;
        specs := specs[order[i] := all[order[i]]];
      }
      assert forall id :: id in all ==> id in order;
      SameMap(specs, all);
      return Ok(specs);
    }

    /** A new tag, or a new id for an old one. Tags keep distinct ids exactly if no other tag
        has the next number already. */
    method CreateTag(name: string) returns (id: int)
      modifies this`tagIDs, this`nextTagID
      ensures tagIDs == old(tagIDs)[name := id] && id == nextTagID == old(nextTagID) + 1
      ensures old(TagsDistinct()) ==>
                (TagsDistinct() <==> forall other :: other in old(tagIDs) && other != name ==> old(tagIDs)[other] != id)
    {
      nextTagID := nextTagID + 1;
      tagIDs := tagIDs[name := nextTagID];
      id := nextTagID;
      if old(TagsDistinct()) && TagsDistinct() {
        assert forall other :: other in old(tagIDs) && other != name ==> tagIDs[other] == old(tagIDs)[other];
        assert tagIDs[name] == id;
      }
    }

    method SetMonitorTags(monitorID: int, tags: seq<int>)
      modifies this`monitorTags
      ensures monitorTags == old(monitorTags)[monitorID := tags]
    {
      monitorTags := monitorTags[monitorID := tags];
    }
  }

  /** A seeded tag can be handed out again: on a fresh client seeded with one tag of id 1, the
      first created tag gets the same id. */
  method SeededTagIsReissued(seeded: string, name: string) returns (client: FakeClient, id: int)
    requires seeded != name
    ensures fresh(client) && seeded in client.tagIDs && name in client.tagIDs
    ensures client.tagIDs[seeded] == client.tagIDs[name] == id
  {
    client := new FakeClient();
    client.tagIDs := map[seeded := 1];
    id := client.CreateTag(name);
  }
}
