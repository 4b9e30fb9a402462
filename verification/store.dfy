/** Kuma as the reconcilers see it: a store of monitors that issues fresh ids, following
    the in-memory client (internal/kuma/fake.go). `owner` and `orphans` are history: who a
    monitor was created by, and which creations no resource came to track. */
module Store {
  import opened Wrappers
  import opened Spec
  import opened Strconv

  type Key = string

  datatype Owner = ByHand | ByHost(key: Key) | ByMonitor(key: Key)

  datatype Kuma = Kuma(
    monitors: map<int, MonitorSpec>,
    tags: map<int, set<string>>,
    nextID: int,
    owner: map<int, Owner>,
    orphans: set<int>,
    notifications: map<string, int>,
    groups: map<string, int>,
    unmanaged: set<string>)

  /** Ids are issued in order, each once, and only issued ids have monitors. */
  ghost predicate Valid(k: Kuma) {
    && 0 <= k.nextID <= MAX_INT64
    && (forall id :: id in k.owner <==> 1 <= id <= k.nextID)
    && (forall id :: id in k.monitors ==> id in k.owner)
    && (forall id :: id in k.orphans ==> id in k.owner)
  }

  /** Kuma's listing can be translated: it holds no group and no other monitor of a type the
      operator does not manage. */
  predicate Listable(k: Kuma) {
    k.groups == map[] && k.unmanaged == {}
  }

  function TagsOn(k: Kuma, id: int): set<string> {
    if id in k.tags then k.tags[id] else {}
  }

  // ------------------------------------------------------------ the operations

  /** Upsert: id 0 creates a monitor under a fresh id, any other id is written in place. No
      id is left to issue once int64 is exhausted. */
  function Upsert(k: Kuma, who: Owner, id: int, spec: MonitorSpec): Option<(Kuma, int)> {
    if id != 0 then Some((k.(monitors := k.monitors[id := spec]), id))
    else if k.nextID >= MAX_INT64 then None
    else
      var next := k.nextID + 1;
      Some((k.(monitors := k.monitors[next := spec], nextID := next, owner := k.owner[next := who]), next))
  }

  function Delete(k: Kuma, id: int): Kuma {
    k.(monitors := k.monitors - {id})
  }

  function SetTags(k: Kuma, id: int, names: set<string>): Kuma {
    k.(tags := k.tags[id := names])
  }

  function Orphan(k: Kuma, ids: set<int>): Kuma {
    k.(orphans := k.orphans + ids)
  }

  // ------------------------------------------------------------ frame relations

  ghost predicate BelongsTo(k: Kuma, who: Owner, id: int) {
    id in k.owner && k.owner[id] == who
  }

  /** A monitor created by `who` that is not known to be orphaned. */
  ghost predicate Owned(k: Kuma, who: Owner, id: int) {
    BelongsTo(k, who, id) && id !in k.orphans
  }

  /** The same configuration and tags under this id. */
  ghost predicate SameAt(a: Kuma, b: Kuma, id: int) {
    && (id in a.monitors <==> id in b.monitors)
    && (id in a.monitors ==> a.monitors[id] == b.monitors[id])
    && TagsOn(a, id) == TagsOn(b, id)
  }

  ghost predicate OwnersKept(a: Kuma, b: Kuma) {
    && a.nextID <= b.nextID
    && (forall id :: id in a.owner ==> id in b.owner && b.owner[id] == a.owner[id])
  }

  /** What an action of `who` may do to Kuma: create monitors of its own and change its own;
      every other monitor, hand-made ones included, stays as it is. */
  ghost predicate Acted(a: Kuma, b: Kuma, who: Owner) {
    && OwnersKept(a, b)
    && (forall id :: id in b.owner && id !in a.owner ==> b.owner[id] == who)
    && (forall id :: id in a.owner && a.owner[id] != who ==> SameAt(a, b, id) && (id in a.orphans <==> id in b.orphans))
    && a.notifications == b.notifications && a.groups == b.groups && a.unmanaged == b.unmanaged
  }

  /** What anyone but `who` may do to the monitors of `who`: those in `touched` may be edited
      or deleted by hand, the others stay; none comes back once it is gone. */
  ghost predicate Moved(a: Kuma, b: Kuma, who: Owner, touched: set<int>) {
    && OwnersKept(a, b)
    && (forall id :: id in b.owner && id !in a.owner ==> b.owner[id] != who)
    && (forall id :: BelongsTo(a, who, id) ==>
          && (id in a.orphans <==> id in b.orphans)
          && (id in b.monitors ==> id in a.monitors)
          && (id !in touched ==> SameAt(a, b, id)))
  }

  lemma ActedIsMoved(a: Kuma, b: Kuma, who: Owner, other: Owner)
    requires Acted(a, b, who) && other != who
    ensures Moved(a, b, other, {})
  {}

  lemma UpsertActs(k: Kuma, who: Owner, id: int, spec: MonitorSpec)
    requires Valid(k) && (id == 0 || BelongsTo(k, who, id)) && Upsert(k, who, id, spec).Some?
    ensures
      var (after, got) := Upsert(k, who, id, spec).value;
      && Valid(after) && Acted(k, after, who) && BelongsTo(after, who, got)
      && (id == 0 ==> got == k.nextID + 1 && got !in k.owner)
      && (id != 0 ==> got == id)
      && got in after.monitors && after.monitors[got] == spec
      && (forall other :: other != got ==> SameAt(k, after, other))
      && after.orphans == k.orphans
  {}

  lemma DeleteActs(k: Kuma, who: Owner, id: int)
    requires Valid(k) && BelongsTo(k, who, id)
    ensures Valid(Delete(k, id)) && Acted(k, Delete(k, id), who)
    ensures id !in Delete(k, id).monitors
    ensures forall other :: other != id ==> SameAt(k, Delete(k, id), other)
    ensures Delete(k, id).orphans == k.orphans && Delete(k, id).owner == k.owner
  {}

  lemma SetTagsActs(k: Kuma, who: Owner, id: int, names: set<string>)
    requires Valid(k) && BelongsTo(k, who, id)
    ensures Valid(SetTags(k, id, names)) && Acted(k, SetTags(k, id, names), who)
  {}

  lemma OrphanActs(k: Kuma, who: Owner, ids: set<int>)
    requires Valid(k) && forall id :: id in ids ==> BelongsTo(k, who, id)
    ensures Valid(Orphan(k, ids)) && Acted(k, Orphan(k, ids), who)
  {}

  lemma ActedTwice(a: Kuma, b: Kuma, c: Kuma, who: Owner)
    requires Acted(a, b, who) && Acted(b, c, who)
    ensures Acted(a, c, who)
  {}
}
