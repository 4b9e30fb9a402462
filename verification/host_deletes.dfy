/** The Delete, tag and API-server steps of a reconcile keep the invariant. */
module HostDeletes {
  import opened Wrappers
  import opened Spec
  import opened Store
  import opened Tracking
  import opened HostMachine
  import opened HostInvariant
  import opened HostSteps
  import opened HostUpserts

  // --------------------------------------------------------------------- deletes

  lemma CanonicalAfterDelete(k: Kuma, who: Owner, id: int, ids: map<string, string>)
    requires Valid(k) && BelongsTo(k, who, id) && AllCanonical(k, who, ids)
    ensures AllCanonical(Delete(k, id), who, ids)
    ensures AllGone(k, ids) ==> AllGone(Delete(k, id), ids)
  {
    forall h | h in ids
      ensures Canonical(Delete(k, id), who, ids[h])
    {
      assert Canonical(k, who, ids[h]);
    }
  }

  lemma DeleteCore(cfg: Config, who: Owner, l: Local, id: int)
    requires Valid(l.kuma) && Inv(cfg, who, l) && l.attempt.Some? && BelongsTo(l.kuma, who, id)
    ensures Core(cfg, who, l.(kuma := Delete(l.kuma, id)))
    ensures Acted(l.kuma, Delete(l.kuma, id), who)
  {
    CoreHolds(cfg, who, l);
    DeleteActs(l.kuma, who, id);
    var after := l.(kuma := Delete(l.kuma, id));
    if l.cur.Some? {
      CanonicalAfterDelete(l.kuma, who, id, l.cur.value.ids.m);
    }
    forall i | i in after.kuma.monitors && Owned(after.kuma, who, i)
      ensures AccountedFor(after, i)
    {
      assert AccountedFor(l, i);
    }
  }

  lemma DeleteSnap(cfg: Config, who: Owner, l: Local, id: int)
    requires Valid(l.kuma) && Inv(cfg, who, l) && l.attempt.Some? && Open(l.attempt.value.phase) && BelongsTo(l.kuma, who, id)
    ensures SnapInv(cfg, who, l.(kuma := Delete(l.kuma, id)), l.attempt.value.snap)
    ensures forall c :: c in l.attempt.value.created ==> Owned(Delete(l.kuma, id), who, c)
  {
    CanonicalAfterDelete(l.kuma, who, id, l.attempt.value.snap.ids.m);
  }

  lemma DeleteStepKeeps(cfg: Config, who: Owner, l: Local, id: int, outcome: Outcome, next: Phase)
    requires Valid(l.kuma) && Inv(cfg, who, l) && l.attempt.Some? && Open(l.attempt.value.phase) && BelongsTo(l.kuma, who, id)
    requires
      var d := l.(kuma := Delete(l.kuma, id));
      PhaseInv(cfg, who, d, d.attempt.value.(phase := next))
    ensures Good(cfg, who, l, DeleteStep(l, id, outcome, next))
  {
    var deleted := l.(kuma := Delete(l.kuma, id));
    match outcome {
      case Failed => FailKeeps(cfg, who, l);
      case Lost =>
        DeleteCore(cfg, who, l, id);
        GiveUp(cfg, who, l, deleted);
      case Succeeded =>
        DeleteCore(cfg, who, l, id);
        DeleteSnap(cfg, who, l, id);
        CoreAt(cfg, who, deleted, next);
        SamePhaseInv(cfg, who, deleted, At(deleted, next), At(deleted, next).attempt.value);
        AssembleAttempt(cfg, who, At(deleted, next), At(deleted, next).attempt.value);
    }
  }

  lemma DeletingKeeps(cfg: Config, who: Owner, l: Local, todo: map<string, string>, h: string, outcome: Outcome)
    requires Valid(l.kuma) && Inv(cfg, who, l)
    requires l.attempt.Some? && l.attempt.value.phase == Deleting(todo) && h in todo
    ensures Good(cfg, who, l, DeleteStep(l, IDOf(todo[h]), outcome, Deletes(l.attempt.value.snap, todo - {h})))
  {
    var a, id := l.attempt.value, IDOf(todo[h]);
    assert Canonical(l.kuma, who, a.snap.ids.m[h]);
    var deleted := l.(kuma := Delete(l.kuma, id));
    DeleteSnap(cfg, who, l, id);
    DeletesPhase(cfg, who, deleted, a, todo - {h});
    DeleteStepKeeps(cfg, who, l, id, outcome, Deletes(a.snap, todo - {h}));
  }

  /** Deleting a monitor that is not carried over leaves the gathered ones configured. */
  lemma RemoveShrinks(k: Kuma, who: Owner, a: Attempt, plan: Plan, ids: map<string, string>, todo: map<string, string>, h: string)
    requires Valid(k) && AllCanonical(k, who, plan.existing) && Injective(plan.existing)
    requires Gathered(k, who, a.created, plan.existing, ids) && RemoveInv(k, a, plan, ids, todo) && h in todo
    ensures BelongsTo(k, who, IDOf(todo[h]))
    ensures Gathered(Delete(k, IDOf(todo[h])), who, a.created, plan.existing, ids)
    ensures RemoveInv(Delete(k, IDOf(todo[h])), a, plan, ids, todo - {h})
  {
    var id := IDOf(todo[h]);
    assert Canonical(k, who, plan.existing[h]) && Tracks(plan.existing, id);
    CanonicalAfterDelete(k, who, id, ids);
    forall g | g in ids
      ensures ConfiguredAt(Delete(k, id), a.touched, plan.desired, ids, g)
    {
      assert ConfiguredAt(k, a.touched, plan.desired, ids, g);
      assert IDOf(ids[g]) != id;
    }
  }

  lemma RemovingKeeps(cfg: Config, who: Owner, l: Local, plan: Plan, ids: map<string, string>, todo: map<string, string>,
                      h: string, outcome: Outcome)
    requires Valid(l.kuma) && Inv(cfg, who, l)
    requires l.attempt.Some? && l.attempt.value.phase == Removing(plan, ids, todo) && h in todo
    ensures Good(cfg, who, l, DeleteStep(l, IDOf(todo[h]), outcome, Removals(plan, ids, todo - {h})))
  {
    var a, id := l.attempt.value, IDOf(todo[h]);
    RemoveShrinks(l.kuma, who, a, plan, ids, todo, h);
    RemovalsPhase(cfg, who, l.(kuma := Delete(l.kuma, id)), a, plan, ids, todo - {h});
    DeleteStepKeeps(cfg, who, l, id, outcome, Removals(plan, ids, todo - {h}));
  }

  // ------------------------------------------------------------------------ tags

  lemma TagCore(cfg: Config, who: Owner, l: Local, id: int, tags: set<string>)
    requires Valid(l.kuma) && Inv(cfg, who, l) && l.attempt.Some? && BelongsTo(l.kuma, who, id)
    ensures Core(cfg, who, l.(kuma := SetTags(l.kuma, id, tags)))
    ensures Acted(l.kuma, SetTags(l.kuma, id, tags), who)
  {
    CoreHolds(cfg, who, l);
    SetTagsActs(l.kuma, who, id, tags);
    var after := l.(kuma := SetTags(l.kuma, id, tags));
    if l.cur.Some? {
      TagCanonical(l.kuma, who, id, tags, l.cur.value.ids.m);
    }
    forall i | i in after.kuma.monitors && Owned(after.kuma, who, i)
      ensures AccountedFor(after, i)
    {
      assert AccountedFor(l, i);
    }
  }

  lemma TagCanonical(k: Kuma, who: Owner, id: int, tags: set<string>, ids: map<string, string>)
    requires AllCanonical(k, who, ids)
    ensures AllCanonical(SetTags(k, id, tags), who, ids)
  {
    forall h | h in ids
      ensures Canonical(SetTags(k, id, tags), who, ids[h])
    {
      assert Canonical(k, who, ids[h]);
    }
  }

  lemma TaggingFacts(cfg: Config, who: Owner, l: Local, plan: Plan, ids: map<string, string>, todo: map<string, string>, h: string)
    requires Inv(cfg, who, l) && l.attempt.Some? && l.attempt.value.phase == Tagging(plan, ids, todo) && h in todo
    ensures AllCanonical(l.kuma, who, ids) && Injective(ids) && h in ids && todo[h] == ids[h]
    ensures BelongsTo(l.kuma, who, IDOf(todo[h]))
  {
    assert Canonical(l.kuma, who, ids[h]);
  }

  lemma TaggingShrinks(k: Kuma, who: Owner, a: Attempt, plan: Plan, ids: map<string, string>, todo: map<string, string>, h: string)
    requires TagInv(k, a, plan, ids, todo) && h in todo && Injective(ids)
    ensures TagInv(SetTags(k, IDOf(todo[h]), plan.tags), a, plan, ids, todo - {h})
  {
    forall g | g in ids && g !in todo - {h}
      ensures IDOf(ids[g]) in a.touched || TagsOn(SetTags(k, IDOf(todo[h]), plan.tags), IDOf(ids[g])) == plan.tags
    {
      if g != h {
        assert IDOf(ids[g]) != IDOf(ids[h]);
      }
    }
  }

  lemma RecordedAfterTag(cfg: Config, l: Local, a: Attempt, plan: Plan, ids: map<string, string>, id: int)
    requires Recorded(cfg, l.kuma, a, l.cur, plan, ids)
    ensures Recorded(cfg, SetTags(l.kuma, id, plan.tags), a, l.cur, plan, ids)
  {
    forall h | h in ids
      ensures ConfiguredAt(SetTags(l.kuma, id, plan.tags), a.touched, plan.desired, ids, h)
    {
      assert ConfiguredAt(l.kuma, a.touched, plan.desired, ids, h);
    }
  }

  lemma AssembleRecorded(cfg: Config, who: Owner, l: Local, b: Attempt)
    requires l.attempt == Some(b) && Core(cfg, who, l) && !Open(b.phase) && b.created == {}
    requires PhaseInv(cfg, who, l, b)
    ensures Inv(cfg, who, l)
  {
    assert AttemptInv(cfg, who, l, b);
  }

  lemma TaggedKeeps(cfg: Config, who: Owner, l: Local, plan: Plan, ids: map<string, string>, todo: map<string, string>, h: string)
    requires Valid(l.kuma) && Inv(cfg, who, l)
    requires l.attempt.Some? && l.attempt.value.phase == Tagging(plan, ids, todo) && h in todo
    ensures Good(cfg, who, l, At(l.(kuma := SetTags(l.kuma, IDOf(todo[h]), plan.tags)), Taggings(plan, ids, todo - {h})))
  {
    var a, id := l.attempt.value, IDOf(todo[h]);
    var tagged := l.(kuma := SetTags(l.kuma, id, plan.tags));
    var after := At(tagged, Taggings(plan, ids, todo - {h}));
    TaggingFacts(cfg, who, l, plan, ids, todo, h);
    TagCore(cfg, who, l, id, plan.tags);
    TaggingShrinks(l.kuma, who, a, plan, ids, todo, h);
    RecordedAfterTag(cfg, l, a, plan, ids, id);
    TaggingsPhase(cfg, who, tagged, a, plan, ids, todo - {h});
    CoreAt(cfg, who, tagged, Taggings(plan, ids, todo - {h}));
    SamePhaseInv(cfg, who, tagged, after, after.attempt.value);
    AssembleRecorded(cfg, who, after, after.attempt.value);
  }

  lemma TaggingKeeps(cfg: Config, who: Owner, l: Local, plan: Plan, ids: map<string, string>, todo: map<string, string>,
                     h: string, ok: bool, tags: set<string>)
    requires Valid(l.kuma) && Inv(cfg, who, l)
    requires l.attempt.Some? && l.attempt.value.phase == Tagging(plan, ids, todo) && h in todo
    ensures Good(cfg, who, l, TagStep(l, h, ok, tags))
  {
    if ok {
      TaggedKeeps(cfg, who, l, plan, ids, todo, h);
    } else {
      TaggingFacts(cfg, who, l, plan, ids, todo, h);
      TagCore(cfg, who, l, IDOf(todo[h]), tags);
      GiveUp(cfg, who, l, l.(kuma := SetTags(l.kuma, IDOf(todo[h]), tags)));
    }
  }
}
