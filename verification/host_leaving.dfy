/** How a deleted or opted-out resource leaves Kuma: with its calls succeeding, a reconcile of it
    deletes every tracked monitor and then takes the operator's marks off the resource. */
module HostLeaving {
  import opened Wrappers
  import opened Store
  import opened Tracking
  import opened HostMachine
  import opened HostInvariant
  import opened HostSync
  import HostCompletion
  import HostStability
  import HostSteps

  /** Deleted, or not opted in. */
  predicate Unwanted(optInByDefault: bool, r: Resource) {
    || r.deleting
    || (if optInByDefault then r.manifest.enabled == Some("false") else r.manifest.enabled != Some("true"))
  }

  /** What becomes of the resource: a deleted one loses the finalizer, and exists no longer unless
      a finalizer of someone else holds it; an opted-out one loses every mark and nothing else. */
  predicate Released(cur: Option<Resource>, r: Resource) {
    if r.deleting && !r.foreignFinalizers then cur.None?
    else
      cur.Some? && cur.value == (if r.deleting then r.(finalizer := false, version := cur.value.version)
                                 else r.(ids := IDs(map[]), hash := "", finalizer := false, version := cur.value.version))
  }

  /** The attempt is on its way to release `r`, which is as it was read. */
  ghost predicate Leaving(l: Local, r: Resource) {
    && l.attempt.Some? && l.attempt.value.snap == r && r.ids.IDs? && Held(Some(r))
    && (Open(l.attempt.value.phase) ==> l.cur == Some(r))
    && match l.attempt.value.phase
       case Deleting(todo) => todo != map[]
       case DroppingFinalizer => r.deleting
       case Reading(write, _) => write == Clear && !r.deleting
       case Writing(write, _, got) => write == Clear && !r.deleting && got == r
       case Ended(verdict) => verdict == (if r.deleting then Gone else OptedOut) && Released(l.cur, r)
       case _ => false
  }

  lemma DeletesLeave(l: Local, r: Resource, todo: map<string, string>)
    requires l.attempt.Some? && l.attempt.value.snap == r && r.ids.IDs? && Held(Some(r)) && l.cur == Some(r)
    ensures Leaving(At(l, Deletes(r, todo)), r)
  {}

  /** A successful step leads on. */
  lemma StepLeaves(cfg: Config, who: Owner, l: Local, r: Resource, action: Action)
    requires Leaving(l, r) && HostCompletion.Succeeds(action)
    ensures Leaving(Step(cfg, who, l, action), r)
  {
    var phase := l.attempt.value.phase;
    if action.Change? && phase.Deleting? && action.host in phase.todo {
      var deleted := l.(kuma := Delete(l.kuma, IDOf(phase.todo[action.host])));
      DeletesLeave(deleted, r, phase.todo - {action.host});
    }
  }

  lemma BeginLeaves(cfg: Config, who: Owner, l: Local, r: Resource)
    requires Inv(cfg, who, l) && l.attempt.None? && l.cur == Some(r) && Unwanted(cfg.optInByDefault, r)
    ensures Leaving(Step(cfg, who, l, Begin), r)
  {
    HostSteps.ParseableIsAll(l.kuma, who, r.ids.m);
    DeletesLeave(l.(attempt := Some(Attempt(r, {}, {}, Start(cfg, r)))), r, r.ids.m);
  }

  /** Others acting does not make it fail, whatever they do to its monitors. */
  lemma ShiftLeaves(l: Local, r: Resource, k: Kuma, latest: int, touched: set<int>)
    requires Leaving(l, r)
    ensures Leaving(HostStability.Shifted(l, k, latest, touched), r)
  {}

  /** Once over, nothing the resource tracked is left in Kuma. */
  lemma NothingLeft(cfg: Config, who: Owner, l: Local, r: Resource)
    requires Inv(cfg, who, l) && Leaving(l, r) && l.attempt.value.phase.Ended?
    ensures AllGone(l.kuma, r.ids.m)
  {}

  /** What an attempt that ended so has done, for the resource as it read it. */
  ghost predicate VerdictHolds(l: Local) {
    l.attempt.Some? && l.attempt.value.phase.Ended? ==>
      var verdict, r := l.attempt.value.phase.verdict, l.attempt.value.snap;
      && (verdict.Gone? ==> l.cur.None? || !l.cur.value.finalizer)
      && (verdict.OptedOut? ==> l.cur.None? || (l.cur.value.ids == IDs(map[]) && l.cur.value.hash == "" && !l.cur.value.finalizer))
      && (verdict.Gone? || verdict.OptedOut? ==> r.ids.IDs? && forall h :: h in r.ids.m ==> IDOf(r.ids.m[h]) !in l.kuma.monitors)
  }

  lemma VerdictsHold(cfg: Config, who: Owner, l: Local)
    requires Inv(cfg, who, l)
    ensures VerdictHolds(l)
  {}

  // ------------------------------------------------------------------ getting there

  /** How many calls are left. */
  function Left(phase: Phase): nat {
    match phase
    case Deleting(todo) => 2 + |todo|
    case Reading(_, _) => 2
    case Writing(_, _, _) => 1
    case DroppingFinalizer => 1
    case _ => 0
  }

  lemma DeletingLess(who: Owner, l: Local, r: Resource, host: string)
    requires Leaving(l, r) && l.attempt.value.phase.Deleting? && host in l.attempt.value.phase.todo
    ensures
      var after := ChangeStep(l, who, host, Succeeded);
      after.attempt.Some? && Left(after.attempt.value.phase) < Left(l.attempt.value.phase)
  {
    HostCompletion.FewerLeft(l.attempt.value.phase.todo, host);
  }

  /** Some successful call always leads nearer to the end. */
  lemma Advances(cfg: Config, who: Owner, l: Local, r: Resource) returns (action: Action)
    requires Leaving(l, r) && !l.attempt.value.phase.Ended?
    ensures HostCompletion.Succeeds(action) && Leaving(Step(cfg, who, l, action), r)
    ensures Left(Step(cfg, who, l, action).attempt.value.phase) < Left(l.attempt.value.phase)
  {
    var phase := l.attempt.value.phase;
    if phase.Reading? {
      action := Read(true);
    } else if phase.Deleting? {
      var host :| host in phase.todo;
      action := Change(host, Succeeded);
      DeletingLess(who, l, r, host);
    } else {
      action := Change("", Succeeded);
    }
    StepLeaves(cfg, who, l, r, action);
  }

  lemma Finishes(cfg: Config, who: Owner, l: Local, r: Resource) returns (actions: seq<Action>)
    requires Leaving(l, r)
    ensures HostCompletion.AllSucceed(actions)
    ensures
      var after := Steps(cfg, who, l, actions);
      Leaving(after, r) && after.attempt.value.phase.Ended?
    decreases Left(l.attempt.value.phase)
  {
    if l.attempt.value.phase.Ended? {
      actions := [];
    } else {
      var action := Advances(cfg, who, l, r);
      var rest := Finishes(cfg, who, Step(cfg, who, l, action), r);
      actions := [action] + rest;
      HostCompletion.StepsSplit(cfg, who, l, action, rest);
    }
  }

  // ------------------------------------------------------------------ nothing to do

  /** A resource that is not opted in and carries no mark, and no attempt that would do anything. */
  predicate Uninvolved(optInByDefault: bool, l: Local) {
    && l.cur.Some? && !l.cur.value.deleting && Unwanted(optInByDefault, l.cur.value)
    && l.cur.value.ids == IDs(map[]) && !l.cur.value.finalizer
    && (l.attempt.Some? ==> l.attempt.value.phase.Ended? && l.attempt.value.created == {})
  }

  /** Reconciling it makes no call at all. */
  lemma UninvolvedStep(cfg: Config, who: Owner, l: Local, action: Action)
    requires Uninvolved(cfg.optInByDefault, l)
    ensures
      var after := Step(cfg, who, l, action);
      && Uninvolved(cfg.optInByDefault, after) && after.writes == l.writes && after.cur == l.cur
      && after.kuma == l.kuma
      && (action == Begin && l.attempt.None? ==> after.attempt.Some? && after.attempt.value.phase == Ended(OptedOut))
  {
    assert Orphan(l.kuma, {}) == l.kuma;
  }
}
