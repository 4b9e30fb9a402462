/** The reconnecting client (internal/kuma/reconnect.go) as interleaved threads: any number of
    callers, readiness probes and background dials, one atomic step at a time. */
module ReconnectMachine {
  import opened Wrappers

  type Thread = int
  type Conn = int

  datatype Reason = DialFailed | Lost(c: Conn)

  /** What a thread does next. `caller` is false for a dial started by a readiness probe. */
  datatype PC =
    | Waiting
    | Testing(caller: bool)
    | Dialing(caller: bool)
    | Dialed(caller: bool, c: Conn)
    | Installed(caller: bool, c: Conn)
    | Refused(caller: bool)
    | Leaving(caller: bool, got: Option<Conn>)
    | Calling(c: Conn)
    | Checking(c: Conn)
    | Comparing(c: Conn)
    | Cleared(c: Conn)
    | Parting(toClose: Option<Conn>)
    | Closing(c: Conn)
    | Probing
    | Trying
    | Over

  /** The phases in which a thread holds mu. */
  predicate Holding(pc: PC) {
    pc.Testing? || pc.Dialing? || pc.Dialed? || pc.Installed? || pc.Refused? || pc.Leaving?
    || pc.Comparing? || pc.Cleared? || pc.Parting?
  }

  /** `made` connections were ever opened, numbered from 0; the other three are history:
      connections removed from current, closed, and reported lost by a call on them. */
  datatype State = State(
    mu: Option<Thread>,
    current: Option<Conn>,
    down: Option<Reason>,
    threads: map<Thread, PC>,
    made: nat,
    discarded: set<Conn>,
    closed: multiset<Conn>,
    lost: set<Conn>)

  /** newReconnectingClient: the first connection is handed in. */
  function Initial(): State {
    State(None, Some(0), None, map[], 1, {}, multiset{}, {})
  }

  // ----------------------------------------------------------------------- steps

  /** Start a call or a probe on a new thread, or let a thread take its next step; `yes` says
      whether a dial succeeds, a call reports its connection lost, or a connection can be
      closed. */
  datatype Action = Call(t: Thread) | Probe(t: Thread) | Go(t: Thread, yes: bool)

  function To(s: State, t: Thread, pc: PC): State {
    s.(threads := s.threads[t := pc])
  }

  /** mu.Lock: waits while another thread holds it. */
  function Lock(s: State, t: Thread, pc: PC): State {
    if s.mu.Some? then s else To(s, t, pc).(mu := Some(t))
  }

  function Unlock(s: State, t: Thread, pc: PC): State {
    To(s, t, pc).(mu := None)
  }

  function GoStep(s: State, t: Thread, yes: bool): State
    requires t in s.threads
  {
    match s.threads[t]
    case Waiting => Lock(s, t, Testing(true))
    case Testing(caller) => To(s, t, if s.current.Some? then Leaving(caller, s.current) else Dialing(caller))
    case Dialing(caller) =>
      if yes then To(s, t, Dialed(caller, s.made)).(made := s.made + 1) else To(s, t, Refused(caller))
    case Dialed(caller, c) => To(s, t, Installed(caller, c)).(current := Some(c))
    case Installed(caller, c) => To(s, t, Leaving(caller, Some(c))).(down := None)
    case Refused(caller) => To(s, t, Leaving(caller, None)).(down := Some(DialFailed))
    case Leaving(caller, got) => Unlock(s, t, if caller && got.Some? then Calling(got.value) else Over)
    case Calling(c) => if yes then To(s, t, Checking(c)).(lost := s.lost + {c}) else To(s, t, Over)
    case Checking(c) => Lock(s, t, Comparing(c))
    case Comparing(c) =>
      if s.current != Some(c) then To(s, t, Parting(None))
      else To(s, t, Cleared(c)).(current := None, discarded := s.discarded + {c})
    case Cleared(c) => To(s, t, Parting(Some(c))).(down := Some(Reason.Lost(c)))
    case Parting(toClose) => Unlock(s, t, if toClose.Some? then Closing(toClose.value) else Over)
    case Closing(c) => if yes then To(s, t, Over).(closed := s.closed + multiset{c}) else To(s, t, Over)
    case Probing => To(s, t, if s.down.None? then Over else Trying)
    case Trying => if s.mu.Some? then To(s, t, Over) else Lock(s, t, Testing(false))
    case Over => s
  }

  function Step(s: State, action: Action): State {
    match action
    case Call(t) => if t in s.threads then s else To(s, t, Waiting)
    case Probe(t) => if t in s.threads then s else To(s, t, Probing)
    case Go(t, yes) => if t in s.threads then GoStep(s, t, yes) else s
  }

  function Run(s: State, actions: seq<Action>): State {
    if actions == [] then s else Step(Run(s, actions[..|actions| - 1]), actions[|actions| - 1])
  }

  // ------------------------------------------------------------------- invariant

  ghost predicate LockInv(s: State) {
    && (s.mu.Some? ==> s.mu.value in s.threads)
    && (forall t :: t in s.threads ==> (Holding(s.threads[t]) <==> s.mu == Some(t)))
  }

  predicate Agree(s: State) {
    s.current.Some? <==> s.down.None?
  }

  predicate Disconnected(s: State) {
    s.current.None? && s.down.Some?
  }

  /** current and down agree except where the holder of mu is between writing the two. */
  ghost predicate StateInv(s: State) {
    if s.mu.None? || s.mu.value !in s.threads then Agree(s)
    else
      match s.threads[s.mu.value]
      case Dialing(_) => Disconnected(s)
      case Dialed(_, _) => Disconnected(s)
      case Refused(_) => Disconnected(s)
      case Installed(_, c) => s.current == Some(c)
      case Leaving(_, got) => Agree(s) && s.current == got
      case Cleared(_) => s.current.None?
      case _ => Agree(s)
  }

  /** The connection a dial has opened and not installed yet. */
  function Arriving(s: State): Option<Conn> {
    if s.mu.Some? && s.mu.value in s.threads && s.threads[s.mu.value].Dialed? then Some(s.threads[s.mu.value].c) else None
  }

  /** Every connection ever opened is arriving, current or discarded, and only one of these. */
  ghost predicate Partition(s: State) {
    && (forall c :: 0 <= c < s.made <==> (Arriving(s) == Some(c) || s.current == Some(c) || c in s.discarded))
    && (forall c :: c in s.discarded ==> s.current != Some(c) && Arriving(s) != Some(c))
    && (Arriving(s).Some? ==> s.current.None?)
  }

  /** Only connections reported lost are discarded, and only discarded ones closed, once. */
  ghost predicate ConnInv(s: State) {
    && Partition(s)
    && (forall c :: c in s.discarded ==> c in s.lost)
    && (forall c :: s.closed[c] <= 1 && (s.closed[c] > 0 ==> c in s.discarded))
  }

  /** The connection a thread has discarded and still has to close. */
  function Owes(pc: PC): Option<Conn> {
    match pc
    case Cleared(c) => Some(c)
    case Parting(toClose) => toClose
    case Closing(c) => Some(c)
    case _ => None
  }

  /** Only a reported loss is checked. */
  ghost predicate LossReported(s: State) {
    forall t :: t in s.threads && (s.threads[t].Checking? || s.threads[t].Comparing?) ==> s.threads[t].c in s.lost
  }

  /** What is still to be closed is discarded and not closed yet. */
  ghost predicate OwedIsOpen(s: State) {
    forall t :: t in s.threads && Owes(s.threads[t]).Some? ==>
      Owes(s.threads[t]).value in s.discarded && s.closed[Owes(s.threads[t]).value] == 0
  }

  /** No two threads are to close the same connection. */
  ghost predicate OwedOnce(s: State) {
    forall t, u :: t in s.threads && u in s.threads && t != u && Owes(s.threads[t]).Some? ==>
      Owes(s.threads[t]) != Owes(s.threads[u])
  }

  ghost predicate ThreadInv(s: State) {
    LossReported(s) && OwedIsOpen(s) && OwedOnce(s)
  }

  ghost predicate Inv(s: State) {
    LockInv(s) && StateInv(s) && ConnInv(s) && ThreadInv(s)
  }

  // ----------------------------------------------------------- every step keeps it

  lemma LockStep(s: State, t: Thread, yes: bool)
    requires LockInv(s) && t in s.threads
    ensures LockInv(GoStep(s, t, yes))
  {}

  lemma StateStep(s: State, t: Thread, yes: bool)
    requires LockInv(s) && StateInv(s) && ConnInv(s) && t in s.threads
    ensures StateInv(GoStep(s, t, yes))
  {
    assert Holding(s.threads[t]) <==> s.mu == Some(t);
  }

  lemma PartitionStep(s: State, t: Thread, yes: bool)
    requires LockInv(s) && StateInv(s) && Partition(s) && t in s.threads
    ensures Partition(GoStep(s, t, yes))
  {
    assert Holding(s.threads[t]) <==> s.mu == Some(t);
  }

  lemma ConnStep(s: State, t: Thread, yes: bool)
    requires Inv(s) && t in s.threads
    ensures ConnInv(GoStep(s, t, yes))
  {
    PartitionStep(s, t, yes);
  }

  lemma LossStep(s: State, t: Thread, yes: bool)
    requires LossReported(s) && t in s.threads
    ensures LossReported(GoStep(s, t, yes))
  {}

  lemma OwedOpenStep(s: State, t: Thread, yes: bool)
    requires OwedIsOpen(s) && OwedOnce(s) && ConnInv(s) && t in s.threads
    ensures OwedIsOpen(GoStep(s, t, yes))
  {
    var after := GoStep(s, t, yes);
    forall u | u in after.threads && Owes(after.threads[u]).Some?
      ensures Owes(after.threads[u]).value in after.discarded && after.closed[Owes(after.threads[u]).value] == 0
    {
      if u != t {
        assert Owes(s.threads[u]).value in s.discarded && s.closed[Owes(s.threads[u]).value] == 0;
      }
    }
  }

  /** What the stepping thread owes afterwards it owed before, or it has just discarded it. */
  lemma OwesBefore(s: State, t: Thread, yes: bool)
    requires t in s.threads
    ensures
      var owed := Owes(GoStep(s, t, yes).threads[t]);
      owed.None? || owed == Owes(s.threads[t]) || (owed == s.current && s.threads[t].Comparing?)
  {}

  /** A step changes the state of its own thread only. */
  lemma GoFrame(s: State, t: Thread, yes: bool)
    requires t in s.threads
    ensures t in GoStep(s, t, yes).threads
    ensures GoStep(s, t, yes).threads == s.threads[t := GoStep(s, t, yes).threads[t]]
  {}

  lemma OwedOnceStep(s: State, t: Thread, yes: bool)
    requires OwedIsOpen(s) && OwedOnce(s) && ConnInv(s) && t in s.threads
    ensures OwedOnce(GoStep(s, t, yes))
  {
    OwesBefore(s, t, yes);
    GoFrame(s, t, yes);
    OwedOnceStays(s, t, GoStep(s, t, yes).threads[t]);
  }

  lemma OwedOnceStays(s: State, t: Thread, pc: PC)
    requires OwedIsOpen(s) && OwedOnce(s) && ConnInv(s) && t in s.threads
    requires Owes(pc).None? || Owes(pc) == Owes(s.threads[t]) || Owes(pc) == s.current
    ensures OwedOnce(To(s, t, pc))
  {
    forall u | u in s.threads && u != t && Owes(s.threads[u]).Some?
      ensures Owes(s.threads[u]) != Owes(pc)
    {
      if s.current.Some? {
        CurrentIsKept(s, s.current.value);
      }
    }
  }

  lemma ThreadStep(s: State, t: Thread, yes: bool)
    requires ThreadInv(s) && ConnInv(s) && t in s.threads
    ensures ThreadInv(GoStep(s, t, yes))
  {
    LossStep(s, t, yes);
    OwedOpenStep(s, t, yes);
    OwedOnceStep(s, t, yes);
  }

  lemma StepKeeps(s: State, action: Action)
    requires Inv(s)
    ensures Inv(Step(s, action))
  {
    if action.Go? && action.t in s.threads {
      LockStep(s, action.t, action.yes);
      StateStep(s, action.t, action.yes);
      ConnStep(s, action.t, action.yes);
      ThreadStep(s, action.t, action.yes);
    }
  }

  lemma {:induction false} RunInv(actions: seq<Action>)
    ensures Inv(Run(Initial(), actions))
  {
    if actions != [] {
      RunInv(actions[..|actions| - 1]);
      StepKeeps(Run(Initial(), actions[..|actions| - 1]), actions[|actions| - 1]);
    }
  }

  // ------------------------------------------------------------------ what it means

  /** Under every interleaving, whenever mu is free: a connection is held exactly when down is
      unset, every connection opened is the current one or was discarded, and so the initial
      connection plus the dials less the discards is 1 or 0. */
  lemma FreeMeansConsistent(actions: seq<Action>)
    ensures
      var s := Run(Initial(), actions);
      s.mu.None? ==>
        && (s.current.Some? <==> s.down.None?)
        && s.made - |s.discarded| == if s.current.Some? then 1 else 0
  {
    RunInv(actions);
    var s := Run(Initial(), actions);
    if s.mu.None? {
      Counting(s);
    }
  }

  lemma CurrentIsKept(s: State, c: Conn)
    requires Partition(s) && s.current == Some(c)
    ensures c !in s.discarded
  {}

  lemma Counting(s: State)
    requires ConnInv(s) && Arriving(s).None?
    ensures s.made - |s.discarded| == if s.current.Some? then 1 else 0
  {
    var held := if s.current.Some? then {s.current.value} else {};
    UpToExact(s.made);
    forall c
      ensures c in UpTo(s.made) <==> c in s.discarded + held
    {
      assert 0 <= c < s.made <==> (s.current == Some(c) || c in s.discarded);
    }
    assert UpTo(s.made) == s.discarded + held;
    if s.current.Some? {
      CurrentIsKept(s, s.current.value);
      assert |s.discarded + {s.current.value}| == |s.discarded| + 1;
    } else {
      assert s.discarded + held == s.discarded;
    }
  }

  /** The first n connections. */
  function UpTo(n: nat): set<Conn> {
    if n == 0 then {} else UpTo(n - 1) + {n - 1}
  }

  lemma {:induction false} UpToExact(n: nat)
    ensures |UpTo(n)| == n
    ensures forall c :: c in UpTo(n) <==> 0 <= c < n
  {
    if n > 0 {
      UpToExact(n - 1);
    }
  }

  /** At most one thread dials, and no other holds mu meanwhile. */
  lemma OneDial(actions: seq<Action>, t: Thread, u: Thread)
    ensures
      var s := Run(Initial(), actions);
      t in s.threads && u in s.threads && s.threads[t].Dialing? && Holding(s.threads[u]) ==> t == u
  {
    RunInv(actions);
  }

  /** A connection leaves current only when a call made on that same connection reported it
      lost; so a late failure on an old connection never removes its replacement. */
  lemma DiscardIsJustified(actions: seq<Action>, action: Action)
    ensures
      var s := Run(Initial(), actions);
      s.current.Some? && Step(s, action).current != s.current ==>
        && s.current.value in s.lost && Step(s, action).current.None?
        && action.Go? && action.t in s.threads && s.threads[action.t] == Comparing(s.current.value)
  {
    RunInv(actions);
    var s := Run(Initial(), actions);
    if action.Go? && action.t in s.threads {
      assert Holding(s.threads[action.t]) <==> s.mu == Some(action.t);
    }
  }

  /** Every connection is closed at most once, and only after it has left current; it never
      comes back. */
  lemma CloseOnceAfterDiscard(actions: seq<Action>, c: Conn)
    ensures
      var s := Run(Initial(), actions);
      s.closed[c] <= 1 && (s.closed[c] == 1 ==> s.current != Some(c) && c in s.discarded && c in s.lost)
  {
    RunInv(actions);
  }

  /** A discarded connection stays discarded, whatever happens. */
  lemma {:induction false} DiscardedForEver(s: State, actions: seq<Action>)
    ensures s.discarded <= Run(s, actions).discarded
  {
    if actions != [] {
      DiscardedForEver(s, actions[..|actions| - 1]);
      DiscardedStays(Run(s, actions[..|actions| - 1]), actions[|actions| - 1]);
    }
  }

  lemma DiscardedStays(s: State, action: Action)
    ensures s.discarded <= Step(s, action).discarded
  {}

  /** A readiness probe that passes while mu is free means a connection is held. */
  lemma ReadyMeansConnected(actions: seq<Action>, t: Thread)
    ensures
      var s := Run(Initial(), actions);
      t in s.threads && s.threads[t].Probing? && s.mu.None? && GoStep(s, t, true).threads[t].Over? ==> s.current.Some?
  {
    RunInv(actions);
  }

  /** The holder of mu can always go on, whatever the others do: no deadlock. */
  lemma HolderMoves(actions: seq<Action>, yes: bool)
    ensures
      var s := Run(Initial(), actions);
      s.mu.Some? ==> s.mu.value in s.threads && GoStep(s, s.mu.value, yes).threads[s.mu.value] != s.threads[s.mu.value]
  {
    RunInv(actions);
  }
}
