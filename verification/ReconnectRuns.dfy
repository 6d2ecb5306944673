/** Theorems about every run of the reconnecting client. */
module ReconnectRuns {
  import opened Text
  import opened ReconnectProtocol
  import opened ReconnectSafety
  import opened ReconnectDelivery
  import opened ReconnectWakeUp

  // ── All runs ────────────────────────────────────────────────────────────────

  ghost predicate Safe(s: State) {
    Locks(s) && ParksAtOnce(s.monitor) && Deliveries(s) && Isolated(s)
  }

  lemma InitialIsSafe(s: State)
    requires Initial(s)
    ensures Safe(s)
  {
  }

  lemma SafeKept(s: State, e: Step)
    requires Safe(s) && Enabled(s, e)
    ensures Safe(Do(s, e))
  {
    hide Locks, ParksAtOnce, Deliveries, Isolated, Do;
    ParksAtOnceKept(s, e);
    LocksKept(s, e);
    DeliveriesKept(s, e);
    IsolatedKept(s, e);
  }

  lemma {:induction false} RunsStaySafe(s: State, steps: seq<Step>)
    requires Safe(s) && IsRun(s, steps)
    ensures Safe(RunFrom(s, steps))
    decreases |steps|
  {
    hide Safe, Do, Enabled;
    if steps != [] {
      SafeKept(s, steps[0]);
      RunsStaySafe(Do(s, steps[0]), steps[1..]);
    }
  }

  lemma InitialIsAwake(s: State)
    requires Initial(s)
    ensures !Stalled(s)
  {
  }

  /** Main result, for every interleaving from the start: no thread ever holds two guards, and no two threads a
      guard of one mutex; whoever holds a guard can leave its section by itself; and the monitor is parked with a
      failure on record and nobody about to wake it exactly if a thread panicked between recording a failure and
      notifying, with nobody else to notify, and nothing has relieved the monitor since. */
  lemma EveryRunIsSynchronised(s0: State, steps: seq<Step>)
    requires Initial(s0) && IsRun(s0, steps)
    ensures var s := RunFrom(s0, steps);
      && (forall th :: |Guards(s, th)| <= 1)
      && (forall th, u, l | l in Guards(s, th) && l in Guards(s, u) :: u == th)
      && (forall th, l, o | l in Guards(s, th) ::
            IsRun(s, Leaving(s, th, o)) && IsFree(RunFrom(s, Leaving(s, th, o)), l))
      && (Stalled(s) <==> HasStall(s0, steps))
  {
    InitialIsSafe(s0);
    RunsStaySafe(s0, steps);
    InitialIsAwake(s0);
    RunStallsExactly(s0, steps);
    var s := RunFrom(s0, steps);
    hide IsRun, RunFrom, Guards, Leaving, IsFree, Locks, Stalled, HasStall;
    forall th ensures |Guards(s, th)| <= 1 && forall u, l | l in Guards(s, th) && l in Guards(s, u) :: u == th {
      OneGuardEach(s, th);
    }
    forall th, l, o | l in Guards(s, th)
      ensures IsRun(s, Leaving(s, th, o)) && IsFree(RunFrom(s, Leaving(s, th, o)), l)
    {
      HoldersAreNeverStuck(s, th, l, o);
    }
  }

  /** A key is sent for the first time, or for the second time after its session was rejected. */
  predicate SendIsDue(s: State, e: Step) {
    e.Run? && e.t in s.clients && s.clients[e.t].At? && s.clients[e.t].at.Send? ==>
      var c, l := s.clients[e.t].at, s.world.ledger;
      SendsOf(l, c.no) == (if c.first then 0 else 1) && (!c.first ==> c.no in l.rejected)
  }

  /** Every send of a run is due when it is made. */
  predicate SendsAreDue(s: State, steps: seq<Step>)
    requires IsRun(s, steps)
    decreases |steps|
  {
    steps == [] || (SendIsDue(s, steps[0]) && SendsAreDue(Do(s, steps[0]), steps[1..]))
  }

  lemma StepIsDue(s: State, e: Step)
    requires Deliveries(s) && Enabled(s, e)
    ensures SendIsDue(s, e)
  {
    hide LedgerOk;
  }

  lemma {:induction false} RunIsDue(s: State, steps: seq<Step>)
    requires Safe(s) && IsRun(s, steps)
    ensures SendsAreDue(s, steps)
    decreases |steps|
  {
    hide Locks, Isolated, Deliveries, ParksAtOnce, SendIsDue, Do, Enabled;
    if steps != [] {
      StepIsDue(s, steps[0]);
      SafeKept(s, steps[0]);
      RunIsDue(Do(s, steps[0]), steps[1..]);
    }
  }

  /** Main result, for every interleaving, lost message and restart: no key reaches an engine twice; a key is
      sent at most twice, and the second time only after the daemon rejected its session; a key refused in cooldown is
      never sent; and a key reaches the engine of another handle only with an id from an earlier daemon. */
  lemma EveryRunDeliversAtMostOnce(s0: State, steps: seq<Step>)
    requires Initial(s0) && IsRun(s0, steps)
    ensures SendsAreDue(s0, steps)
    ensures var l := RunFrom(s0, steps).world.ledger;
      && (forall i, j | 0 <= i < j < |l.log| :: l.log[i].no != l.log[j].no)
      && (forall n: nat :: SendsOf(l, n) <= 2 && (SendsOf(l, n) == 2 ==> n in l.rejected))
      && (forall n | n in l.refused :: SendsOf(l, n) == 0)
      && (forall i | 0 <= i < |l.log| :: l.log[i].engine != l.log[i].handle ==> l.log[i].sid.born != l.log[i].lifetime)
  {
    InitialIsSafe(s0);
    RunsStaySafe(s0, steps);
    RunIsDue(s0, steps);
  }

  // ── Disciplined callers ─────────────────────────────────────────────────────

  /** The handle of a key call in progress. */
  function KeyHandle(pc: Pc): Option<nat> {
    match SectionOf(pc)
    case None => None
    case Some(c) => SectionHandle(c)
  }

  function SectionHandle(c: Section): Option<nat> {
    match c
    case KeyCooldown(h, _) => Some(h)
    case Ensure(h, _) => Some(h)
    case Open(h, _) => Some(h)
    case Store(h, _, _) => Some(h)
    case Send(h, _, _, _) => Some(h)
    case Reread(h, _) => Some(h)
    case Reopen(h, _) => Some(h)
    case Restore(h, _, _) => Some(h)
    case _ => None
  }

  predicate IsRemoving(pc: Pc, h: nat) {
    SectionOf(pc) == Some(Remove(h))
  }

  /** Callers do not destroy a handle while a key call on it is in progress, nor the other way round. */
  predicate IsDisciplined(s: State, e: Step) {
    match e
    case StartKey(_, h) => forall u | u in s.clients :: !IsRemoving(s.clients[u], h)
    case StartDestroy(_, h) => forall u | u in s.clients :: KeyHandle(s.clients[u]) != Some(h)
    case _ => true
  }

  predicate IsDisciplinedRun(s: State, steps: seq<Step>)
    decreases |steps|
  {
    steps == []
    || (Enabled(s, steps[0]) && IsDisciplined(s, steps[0]) && IsDisciplinedRun(Do(s, steps[0]), steps[1..]))
  }

  /** The sections that rely on the table entry of their handle. */
  predicate HasEntry(table: map<nat, Sid>, c: Section) {
    c.Open? || c.Store? ==> c.h in table
  }

  predicate PcHasEntry(table: map<nat, Sid>, pc: Pc) {
    SectionOf(pc).Some? ==> HasEntry(table, SectionOf(pc).value)
  }

  /** A thread that has panicked, or unwinds after a panic. */
  predicate IsPanicking(pc: Pc) {
    pc.Panicked? || (pc.Drop? && IsPanicking(pc.after))
  }

  ghost predicate Calm(s: State) {
    && !s.world.poisoned
    && (forall t | t in s.clients :: !IsPanicking(s.clients[t]) && PcHasEntry(s.world.table, s.clients[t]))
    && (forall t, u | t in s.clients && u in s.clients ::
          KeyHandle(s.clients[t]).Some? ==> !IsRemoving(s.clients[u], KeyHandle(s.clients[t]).value))
  }

  lemma BodyCalm(w: World, clock: nat, c: Section, o: Outcome)
    requires !w.poisoned && HasEntry(w.table, c)
    ensures var r := Body(w, clock, c, o);
      && !r.world.poisoned && !IsPanicking(r.pc) && PcHasEntry(r.world.table, r.pc)
      && (forall h | h in w.table :: h in r.world.table || c == Remove(h))
      && (KeyHandle(r.pc).Some? ==> KeyHandle(r.pc) == SectionHandle(c))
      && (forall h: nat :: !IsRemoving(r.pc, h))
  {
    hide Create, Sent, InCooldown;
    SectionAfterBody(w, clock, c, o);
    var r := Body(w, clock, c, o);
    assert IsPanicking(r.pc) == IsPanicking(r.pc.after);
  }

  lemma MonitorCalm(w: World, clock: nat, m: MonitorSection, o: Outcome)
    ensures var r := MonitorBody(w, clock, m, o);
      r.world.poisoned == w.poisoned && r.world.table == w.table
  {
  }

  lemma RunCalm(s: State, t: nat, o: Outcome)
    requires Calm(s) && Enabled(s, Run(t, o))
    ensures Calm(Do(s, Run(t, o)))
  {
    hide Body, HasEntry, SectionHandle;
    var c := s.clients[t].at;
    var s' := Do(s, Run(t, o));
    assert HasEntry(s.world.table, c);
    BodyCalm(s.world, s.clock, c, o);
    forall u | u in s'.clients ensures PcHasEntry(s'.world.table, s'.clients[u]) {
      if u != t {
        EntryStays(s, u, t, s'.world.table);
      }
    }
  }

  lemma EntryStays(s: State, u: nat, t: nat, table: map<nat, Sid>)
    requires Calm(s) && u in s.clients && t in s.clients && s.clients[t].At?
    requires forall h | h in s.world.table :: h in table || s.clients[t].at == Remove(h)
    ensures PcHasEntry(table, s.clients[u])
  {
  }

  lemma AfterNotifyCalm(next: Then, d: Daemon, table: map<nat, Sid>)
    ensures var pc := AfterNotify(next, d);
      !IsPanicking(pc) && PcHasEntry(table, pc) && KeyHandle(pc).None? && forall h: nat :: !IsRemoving(pc, h)
  {
  }

  lemma StartCalm(table: map<nat, Sid>, c: Section)
    requires c.CreateCooldown? || c.Remove? || c.KeyCooldown?
    ensures PcHasEntry(table, Want(c)) && (KeyHandle(Want(c)).Some? <==> c.KeyCooldown?)
    ensures c.KeyCooldown? ==> KeyHandle(Want(c)) == Some(c.h)
  {
  }

  /** A step of one thread that leaves the table alone and concerns no other handle than before. */
  lemma SameTable(s: State, s': State, t: nat)
    requires Calm(s) && t in s.clients && t in s'.clients && s'.clients == s.clients[t := s'.clients[t]]
    requires s'.world == s.world && !IsPanicking(s'.clients[t]) && PcHasEntry(s.world.table, s'.clients[t])
    requires KeyHandle(s'.clients[t]).Some? ==>
      KeyHandle(s'.clients[t]) == KeyHandle(s.clients[t])
      || forall u | u in s.clients :: !IsRemoving(s.clients[u], KeyHandle(s'.clients[t]).value)
    requires forall h: nat | IsRemoving(s'.clients[t], h) ::
      IsRemoving(s.clients[t], h) || forall u | u in s.clients :: KeyHandle(s.clients[u]) != Some(h)
    requires KeyHandle(s'.clients[t]).Some? ==> !IsRemoving(s'.clients[t], KeyHandle(s'.clients[t]).value)
    ensures Calm(s')
  {
    hide PcHasEntry, IsPanicking, KeyHandle, IsRemoving;
  }

  lemma NotBoth(pc: Pc)
    ensures KeyHandle(pc).Some? ==> !IsRemoving(pc, KeyHandle(pc).value)
  {
  }

  lemma CalmKept(s: State, e: Step)
    requires Calm(s) && Enabled(s, e) && IsDisciplined(s, e)
    ensures Calm(Do(s, e))
  {
    hide Body, MonitorBody, HasEntry, SectionHandle, LockOf;
    if Actor(e).Some? && Actor(e).value.Client? && !e.Run? {
      NotBoth(Do(s, e).clients[e.t]);
    }
    match e {
      case Run(t, o) => RunCalm(s, t, o);
      case MonRun(o) => MonitorCalm(s.world, s.clock, s.monitor.mat, o);
      case NotifyAll(t) =>
        AfterNotifyCalm(s.clients[t].next, s.world.daemon, s.world.table);
        SameTable(s, Do(s, e), t);
      case StartCreate(t) =>
        StartCalm(s.world.table, CreateCooldown(s.nextHandle));
        SameTable(s, Do(s, e), t);
      case StartDestroy(t, h) =>
        StartCalm(s.world.table, Remove(h));
        SameTable(s, Do(s, e), t);
      case StartKey(t, h) =>
        StartCalm(s.world.table, KeyCooldown(h, s.nextCall));
        SameTable(s, Do(s, e), t);
      case Acquire(t) => SameTable(s, Do(s, e), t);
      case Release(t) => SameTable(s, Do(s, e), t);
      case _ =>
    }
  }

  lemma {:induction false} DisciplinedRunsStayCalm(s: State, steps: seq<Step>)
    requires Calm(s) && !Stalled(s) && ParksAtOnce(s.monitor) && IsDisciplinedRun(s, steps)
    ensures IsRun(s, steps) && Calm(RunFrom(s, steps)) && !Stalled(RunFrom(s, steps))
    decreases |steps|
  {
    hide Do, Enabled, IsDisciplined, Stalled, ParksAtOnce;
    if steps != [] {
      CalmKept(s, steps[0]);
      StepStalls(s, steps[0]);
      ParksAtOnceKept(s, steps[0]);
      DisciplinedRunsStayCalm(Do(s, steps[0]), steps[1..]);
    }
  }

  /** Main result for disciplined callers: no thread ever panics, and the monitor is never left parked with a
      failure on record and nobody about to wake it. */
  lemma DisciplinedRunsNeverStall(s0: State, steps: seq<Step>)
    requires Initial(s0) && IsDisciplinedRun(s0, steps)
    ensures IsRun(s0, steps)
    ensures var s := RunFrom(s0, steps);
      (forall t | t in s.clients :: !IsPanicking(s.clients[t])) && !Stalled(s)
  {
    InitialIsAwake(s0);
    DisciplinedRunsStayCalm(s0, steps);
  }

  // ── Panics ──────────────────────────────────────────────────────────────────

  /** A thread stores a new session for a handle that was destroyed in the meantime. */
  predicate IsLostStore(s: State, e: Step) {
    e.Run? && e.t in s.clients && s.clients[e.t].At? && s.clients[e.t].at.Store?
    && s.clients[e.t].at.h !in s.world.table
  }

  /** The two ways for a thread to panic: its own lost store, and locking the poisoned session table. */
  predicate IsPanicOf(s: State, e: Step, t: nat) {
    || (IsLostStore(s, e) && e.t == t)
    || (e == Acquire(t) && t in s.clients && s.clients[t].Want? && LockOf(s.clients[t].want) == Sessions
        && s.world.poisoned)
  }

  /** Whether a run has a lost store, and whether it has a panic of one thread. */
  predicate HasLostStore(s: State, steps: seq<Step>)
    requires IsRun(s, steps)
    decreases |steps|
  {
    steps != [] && (IsLostStore(s, steps[0]) || HasLostStore(Do(s, steps[0]), steps[1..]))
  }

  predicate HasPanicOf(s: State, steps: seq<Step>, t: nat)
    requires IsRun(s, steps)
    decreases |steps|
  {
    steps != [] && (IsPanicOf(s, steps[0], t) || HasPanicOf(Do(s, steps[0]), steps[1..], t))
  }

  lemma BodyPanics(w: World, clock: nat, c: Section, o: Outcome)
    ensures var r := Body(w, clock, c, o);
      && (IsPanicking(r.pc) <==> c.Store? && c.h !in w.table)
      && (r.world.poisoned <==> w.poisoned || (c.Store? && c.h !in w.table))
  {
    hide Create, Sent, InCooldown;
    var r := Body(w, clock, c, o);
    SectionAfterBody(w, clock, c, o);
    assert IsPanicking(r.pc) == IsPanicking(r.pc.after);
  }

  /** One step: the session table is poisoned by a lost store only, and a thread panics in those two ways only. */
  lemma StepPanics(s: State, e: Step, t: nat)
    requires Enabled(s, e) && t in s.clients
    ensures var s' := Do(s, e);
      && s'.clients.Keys == s.clients.Keys
      && (s'.world.poisoned <==> s.world.poisoned || IsLostStore(s, e))
      && (IsPanicking(s'.clients[t]) <==> IsPanicking(s.clients[t]) || IsPanicOf(s, e, t))
  {
    hide Body, MonitorBody, LockOf;
    match e {
      case Run(u, o) => BodyPanics(s.world, s.clock, s.clients[u].at, o);
      case MonRun(o) => MonitorCalm(s.world, s.clock, s.monitor.mat, o);
      case NotifyAll(u) => AfterNotifyCalm(s.clients[u].next, s.world.daemon, s.world.table);
      case _ =>
    }
  }

  lemma {:induction false} RunPanics(s: State, steps: seq<Step>, t: nat)
    requires IsRun(s, steps) && t in s.clients
    ensures var s' := RunFrom(s, steps);
      && t in s'.clients
      && (s'.world.poisoned <==> s.world.poisoned || HasLostStore(s, steps))
      && (IsPanicking(s'.clients[t]) <==> IsPanicking(s.clients[t]) || HasPanicOf(s, steps, t))
      && (HasPanicOf(s, steps, t) ==> s.world.poisoned || HasLostStore(s, steps))
    decreases |steps|
  {
    hide Do, Enabled, IsPanicking;
    if steps != [] {
      StepPanics(s, steps[0], t);
      RunPanics(Do(s, steps[0]), steps[1..], t);
    }
  }

  /** Main result about panics, for every run from the start: the session table is poisoned exactly if some thread
      stored a session for a handle that had been destroyed; and a thread has panicked exactly if it did that
      itself or locked the session table after another thread had. */
  lemma PanicsExactly(s0: State, steps: seq<Step>, t: nat)
    requires Initial(s0) && IsRun(s0, steps) && t in s0.clients
    ensures var s := RunFrom(s0, steps);
      && t in s.clients
      && (s.world.poisoned <==> HasLostStore(s0, steps))
      && (IsPanicking(s.clients[t]) <==> HasPanicOf(s0, steps, t))
      && (HasPanicOf(s0, steps, t) ==> HasLostStore(s0, steps))
  {
    RunPanics(s0, steps, t);
  }

  /** A stall takes a poisoned session table. */
  lemma {:induction false} StallNeedsPoison(s: State, steps: seq<Step>, t: nat)
    requires IsRun(s, steps) && t in s.clients && HasStall(s, steps)
    ensures s.world.poisoned || HasLostStore(s, steps)
    decreases |steps|
  {
    hide Do, Enabled, IsPanicking, NeverRelieved;
    StepPanics(s, steps[0], t);
    if HasStall(Do(s, steps[0]), steps[1..]) {
      StallNeedsPoison(Do(s, steps[0]), steps[1..], t);
    }
  }

  /** Hence every stall begins with a handle that was destroyed while a session for it was being made. */
  lemma StallNeedsLostStore(s0: State, steps: seq<Step>)
    requires Initial(s0) && IsRun(s0, steps) && Stalled(RunFrom(s0, steps))
    ensures HasLostStore(s0, steps)
  {
    hide Stalled, HasStall;
    EveryRunIsSynchronised(s0, steps);
    var t := StallHasThread(s0, steps);
    StallNeedsPoison(s0, steps, t);
  }

  lemma {:induction false} StallHasThread(s: State, steps: seq<Step>) returns (t: nat)
    requires IsRun(s, steps) && HasStall(s, steps)
    ensures t in s.clients
    decreases |steps|
  {
    hide Do, Enabled, NeverRelieved;
    if LosesNotice(s, steps[0]) {
      t := steps[0].t;
    } else {
      t := StallHasThread(Do(s, steps[0]), steps[1..]);
      ThreadsStay(s, steps[0]);
    }
  }

  lemma ThreadsStay(s: State, e: Step)
    requires Enabled(s, e)
    ensures Do(s, e).clients.Keys == s.clients.Keys
  {
    hide Body, MonitorBody, LockOf;
  }
}
