/** What holds in every interleaving of the reconnecting client. */
module ReconnectSafety {
  import opened Text
  import opened ReconnectProtocol

  // ── Guards ──────────────────────────────────────────────────────────────────

  /** The guards that a control point says a thread holds. */
  function HeldAt(pc: Pc): set<Lock> {
    match pc
    case At(c) => {LockOf(c)}
    case Drop(l, after) => {l} + HeldAt(after)
    case _ => {}
  }

  function MonitorHeldAt(pc: MonitorPc): set<Lock> {
    match pc
    case MonAt(m) => {MonitorLock(m)}
    case MonDrop(l, after) => {l} + MonitorHeldAt(after)
    case _ => {}
  }

  /** No guard is left once a thread has dropped the one it is dropping. */
  predicate IsTidy(pc: Pc) {
    pc.Drop? ==> HeldAt(pc.after) == {}
  }

  predicate IsMonitorTidy(pc: MonitorPc) {
    pc.MonDrop? ==> MonitorHeldAt(pc.mafter) == {}
  }

  /** Every thread holds exactly the guards of its control point, and no two threads a guard of one mutex. */
  ghost predicate Locks(s: State) {
    && (forall t | t in s.clients :: Guards(s, Client(t)) == HeldAt(s.clients[t]) && IsTidy(s.clients[t]))
    && Guards(s, Monitor) == MonitorHeldAt(s.monitor) && IsMonitorTidy(s.monitor)
    && (forall t: nat | t !in s.clients :: Guards(s, Client(t)) == {})
    && (forall a, b | a in s.held && b in s.held && a != b :: s.held[a] !! s.held[b])
  }

  /** Every body ends where the guard of its section goes out of scope, with no other guard left. */
  lemma BodyDrops(w: World, clock: nat, c: Section, o: Outcome)
    ensures var pc := Body(w, clock, c, o).pc;
      pc.Drop? && pc.lock == LockOf(c) && HeldAt(pc.after) == {} && HeldAt(pc) == {LockOf(c)}
  {
    var pc := Body(w, clock, c, o).pc;
    assert HeldAt(pc.after) == {};
  }

  lemma MonitorDrops(w: World, clock: nat, m: MonitorSection, o: Outcome)
    ensures var pc := MonitorBody(w, clock, m, o).pc;
      pc.MonDrop? && pc.mlock == MonitorLock(m) && MonitorHeldAt(pc.mafter) == {} && MonitorHeldAt(pc) == {MonitorLock(m)}
  {
    var pc := MonitorBody(w, clock, m, o).pc;
    assert MonitorHeldAt(pc.mafter) == {};
  }

  /** A thread that had no guard locks a free mutex. */
  lemma LockedKeeps(s: State, th: Thread, l: Lock)
    requires (forall a, b | a in s.held && b in s.held && a != b :: s.held[a] !! s.held[b])
    requires IsFree(s, l)
    ensures var s' := Locked(s, th, l);
      && (forall a, b | a in s'.held && b in s'.held && a != b :: s'.held[a] !! s'.held[b])
      && Guards(s', th) == Guards(s, th) + {l} && forall u | u != th :: Guards(s', u) == Guards(s, u)
  {
  }

  lemma UnlockedKeeps(s: State, th: Thread, l: Lock)
    requires (forall a, b | a in s.held && b in s.held && a != b :: s.held[a] !! s.held[b])
    ensures var s' := Unlocked(s, th, l);
      && (forall a, b | a in s'.held && b in s'.held && a != b :: s'.held[a] !! s'.held[b])
      && Guards(s', th) == Guards(s, th) - {l} && forall u | u != th :: Guards(s', u) == Guards(s, u)
  {
  }

  lemma LockedKeepsRest(s: State, th: Thread, l: Lock)
    ensures var s' := Locked(s, th, l); s' == s.(held := s'.held)
  {
  }

  lemma UnlockedKeepsRest(s: State, th: Thread, l: Lock)
    ensures var s' := Unlocked(s, th, l); s' == s.(held := s'.held)
  {
  }

  lemma AcquireKeepsLocks(s: State, t: nat)
    requires Locks(s) && Enabled(s, Acquire(t))
    ensures Locks(Do(s, Acquire(t)))
  {
    hide Body, MonitorBody, LockOf, MonitorLock, Locked, Unlocked, Guards, IsFree;
    var l := LockOf(s.clients[t].want);
    if l == Sessions && s.world.poisoned {
      GuardsOnly(s, Do(s, Acquire(t)));
    } else {
      LockedKeeps(s, Client(t), l);
      LockedKeepsRest(s, Client(t), l);
      GuardsOnly(Locked(s, Client(t), l), Do(s, Acquire(t)));
    }
  }

  lemma ReleaseKeepsLocks(s: State, t: nat)
    requires Locks(s) && Enabled(s, Release(t))
    ensures Locks(Do(s, Release(t)))
  {
    hide Body, MonitorBody, LockOf, MonitorLock, Locked, Unlocked, Guards, IsFree;
    UnlockedKeeps(s, Client(t), s.clients[t].lock);
    UnlockedKeepsRest(s, Client(t), s.clients[t].lock);
    GuardsOnly(Unlocked(s, Client(t), s.clients[t].lock), Do(s, Release(t)));
  }

  lemma RunKeepsLocks(s: State, t: nat, o: Outcome)
    requires Locks(s) && Enabled(s, Run(t, o))
    ensures Locks(Do(s, Run(t, o)))
  {
    hide Body, MonitorBody, LockOf, MonitorLock, Locked, Unlocked, Guards, IsFree;
    BodyDrops(s.world, s.clock, s.clients[t].at, o);
    GuardsOnly(s, Do(s, Run(t, o)));
  }

  lemma MonitorStepKeepsLocks(s: State, e: Step)
    requires Locks(s) && Enabled(s, e) && (e.MonAcquire? || e.MonRelease?)
    ensures Locks(Do(s, e))
  {
    hide Body, MonitorBody, LockOf, MonitorLock, Locked, Unlocked, Guards, IsFree;
    if e.MonAcquire? {
      LockedKeeps(s, Monitor, MonitorLock(s.monitor.mwant));
      LockedKeepsRest(s, Monitor, MonitorLock(s.monitor.mwant));
      GuardsOnly(Locked(s, Monitor, MonitorLock(s.monitor.mwant)), Do(s, e));
    } else {
      UnlockedKeeps(s, Monitor, s.monitor.mlock);
      UnlockedKeepsRest(s, Monitor, s.monitor.mlock);
      GuardsOnly(Unlocked(s, Monitor, s.monitor.mlock), Do(s, e));
    }
  }

  lemma LocksKept(s: State, e: Step)
    requires Locks(s) && Enabled(s, e)
    ensures Locks(Do(s, e))
  {
    hide Body, MonitorBody, LockOf, MonitorLock, Locked, Unlocked, Guards, IsFree;
    match e {
      case Acquire(t) => AcquireKeepsLocks(s, t);
      case Run(t, o) => RunKeepsLocks(s, t, o);
      case Release(t) => ReleaseKeepsLocks(s, t);
      case MonRun(o) => MonitorRunKeepsLocks(s, o);
      case MonAcquire => MonitorStepKeepsLocks(s, e);
      case MonRelease => MonitorStepKeepsLocks(s, e);
      case _ => GuardsOnly(s, Do(s, e));
    }
  }

  lemma MonitorRunKeepsLocks(s: State, o: Outcome)
    requires Locks(s) && Enabled(s, MonRun(o))
    ensures Locks(Do(s, MonRun(o)))
  {
    hide MonitorBody, LockOf, MonitorLock, Unlocked, Guards;
    var pc := MonitorBody(s.world, s.clock, s.monitor.mat, o).pc;
    var s1 := s.(world := MonitorBody(s.world, s.clock, s.monitor.mat, o).world);
    MonitorDrops(s.world, s.clock, s.monitor.mat, o);
    GuardsOnly(s, s1);
    if pc.mafter.Parked? {
      UnlockedKeeps(s1, Monitor, pc.mlock);
      UnlockedKeepsRest(s1, Monitor, pc.mlock);
      GuardsOnly(Unlocked(s1, Monitor, pc.mlock), Unlocked(s1, Monitor, pc.mlock).(monitor := Parked));
    } else {
      GuardsOnly(s1, s1.(monitor := pc));
    }
  }

  /** Which guards are held does not depend on anything else in the state. */
  lemma GuardsOnly(s: State, s': State)
    requires s'.held == s.held
    ensures forall th :: Guards(s', th) == Guards(s, th)
  {
  }

  /** No thread holds two guards, and no two threads hold a guard of the same mutex. */
  lemma OneGuardEach(s: State, th: Thread)
    requires Locks(s)
    ensures |Guards(s, th)| <= 1
    ensures forall u, l | l in Guards(s, th) && l in Guards(s, u) :: u == th
  {
    match th {
      case Client(t) =>
        if t in s.clients {
          HeldIsSmall(s.clients[t]);
        }
      case Monitor => MonitorHeldIsSmall(s.monitor);
    }
  }

  lemma HeldIsSmall(pc: Pc)
    requires IsTidy(pc)
    ensures |HeldAt(pc)| <= 1
  {
    assert pc.Drop? ==> HeldAt(pc) == {pc.lock};
  }

  lemma MonitorHeldIsSmall(pc: MonitorPc)
    requires IsMonitorTidy(pc)
    ensures |MonitorHeldAt(pc)| <= 1
  {
    assert pc.MonDrop? ==> MonitorHeldAt(pc) == {pc.mlock};
  }

  /** The thread that takes a step. */
  function Actor(e: Step): Option<Thread> {
    match e
    case StartCreate(t) => Some(Client(t))
    case StartDestroy(t, _) => Some(Client(t))
    case StartKey(t, _) => Some(Client(t))
    case Acquire(t) => Some(Client(t))
    case Run(t, _) => Some(Client(t))
    case Release(t) => Some(Client(t))
    case NotifyAll(t) => Some(Client(t))
    case MonAcquire => Some(Monitor)
    case MonRun(_) => Some(Monitor)
    case MonRelease => Some(Monitor)
    case MonAwake => Some(Monitor)
    case _ => None
  }

  /** Shared data is touched only under its mutex: the session table, the failure record and the connection. */
  lemma DataIsGuarded(s: State, e: Step)
    requires Locks(s) && Enabled(s, e) && e != Restart
    ensures var w, w' := s.world, Do(s, e).world;
      && (w'.table != w.table ==> Actor(e).Some? && Sessions in Guards(s, Actor(e).value))
      && (w'.last != w.last || w'.count != w.count ==> Actor(e).Some? && Failure in Guards(s, Actor(e).value))
      && (w'.daemon != w.daemon ==> Actor(e).Some? && Proxy in Guards(s, Actor(e).value))
  {
    match e {
      case Run(t, o) => BodyTouches(s.world, s.clock, s.clients[t].at, o);
      case MonRun(o) => MonitorTouches(s.world, s.clock, s.monitor.mat, o);
      case _ =>
    }
  }

  lemma BodyTouches(w: World, clock: nat, c: Section, o: Outcome)
    ensures var w' := Body(w, clock, c, o).world;
      && (w'.table != w.table ==> LockOf(c) == Sessions)
      && (w'.last != w.last || w'.count != w.count ==> LockOf(c) == Failure)
      && (w'.daemon != w.daemon ==> LockOf(c) == Proxy)
  {
    hide Create, Sent, InCooldown, Forgotten;
  }

  lemma MonitorTouches(w: World, clock: nat, m: MonitorSection, o: Outcome)
    ensures var w' := MonitorBody(w, clock, m, o).world;
      && w'.table == w.table
      && (w'.last != w.last || w'.count != w.count ==> MonitorLock(m) == Failure)
      && (w'.daemon != w.daemon ==> MonitorLock(m) == Proxy)
  {
    hide Create;
  }

  /** The steps in which a thread leaves its section by itself. */
  function Leaving(s: State, th: Thread, o: Outcome): seq<Step> {
    match th
    case Client(t) => if t in s.clients && s.clients[t].At? then [Run(t, o), Release(t)] else [Release(t)]
    case Monitor =>
      if !s.monitor.MonAt? then [MonRelease]
      else if MonitorBody(s.world, s.clock, s.monitor.mat, o).pc.mafter.Parked? then [MonRun(o)]
      else [MonRun(o), MonRelease]
  }

  /** No deadlock: a thread that holds a guard never waits for another mutex. It leaves its section in at most two
      steps of its own, whatever becomes of its D-Bus call, and then the mutex is free. */
  lemma HoldersAreNeverStuck(s: State, th: Thread, l: Lock, o: Outcome)
    requires Locks(s) && l in Guards(s, th)
    ensures IsRun(s, Leaving(s, th, o)) && IsFree(RunFrom(s, Leaving(s, th, o)), l)
  {
    var steps := Leaving(s, th, o);
    match th {
      case Client(t) =>
        if s.clients[t].At? {
          var s1 := Do(s, Run(t, o));
          LocksKept(s, Run(t, o));
          BodyDrops(s.world, s.clock, s.clients[t].at, o);
          ReleaseFrees(s1, t);
          assert steps[1..] == [Release(t)];
        } else {
          ReleaseFrees(s, t);
        }
      case Monitor =>
        if s.monitor.MonAt? {
          MonitorRunFrees(s, o);
        } else {
          MonitorReleaseFrees(s);
        }
    }
  }

  lemma ReleaseFrees(s: State, t: nat)
    requires Locks(s) && t in s.clients && s.clients[t].Drop?
    ensures IsRun(s, [Release(t)]) && IsFree(RunFrom(s, [Release(t)]), s.clients[t].lock)
    ensures HeldAt(s.clients[t]) == {s.clients[t].lock}
  {
    OneStep(s, Release(t));
    assert s.clients[t].lock in Guards(s, Client(t));
  }

  lemma MonitorReleaseFrees(s: State)
    requires Locks(s) && s.monitor.MonDrop?
    ensures IsRun(s, [MonRelease]) && IsFree(RunFrom(s, [MonRelease]), s.monitor.mlock)
    ensures MonitorHeldAt(s.monitor) == {s.monitor.mlock}
  {
    OneStep(s, MonRelease);
    assert s.monitor.mlock in Guards(s, Monitor);
  }

  lemma MonitorRunFrees(s: State, o: Outcome)
    requires Locks(s) && s.monitor.MonAt?
    ensures IsRun(s, Leaving(s, Monitor, o))
    ensures IsFree(RunFrom(s, Leaving(s, Monitor, o)), MonitorLock(s.monitor.mat))
  {
    hide MonitorBody, MonitorLock;
    MonitorDrops(s.world, s.clock, s.monitor.mat, o);
    LocksKept(s, MonRun(o));
    OneStep(s, MonRun(o));
    assert MonitorLock(s.monitor.mat) in Guards(s, Monitor);
    var s1 := Do(s, MonRun(o));
    if s1.monitor.MonDrop? {
      MonitorReleaseFrees(s1);
      assert [MonRun(o), MonRelease][1..] == [MonRelease];
    }
  }

  lemma OneStep(s: State, e: Step)
    requires Enabled(s, e)
    ensures IsRun(s, [e]) && RunFrom(s, [e]) == Do(s, e)
  {
    hide Do, Enabled;
    assert [e][1..] == [] && RunFrom(Do(s, e), []) == Do(s, e);
  }

  // ── Building runs ───────────────────────────────────────────────────────────

  lemma {:induction false} RunSplit(s: State, a: seq<Step>, b: seq<Step>)
    requires IsRun(s, a) && IsRun(RunFrom(s, a), b)
    ensures IsRun(s, a + b) && RunFrom(s, a + b) == RunFrom(RunFrom(s, a), b)
    decreases |a|
  {
    hide Do, Enabled;
    if a == [] {
      assert a + b == b;
    } else {
      assert (a + b)[1..] == a[1..] + b;
      RunSplit(Do(s, a[0]), a[1..], b);
    }
  }

  lemma ThenStep(s: State, before: seq<Step>, e: Step) returns (steps: seq<Step>)
    requires IsRun(s, before) && Enabled(RunFrom(s, before), e)
    ensures steps == before + [e] && IsRun(s, steps) && RunFrom(s, steps) == Do(RunFrom(s, before), e)
  {
    hide Do, Enabled;
    OneStep(RunFrom(s, before), e);
    RunSplit(s, before, [e]);
    steps := before + [e];
  }
}
