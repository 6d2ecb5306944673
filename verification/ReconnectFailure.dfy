/** What a recorded failure leaves in the session table. */
module ReconnectFailure {
  import opened Text
  import opened ReconnectProtocol
  import opened ReconnectSafety
  import opened ReconnectDelivery
  import opened ReconnectRuns

  /** The entry that a section writes into the table. */
  function EntryOf(c: Section): Option<(nat, Sid)> {
    match c
    case Insert(h, sid) => Some((h, sid))
    case Store(h, _, sid) => Some((h, sid))
    case Restore(h, _, sid) => Some((h, sid))
    case _ => None
  }

  function Carried(pc: Pc): Option<(nat, Sid)> {
    match SectionOf(pc) case None => None case Some(c) => EntryOf(c)
  }

  /** Some thread is on its way to write this entry. */
  predicate IsUnderWay(s: State, h: nat, sid: Sid) {
    exists t | t in s.clients :: Carried(s.clients[t]) == Some((h, sid))
  }

  /** An entry that may stand in the table after the failure that was handled in `s`: no id, the id of a session
      made later, or an id that a thread was already on its way to write. */
  predicate IsRecent(s: State, h: nat, sid: Sid) {
    sid.id == 0 || sid.stamp >= s.world.daemon.made || IsUnderWay(s, h, sid)
  }

  predicate EntryRecent(s: State, e: Option<(nat, Sid)>) {
    e.Some? ==> IsRecent(s, e.value.0, e.value.1)
  }

  predicate TableRecent(s: State, table: map<nat, Sid>) {
    forall h | h in table :: IsRecent(s, h, table[h])
  }

  ghost predicate Recent(s: State, s': State) {
    && s'.world.daemon.made >= s.world.daemon.made && TableRecent(s, s'.world.table)
    && forall t | t in s'.clients :: EntryRecent(s, Carried(s'.clients[t]))
  }

  lemma CreateIsRecent(s: State, d: Daemon, engine: nat, o: Outcome)
    requires d.made >= s.world.daemon.made
    ensures var r := Create(d, engine, o); r.0.made >= d.made && (r.1.Some? ==> IsRecent(s, engine, r.1.value))
  {
  }

  lemma BodyIsRecent(s: State, w: World, clock: nat, c: Section, o: Outcome)
    requires w.daemon.made >= s.world.daemon.made && TableRecent(s, w.table) && EntryRecent(s, EntryOf(c))
    ensures var r := Body(w, clock, c, o);
      && r.world.daemon.made >= w.daemon.made && TableRecent(s, r.world.table) && EntryRecent(s, Carried(r.pc))
  {
    hide Create, Sent, InCooldown, IsUnderWay;
    SectionAfterBody(w, clock, c, o);
    match c {
      case NewSession(h) => CreateIsRecent(s, w.daemon, h, o);
      case Open(h, _) => CreateIsRecent(s, w.daemon, h, o);
      case Reopen(h, _) => CreateIsRecent(s, w.daemon, h, o);
      case _ =>
    }
  }

  lemma MonitorIsRecent(w: World, clock: nat, m: MonitorSection, o: Outcome)
    ensures var r := MonitorBody(w, clock, m, o); r.world.daemon.made >= w.daemon.made && r.world.table == w.table
  {
  }

  lemma AfterNotifyIsRecent(s: State, next: Then, d: Daemon)
    ensures EntryRecent(s, Carried(AfterNotify(next, d)))
  {
  }

  lemma RecentKept(s: State, s1: State, e: Step)
    requires Recent(s, s1) && Enabled(s1, e)
    ensures Recent(s, Do(s1, e))
  {
    hide Body, MonitorBody, LockOf, IsRecent, TableRecent;
    match e {
      case Run(t, o) => BodyIsRecent(s, s1.world, s1.clock, s1.clients[t].at, o);
      case MonRun(o) => MonitorIsRecent(s1.world, s1.clock, s1.monitor.mat, o);
      case NotifyAll(t) => AfterNotifyIsRecent(s, s1.clients[t].next, s1.world.daemon);
      case _ =>
    }
  }

  lemma {:induction false} RunsStayRecent(s: State, s1: State, steps: seq<Step>)
    requires Recent(s, s1) && IsRun(s1, steps)
    ensures Recent(s, RunFrom(s1, steps))
    decreases |steps|
  {
    hide Recent, Do, Enabled;
    if steps != [] {
      RecentKept(s, s1, steps[0]);
      RunsStayRecent(s, Do(s1, steps[0]), steps[1..]);
    }
  }

  /** A thread is about to forget the ids of all handles after a failure. */
  predicate Invalidates(s: State, t: nat) {
    t in s.clients && s.clients[t].At? && s.clients[t].at.Invalidate?
  }

  lemma ForgottenIsRecent(s: State, table: map<nat, Sid>)
    ensures TableRecent(s, Forgotten(table))
  {
    hide IsUnderWay;
  }

  lemma UnderWayIsRecent(s: State, t: nat)
    requires t in s.clients
    ensures EntryRecent(s, Carried(s.clients[t]))
  {
  }

  /** Main result about failures, for every interleaving after one was handled: an id in the table is of a session
      made afterwards, or some thread was already on its way to write it into that entry. */
  lemma AfterFailure(s: State, t: nat, o: Outcome, steps: seq<Step>, h: nat)
    requires Invalidates(s, t) && IsRun(Do(s, Run(t, o)), steps)
    ensures var table := RunFrom(Do(s, Run(t, o)), steps).world.table;
      h in table && table[h].id != 0 ==>
        table[h].stamp >= s.world.daemon.made || IsUnderWay(s, h, table[h])
  {
    var s1 := Do(s, Run(t, o));
    assert Recent(s, s1) by {
      hide IsRecent, Forgotten;
      ForgottenIsRecent(s, s.world.table);
      SectionAfterBody(s.world, s.clock, s.clients[t].at, o);
      forall u | u in s1.clients ensures EntryRecent(s, Carried(s1.clients[u])) {
        if u != t {
          UnderWayIsRecent(s, u);
        }
      }
    }
    RunsStayRecent(s, s1, steps);
  }

  // ── Handles and the table ───────────────────────────────────────────────────

  /** The handle that a `create_handle` call is still to put into the table. */
  function Creating(pc: Pc): Option<nat> {
    match pc
    case Notify(StillInsert(h)) => Some(h)
    case Drop(_, after) => Creating(after)
    case Want(c) => SectionCreates(c)
    case At(c) => SectionCreates(c)
    case _ => None
  }

  function SectionCreates(c: Section): Option<nat> {
    match c
    case CreateCooldown(h) => Some(h)
    case NewSession(h) => Some(h)
    case Insert(h, _) => Some(h)
    case Record(StillInsert(h)) => Some(h)
    case Invalidate(StillInsert(h)) => Some(h)
    case _ => None
  }

  /** The handle that a key call has found in the table. */
  function Using(pc: Pc): Option<nat> {
    match SectionOf(pc) case None => None case Some(c) => SectionUses(c)
  }

  function SectionUses(c: Section): Option<nat> {
    match c
    case Open(h, _) => Some(h)
    case Store(h, _, _) => Some(h)
    case Send(h, _, _, _) => Some(h)
    case Reread(h, _) => Some(h)
    case Reopen(h, _) => Some(h)
    case Restore(h, _, _) => Some(h)
    case _ => None
  }

  /** Handles are given out once: a handle that is being created is not in the table, no other thread creates it, and
      no key call has found it. No one holds the poisoned session table. */
  ghost predicate Handles(s: State) {
    && (forall h | h in s.world.table :: h < s.nextHandle)
    && (forall t | t in s.clients && Creating(s.clients[t]).Some? ::
          Creating(s.clients[t]).value < s.nextHandle && Creating(s.clients[t]).value !in s.world.table)
    && (forall t | t in s.clients && Using(s.clients[t]).Some? :: Using(s.clients[t]).value < s.nextHandle)
    && (forall t, u | t in s.clients && u in s.clients && t != u && Creating(s.clients[t]).Some? ::
          Creating(s.clients[t]) != Creating(s.clients[u]))
    && (forall t, u | t in s.clients && u in s.clients && Creating(s.clients[t]).Some? ::
          Creating(s.clients[t]) != Using(s.clients[u]))
  }

  /** What the body of a section does to the table and to the handles that its thread is about. */
  lemma BodyHandles(w: World, clock: nat, c: Section, o: Outcome)
    ensures var r := Body(w, clock, c, o);
      && (Creating(r.pc) == None || (Creating(r.pc) == SectionCreates(c) && r.world.table.Keys <= w.table.Keys))
      && (Using(r.pc) == None || Using(r.pc) == SectionUses(c)
          || (c.Ensure? && Using(r.pc) == Some(c.h) && c.h in w.table))
      && (forall h | h in r.world.table :: h in w.table || (c.Insert? && h == c.h))
      && (c.Insert? ==> Creating(r.pc) == None && Using(r.pc) == None)
  {
    hide Create, Sent, InCooldown;
    SectionAfterBody(w, clock, c, o);
    var r := Body(w, clock, c, o);
    assert Creating(r.pc) == Creating(r.pc.after);
  }

  lemma RunHandles(s: State, t: nat, o: Outcome)
    requires Handles(s) && Enabled(s, Run(t, o))
    ensures Handles(Do(s, Run(t, o)))
  {
    hide Body;
    BodyHandles(s.world, s.clock, s.clients[t].at, o);
  }

  lemma MonitorKeepsTable(w: World, clock: nat, m: MonitorSection, o: Outcome)
    ensures MonitorBody(w, clock, m, o).world.table == w.table && MonitorBody(w, clock, m, o).world.poisoned == w.poisoned
  {
  }

  /** A step of one thread that leaves the table alone and is about no other handle than before. */
  lemma MovedHandles(s: State, s': State, t: nat)
    requires Handles(s) && t in s.clients && t in s'.clients && s'.clients == s.clients[t := s'.clients[t]]
    requires s'.world.table == s.world.table && s'.nextHandle == s.nextHandle
    requires Creating(s'.clients[t]) == None || Creating(s'.clients[t]) == Creating(s.clients[t])
    requires Using(s'.clients[t]) == None || Using(s'.clients[t]) == Using(s.clients[t])
    ensures Handles(s')
  {
    hide Creating, Using;
  }

  lemma SameHandles(s: State, s': State)
    requires Handles(s) && s'.clients == s.clients && s'.world.table == s.world.table && s'.nextHandle == s.nextHandle
    ensures Handles(s')
  {
  }

  lemma StartHandles(s: State, t: nat)
    requires Handles(s) && Enabled(s, StartCreate(t))
    ensures Handles(Do(s, StartCreate(t)))
  {
    var pc := Want(CreateCooldown(s.nextHandle));
    assert Creating(pc) == Some(s.nextHandle) && Using(pc) == None;
    hide Creating, Using;
  }

  lemma HandlesKept(s: State, e: Step)
    requires Handles(s) && Enabled(s, e)
    ensures Handles(Do(s, e))
  {
    hide Body, MonitorBody, LockOf, Handles;
    match e {
      case Run(t, o) => RunHandles(s, t, o);
      case MonRun(o) =>
        MonitorKeepsTable(s.world, s.clock, s.monitor.mat, o);
        SameHandles(s, Do(s, e));
      case StartCreate(t) => StartHandles(s, t);
      case Acquire(t) => MovedHandles(s, Do(s, e), t);
      case Release(t) => MovedHandles(s, Do(s, e), t);
      case NotifyAll(t) => MovedHandles(s, Do(s, e), t);
      case StartDestroy(t, _) => MovedHandles(s, Do(s, e), t);
      case StartKey(t, _) => MovedHandles(s, Do(s, e), t);
      case _ => SameHandles(s, Do(s, e));
    }
  }

  /** No one is inside a section of the session table once it is poisoned. */
  ghost predicate Unpoisoned(s: State) {
    forall t | t in s.clients && s.clients[t].At? && LockOf(s.clients[t].at) == Sessions :: !s.world.poisoned
  }

  lemma OnlyOneAt(s: State, t: nat, u: nat)
    requires Locks(s) && t in s.clients && u in s.clients && s.clients[t].At? && s.clients[u].At? && t != u
    ensures LockOf(s.clients[t].at) != LockOf(s.clients[u].at)
  {
    assert LockOf(s.clients[t].at) in Guards(s, Client(t)) && LockOf(s.clients[u].at) in Guards(s, Client(u));
  }

  lemma UnpoisonedKept(s: State, e: Step)
    requires Locks(s) && Unpoisoned(s) && Enabled(s, e)
    ensures Unpoisoned(Do(s, e))
  {
    hide Body, MonitorBody, Locks, LockOf;
    match e {
      case Run(t, o) =>
        BodyPanics(s.world, s.clock, s.clients[t].at, o);
        BodyDrops(s.world, s.clock, s.clients[t].at, o);
        assert s.clients[t].at.Store? ==> LockOf(s.clients[t].at) == Sessions by { StoreLock(s.clients[t].at); }
        forall u | u in s.clients && u != t && s.clients[u].At?
          ensures LockOf(s.clients[t].at) != LockOf(s.clients[u].at)
        {
          OnlyOneAt(s, t, u);
        }
      case MonRun(o) => MonitorKeepsTable(s.world, s.clock, s.monitor.mat, o);
      case Release(t) => DropsLast(s, t);
      case _ =>
    }
  }

  lemma DropsLast(s: State, t: nat)
    requires Locks(s) && t in s.clients && s.clients[t].Drop?
    ensures !s.clients[t].after.At? && !s.clients[t].after.Drop?
  {
    assert HeldAt(s.clients[t].after) == {};
    InsideHolds(s.clients[t].after);
  }

  lemma InsideHolds(pc: Pc)
    ensures pc.At? || pc.Drop? ==> HeldAt(pc) != {}
  {
    hide LockOf;
    if pc.Drop? {
      assert pc.lock in HeldAt(pc);
    } else if pc.At? {
      assert LockOf(pc.at) in HeldAt(pc);
    }
  }

  lemma StoreLock(c: Section)
    ensures c.Store? || c.Insert? || c.Restore? || c.Invalidate? ==> LockOf(c) == Sessions
  {
  }

  /** What holds of handles and the table in every reachable state. */
  ghost predicate Tidy(s: State) {
    Locks(s) && Handles(s) && Unpoisoned(s)
  }

  lemma {:induction false} RunsStayTidy(s: State, steps: seq<Step>)
    requires Tidy(s) && IsRun(s, steps)
    ensures Tidy(RunFrom(s, steps))
    decreases |steps|
  {
    hide Locks, Handles, Unpoisoned, Do, Enabled;
    if steps != [] {
      LocksKept(s, steps[0]);
      HandlesKept(s, steps[0]);
      UnpoisonedKept(s, steps[0]);
      RunsStayTidy(Do(s, steps[0]), steps[1..]);
    }
  }

  lemma InitialIsTidy(s: State)
    requires Initial(s)
    ensures Tidy(s)
  {
  }

  // ── Exactly the ids that can stand ──────────────────────────────────────────

  /** A handle that was destroyed: nothing puts it into the table again. */
  ghost predicate Gone(s: State, h: nat) {
    h !in s.world.table && h < s.nextHandle && forall t | t in s.clients :: Creating(s.clients[t]) != Some(h)
  }

  lemma GoneKept(s: State, e: Step, h: nat)
    requires Gone(s, h) && Enabled(s, e)
    ensures Gone(Do(s, e), h)
  {
    hide Body, MonitorBody, LockOf;
    match e {
      case Run(t, o) => BodyHandles(s.world, s.clock, s.clients[t].at, o);
      case MonRun(o) => MonitorKeepsTable(s.world, s.clock, s.monitor.mat, o);
      case _ =>
    }
  }

  lemma {:induction false} RunsStayGone(s: State, steps: seq<Step>, h: nat)
    requires Gone(s, h) && IsRun(s, steps)
    ensures Gone(RunFrom(s, steps), h)
    decreases |steps|
  {
    hide Gone, Do, Enabled;
    if steps != [] {
      GoneKept(s, steps[0], h);
      RunsStayGone(Do(s, steps[0]), steps[1..], h);
    }
  }

  /** Some run makes this the entry of the handle. */
  ghost predicate CanStand(s: State, h: nat, sid: Sid) {
    exists steps :: IsRun(s, steps) && Stands(RunFrom(s, steps), h, sid)
  }

  predicate Stands(s: State, h: nat, sid: Sid) {
    h in s.world.table && s.world.table[h] == sid
  }

  /** A thread is on its way to write this entry, and the handle is in the table or the same thread puts it there. */
  ghost predicate WillBeWritten(s: State, h: nat, sid: Sid) {
    exists u | u in s.clients ::
      Carried(s.clients[u]) == Some((h, sid)) && (h in s.world.table || Creating(s.clients[u]) == Some(h))
  }

  lemma OnlyIfWritten(s: State, t: nat, o: Outcome, h: nat, sid: Sid)
    requires Tidy(s) && Invalidates(s, t) && sid.id != 0 && sid.stamp < s.world.daemon.made
    requires CanStand(Do(s, Run(t, o)), h, sid)
    ensures WillBeWritten(s, h, sid)
  {
    var s1 := Do(s, Run(t, o));
    hide Do, Locks, Unpoisoned, RunFrom, IsRun;
    var steps :| IsRun(s1, steps) && Stands(RunFrom(s1, steps), h, sid);
    AfterFailure(s, t, o, steps, h);
    var u :| u in s.clients && Carried(s.clients[u]) == Some((h, sid));
    if h !in s.world.table && Creating(s.clients[u]) != Some(h) {
      CarriedIsUsing(s.clients[u], h, sid);
      assert Gone(s, h);
      GoneKept(s, Run(t, o), h);
      RunsStayGone(s1, steps, h);
    }
  }

  /** An entry is carried by the thread that creates its handle, or by a key call that has found it. */
  lemma CarriedIsUsing(pc: Pc, h: nat, sid: Sid)
    requires Carried(pc) == Some((h, sid))
    ensures Creating(pc) == Some(h) || Using(pc) == Some(h)
  {
    if pc.Drop? {
      CarriedIsUsing(pc.after, h, sid);
    }
  }

  /** Once the thread that handled the failure has dropped its guard, the session table is free. */
  lemma AfterInvalidate(s: State, t: nat, o: Outcome, u: nat)
    requires Tidy(s) && Invalidates(s, t) && u in s.clients && u != t
    ensures var s1 := Do(s, Run(t, o));
      && Enabled(s1, Release(t))
      && var s2 := Do(s1, Release(t));
         && Locks(s2) && IsFree(s2, Sessions) && u in s2.clients && s2.clients[u] == s.clients[u]
         && s2.world == s.world.(table := Forgotten(s.world.table)) && !s.world.poisoned
  {
    hide Handles, Forgotten, Locks;
    var s1 := Do(s, Run(t, o));
    LocksKept(s, Run(t, o));
    LocksKept(s1, Release(t));
    assert IsFree(Do(s1, Release(t)), Sessions) by { ReleaseFrees(s1, t); OneStep(s1, Release(t)); }
  }

  /** A thread that is dropping another guard drops it first. */
  lemma DropsFirst(s: State, u: nat)
    requires Locks(s) && IsFree(s, Sessions) && u in s.clients && s.clients[u].Drop?
    ensures var s' := Do(s, Release(u));
      && IsFree(s', Sessions) && s'.world == s.world && u in s'.clients && s'.clients[u] == s.clients[u].after
      && !s'.clients[u].At? && !s'.clients[u].Drop?
  {
    DropsLast(s, u);
  }

  lemma WritesEntry(s: State, u: nat, h: nat, sid: Sid)
    requires u in s.clients && s.clients[u].Want? && Carried(s.clients[u]) == Some((h, sid))
    requires IsFree(s, Sessions) && !s.world.poisoned && (h in s.world.table || Creating(s.clients[u]) == Some(h))
    ensures Enabled(s, Acquire(u)) && Enabled(Do(s, Acquire(u)), Run(u, Delivered))
    ensures Stands(Do(Do(s, Acquire(u)), Run(u, Delivered)), h, sid)
  {
    hide IsFree, Locked;
    StoreLock(s.clients[u].want);
    LockedKeepsRest(s, Client(u), Sessions);
  }

  /** From there on the thread needs its other guard dropped, the mutex, and one run of its section. */
  lemma IsWritten(s: State, t: nat, o: Outcome, h: nat, sid: Sid)
    requires Tidy(s) && Invalidates(s, t) && WillBeWritten(s, h, sid)
    ensures CanStand(Do(s, Run(t, o)), h, sid)
  {
    hide Locks, Handles, Do, Enabled, IsFree, IsRun, RunFrom;
    var u :| u in s.clients
      && Carried(s.clients[u]) == Some((h, sid)) && (h in s.world.table || Creating(s.clients[u]) == Some(h));
    CanRun(s, t, o);
    var s1 := Do(s, Run(t, o));
    NotAtOnce(s, t, u);
    AfterInvalidate(s, t, o, u);
    CarriedWaits(s.clients[u]);
    NoSteps(s1);
    var steps := ThenStep(s1, [], Release(t));
    var s2 := RunFrom(s1, steps);
    if s2.clients[u].Drop? {
      DropsFirst(s2, u);
      CanRelease(s2, u);
      steps := ThenStep(s1, steps, Release(u));
    }
    WritesEntry(RunFrom(s1, steps), u, h, sid);
    steps := ThenStep(s1, steps, Acquire(u));
    steps := ThenStep(s1, steps, Run(u, Delivered));
    assert IsRun(s1, steps) && Stands(RunFrom(s1, steps), h, sid);
  }

  lemma CarriedWaits(pc: Pc)
    ensures Carried(pc).Some? ==> pc.Want? || pc.At? || pc.Drop?
    ensures pc.Drop? ==> Carried(pc) == Carried(pc.after) && Creating(pc) == Creating(pc.after)
    ensures pc.Drop? && Carried(pc).Some? ==> pc.after.Want? || pc.after.At? || pc.after.Drop?
  {
  }

  lemma NoSteps(s: State)
    ensures IsRun(s, []) && RunFrom(s, []) == s
  {
  }

  lemma CanRelease(s: State, t: nat)
    requires t in s.clients && s.clients[t].Drop?
    ensures Enabled(s, Release(t))
  {
  }

  /** The session table is held, so no other thread is inside a section that writes an entry. */
  lemma NotAtOnce(s: State, t: nat, u: nat)
    requires Locks(s) && Invalidates(s, t) && u in s.clients && Carried(s.clients[u]).Some?
    ensures t != u && !s.clients[u].At?
  {
    hide Locks;
    if t != u && s.clients[u].At? {
      OnlyOneAt(s, t, u);
      StoreLock(s.clients[t].at);
      StoreLock(s.clients[u].at);
    }
  }

  /** Main result about failures, for every reachable state in which a thread forgets the ids: an older id can stand
      in the table at some later time exactly if some thread is already on its way to write it, into a handle that is
      in the table or that the same thread is still to create. */
  lemma OldIdsExactly(s0: State, before: seq<Step>, t: nat, o: Outcome, h: nat, sid: Sid)
    requires Initial(s0) && IsRun(s0, before) && Invalidates(RunFrom(s0, before), t)
    requires sid.id != 0 && sid.stamp < RunFrom(s0, before).world.daemon.made
    ensures var s := RunFrom(s0, before); CanStand(Do(s, Run(t, o)), h, sid) <==> WillBeWritten(s, h, sid)
  {
    hide Tidy, CanStand, WillBeWritten, Invalidates, Do, IsRun, RunFrom;
    var s := RunFrom(s0, before);
    InitialIsTidy(s0);
    RunsStayTidy(s0, before);
    CanRun(s, t, o);
    if CanStand(Do(s, Run(t, o)), h, sid) {
      OnlyIfWritten(s, t, o, h, sid);
    }
    if WillBeWritten(s, h, sid) {
      IsWritten(s, t, o, h, sid);
    }
  }

  lemma CanRun(s: State, t: nat, o: Outcome)
    requires Invalidates(s, t)
    ensures Enabled(s, Run(t, o))
  {
  }
}
