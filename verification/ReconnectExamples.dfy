/** Runs of the reconnecting client that reach what the theorems about all runs leave possible. */
module ReconnectExamples {
  import opened ReconnectProtocol
  import opened ReconnectSafety
  import opened ReconnectWakeUp
  import opened ReconnectFailure

  // ── Building runs ───────────────────────────────────────────────────────────

  lemma {:induction false} RunUnsplit(s: State, a: seq<Step>, b: seq<Step>)
    requires IsRun(s, a + b) && IsRun(s, a)
    ensures IsRun(RunFrom(s, a), b) && RunFrom(s, a + b) == RunFrom(RunFrom(s, a), b)
    decreases |a|
  {
    hide Do, Enabled;
    if a == [] {
      assert a + b == b;
    } else {
      assert (a + b)[1..] == a[1..] + b;
      RunUnsplit(Do(s, a[0]), a[1..], b);
    }
  }

  /** No thread holds a guard: what is left of the state can be compared. */
  predicate NoGuards(s: State) {
    forall th | th in s.held :: s.held[th] == {}
  }

  predicate AreAlike(a: State, b: State) {
    NoGuards(a) && a == b.(held := a.held)
  }

  /** The state after a section that nobody disturbs, up to guards. */
  function Through(s: State, t: nat, c: Section, o: Outcome): State {
    var r := Body(s.world, s.clock, c, o);
    s.(clients := s.clients[t := if r.pc.Drop? then r.pc.after else r.pc], world := r.world)
  }

  /** One section: the mutex is locked, the body runs, the guard is dropped. */
  lemma ThenSection(s: State, before: seq<Step>, t: nat, c: Section, o: Outcome) returns (steps: seq<Step>)
    requires IsRun(s, before)
    requires var s1 := RunFrom(s, before);
      && NoGuards(s1) && t in s1.clients && s1.clients[t] == Want(c)
      && (s1.world.poisoned ==> LockOf(c) != Sessions)
    ensures steps == before + [Acquire(t), Run(t, o), Release(t)] && IsRun(s, steps)
    ensures AreAlike(RunFrom(s, steps), Through(RunFrom(s, before), t, c, o))
  {
    hide Body, LockOf, IsRun, RunFrom;
    var s1 := RunFrom(s, before);
    var a := ThenStep(s, before, Acquire(t));
    var s2 := RunFrom(s, a);
    assert s2.clients[t] == At(c) && s2.world == s1.world;
    var b := ThenStep(s, a, Run(t, o));
    BodyDrops(s1.world, s1.clock, c, o);
    var s3 := RunFrom(s, b);
    assert s3.held == s2.held && s3.clients[t].Drop?;
    steps := ThenStep(s, b, Release(t));
    var s4 := RunFrom(s, steps);
    assert s4.clients == Through(s1, t, c, o).clients;
    assert NoGuards(s4);
  }

  /** A state in which thread `t` is at `pc`, nobody holds a guard and no failure is on record. */
  predicate IsQuiet(s: State, t: nat, pc: Pc) {
    t in s.clients && s.clients[t] == pc && NoGuards(s) && !s.world.poisoned && s.world.last.None?
  }

  // ── Calls that go through ───────────────────────────────────────────────────

  function FirstSid(d: Daemon): Sid {
    Sid(d.nextId, d.lifetime, d.made)
  }

  /** Creating a handle up to the point where its id is still to be written into the table. */
  lemma OpensSession(s: State, before: seq<Step>, t: nat) returns (steps: seq<Step>)
    requires IsRun(s, before) && IsQuiet(RunFrom(s, before), t, Idle)
    ensures IsRun(s, steps)
    ensures var s1 := RunFrom(s, before);
      AreAlike(RunFrom(s, steps),
               s1.(clients := s1.clients[t := Want(Insert(s1.nextHandle, FirstSid(s1.world.daemon)))],
                   nextHandle := s1.nextHandle + 1,
                   world := s1.world.(daemon := Opened(s1.world.daemon, s1.nextHandle))))
  {
    hide IsRun, RunFrom;
    var h := RunFrom(s, before).nextHandle;
    steps := ThenStep(s, before, StartCreate(t));
    steps := ThenSection(s, steps, t, CreateCooldown(h), Delivered);
    steps := ThenSection(s, steps, t, NewSession(h), Delivered);
  }

  /** Creating a handle: a new session for a new handle. */
  lemma CreatesSession(s: State, before: seq<Step>, t: nat) returns (steps: seq<Step>)
    requires IsRun(s, before) && IsQuiet(RunFrom(s, before), t, Idle)
    ensures IsRun(s, steps)
    ensures var s1 := RunFrom(s, before);
      AreAlike(RunFrom(s, steps),
               s1.(nextHandle := s1.nextHandle + 1,
                   world := s1.world.(table := s1.world.table[s1.nextHandle := FirstSid(s1.world.daemon)],
                                      daemon := Opened(s1.world.daemon, s1.nextHandle))))
  {
    hide IsRun, RunFrom;
    var s1 := RunFrom(s, before);
    steps := OpensSession(s, before, t);
    steps := ThenSection(s, steps, t, Insert(s1.nextHandle, FirstSid(s1.world.daemon)), Delivered);
    assert RunFrom(s, steps).clients == s1.clients;
  }

  /** Typing a key into a handle with an id, up to the point where it is still to be sent. */
  lemma ReachesSend(s: State, before: seq<Step>, t: nat, h: nat) returns (steps: seq<Step>)
    requires IsRun(s, before) && IsQuiet(RunFrom(s, before), t, Idle)
    requires h in RunFrom(s, before).world.table && RunFrom(s, before).world.table[h].id != 0
    ensures IsRun(s, steps)
    ensures var s1 := RunFrom(s, before);
      AreAlike(RunFrom(s, steps),
               s1.(clients := s1.clients[t := Want(Send(h, s1.nextCall, s1.world.table[h], true))],
                   nextCall := s1.nextCall + 1))
  {
    hide IsRun, RunFrom;
    var no := RunFrom(s, before).nextCall;
    steps := ThenStep(s, before, StartKey(t, h));
    steps := ThenSection(s, steps, t, KeyCooldown(h, no), Delivered);
    steps := ThenSection(s, steps, t, Ensure(h, no), Delivered);
  }

  // ── Calls that fail ─────────────────────────────────────────────────────────

  /** A `create_handle` whose request is lost, up to the point where the ids of all handles are about to be
      forgotten. */
  lemma LosesRequest(s: State, before: seq<Step>, t: nat) returns (steps: seq<Step>)
    requires IsRun(s, before) && IsQuiet(RunFrom(s, before), t, Idle)
    ensures IsRun(s, steps)
    ensures var s1 := RunFrom(s, before);
      AreAlike(RunFrom(s, steps),
               s1.(clients := s1.clients[t := Want(Invalidate(StillInsert(s1.nextHandle)))],
                   nextHandle := s1.nextHandle + 1, world := Failed(s1.world, s1.clock)))
  {
    hide IsRun, RunFrom;
    var h := RunFrom(s, before).nextHandle;
    steps := ThenStep(s, before, StartCreate(t));
    steps := ThenSection(s, steps, t, CreateCooldown(h), Delivered);
    steps := ThenSection(s, steps, t, NewSession(h), LostRequest);
    steps := ThenSection(s, steps, t, Record(StillInsert(h)), Delivered);
  }

  /** From there on: the ids are forgotten, the monitor is notified, and the handle gets id 0. */
  lemma ForgetsAndInserts(s: State, before: seq<Step>, t: nat, h: nat) returns (steps: seq<Step>)
    requires IsRun(s, before)
    requires var s1 := RunFrom(s, before);
      && NoGuards(s1) && t in s1.clients && s1.clients[t] == Want(Invalidate(StillInsert(h)))
      && !s1.world.poisoned && !s1.monitor.Parked?
    ensures IsRun(s, steps)
    ensures var s1 := RunFrom(s, before);
      AreAlike(RunFrom(s, steps),
               s1.(clients := s1.clients[t := Idle],
                   world := s1.world.(table := Forgotten(s1.world.table)[h := NoSid(s1.world.daemon)])))
  {
    hide IsRun, RunFrom;
    var d := RunFrom(s, before).world.daemon;
    steps := ThenSection(s, before, t, Invalidate(StillInsert(h)), Delivered);
    steps := ThenStep(s, steps, NotifyAll(t));
    steps := ThenSection(s, steps, t, Insert(h, NoSid(d)), Delivered);
  }

  /** After the ids were forgotten, client 0 writes its entry. */
  lemma InsertsAfter(s0: State, start: seq<Step>, before: seq<Step>, sid: Sid) returns (steps: seq<Step>)
    requires IsRun(s0, start) && IsRun(s0, before) && RunFrom(s0, start).clients.Keys == {0, 1}
    requires RunFrom(s0, start).clients[0] == Want(Insert(1, sid)) && !RunFrom(s0, start).world.poisoned
    requires AreAlike(RunFrom(s0, before), Through(RunFrom(s0, start), 1, Invalidate(StillInsert(2)), Delivered))
    ensures steps == before + [Acquire(0), Run(0, Delivered), Release(0)] && IsRun(s0, steps)
    ensures var s, w := RunFrom(s0, steps), RunFrom(s0, start).world;
      1 in s.world.table && s.world.table[1] == sid && s.world.daemon == w.daemon
  {
    hide IsRun, RunFrom;
    steps := ThenSection(s0, before, 0, Insert(1, sid), Delivered);
  }

  // ── The examples ────────────────────────────────────────────────────────────

  /** Two handles, the second one made after a restart with the id of the first. */
  lemma ReusesId(s0: State) returns (steps: seq<Step>)
    requires Initial(s0) && 0 in s0.clients
    ensures IsRun(s0, steps)
    ensures var s, d := RunFrom(s0, steps), s0.world.daemon;
      && IsQuiet(s, 0, Idle) && s.nextCall == 0 && s.world.daemon.lifetime == d.lifetime + 1
      && 1 in s.world.table && s.world.table[1] == Sid(1, d.lifetime, d.made)
      && 1 in s.world.daemon.live && s.world.daemon.live[1] == 2 && s.world.ledger.log == []
  {
    assert IsRun(s0, []) && RunFrom(s0, []) == s0;
    hide IsRun, RunFrom, AreAlike;
    steps := CreatesSession(s0, [], 0);
    var s1 := RunFrom(s0, steps);
    AlikeParts(s1, s0.(nextHandle := 2,
                       world := s0.world.(table := s0.world.table[1 := FirstSid(s0.world.daemon)],
                                          daemon := Opened(s0.world.daemon, 1))));
    steps := ThenStep(s0, steps, Restart);
    var s2 := RunFrom(s0, steps);
    steps := CreatesSession(s0, steps, 0);
    AlikeParts(RunFrom(s0, steps), s2.(nextHandle := 3,
                                       world := s2.world.(table := s2.world.table[2 := FirstSid(s2.world.daemon)],
                                                          daemon := Opened(s2.world.daemon, 2))));
  }

  lemma AlikeParts(a: State, b: State)
    requires AreAlike(a, b)
    ensures NoGuards(a) && a.world == b.world && a.clients == b.clients && a.monitor == b.monitor
    ensures a.clock == b.clock && a.nextHandle == b.nextHandle && a.nextCall == b.nextCall
  {
  }

  /** The exception about engines is real: ids start at 1 again after a restart, so a key typed into an old
      handle can reach the engine of a new one. */
  lemma OldIdReachesNewEngine(s0: State) returns (steps: seq<Step>)
    requires Initial(s0) && 0 in s0.clients
    ensures IsRun(s0, steps)
    ensures var log := RunFrom(s0, steps).world.ledger.log;
      |log| == 1 && log[0].handle == 1 && log[0].engine == 2 && log[0].sid.born != log[0].lifetime
  {
    hide IsRun, RunFrom;
    var d := s0.world.daemon;
    steps := ReusesId(s0);
    steps := ReachesSend(s0, steps, 0, 1);
    steps := ThenSection(s0, steps, 0, Send(1, 0, Sid(1, d.lifetime, d.made), true), Delivered);
  }

  /** A session is made, the daemon restarts, and another thread's request is lost, all before the first thread
      writes its id into the table. */
  lemma FailsMeanwhile(s0: State) returns (steps: seq<Step>)
    requires Initial(s0) && s0.clients.Keys == {0, 1}
    ensures IsRun(s0, steps)
    ensures var s, sid := RunFrom(s0, steps), FirstSid(s0.world.daemon);
      && s.clients.Keys == {0, 1} && s.clients[0] == Want(Insert(1, sid))
      && s.clients[1] == Want(Invalidate(StillInsert(2))) && NoGuards(s) && !s.world.poisoned
      && sid.stamp < s.world.daemon.made && sid.born < s.world.daemon.lifetime && sid.id != 0
  {
    assert IsRun(s0, []) && RunFrom(s0, []) == s0;
    hide IsRun, RunFrom;
    steps := OpensSession(s0, [], 0);
    steps := ThenStep(s0, steps, Restart);
    steps := LosesRequest(s0, steps, 1);
  }

  /** The exception about failures is real: the failure forgets all ids, and then the first thread still writes its
      id from the daemon that is gone. */
  lemma OldIdOutlivesFailure(s0: State) returns (before: seq<Step>, after: seq<Step>)
    requires Initial(s0) && s0.clients.Keys == {0, 1}
    ensures IsRun(s0, before) && Invalidates(RunFrom(s0, before), 1)
    ensures var s := RunFrom(s0, before);
      && IsRun(Do(s, Run(1, Delivered)), after)
      && var s' := RunFrom(Do(s, Run(1, Delivered)), after);
         && 1 in s'.world.table && s'.world.table[1].id != 0 && s'.world.table[1].stamp < s.world.daemon.made
         && s'.world.table[1].born != s'.world.daemon.lifetime
  {
    hide IsRun, RunFrom, Body, Do;
    var start := FailsMeanwhile(s0);
    var s := RunFrom(s0, start);
    var invalidated := ThenSection(s0, start, 1, Invalidate(StillInsert(2)), Delivered);
    var inserted := InsertsAfter(s0, start, invalidated, FirstSid(s0.world.daemon));
    before := ThenStep(s0, start, Acquire(1));
    assert RunFrom(s0, before).clients[1] == At(Invalidate(StillInsert(2))) by { LocksOnly(s, 1); }
    assert RunFrom(s0, before).world == s.world by { LocksOnly(s, 1); }
    after := [Release(1), Acquire(0), Run(0, Delivered), Release(0)];
    assert inserted == before + ([Run(1, Delivered)] + after);
    RunUnsplit(s0, before, [Run(1, Delivered)] + after);
    FirstStep(RunFrom(s0, before), Run(1, Delivered), after);
  }

  lemma FirstStep(s: State, e: Step, rest: seq<Step>)
    requires IsRun(s, [e] + rest)
    ensures Enabled(s, e) && IsRun(Do(s, e), rest) && RunFrom(s, [e] + rest) == RunFrom(Do(s, e), rest)
  {
    hide Do, Enabled;
    assert ([e] + rest)[1..] == rest;
  }

  lemma LocksOnly(s: State, t: nat)
    requires Enabled(s, Acquire(t)) && !s.world.poisoned
    ensures var s' := Do(s, Acquire(t)); t in s'.clients && s'.clients[t] == At(s.clients[t].want) && s'.world == s.world
  {
  }

  /** A key is about to be sent when another thread's failure leaves a new handle without an id. */
  lemma FailsBeforeSend(s0: State) returns (steps: seq<Step>)
    requires Initial(s0) && s0.clients.Keys == {0, 1}
    ensures IsRun(s0, steps)
    ensures var s, sid := RunFrom(s0, steps), FirstSid(s0.world.daemon);
      && s.clients.Keys == {0, 1} && s.clients[0] == Want(Send(1, 0, sid, true)) && sid.id in s.world.daemon.live
      && s.clients[1] == Want(Invalidate(StillInsert(2))) && NoGuards(s) && !s.world.poisoned
      && s.monitor == MonWant(Await) && s.nextCall == 1
  {
    assert IsRun(s0, []) && RunFrom(s0, []) == s0;
    hide IsRun, RunFrom;
    steps := CreatesSession(s0, [], 0);
    steps := ReachesSend(s0, steps, 0, 1);
    steps := LosesRequest(s0, steps, 1);
  }

  /** The failure and the recovery by that key leave a handle without an id. */
  lemma LeavesHandleWithoutId(s0: State) returns (steps: seq<Step>)
    requires Initial(s0) && s0.clients.Keys == {0, 1}
    ensures IsRun(s0, steps)
    ensures var s := RunFrom(s0, steps);
      && s.clients.Keys == {0, 1} && IsQuiet(s, 0, Idle) && IsQuiet(s, 1, Idle) && s.nextCall == 1
      && s.monitor == MonWant(Await)
      && 2 in s.world.table && s.world.table[2].id == 0
  {
    hide IsRun, RunFrom;
    var sid := FirstSid(s0.world.daemon);
    steps := FailsBeforeSend(s0);
    steps := ForgetsAndInserts(s0, steps, 1, 2);
    steps := ThenSection(s0, steps, 0, Send(1, 0, sid, true), Delivered);
    steps := ThenSection(s0, steps, 0, Recover, Delivered);
  }

  /** A panic is real: a key is typed into a handle without an id, and the handle is destroyed while the new
      session for that key is being made. */
  lemma DestroyedHandlePanics(s0: State) returns (steps: seq<Step>)
    requires Initial(s0) && s0.clients.Keys == {0, 1}
    ensures IsRun(s0, steps)
    ensures var s := RunFrom(s0, steps);
      && s.clients == map[0 := Idle, 1 := Panicked] && s.world.poisoned
      && NoGuards(s) && s.monitor == MonWant(Await) && s.world.last.None?
  {
    hide IsRun, RunFrom;
    steps := LeavesHandleWithoutId(s0);
    var d := RunFrom(s0, steps).world.daemon;
    steps := ThenStep(s0, steps, StartKey(1, 2));
    steps := ThenSection(s0, steps, 1, KeyCooldown(2, 1), Delivered);
    steps := ThenSection(s0, steps, 1, Ensure(2, 1), Delivered);
    steps := ThenSection(s0, steps, 1, Open(2, 1), Delivered);
    steps := ThenStep(s0, steps, StartDestroy(0, 2));
    steps := ThenSection(s0, steps, 0, Remove(2), Delivered);
    steps := ThenSection(s0, steps, 1, Store(2, 1, FirstSid(d)), Delivered);
  }

  /** A monitor that has nothing to do parks. */
  lemma MonitorParked(s: State, before: seq<Step>) returns (steps: seq<Step>)
    requires IsRun(s, before)
    requires var s1 := RunFrom(s, before); NoGuards(s1) && s1.monitor == MonWant(Await) && s1.world.last.None?
    ensures IsRun(s, steps)
    ensures var s1 := RunFrom(s, before); AreAlike(RunFrom(s, steps), s1.(monitor := Parked))
  {
    hide IsRun, RunFrom;
    steps := ThenStep(s, before, MonAcquire);
    steps := ThenStep(s, steps, MonRun(Delivered));
  }

  /** A stall is real: after that panic the monitor parks, another call loses its request, records the failure, and
      panics on the poisoned table before it can notify. */
  lemma PanicStallsMonitor(s0: State) returns (steps: seq<Step>)
    requires Initial(s0) && s0.clients.Keys == {0, 1}
    ensures IsRun(s0, steps) && Stalled(RunFrom(s0, steps))
  {
    hide IsRun, RunFrom;
    steps := DestroyedHandlePanics(s0);
    steps := MonitorParked(s0, steps);
    var h := RunFrom(s0, steps).nextHandle;
    steps := ThenStep(s0, steps, StartCreate(0));
    steps := ThenSection(s0, steps, 0, CreateCooldown(h), Delivered);
    steps := ThenSection(s0, steps, 0, NewSession(h), LostRequest);
    steps := ThenSection(s0, steps, 0, Record(StillInsert(h)), Delivered);
    steps := ThenStep(s0, steps, Acquire(0));
    assert RunFrom(s0, steps).clients == map[0 := Panicked, 1 := Panicked];
  }
}
