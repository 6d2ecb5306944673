/** The notification of the monitor: when one is on its way, and the one step that loses it. */
module ReconnectWakeUp {
  import opened ReconnectProtocol

  /** A client that has recorded a failure and has not notified the monitor yet. */
  predicate Owes(pc: Pc) {
    match pc
    case Notify(_) => true
    case Want(c) => c.Invalidate?
    case At(c) => c.Invalidate?
    case Drop(_, after) => Owes(after)
    case _ => false
  }

  /** Some client other than `t` owes a notification. */
  ghost predicate OthersOwe(s: State, t: nat) {
    exists u | u in s.clients && u != t :: Owes(s.clients[u])
  }

  ghost predicate Owed(s: State) {
    exists u | u in s.clients :: Owes(s.clients[u])
  }

  /** The monitor is parked with a failure on record, and nobody is about to wake it. */
  ghost predicate Stalled(s: State) {
    s.monitor.Parked? && s.world.last.Some? && !Owed(s)
  }

  /** A thread that has recorded a failure panics on the poisoned session table, while the monitor is parked and no
      other thread owes it a notification. */
  ghost predicate LosesNotice(s: State, e: Step) {
    && e.Acquire? && e.t in s.clients && s.clients[e.t].Want? && s.clients[e.t].want.Invalidate? && s.world.poisoned
    && s.monitor.Parked? && s.world.last.Some? && !OthersOwe(s, e.t)
  }

  /** What ends a stall: a spurious wake-up, another failure, and a call that goes through. */
  predicate Relieves(s: State, e: Step) {
    || e.Spurious?
    || (e.Run? && e.t in s.clients && s.clients[e.t].At? && (s.clients[e.t].at.Record? || s.clients[e.t].at.Recover?))
  }

  /** The monitor parks in the step that looks at the failure record, never by dropping a guard later. */
  ghost predicate ParksAtOnce(pc: MonitorPc) {
    pc.MonDrop? ==> !pc.mafter.Parked? && ParksAtOnce(pc.mafter)
  }

  lemma ParksAtOnceKept(s: State, e: Step)
    requires ParksAtOnce(s.monitor) && Enabled(s, e)
    ensures ParksAtOnce(Do(s, e).monitor)
  {
    hide Body;
  }

  lemma BodyOwes(w: World, clock: nat, c: Section, o: Outcome)
    ensures var r := Body(w, clock, c, o);
      && (Owes(r.pc) <==> c.Record? || c.Invalidate?)
      && (c.Recover? ==> r.world.last.None?)
      && (!c.Recover? && !c.Record? ==> r.world.last == w.last)
  {
    hide Create, Sent, InCooldown, Forgotten;
    var r := Body(w, clock, c, o);
    assert Owes(r.pc) == Owes(r.pc.after);
  }

  lemma MonitorParks(w: World, clock: nat, m: MonitorSection, o: Outcome)
    ensures var r := MonitorBody(w, clock, m, o);
      r.pc.MonDrop? && (r.pc.mafter.Parked? ==> r.world.last.None?)
  {
  }

  /** Who owes a notification after a step of one client. */
  lemma OwedAfter(s: State, s': State, t: nat)
    requires t in s.clients && t in s'.clients && s'.clients == s.clients[t := s'.clients[t]]
    ensures Owed(s) <==> Owes(s.clients[t]) || OthersOwe(s, t)
    ensures Owed(s') <==> Owes(s'.clients[t]) || OthersOwe(s, t)
  {
    hide Owes;
    if u :| u in s.clients && u != t && Owes(s.clients[u]) {
      assert u in s'.clients && Owes(s'.clients[u]);
    }
    if u :| u in s'.clients && u != t && Owes(s'.clients[u]) {
      assert u in s.clients && Owes(s.clients[u]);
    }
  }

  lemma ClientStalls(s: State, e: Step, t: nat)
    requires Enabled(s, e) && !LosesNotice(s, e) && !Relieves(s, e)
    requires e == Acquire(t) || e == Release(t) || e == StartCreate(t) || (e.StartDestroy? && e.t == t)
          || (e.StartKey? && e.t == t)
    ensures Stalled(Do(s, e)) <==> Stalled(s)
  {
    hide LockOf, Owed, OthersOwe;
    OwedAfter(s, Do(s, e), t);
  }

  lemma RunStalls(s: State, t: nat, o: Outcome)
    requires Enabled(s, Run(t, o))
    ensures Stalled(Do(s, Run(t, o))) <==> Stalled(s) && !Relieves(s, Run(t, o))
  {
    hide Body, Owed, OthersOwe;
    BodyOwes(s.world, s.clock, s.clients[t].at, o);
    OwedAfter(s, Do(s, Run(t, o)), t);
  }

  lemma NotifiedIsAwake(s: State, t: nat)
    requires Enabled(s, NotifyAll(t))
    ensures !Stalled(s) && !Stalled(Do(s, NotifyAll(t)))
  {
    hide Owed, OthersOwe;
    OwedAfter(s, Do(s, NotifyAll(t)), t);
  }

  lemma NoticeIsLost(s: State, e: Step)
    requires Enabled(s, e) && LosesNotice(s, e)
    ensures Stalled(Do(s, e)) && !Stalled(s)
  {
    hide Owed, OthersOwe;
    OwedAfter(s, Do(s, e), e.t);
  }

  /** One step: a stall begins exactly with a lost notice, and lasts until it is relieved. */
  lemma StepStalls(s: State, e: Step)
    requires ParksAtOnce(s.monitor) && Enabled(s, e)
    ensures Stalled(Do(s, e)) <==> (Stalled(s) && !Relieves(s, e)) || LosesNotice(s, e)
  {
    hide Body, MonitorBody, LockOf, LosesNotice, Owed;
    if LosesNotice(s, e) {
      NoticeIsLost(s, e);
    } else {
      match e {
        case Run(t, o) => RunStalls(s, t, o);
        case MonRun(o) => MonitorParks(s.world, s.clock, s.monitor.mat, o);
        case NotifyAll(t) => NotifiedIsAwake(s, t);
        case Acquire(t) => ClientStalls(s, e, t);
        case Release(t) => ClientStalls(s, e, t);
        case StartCreate(t) => ClientStalls(s, e, t);
        case StartDestroy(t, _) => ClientStalls(s, e, t);
        case StartKey(t, _) => ClientStalls(s, e, t);
        case Tick => SameOwed(s, Do(s, e));
        case Restart => SameOwed(s, Do(s, e));
        case _ =>
      }
    }
  }

  lemma SameOwed(s: State, s': State)
    requires s'.clients == s.clients
    ensures Owed(s') == Owed(s)
  {
  }

  // ── Whole runs ──────────────────────────────────────────────────────────────

  /** Nothing in a run ends a stall. */
  predicate NeverRelieved(s: State, steps: seq<Step>)
    requires IsRun(s, steps)
    decreases |steps|
  {
    steps == [] || (!Relieves(s, steps[0]) && NeverRelieved(Do(s, steps[0]), steps[1..]))
  }

  /** A notice is lost on the way, and nothing relieves the monitor after that. */
  ghost predicate HasStall(s: State, steps: seq<Step>)
    requires IsRun(s, steps)
    decreases |steps|
  {
    && steps != []
    && var s1, rest := Do(s, steps[0]), steps[1..];
       (LosesNotice(s, steps[0]) && NeverRelieved(s1, rest)) || HasStall(s1, rest)
  }

  lemma {:induction false} RunStallsExactly(s: State, steps: seq<Step>)
    requires ParksAtOnce(s.monitor) && IsRun(s, steps)
    ensures Stalled(RunFrom(s, steps)) <==> (Stalled(s) && NeverRelieved(s, steps)) || HasStall(s, steps)
    decreases |steps|
  {
    hide Stalled, LosesNotice, Relieves, ParksAtOnce, Do, Enabled;
    if steps != [] {
      StepStalls(s, steps[0]);
      ParksAtOnceKept(s, steps[0]);
      RunStallsExactly(Do(s, steps[0]), steps[1..]);
    }
  }
}
