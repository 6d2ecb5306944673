/** Key delivery: each key reaches an engine at most once, and it is the right one within a daemon lifetime. */
module ReconnectDelivery {
  import opened Text
  import opened ReconnectProtocol

  // ── At most once ────────────────────────────────────────────────────────────

  /** The key event that a section is about. */
  function NoOf(c: Section): Option<nat> {
    match c
    case KeyCooldown(_, no) => Some(no)
    case Ensure(_, no) => Some(no)
    case Open(_, no) => Some(no)
    case Store(_, no, _) => Some(no)
    case Send(_, no, _, _) => Some(no)
    case Reread(_, no) => Some(no)
    case Reopen(_, no) => Some(no)
    case Restore(_, no, _) => Some(no)
    case _ => None
  }

  /** The sections after a first rejection. */
  predicate IsSecondRound(c: Section) {
    c.Reread? || c.Reopen? || c.Restore? || (c.Send? && !c.first)
  }

  /** The section that a thread is in or goes to next. */
  function SectionOf(pc: Pc): Option<Section> {
    match pc
    case Want(c) => Some(c)
    case At(c) => Some(c)
    case Drop(_, after) => SectionOf(after)
    case _ => None
  }

  /** Dropping a guard does not change where a thread goes. */
  lemma SectionAfterBody(w: World, clock: nat, c: Section, o: Outcome)
    ensures var pc := Body(w, clock, c, o).pc;
      pc.Drop? && !pc.after.Drop? && SectionOf(pc) == SectionOf(pc.after)
  {
    hide Create, Sent, InCooldown;
    var pc := Body(w, clock, c, o).pc;
    assert pc.Drop? && SectionOf(pc) == SectionOf(pc.after);
  }

  function Pending(pc: Pc): Option<nat> {
    match SectionOf(pc) case None => None case Some(c) => NoOf(c)
  }

  predicate IsLogged(log: seq<Applied>, no: nat) {
    exists i | 0 <= i < |log| :: log[i].no == no
  }

  /** A key that is still on its way: not refused, in no engine, and sent once if it was rejected once. */
  predicate OnItsWay(l: Ledger, bound: nat, no: nat, second: bool) {
    && no < bound && no !in l.refused && !IsLogged(l.log, no)
    && SendsOf(l, no) == (if second then 1 else 0) && (second ==> no in l.rejected)
  }

  predicate SectionOk(l: Ledger, bound: nat, c: Section) {
    NoOf(c).Some? ==> OnItsWay(l, bound, NoOf(c).value, IsSecondRound(c))
  }

  predicate PcOk(l: Ledger, bound: nat, pc: Pc) {
    SectionOf(pc).Some? ==> SectionOk(l, bound, SectionOf(pc).value)
  }

  /** The claims about keys: none is in the log twice; none is sent more than twice, and twice only if it was
      rejected before; none that was refused in cooldown is sent at all. */
  ghost predicate LedgerOk(l: Ledger, bound: nat) {
    && (forall i, j | 0 <= i < j < |l.log| :: l.log[i].no != l.log[j].no)
    && (forall i | 0 <= i < |l.log| :: l.log[i].no < bound)
    && (forall n | n in l.sends :: n < bound && l.sends[n] <= 2 && (l.sends[n] == 2 ==> n in l.rejected))
    && (forall n | n in l.refused :: n < bound && SendsOf(l, n) == 0)
  }

  ghost predicate Deliveries(s: State) {
    && LedgerOk(s.world.ledger, s.nextCall)
    && (forall t | t in s.clients :: PcOk(s.world.ledger, s.nextCall, s.clients[t]))
    && (forall t, u | t in s.clients && u in s.clients && t != u ::
          Pending(s.clients[t]).Some? ==> Pending(s.clients[t]) != Pending(s.clients[u]))
  }

  /** Whether two ledgers agree about one key. */
  predicate Agree(a: Ledger, b: Ledger, no: nat) {
    && SendsOf(a, no) == SendsOf(b, no) && (no in a.rejected <==> no in b.rejected)
    && (no in a.refused <==> no in b.refused) && (IsLogged(a.log, no) <==> IsLogged(b.log, no))
  }

  lemma LogSnoc(log: seq<Applied>, a: Applied, no: nat)
    ensures IsLogged(log + [a], no) <==> IsLogged(log, no) || a.no == no
  {
    if a.no == no {
      assert (log + [a])[|log|] == a;
    }
    if i :| 0 <= i < |log| && log[i].no == no {
      assert (log + [a])[i].no == no;
    }
  }

  lemma SentKeeps(l: Ledger, d: Daemon, bound: nat, h: nat, no: nat, sid: Sid, first: bool, o: Outcome)
    requires LedgerOk(l, bound) && OnItsWay(l, bound, no, !first)
    ensures LedgerOk(Sent(l, d, h, no, sid, o), bound)
    ensures forall m: nat | m != no :: Agree(l, Sent(l, d, h, no, sid, o), m)
    ensures first && o == Delivered && sid.id !in d.live ==> OnItsWay(Sent(l, d, h, no, sid, o), bound, no, true)
  {
    var l' := Sent(l, d, h, no, sid, o);
    if o != LostRequest && sid.id in d.live {
      var a := Applied(no, h, sid, d.lifetime, d.live[sid.id]);
      assert l'.log == l.log + [a];
      forall m ensures IsLogged(l'.log, m) <==> IsLogged(l.log, m) || m == no {
        LogSnoc(l.log, a, m);
      }
    }
  }

  lemma RefusedKeeps(l: Ledger, bound: nat, no: nat)
    requires LedgerOk(l, bound) && OnItsWay(l, bound, no, false)
    ensures LedgerOk(l.(refused := l.refused + {no}), bound)
    ensures forall m: nat | m != no :: Agree(l, l.(refused := l.refused + {no}), m)
  {
  }

  /** What a section body does to the ledger and to the key it is about. */
  lemma BodyDelivers(w: World, clock: nat, c: Section, o: Outcome, bound: nat)
    requires LedgerOk(w.ledger, bound) && SectionOk(w.ledger, bound, c)
    ensures var r := Body(w, clock, c, o);
      && LedgerOk(r.world.ledger, bound) && PcOk(r.world.ledger, bound, r.pc)
      && (Pending(r.pc).Some? ==> Pending(r.pc) == NoOf(c))
      && forall m: nat | NoOf(c) != Some(m) :: Agree(w.ledger, r.world.ledger, m)
  {
    hide LedgerOk, Agree, OnItsWay, Sent, InCooldown;
    SectionAfterBody(w, clock, c, o);
    if c.Send? {
      SentKeeps(w.ledger, w.daemon, bound, c.h, c.no, c.sid, c.first, o);
      forall m: nat ensures Agree(w.ledger, w.ledger, m) { AgreeSelf(w.ledger, m); }
    } else if c.KeyCooldown? {
      RefusedKeeps(w.ledger, bound, c.no);
      forall m: nat ensures Agree(w.ledger, w.ledger, m) { AgreeSelf(w.ledger, m); }
    } else {
      forall m: nat ensures Agree(w.ledger, w.ledger, m) { AgreeSelf(w.ledger, m); }
    }
  }

  lemma AgreeSelf(l: Ledger, m: nat)
    ensures Agree(l, l, m)
  {
  }

  lemma AgreedPc(a: Ledger, b: Ledger, bound: nat, pc: Pc)
    requires PcOk(a, bound, pc)
    requires Pending(pc).Some? ==> Agree(a, b, Pending(pc).value)
    ensures PcOk(b, bound, pc)
  {
  }

  lemma LargerBound(l: Ledger, bound: nat, pc: Pc)
    ensures PcOk(l, bound, pc) ==> PcOk(l, bound + 1, pc)
    ensures LedgerOk(l, bound) ==> LedgerOk(l, bound + 1)
  {
  }

  lemma NewCall(l: Ledger, bound: nat, h: nat)
    requires LedgerOk(l, bound)
    ensures PcOk(l, bound + 1, Want(KeyCooldown(h, bound)))
  {
  }

  lemma MonitorKeepsLedger(w: World, clock: nat, m: MonitorSection, o: Outcome)
    ensures MonitorBody(w, clock, m, o).world.ledger == w.ledger
  {
  }

  lemma RunDelivers(s: State, t: nat, o: Outcome)
    requires Deliveries(s) && Enabled(s, Run(t, o))
    ensures Deliveries(Do(s, Run(t, o)))
  {
    hide Body, LedgerOk, PcOk, Agree, SectionOk;
    var s' := Do(s, Run(t, o));
    var c := s.clients[t].at;
    PcIn(s.world.ledger, s.nextCall, c);
    BodyDelivers(s.world, s.clock, c, o, s.nextCall);
    forall u | u in s'.clients ensures PcOk(s'.world.ledger, s.nextCall, s'.clients[u]) {
      if u != t {
        AgreedPc(s.world.ledger, s'.world.ledger, s.nextCall, s.clients[u]);
      }
    }
  }

  lemma PcIn(l: Ledger, bound: nat, c: Section)
    requires PcOk(l, bound, At(c))
    ensures SectionOk(l, bound, c)
  {
  }

  lemma StartDelivers(s: State, t: nat, h: nat)
    requires Deliveries(s) && Enabled(s, StartKey(t, h))
    ensures Deliveries(Do(s, StartKey(t, h)))
  {
    hide LedgerOk, SectionOk;
    var l := s.world.ledger;
    NewCall(l, s.nextCall, h);
    forall u | u in s.clients
      ensures PcOk(l, s.nextCall + 1, s.clients[u]) && Pending(s.clients[u]) != Some(s.nextCall)
    {
      LargerBound(l, s.nextCall, s.clients[u]);
      PendingBelow(l, s.nextCall, s.clients[u]);
    }
    LargerBound(l, s.nextCall, Idle);
  }

  lemma PendingBelow(l: Ledger, bound: nat, pc: Pc)
    requires PcOk(l, bound, pc)
    ensures Pending(pc) != Some(bound)
  {
  }

  /** A step of one thread that leaves the ledger alone and is about no new key. */
  lemma SameLedger(s: State, s': State, t: nat)
    requires Deliveries(s) && t in s.clients && t in s'.clients && s'.clients == s.clients[t := s'.clients[t]]
    requires s'.world.ledger == s.world.ledger && s'.nextCall == s.nextCall
    requires Pending(s'.clients[t]).Some? ==> Pending(s'.clients[t]) == Pending(s.clients[t])
    requires PcOk(s.world.ledger, s.nextCall, s'.clients[t])
    ensures Deliveries(s')
  {
    hide LedgerOk, PcOk, Pending;
  }

  lemma DeliveriesKept(s: State, e: Step)
    requires Deliveries(s) && Enabled(s, e)
    ensures Deliveries(Do(s, e))
  {
    hide Body, MonitorBody, LedgerOk, SectionOk, LockOf;
    match e {
      case Run(t, o) => RunDelivers(s, t, o);
      case StartKey(t, h) => StartDelivers(s, t, h);
      case MonRun(o) => MonitorKeepsLedger(s.world, s.clock, s.monitor.mat, o);
      case NotifyAll(t) =>
        NoKeyAfterNotify(s.world.ledger, s.nextCall, s.clients[t].next, s.world.daemon);
        SameLedger(s, Do(s, e), t);
      case StartCreate(t) =>
        NoKey(s.world.ledger, s.nextCall, Want(CreateCooldown(s.nextHandle)));
        SameLedger(s, Do(s, e), t);
      case StartDestroy(t, h) =>
        NoKey(s.world.ledger, s.nextCall, Want(Remove(h)));
        SameLedger(s, Do(s, e), t);
      case Acquire(t) => SameLedger(s, Do(s, e), t);
      case Release(t) => SameLedger(s, Do(s, e), t);
      case _ =>
    }
  }

  lemma NoKey(l: Ledger, bound: nat, pc: Pc)
    requires Pending(pc).None?
    ensures PcOk(l, bound, pc)
  {
  }

  lemma NoKeyAfterNotify(l: Ledger, bound: nat, next: Then, d: Daemon)
    ensures Pending(AfterNotify(next, d)).None? && PcOk(l, bound, AfterNotify(next, d))
  {
  }

  // ── The right engine ────────────────────────────────────────────────────────

  /** A session id made in this lifetime belongs to its handle for as long as it is live. */
  predicate Belongs(d: Daemon, h: nat, sid: Sid) {
    sid.born <= d.lifetime
    && (sid.born == d.lifetime && sid.id != 0 ==>
          sid.id < d.nextId && (sid.id in d.live ==> d.live[sid.id] == h))
  }

  predicate SectionBelongs(d: Daemon, c: Section) {
    match c
    case Insert(h, sid) => Belongs(d, h, sid)
    case Store(h, _, sid) => Belongs(d, h, sid)
    case Send(h, _, sid, _) => Belongs(d, h, sid)
    case Restore(h, _, sid) => Belongs(d, h, sid)
    case _ => true
  }

  predicate PcBelongs(d: Daemon, pc: Pc) {
    SectionOf(pc).Some? ==> SectionBelongs(d, SectionOf(pc).value)
  }

  predicate DaemonOk(d: Daemon) {
    d.nextId >= 1 && forall id | id in d.live :: 1 <= id < d.nextId
  }

  predicate TableBelongs(d: Daemon, table: map<nat, Sid>) {
    forall h | h in table :: Belongs(d, h, table[h])
  }

  /** A key sent with an id of the daemon lifetime that it arrives in goes to the engine of its handle. */
  predicate LogBelongs(log: seq<Applied>) {
    forall i | 0 <= i < |log| :: log[i].sid.born == log[i].lifetime ==> log[i].engine == log[i].handle
  }

  ghost predicate Isolated(s: State) {
    && DaemonOk(s.world.daemon) && TableBelongs(s.world.daemon, s.world.table) && LogBelongs(s.world.ledger.log)
    && forall t | t in s.clients :: PcBelongs(s.world.daemon, s.clients[t])
  }

  /** How the daemon may change: new sessions get new ids, sessions end, and a restart begins a new lifetime. */
  predicate Evolves(d: Daemon, d': Daemon) {
    || d'.lifetime == d.lifetime + 1
    || (d'.lifetime == d.lifetime && d'.nextId >= d.nextId
        && forall id | id in d'.live && id < d.nextId :: id in d.live && d'.live[id] == d.live[id])
  }

  lemma PcBelongsStays(d: Daemon, d': Daemon, pc: Pc)
    requires Evolves(d, d') && PcBelongs(d, pc)
    ensures PcBelongs(d', pc)
  {
  }

  lemma TableStays(d: Daemon, d': Daemon, table: map<nat, Sid>)
    requires Evolves(d, d') && TableBelongs(d, table)
    ensures TableBelongs(d', table)
  {
  }

  lemma CreateEvolves(d: Daemon, engine: nat, o: Outcome)
    requires DaemonOk(d)
    ensures var r := Create(d, engine, o);
      && DaemonOk(r.0) && Evolves(d, r.0) && (r.1.Some? ==> Belongs(r.0, engine, r.1.value))
  {
  }

  lemma CloseEvolves(d: Daemon, id: nat)
    requires DaemonOk(d)
    ensures DaemonOk(Closed(d, id)) && Evolves(d, Closed(d, id)) && Evolves(d, d)
  {
  }

  lemma SentBelongs(l: Ledger, d: Daemon, h: nat, no: nat, sid: Sid, o: Outcome)
    requires LogBelongs(l.log) && Belongs(d, h, sid) && DaemonOk(d)
    ensures LogBelongs(Sent(l, d, h, no, sid, o).log)
  {
  }

  lemma NoneBelongs(d: Daemon, h: nat)
    ensures Belongs(d, h, NoSid(d))
  {
  }

  lemma TableWith(d: Daemon, table: map<nat, Sid>, h: nat, sid: Sid)
    requires TableBelongs(d, table) && Belongs(d, h, sid)
    ensures TableBelongs(d, table[h := sid])
  {
  }

  lemma TableWithout(d: Daemon, table: map<nat, Sid>, h: nat)
    requires TableBelongs(d, table)
    ensures TableBelongs(d, table - {h})
  {
  }

  lemma TableForgotten(d: Daemon, table: map<nat, Sid>)
    requires TableBelongs(d, table)
    ensures TableBelongs(d, Forgotten(table))
  {
  }

  lemma TableEntry(d: Daemon, table: map<nat, Sid>, h: nat)
    requires TableBelongs(d, table)
    ensures h in table ==> Belongs(d, h, table[h])
  {
  }

  lemma BodyIsolates(w: World, clock: nat, c: Section, o: Outcome)
    requires DaemonOk(w.daemon) && TableBelongs(w.daemon, w.table) && LogBelongs(w.ledger.log)
    requires SectionBelongs(w.daemon, c)
    ensures var r := Body(w, clock, c, o);
      && DaemonOk(r.world.daemon) && Evolves(w.daemon, r.world.daemon) && LogBelongs(r.world.ledger.log)
      && TableBelongs(r.world.daemon, r.world.table) && PcBelongs(r.world.daemon, r.pc)
  {
    hide DaemonOk, Evolves, LogBelongs, Sent, Create, InCooldown, TableBelongs, Belongs, Forgotten;
    SectionAfterBody(w, clock, c, o);
    CloseEvolves(w.daemon, 0);
    NoneBelongs(w.daemon, 0);
    match c {
      case CreateCooldown(h) => NoneBelongs(w.daemon, h);
      case Insert(h, sid) => TableWith(w.daemon, w.table, h, sid);
      case Store(h, _, sid) => TableWith(w.daemon, w.table, h, sid);
      case Restore(h, _, sid) => TableWith(w.daemon, w.table, h, sid);
      case Remove(h) => TableWithout(w.daemon, w.table, h);
      case Ensure(h, _) => TableEntry(w.daemon, w.table, h);
      case Invalidate(_) => TableForgotten(w.daemon, w.table);
      case NewSession(h) =>
        CreateEvolves(w.daemon, h, o);
        TableStays(w.daemon, Create(w.daemon, h, o).0, w.table);
      case Open(h, _) =>
        CreateEvolves(w.daemon, h, o);
        TableStays(w.daemon, Create(w.daemon, h, o).0, w.table);
      case Reopen(h, _) =>
        CreateEvolves(w.daemon, h, o);
        TableStays(w.daemon, Create(w.daemon, h, o).0, w.table);
      case EndSession(sid) =>
        CloseEvolves(w.daemon, sid.id);
        TableStays(w.daemon, Closed(w.daemon, sid.id), w.table);
      case Send(h, no, sid, _) => SentBelongs(w.ledger, w.daemon, h, no, sid, o);
      case _ =>
    }
  }

  lemma MonitorIsolates(w: World, clock: nat, m: MonitorSection, o: Outcome)
    requires DaemonOk(w.daemon) && TableBelongs(w.daemon, w.table)
    ensures var r := MonitorBody(w, clock, m, o);
      && DaemonOk(r.world.daemon) && Evolves(w.daemon, r.world.daemon) && r.world.ledger == w.ledger
      && TableBelongs(r.world.daemon, r.world.table)
  {
    hide DaemonOk, Evolves, TableBelongs, Create;
    CreateEvolves(w.daemon, 0, o);
    TableStays(w.daemon, Create(w.daemon, 0, o).0, w.table);
    CloseEvolves(w.daemon, 0);
    if m.EndProbe? {
      CloseEvolves(w.daemon, m.probe);
      TableStays(w.daemon, Closed(w.daemon, m.probe), w.table);
    }
  }

  /** Every thread keeps its ids when the daemon evolves. */
  lemma AllStay(s: State, d: Daemon)
    requires Isolated(s) && Evolves(s.world.daemon, d)
    ensures forall t | t in s.clients :: PcBelongs(d, s.clients[t])
    ensures TableBelongs(d, s.world.table)
  {
    hide Evolves, PcBelongs, TableBelongs;
    forall t | t in s.clients ensures PcBelongs(d, s.clients[t]) {
      PcBelongsStays(s.world.daemon, d, s.clients[t]);
    }
    TableStays(s.world.daemon, d, s.world.table);
  }

  lemma AfterNotifyBelongs(d: Daemon, next: Then)
    ensures PcBelongs(d, AfterNotify(next, d))
  {
  }

  lemma IsolatedKept(s: State, e: Step)
    requires Isolated(s) && Enabled(s, e)
    ensures Isolated(Do(s, e))
  {
    hide Body, MonitorBody, DaemonOk, Evolves, TableBelongs, LogBelongs, SectionBelongs;
    match e {
      case Run(t, o) =>
        BodyIsolates(s.world, s.clock, s.clients[t].at, o);
        AllStay(s, Body(s.world, s.clock, s.clients[t].at, o).world.daemon);
      case MonRun(o) =>
        MonitorIsolates(s.world, s.clock, s.monitor.mat, o);
        AllStay(s, MonitorBody(s.world, s.clock, s.monitor.mat, o).world.daemon);
      case Restart =>
        RestartEvolves(s.world.daemon);
        AllStay(s, Restarted(s.world.daemon));
      case NotifyAll(t) => AfterNotifyBelongs(s.world.daemon, s.clients[t].next);
      case StartCreate(t) => PlainSection(s.world.daemon, CreateCooldown(s.nextHandle));
      case StartDestroy(t, h) => PlainSection(s.world.daemon, Remove(h));
      case StartKey(t, h) => PlainSection(s.world.daemon, KeyCooldown(h, s.nextCall));
      case _ =>
    }
  }

  lemma PlainSection(d: Daemon, c: Section)
    requires c.CreateCooldown? || c.Remove? || c.KeyCooldown?
    ensures SectionBelongs(d, c)
  {
  }

  lemma RestartEvolves(d: Daemon)
    ensures Evolves(d, Restarted(d)) && DaemonOk(Restarted(d))
  {
  }
}
