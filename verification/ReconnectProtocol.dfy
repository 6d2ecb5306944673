/** The reconnecting client under concurrency: client calls, the monitor thread, three mutexes, one
    condition variable, and a daemon that restarts and loses messages, as steps of a state machine. */
module ReconnectProtocol {
  import opened Text
  import opened Cooldown

  // ── Vocabulary ──────────────────────────────────────────────────────────────

  datatype Lock = Proxy | Sessions | Failure

  datatype Thread = Client(t: nat) | Monitor

  /** A daemon session id; 0 means none. For the claims it carries the daemon lifetime it was made in, and the
      number of sessions that had been made before it. */
  datatype Sid = Sid(id: nat, born: nat, stamp: nat)

  /** What a client does after a failure was recorded. */
  datatype Then = ReturnUnavailable | StillInsert(handle: nat)

  /** The critical sections of the client calls. `no` numbers the key events. */
  datatype Section =
    | CreateCooldown(h: nat) | NewSession(h: nat) | Insert(h: nat, sid: Sid)
    | Remove(h: nat) | DestroyCooldown(sid: Sid) | EndSession(sid: Sid)
    | KeyCooldown(h: nat, no: nat) | Ensure(h: nat, no: nat) | Open(h: nat, no: nat)
    | Store(h: nat, no: nat, sid: Sid) | Send(h: nat, no: nat, sid: Sid, first: bool)
    | Reread(h: nat, no: nat) | Reopen(h: nat, no: nat) | Restore(h: nat, no: nat, sid: Sid)
    | Record(next: Then) | Invalidate(next: Then) | Recover

  /** The mutex that a section locks first. */
  function LockOf(c: Section): Lock {
    match c
    case CreateCooldown(_) => Failure
    case NewSession(_) => Proxy
    case Insert(_, _) => Sessions
    case Remove(_) => Sessions
    case DestroyCooldown(_) => Failure
    case EndSession(_) => Proxy
    case KeyCooldown(_, _) => Failure
    case Ensure(_, _) => Sessions
    case Open(_, _) => Proxy
    case Store(_, _, _) => Sessions
    case Send(_, _, _, _) => Proxy
    case Reread(_, _) => Sessions
    case Reopen(_, _) => Proxy
    case Restore(_, _, _) => Sessions
    case Record(_) => Failure
    case Invalidate(_) => Sessions
    case Recover => Failure
  }

  /** A client thread is idle, waits for the lock of a section, is inside it, is about to drop a guard, or is
      about to notify. Dropping a guard is a step of its own, and nothing here keeps a thread from locking
      a second mutex before it. A thread that panics inside a section poisons its mutex, and then every thread
      that locks it panics too. */
  datatype Pc =
    | Idle | Want(want: Section) | At(at: Section) | Drop(lock: Lock, after: Pc) | Notify(next: Then) | Panicked

  datatype MonitorSection = Await | Backoff | Probe | EndProbe(probe: nat) | Cleared | ProbeFailed

  function MonitorLock(m: MonitorSection): Lock {
    match m
    case Await => Failure
    case Backoff => Failure
    case Probe => Proxy
    case EndProbe(_) => Proxy
    case Cleared => Failure
    case ProbeFailed => Failure
  }

  datatype MonitorPc =
    | MonWant(mwant: MonitorSection) | MonAt(mat: MonitorSection) | MonDrop(mlock: Lock, mafter: MonitorPc)
    | Parked | Sleeping(until: nat)

  /** A key event that reached an engine: its number, the handle it was typed into, the session it was sent
      to, the daemon lifetime, and the handle that the engine was made for. */
  datatype Applied = Applied(no: nat, handle: nat, sid: Sid, lifetime: nat, engine: nat)

  /** The daemon: how often it was started, the handle that each live session was made for, and how many
      sessions were ever made. */
  datatype Daemon = Daemon(lifetime: nat, live: map<nat, nat>, nextId: nat, made: nat)

  /** The record that the claims about keys refer to: sends and rejections by key number, keys refused in
      cooldown, and what reached an engine. */
  datatype Ledger = Ledger(sends: map<nat, nat>, rejected: set<nat>, refused: set<nat>, log: seq<Applied>)

  /** What the threads share, and the daemon behind it. */
  datatype World = World(table: map<nat, Sid>, last: Option<nat>, count: nat, daemon: Daemon, ledger: Ledger,
                         poisoned: bool)

  /** The threads, the guards that each of them holds, and what they share. */
  datatype State = State(clients: map<nat, Pc>, monitor: MonitorPc, held: map<Thread, set<Lock>>, world: World,
                         clock: nat, nextHandle: nat, nextCall: nat)

  /** What becomes of a D-Bus call. */
  datatype Outcome = Delivered | LostRequest | LostReply

  datatype Step =
    | StartCreate(t: nat) | StartDestroy(t: nat, h: nat) | StartKey(t: nat, h: nat)
    | Acquire(t: nat) | Run(t: nat, outcome: Outcome) | Release(t: nat) | NotifyAll(t: nat)
    | MonAcquire | MonRun(monOutcome: Outcome) | MonRelease | MonAwake | Spurious | Tick | Restart

  // ── Guards ──────────────────────────────────────────────────────────────────

  function Guards(s: State, th: Thread): set<Lock> {
    if th in s.held then s.held[th] else {}
  }

  /** A mutex can be locked when no thread holds a guard of it. */
  predicate IsFree(s: State, l: Lock) {
    forall th | th in s.held :: l !in s.held[th]
  }

  function Locked(s: State, th: Thread, l: Lock): State {
    s.(held := s.held[th := Guards(s, th) + {l}])
  }

  function Unlocked(s: State, th: Thread, l: Lock): State {
    s.(held := s.held[th := Guards(s, th) - {l}])
  }

  // ── Effects of the sections ─────────────────────────────────────────────────

  predicate InCooldown(w: World, clock: nat) {
    w.last.Some? && Elapsed(clock, w.last.value) < CurrentCooldown(w.count)
  }

  /** The daemon after it made a session, whether or not the caller hears of it. */
  function Opened(d: Daemon, engine: nat): Daemon {
    d.(live := d.live[d.nextId := engine], nextId := d.nextId + 1, made := d.made + 1)
  }

  function Closed(d: Daemon, id: nat): Daemon {
    d.(live := d.live - {id})
  }

  /** A new daemon numbers its sessions from 1 again. */
  function Restarted(d: Daemon): Daemon {
    Daemon(d.lifetime + 1, map[], 1, d.made)
  }

  /** `create_session`: the daemon afterwards, and the new id unless the request or the reply was lost. */
  function Create(d: Daemon, engine: nat, o: Outcome): (Daemon, Option<Sid>) {
    match o
    case Delivered => (Opened(d, engine), Some(Sid(d.nextId, d.lifetime, d.made)))
    case LostRequest => (d, None)
    case LostReply => (Opened(d, engine), None)
  }

  function Failed(w: World, clock: nat): World {
    w.(count := SaturatingInc(w.count), last := Some(clock))
  }

  function Recovered(w: World): World {
    w.(count := 0, last := None)
  }

  /** The session ids of all handles are forgotten. */
  function Forgotten(table: map<nat, Sid>): map<nat, Sid> {
    map h | h in table :: table[h].(id := 0)
  }

  function SendsOf(l: Ledger, no: nat): nat {
    if no in l.sends then l.sends[no] else 0
  }

  /** `process_key` at the daemon: an unknown id is rejected before any engine is touched. */
  function Sent(l: Ledger, d: Daemon, h: nat, no: nat, sid: Sid, o: Outcome): Ledger {
    var l1 := l.(sends := l.sends[no := SendsOf(l, no) + 1]);
    if o == LostRequest then l1
    else if sid.id in d.live then l1.(log := l.log + [Applied(no, h, sid, d.lifetime, d.live[sid.id])])
    else l1.(rejected := l.rejected + {no})
  }

  datatype Result = Result(world: World, pc: Pc)

  /** After an attempt to make a session for a handle. */
  function AfterCreate(w: World, engine: nat, o: Outcome, success: Section, failure: Section): Result
    requires success.Insert? || success.Store? || success.Restore?
  {
    var r := Create(w.daemon, engine, o);
    Result(w.(daemon := r.0), Drop(Proxy, Want(if r.1.Some? then success.(sid := r.1.value) else failure)))
  }

  /** The body of a section up to the end of its guard's scope, and where the thread goes from there. */
  function Body(w: World, clock: nat, c: Section, o: Outcome): Result {
    var none := NoSid(w.daemon);
    match c
    case CreateCooldown(h) =>
      Result(w, Drop(Failure, Want(if InCooldown(w, clock) then Insert(h, none) else NewSession(h))))
    case NewSession(h) => AfterCreate(w, h, o, Insert(h, none), Record(StillInsert(h)))
    case Insert(h, sid) => Result(w.(table := w.table[h := sid]), Drop(Sessions, Idle))
    case Remove(h) =>
      if h !in w.table then Result(w, Drop(Sessions, Idle))
      else Result(w.(table := w.table - {h}),
                  Drop(Sessions, if w.table[h].id == 0 then Idle else Want(DestroyCooldown(w.table[h]))))
    case DestroyCooldown(sid) =>
      Result(w, Drop(Failure, if InCooldown(w, clock) then Idle else Want(EndSession(sid))))
    case EndSession(sid) =>
      Result(if o == LostRequest then w else w.(daemon := Closed(w.daemon, sid.id)), Drop(Proxy, Idle))
    case KeyCooldown(h, no) =>
      if InCooldown(w, clock) then
        Result(w.(ledger := w.ledger.(refused := w.ledger.refused + {no})), Drop(Failure, Idle))
      else Result(w, Drop(Failure, Want(Ensure(h, no))))
    case Ensure(h, no) =>
      Result(w, Drop(Sessions, if h !in w.table then Idle
                               else if w.table[h].id != 0 then Want(Send(h, no, w.table[h], true))
                               else Want(Open(h, no))))
    case Open(h, no) => AfterCreate(w, h, o, Store(h, no, none), Record(ReturnUnavailable))
    case Store(h, no, sid) =>
      if h in w.table then
        Result(w.(table := w.table[h := sid]), Drop(Sessions, Want(Send(h, no, sid, true))))
      else Result(w.(poisoned := true), Drop(Sessions, Panicked))
    case Send(h, no, sid, first) =>
      Result(w.(ledger := Sent(w.ledger, w.daemon, h, no, sid, o)),
             Drop(Proxy, Want(if o != Delivered then Record(ReturnUnavailable)
                              else if sid.id !in w.daemon.live && first then Reread(h, no)
                              else Recover)))
    case Reread(h, no) =>
      Result(w, Drop(Sessions, Want(if h in w.table then Reopen(h, no) else Record(ReturnUnavailable))))
    case Reopen(h, no) => AfterCreate(w, h, o, Restore(h, no, none), Record(ReturnUnavailable))
    case Restore(h, no, sid) =>
      Result(if h in w.table then w.(table := w.table[h := sid]) else w,
             Drop(Sessions, Want(Send(h, no, sid, false))))
    case Record(next) => Result(Failed(w, clock), Drop(Failure, Want(Invalidate(next))))
    case Invalidate(next) => Result(w.(table := Forgotten(w.table)), Drop(Sessions, Notify(next)))
    case Recover => Result(Recovered(w), Drop(Failure, Idle))
  }

  function NoSid(d: Daemon): Sid {
    Sid(0, d.lifetime, d.made)
  }

  datatype MonitorResult = MonitorResult(world: World, pc: MonitorPc)

  /** The sections of the monitor loop. Waiting on the condition variable parks and gives the guard back. */
  function MonitorBody(w: World, clock: nat, m: MonitorSection, o: Outcome): MonitorResult {
    match m
    case Await => MonitorResult(w, MonDrop(Failure, if w.last.None? then Parked else MonWant(Backoff)))
    case Backoff => MonitorResult(w, MonDrop(Failure, Sleeping(clock + CurrentCooldown(w.count))))
    case Probe =>
      var r := Create(w.daemon, 0, o);
      MonitorResult(w.(daemon := r.0),
                    MonDrop(Proxy, MonWant(if r.1.Some? then EndProbe(r.1.value.id) else ProbeFailed)))
    case EndProbe(id) =>
      MonitorResult(if o == LostRequest then w else w.(daemon := Closed(w.daemon, id)), MonDrop(Proxy, MonWant(Cleared)))
    case Cleared => MonitorResult(Recovered(w), MonDrop(Failure, MonWant(Await)))
    case ProbeFailed => MonitorResult(Failed(w, clock), MonDrop(Failure, MonWant(Backoff)))
  }

  function Woken(m: MonitorPc): MonitorPc {
    if m.Parked? then MonWant(Await) else m
  }

  function AfterNotify(next: Then, d: Daemon): Pc {
    match next
    case ReturnUnavailable => Idle
    case StillInsert(h) => Want(Insert(h, NoSid(d)))
  }

  predicate Enabled(s: State, e: Step) {
    match e
    case StartCreate(t) => t in s.clients && s.clients[t].Idle?
    case StartDestroy(t, _) => t in s.clients && s.clients[t].Idle?
    case StartKey(t, _) => t in s.clients && s.clients[t].Idle?
    case Acquire(t) => t in s.clients && s.clients[t].Want? && IsFree(s, LockOf(s.clients[t].want))
    case Run(t, _) => t in s.clients && s.clients[t].At?
    case Release(t) => t in s.clients && s.clients[t].Drop?
    case NotifyAll(t) => t in s.clients && s.clients[t].Notify?
    case MonAcquire => s.monitor.MonWant? && IsFree(s, MonitorLock(s.monitor.mwant))
    case MonRun(_) => s.monitor.MonAt?
    case MonRelease => s.monitor.MonDrop?
    case MonAwake => s.monitor.Sleeping? && s.clock >= s.monitor.until
    case Spurious => s.monitor.Parked?
    case Tick => true
    case Restart => true
  }

  function Move(s: State, t: nat, pc: Pc): State {
    s.(clients := s.clients[t := pc])
  }

  /** Parking is one step with giving the guard back; any other guard is dropped in a step of its own. */
  function AfterMonitor(s: State, pc: MonitorPc): State {
    if pc.MonDrop? && pc.mafter.Parked? then Unlocked(s, Monitor, pc.mlock).(monitor := Parked)
    else s.(monitor := pc)
  }

  function Do(s: State, e: Step): State
    requires Enabled(s, e)
  {
    match e
    case StartCreate(t) => Move(s.(nextHandle := s.nextHandle + 1), t, Want(CreateCooldown(s.nextHandle)))
    case StartDestroy(t, h) => Move(s, t, Want(Remove(h)))
    case StartKey(t, h) => Move(s.(nextCall := s.nextCall + 1), t, Want(KeyCooldown(h, s.nextCall)))
    case Acquire(t) =>
      var c := s.clients[t].want;
      if LockOf(c) == Sessions && s.world.poisoned then Move(s, t, Panicked)
      else Move(Locked(s, Client(t), LockOf(c)), t, At(c))
    case Run(t, o) =>
      var r := Body(s.world, s.clock, s.clients[t].at, o);
      Move(s.(world := r.world), t, r.pc)
    case Release(t) =>
      Move(Unlocked(s, Client(t), s.clients[t].lock), t, s.clients[t].after)
    case NotifyAll(t) =>
      Move(s.(monitor := Woken(s.monitor)), t, AfterNotify(s.clients[t].next, s.world.daemon))
    case MonAcquire =>
      Locked(s, Monitor, MonitorLock(s.monitor.mwant)).(monitor := MonAt(s.monitor.mwant))
    case MonRun(o) =>
      var r := MonitorBody(s.world, s.clock, s.monitor.mat, o);
      AfterMonitor(s.(world := r.world), r.pc)
    case MonRelease => Unlocked(s, Monitor, s.monitor.mlock).(monitor := s.monitor.mafter)
    case MonAwake => s.(monitor := MonWant(Probe))
    case Spurious => s.(monitor := MonWant(Await))
    case Tick => s.(clock := s.clock + 1)
    case Restart => s.(world := s.world.(daemon := Restarted(s.world.daemon)))
  }

  predicate Initial(s: State) {
    && (forall t | t in s.clients :: s.clients[t].Idle?)
    && s.monitor == MonWant(Await) && s.held == map[] && s.nextHandle == 1 && s.nextCall == 0
    && s.world.table == map[] && s.world.last == None && s.world.count == 0 && !s.world.poisoned
    && s.world.daemon.live == map[] && s.world.daemon.nextId == 1
    && s.world.ledger == Ledger(map[], {}, {}, [])
  }

  /** A run: every step is enabled where it is taken. */
  predicate IsRun(s: State, steps: seq<Step>)
    decreases |steps|
  {
    steps == [] || (Enabled(s, steps[0]) && IsRun(Do(s, steps[0]), steps[1..]))
  }

  function RunFrom(s: State, steps: seq<Step>): State
    requires IsRun(s, steps)
    decreases |steps|
  {
    if steps == [] then s else RunFrom(Do(s, steps[0]), steps[1..])
  }
}
