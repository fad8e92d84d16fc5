/**
 The native connection lifecycle as a small-step machine.  One step is one
 statement of one thread: the event-queue (EQ) thread runs the proactor loop and
 EqHandler::handle_event, the user thread runs listen, connect and shutdown, and
 completion-queue (CQ) worker `w` reads queue `w` and passes the CONNECTED gate of
 CqDemultiplexer::wait_event.  Steps of different threads interleave freely.
 */
module Lifecycle {
  import opened Common

  type Fid = nat

  /** Callback slots in the order in which handle_event installs them. */
  type Callbacks = s: seq<Option<nat>> | |s| == 5 witness [None, None, None, None, None]
  const RECV := 0
  const WRITE := 4
  const NO_CALLBACKS: Callbacks := [None, None, None, None, None]

  datatype Status = Idle | ConnectReq | AcceptReq | Connected | ShutdownReq | Down
  {
    /** The numeric value of the C++ enumerator. */
    function Rank(): nat {
      match this
      case Idle => 0
      case ConnectReq => 1
      case AcceptReq => 2
      case Connected => 3
      case ShutdownReq => 4
      case Down => 5
    }
  }

  datatype Owner = EqOwner | WorkerOwner(w: nat)

  /** A MsgConnection object.  `wasConnected` and `published` are history: the EQ
      thread has written CONNECTED; application code has been handed the object.  `junk` is what the
      write slot held when the object was made: the constructor sets the other four only. */
  datatype Conn = Conn(status: Status, callbacks: Callbacks, cq: nat, lock: Option<Owner>,
                       wasConnected: bool, published: bool, freed: bool, junk: Option<nat>)

  const NO_CONN := Conn(Idle, NO_CALLBACKS, 0, None, false, false, false, None)

  /** The slots of a new connection, and of one that has had the callbacks h installed. */
  function Blank(junk: Option<nat>): Callbacks {
    NO_CALLBACKS[WRITE := junk]
  }

  function Full(h: Callbacks, junk: Option<nat>): Callbacks {
    if h[WRITE].Some? then h else h[WRITE := junk]
  }

  function FreshCon(cq: nat, junk: Option<nat>): Conn {
    NO_CONN.(cq := cq, callbacks := Blank(junk), junk := junk)
  }

  datatype Thread = Eq | User

  datatype Fault = SnapshotMiss | NoConnection | ReapMissing

  /** The statement a thread executes next. */
  datatype Pc =
    | Top
    | Waiting
    | Picked(f: Fid)
    | New(f: Fid, h: Callbacks)
    | Insert(f: Fid, h: Callbacks)
    | RegLock(f: Fid, h: Callbacks)
    | RegInsert(f: Fid, h: Callbacks)
    | RegEpoll(f: Fid)
    | Installing(f: Fid, h: Callbacks, k: nat)
    | ConLock(f: Fid)
    | SetConnected(f: Fid)
    | ConUnlock(f: Fid)
    | Notify(f: Fid)
    | CallConnected(f: Fid)
    | CloseReq(f: Fid)
    | RemLock(f: Fid)
    | RemErase(f: Fid)
    | RemEpoll(f: Fid)
    | CloseDown(f: Fid)
    | Reap(f: Fid)
    | Free(f: Fid)
    | Crashed(why: Fault)

  datatype WorkerPc =
    | Polling
    | Gate(c: Fid)
    | Locking(c: Fid)
    | Testing(c: Fid)
    | Blocked(c: Fid)
    | Waking(c: Fid)
    | Unlocking(c: Fid)
    | Dispatching(c: Fid)

  /** What a receive completion saw when it read the connection's callbacks. */
  datatype Dispatch = Dispatch(worker: nat, c: Fid, callbacks: Callbacks, wasConnected: bool, junk: Option<nat>)

  datatype Config = Config(isServer: bool, workers: nat, callbacks: Callbacks, maxCalls: nat)

  datatype State = State(
    conns: map<Fid, Conn>,
    conMap: set<Fid>,
    eventMap: map<Fid, Callbacks>,
    interest: set<Fid>,
    snapshot: map<Fid, Callbacks>,
    listener: Option<Fid>,
    proactor: Option<Thread>,
    seqNum: nat,
    eq: Pc,
    user: Pc,
    workers: seq<WorkerPc>,
    calls: nat,
    log: seq<Dispatch>)
  {
    function Con(f: Fid): Conn {
      if f in conns then conns[f] else NO_CONN
    }

    function At(t: Thread): Pc {
      if t.Eq? then eq else user
    }

    function Goto(t: Thread, pc: Pc): State {
      if t.Eq? then this.(eq := pc) else this.(user := pc)
    }

    function SetCon(f: Fid, c: Conn): State {
      this.(conns := conns[f := c])
    }

    function Worker(w: nat): WorkerPc {
      if w < |workers| then workers[w] else Polling
    }

    function SetWorker(w: nat, pc: WorkerPc): State {
      if w < |workers| then this.(workers := workers[w := pc]) else this
    }
  }

  function Init(cfg: Config): State {
    State(map[], {}, map[], {}, map[], None, None, 0, Top, Top,
          seq(cfg.workers, _ => Polling), 0, [])
  }

  datatype Step =
    | Listen(f: Fid)
    | Connect(f: Fid, junk: Option<nat>)
    | Shutdown(f: Fid)
    | Snapshot
    | Timeout
    | Poll(f: Fid)
    | ConnReqEvent(n: Fid, junk: Option<nat>)
    | ConnectedEvent
    | ShutdownEvent
    | NotifyOne(w: nat)
    | NotifyNobody
    | Advance(t: Thread)
    | Deliver(w: nat, c: Fid)
    | Work(w: nat)
    | SpuriousWake(w: nat)

  predicate FreshFid(s: State, f: Fid) {
    f !in s.conns && s.listener != Some(f)
  }

  predicate TearingDown(pc: Pc) {
    pc.RemLock? || pc.RemErase? || pc.RemEpoll? || pc.Reap? || pc.Free?
  }

  /** The next statement of `t` needs no choice by the environment, and the mutex it locks is free. */
  predicate CanAdvance(s: State, t: Thread) {
    var pc := s.At(t);
    && (Registering(pc) || Establishing(pc) || Unregistering(pc) || Retiring(pc))
    && (pc.RegLock? || pc.RemLock? ==> s.proactor.None?)
    && (pc.ConLock? ==> s.Con(pc.f).lock.None?)
  }

  predicate CanWork(s: State, w: nat) {
    && w < |s.workers|
    && !s.workers[w].Polling? && !s.workers[w].Blocked?
    && (s.workers[w].Locking? || s.workers[w].Waking? ==> s.Con(s.workers[w].c).lock.None?)
  }

  predicate Enabled(cfg: Config, s: State, step: Step) {
    match step
    case Listen(f) =>
      cfg.isServer && s.user.Top? && s.listener.None? && s.calls < cfg.maxCalls && FreshFid(s, f)
    case Connect(f, _) =>
      !cfg.isServer && s.user.Top? && s.calls < cfg.maxCalls && FreshFid(s, f) && 0 < cfg.workers
    case Shutdown(f) =>
      s.user.Top? && s.eq.Top? && f in s.conns && s.Con(f).published && !s.Con(f).freed
    case Snapshot => s.eq.Top? && s.proactor.None? && !TearingDown(s.user)
    case Timeout => s.eq.Waiting? || s.eq.Picked?
    case Poll(f) => s.eq.Waiting? && s.snapshot != map[] && f in s.interest
    case ConnReqEvent(n, _) =>
      s.eq.Picked? && s.listener == Some(s.eq.f) && FreshFid(s, n) && 0 < cfg.workers
    case ConnectedEvent => s.eq.Picked? && s.listener != Some(s.eq.f)
    case ShutdownEvent => s.eq.Picked? && s.listener != Some(s.eq.f)
    case NotifyOne(w) => s.eq.Notify? && w < |s.workers| && s.workers[w] == Blocked(s.eq.f)
    case NotifyNobody => s.eq.Notify? && forall w :: 0 <= w < |s.workers| ==> s.workers[w] != Blocked(s.eq.f)
    case Advance(t) =>
      CanAdvance(s, t)
    case Deliver(w, c) =>
      w < |s.workers| && s.workers[w].Polling? && c in s.conns && s.Con(c).cq == w && !s.Con(c).freed
    case Work(w) =>
      CanWork(s, w)
    case SpuriousWake(w) => w < |s.workers| && s.workers[w].Blocked?
  }

  /** MsgStack::connect and MsgStack::accept up to a successful init. */
  function NewConn(cfg: Config, s: State, t: Thread, f: Fid, h: Callbacks, junk: Option<nat>): State
    requires 0 < cfg.workers
  {
    s.SetCon(f, FreshCon(s.seqNum % cfg.workers, junk)).Goto(t, New(f, h))
  }

  /** handle_event returns and eq_service clears the snapshot. */
  function EqDone(s: State): State {
    s.(eq := Top, snapshot := map[])
  }

  function Done(s: State, t: Thread): State {
    if t.Eq? then EqDone(s) else s.(user := Top)
  }

  /** Statements of MsgStack::connect and accept from the status write on, and of
      Proactor::register_handler. */
  predicate Registering(pc: Pc) {
    pc.New? || pc.Insert? || pc.RegLock? || pc.RegInsert? || pc.RegEpoll?
  }

  function Register(s: State, t: Thread): State
    requires Registering(s.At(t))
  {
    match s.At(t)
    case New(f, h) =>
      s.SetCon(f, s.Con(f).(status := if t.Eq? then AcceptReq else ConnectReq))
       .(seqNum := s.seqNum + 1).Goto(t, Insert(f, h))
    case Insert(f, h) =>
      s.(conMap := s.conMap + {f}).Goto(t, RegLock(f, h))
    case RegLock(f, h) =>
      s.(proactor := Some(t)).Goto(t, RegInsert(f, h))
    case RegInsert(f, h) =>
      s.(eventMap := if f in s.eventMap then s.eventMap else s.eventMap[f := h]).Goto(t, RegEpoll(f))
    case RegEpoll(f) =>
      Done(s.(interest := s.interest + {f}, proactor := None), t)
  }

  /** Statements of the CONNECTED_EVENT branch of EqHandler::handle_event. */
  predicate Establishing(pc: Pc) {
    pc.Installing? || pc.ConLock? || pc.SetConnected? || pc.ConUnlock? || pc.CallConnected?
  }

  /** One statement of that branch: its effect on the connection and the next statement. */
  function EstablishStep(c: Conn, pc: Pc): (Conn, Pc)
    requires Establishing(pc)
  {
    match pc
    case Installing(f, h, k) =>
      if k < 5 then (c.(callbacks := if h[k].Some? then c.callbacks[k := h[k]] else c.callbacks), Installing(f, h, k + 1))
      else (c, ConLock(f))
    case ConLock(f) => (c.(lock := Some(EqOwner)), SetConnected(f))
    case SetConnected(f) => (c.(status := Connected, wasConnected := true), ConUnlock(f))
    case ConUnlock(f) => (c.(lock := None), Notify(f))
    case CallConnected(f) => (c.(published := true), Top)
  }

  function Establish(s: State, t: Thread): State
    requires Establishing(s.At(t))
  {
    var (c, pc) := EstablishStep(s.Con(s.At(t).f), s.At(t));
    var s' := s.SetCon(s.At(t).f, c);
    if pc.Top? then Done(s', t) else s'.Goto(t, pc)
  }

  /** Statements of Proactor::remove_handler. */
  predicate Unregistering(pc: Pc) {
    pc.RemLock? || pc.RemErase? || pc.RemEpoll?
  }

  function Unregister(s: State, t: Thread): State
    requires Unregistering(s.At(t))
  {
    var f := s.At(t).f;
    var next := if t.Eq? then CloseDown(f) else Reap(f);
    match s.At(t)
    case RemLock(_) => s.(proactor := Some(t)).Goto(t, RemErase(f))
    case RemErase(_) =>
      if f in s.eventMap then s.(eventMap := s.eventMap - {f}).Goto(t, RemEpoll(f))
      else s.(proactor := None).Goto(t, next)
    case RemEpoll(_) => s.(interest := s.interest - {f}, proactor := None).Goto(t, next)
  }

  /** The other statements of the CLOSE_EVENT branch and of Service::shutdown(Connection*). */
  predicate Retiring(pc: Pc) {
    pc.CloseReq? || pc.CloseDown? || pc.Reap? || pc.Free?
  }

  function Retire(s: State, t: Thread): State
    requires Retiring(s.At(t))
  {
    var f := s.At(t).f;
    match s.At(t)
    case CloseReq(_) => s.SetCon(f, s.Con(f).(status := ShutdownReq)).Goto(t, RemLock(f))
    case CloseDown(_) => s.SetCon(f, s.Con(f).(status := Down)).Goto(t, Reap(f))
    case Reap(_) =>
      if f !in s.conMap then s.Goto(t, Crashed(ReapMissing))
      else if t.Eq? then EqDone(s.(conMap := s.conMap - {f}))
      else s.(conMap := s.conMap - {f}).Goto(t, Free(f))
    case Free(_) => Done(s.SetCon(f, s.Con(f).(freed := true)), t)
  }

  /** One statement of the FI_RECV branch of CqDemultiplexer::wait_event by worker `w`. */
  function GateStep(c: Conn, w: nat, pc: WorkerPc): (Conn, WorkerPc)
    requires !pc.Polling? && !pc.Blocked?
  {
    var open := Connected.Rank() <= c.status.Rank();
    match pc
    case Gate(f) => (c, if open then Dispatching(f) else Locking(f))
    case Locking(f) => (c.(lock := Some(WorkerOwner(w))), Testing(f))
    case Waking(f) => (c.(lock := Some(WorkerOwner(w))), Testing(f))
    case Testing(f) => if open then (c, Unlocking(f)) else (c.(lock := None), Blocked(f))
    case Unlocking(f) => (c.(lock := None), Dispatching(f))
    case Dispatching(f) => (c.(published := c.published || c.callbacks[RECV].Some?), Polling)
  }

  function WorkOn(s: State, w: nat): State
    requires w < |s.workers| && !s.workers[w].Polling? && !s.workers[w].Blocked?
  {
    var f := s.workers[w].c;
    var (c, pc) := GateStep(s.Con(f), w, s.workers[w]);
    s.SetCon(f, c).SetWorker(w, pc).(log :=
      if s.workers[w].Dispatching? then s.log + [Dispatch(w, f, s.Con(f).callbacks, s.Con(f).wasConnected, s.Con(f).junk)] else s.log)
  }

  function Apply(cfg: Config, s: State, step: Step): State
    requires Enabled(cfg, s, step)
  {
    match step
    case Listen(f) =>
      s.(listener := Some(f), calls := s.calls + 1).Goto(User, RegLock(f, cfg.callbacks))
    case Connect(f, junk) => NewConn(cfg, s.(calls := s.calls + 1), User, f, cfg.callbacks, junk)
    case Shutdown(f) => s.Goto(User, RemLock(f))
    case Snapshot => s.(snapshot := s.eventMap, eq := Waiting)
    case Timeout => EqDone(s)
    case Poll(f) => s.(eq := if f in s.snapshot then Picked(f) else Crashed(SnapshotMiss))
    case ConnReqEvent(n, junk) =>
      NewConn(cfg, s, Eq, n, if s.eq.f in s.snapshot then s.snapshot[s.eq.f] else NO_CALLBACKS, junk)
    case ConnectedEvent =>
      if s.eq.f !in s.conMap then s.(eq := Crashed(NoConnection))
      else s.(eq := Installing(s.eq.f, if s.eq.f in s.snapshot then s.snapshot[s.eq.f] else NO_CALLBACKS, 0))
    case ShutdownEvent =>
      s.(eq := if s.eq.f !in s.conMap then Crashed(NoConnection) else CloseReq(s.eq.f))
    case NotifyOne(w) => s.SetWorker(w, Waking(s.eq.f)).(eq := CallConnected(s.eq.f))
    case NotifyNobody => s.(eq := CallConnected(s.eq.f))
    case Advance(t) =>
      if Registering(s.At(t)) then Register(s, t)
      else if Establishing(s.At(t)) then Establish(s, t)
      else if Unregistering(s.At(t)) then Unregister(s, t)
      else Retire(s, t)
    case Deliver(w, c) => s.SetWorker(w, Gate(c))
    case Work(w) => WorkOn(s, w)
    case SpuriousWake(w) => s.SetWorker(w, Waking(s.workers[w].c))
  }

  /** A run: every step is enabled where it is taken. */
  ghost predicate IsRun(cfg: Config, s: State, steps: seq<Step>)
    decreases |steps|
  {
    steps == [] || (Enabled(cfg, s, steps[0]) && IsRun(cfg, Apply(cfg, s, steps[0]), steps[1..]))
  }

  ghost function After(cfg: Config, s: State, steps: seq<Step>): State
    requires IsRun(cfg, s, steps)
    decreases |steps|
  {
    if steps == [] then s else After(cfg, Apply(cfg, s, steps[0]), steps[1..])
  }
}
