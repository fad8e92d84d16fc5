/**
 The inductive invariant of the lifecycle machine and its preservation by every step.
 Almost all of it is local to one event queue: `ViewOf(s, f)` gathers what the state says
 about queue `f`, and a step changes the view of one queue only.
 */
module LifecycleInvariant {
  import opened Common
  import opened Lifecycle

  /** Everything about one queue: its connection, its place in conMap, eventMap and the epoll
      set, what each thread is doing to it, and where its one worker stands. */
  datatype View = View(con: Option<Conn>, listed: bool, handler: Option<Callbacks>, watched: bool,
                       listens: bool, eq: Pc, user: Pc, gate: WorkerPc)
  {
    function Con(): Conn {
      if con.Some? then con.value else NO_CONN
    }

    function At(t: Thread): Pc {
      if t.Eq? then eq else user
    }

    function Goto(t: Thread, pc: Pc): View {
      if t.Eq? then this.(eq := pc) else this.(user := pc)
    }
  }

  /** The thread's statement if it works on `f`, otherwise Top. */
  function Focus(pc: Pc, f: Fid): Pc {
    if pc.Top? || pc.Waiting? || pc.Crashed? || pc.f != f then Top else pc
  }

  function FocusWorker(pc: WorkerPc, f: Fid): WorkerPc {
    if pc.Polling? || pc.c != f then Polling else pc
  }

  function ViewOf(s: State, f: Fid): View {
    View(if f in s.conns then Some(s.conns[f]) else None,
         f in s.conMap,
         if f in s.eventMap then Some(s.eventMap[f]) else None,
         f in s.interest,
         s.listener == Some(f),
         Focus(s.eq, f),
         Focus(s.user, f),
         if f in s.conns then FocusWorker(s.Worker(s.conns[f].cq), f) else Polling)
  }

  predicate Unregistered(v: View) {
    v.handler.None? && !v.watched
  }

  predicate Created(v: View) {
    v.con.Some? && !v.listed && Unregistered(v) && !v.con.value.wasConnected && !v.con.value.freed
  }

  /** Ready for registration: the listener, or a connection whose REQ status is written. */
  predicate Requested(v: View) {
    v.listens || (v.listed && v.con.Some? && 0 < v.con.value.status.Rank() < 3)
  }

  predicate Live(v: View) {
    && v.listed && v.con.Some? && 0 < v.con.value.status.Rank() < 4
    && v.handler.Some? && v.watched
  }

  predicate ClosingOk(v: View) {
    v.listed && v.con.Some? && v.con.value.status == ShutdownReq
  }

  /** What holds of the queue a thread is working on. */
  predicate At(cfg: Config, t: Thread, pc: Pc, v: View) {
    match pc
    case Top => true
    case Waiting => true
    case Crashed(_) => true
    case Picked(_) => t.Eq? && v.handler.Some? && v.watched && (v.listens || Live(v))
    case New(_, h) => Created(v) && v.con.value.status.Idle? && h == cfg.callbacks
    case Insert(_, h) => Created(v) && 0 < v.con.value.status.Rank() < 3 && h == cfg.callbacks
    case RegLock(_, h) => Unregistered(v) && Requested(v) && h == cfg.callbacks
    case RegInsert(_, h) => Unregistered(v) && Requested(v) && h == cfg.callbacks
    case RegEpoll(_) => v.handler.Some? && !v.watched && Requested(v)
    case Installing(_, h, k) =>
      && t.Eq? && Live(v) && h == cfg.callbacks && k <= 5
      && forall i :: 0 <= i < 5 ==>
           v.con.value.callbacks[i] == Full(cfg.callbacks, v.con.value.junk)[i] ||
           (k <= i && v.con.value.callbacks[i] == Blank(v.con.value.junk)[i])
    case ConLock(_) => t.Eq? && Live(v) && v.con.value.callbacks == Full(cfg.callbacks, v.con.value.junk)
    case SetConnected(_) => t.Eq? && Live(v) && v.con.value.callbacks == Full(cfg.callbacks, v.con.value.junk)
    case ConUnlock(_) => t.Eq? && Live(v) && v.con.value.wasConnected
    case Notify(_) => t.Eq? && Live(v) && v.con.value.wasConnected
    case CallConnected(_) => t.Eq? && Live(v) && v.con.value.wasConnected
    case CloseReq(_) => t.Eq? && Live(v)
    case RemLock(_) => v.con.Some? && (t.Eq? ==> ClosingOk(v) && v.handler.Some? && v.watched)
    case RemErase(_) => v.con.Some? && (t.Eq? ==> ClosingOk(v) && v.handler.Some? && v.watched)
    case RemEpoll(_) => v.con.Some? && v.handler.None? && v.listed && (t.Eq? ==> ClosingOk(v))
    case CloseDown(_) => t.Eq? && ClosingOk(v) && Unregistered(v)
    case Reap(_) => v.con.Some? && Unregistered(v) && (t.Eq? ==> v.listed && v.con.value.status.Down?)
    case Free(_) => t.User? && v.con.Some? && Unregistered(v) && !v.listed
  }

  /** The EQ thread is between reading FI_CONNECTED and writing CONNECTED. */
  predicate Connecting(v: View) {
    v.eq.Installing? || v.eq.ConLock? || v.eq.SetConnected?
  }

  predicate Closing(pc: Pc) {
    pc.RemLock? || pc.RemErase? || pc.RemEpoll? || pc.CloseDown? || pc.Reap?
  }

  /** A connection's status history, callbacks and mutex. */
  predicate ConOk(cfg: Config, c: Conn, v: View) {
    && c.cq < cfg.workers
    && (c.wasConnected ==> 3 <= c.status.Rank() && c.callbacks == Full(cfg.callbacks, c.junk))
    && (!c.wasConnected ==> c.status != Connected && (Connecting(v) || c.callbacks == Blank(c.junk)))
    && (c.published ==> c.wasConnected)
    && (3 < c.status.Rank() ==> Unregistered(v) || Closing(v.eq))
    && (c.status.Down? ==> !v.listed || v.eq.Reap?)
    && (c.wasConnected && !v.listed ==> c.status.Down? || c.freed || v.user.Free?)
    && (c.freed ==> !v.listed)
    && (v.listed ==> 0 < c.status.Rank())
    && (c.lock == Some(EqOwner) <==> v.eq.SetConnected? || v.eq.ConUnlock?)
  }

  /** The gate; the second clause is the absence of lost wakeups. */
  predicate GateOk(c: Conn, v: View) {
    && (v.gate.Testing? || v.gate.Unlocking? ==> c.lock == Some(WorkerOwner(c.cq)))
    && (v.gate.Blocked? && c.wasConnected ==> v.eq.ConUnlock? || v.eq.Notify?)
    && (v.gate.Unlocking? || v.gate.Dispatching? ==> 3 <= c.status.Rank())
  }

  /** The invariant of one queue. */
  predicate Local(cfg: Config, v: View) {
    && (v.handler.Some? ==> v.handler.value == cfg.callbacks && (v.listens || v.listed))
    && (v.watched ==> v.handler.Some? || v.eq.RemEpoll? || v.user.RemEpoll?)
    && (v.listed ==> v.con.Some?)
    && (v.listens ==> v.con.None?)
    && (v.eq.Top? || v.user.Top?)
    && At(cfg, Eq, v.eq, v) && At(cfg, User, v.user, v)
    && (v.con.Some? ==> ConOk(cfg, v.con.value, v) && GateOk(v.con.value, v))
  }

  predicate HoldsProactor(pc: Pc) {
    pc.RegInsert? || pc.RegEpoll? || pc.RemErase? || pc.RemEpoll?
  }

  /** The threads against the proactor mutex and the snapshot. */
  predicate Threads(cfg: Config, s: State) {
    && (HoldsProactor(s.eq) <==> s.proactor == Some(Eq))
    && (HoldsProactor(s.user) <==> s.proactor == Some(User))
    && (s.proactor.None? <==> !HoldsProactor(s.eq) && !HoldsProactor(s.user))
    && (TearingDown(s.user) ==> s.eq.Top?)
    && (s.eq.Picked? ==> s.eq.f in s.snapshot)
    && (s.eq.Crashed? ==> s.eq.why.SnapshotMiss?)
    && (s.user.Crashed? ==> s.user.why.ReapMissing?)
    && (forall f :: f in s.snapshot ==> s.snapshot[f] == cfg.callbacks)
  }

  /** A receive completion either ran no callback or saw all of them. */
  predicate DispatchOk(cfg: Config, d: Dispatch) {
    if d.wasConnected then d.callbacks == Full(cfg.callbacks, d.junk) else d.callbacks == Blank(d.junk)
  }

  /** Worker `w` only ever works on connections bound to queue `w`. */
  predicate Bound(s: State, w: nat) {
    w < |s.workers| && !s.workers[w].Polling? ==> s.workers[w].c in s.conns && s.conns[s.workers[w].c].cq == w
  }

  ghost predicate Workers(cfg: Config, s: State) {
    && |s.workers| == cfg.workers
    && (forall w :: Bound(s, w))
    && (forall i :: 0 <= i < |s.log| ==> DispatchOk(cfg, s.log[i]))
  }

  ghost predicate Locals(cfg: Config, s: State) {
    forall f :: Local(cfg, ViewOf(s, f))
  }

  ghost predicate Inv(cfg: Config, s: State) {
    Threads(cfg, s) && Workers(cfg, s) && Locals(cfg, s)
  }

  lemma InitInv(cfg: Config)
    ensures Inv(cfg, Init(cfg))
  {
  }

  /** Views other than `f`'s are untouched. */
  ghost predicate OnlyTouches(s: State, s': State, f: Fid) {
    forall g :: g != f ==> ViewOf(s', g) == ViewOf(s, g)
  }

  lemma LocalStep(cfg: Config, s: State, s': State, f: Fid)
    requires Locals(cfg, s) && OnlyTouches(s, s', f) && Local(cfg, ViewOf(s', f))
    ensures Locals(cfg, s')
  {
    forall g ensures Local(cfg, ViewOf(s', g)) {
      assert Local(cfg, ViewOf(s, g));
    }
  }

  // ---------- how views follow updates ----------

  lemma GotoView(s: State, t: Thread, pc: Pc, f: Fid)
    ensures ViewOf(s.Goto(t, pc), f) == ViewOf(s, f).Goto(t, Focus(pc, f))
  {
  }

  lemma DoneView(s: State, t: Thread, f: Fid)
    ensures ViewOf(Done(s, t), f) == ViewOf(s, f).Goto(t, Top)
  {
  }

  lemma ConView(s: State, f: Fid, c: Conn)
    requires f in s.conns && c.cq == s.conns[f].cq
    ensures ViewOf(s.SetCon(f, c), f) == ViewOf(s, f).(con := Some(c))
  {
  }

  /** The effect of a registering statement on the queue it works on. */
  function RegisterView(v: View, t: Thread): View
    requires Registering(v.At(t))
  {
    match v.At(t)
    case New(f, h) =>
      v.(con := Some(v.Con().(status := if t.Eq? then AcceptReq else ConnectReq))).Goto(t, Insert(f, h))
    case Insert(f, h) => v.(listed := true).Goto(t, RegLock(f, h))
    case RegLock(f, h) => v.Goto(t, RegInsert(f, h))
    case RegInsert(f, h) => v.(handler := if v.handler.Some? then v.handler else Some(h)).Goto(t, RegEpoll(f))
    case RegEpoll(f) => v.(watched := true).Goto(t, Top)
  }

  lemma RegisterThreads(cfg: Config, s: State, t: Thread)
    requires CanAdvance(s, t) && Registering(s.At(t)) && Threads(cfg, s)
    requires Local(cfg, ViewOf(s, s.At(t).f))
    ensures Threads(cfg, Register(s, t))
  {
    if s.At(t).New? || s.At(t).Insert? || s.At(t).RegLock? {
      EarlyThreads(cfg, s, t);
    } else {
      LateThreads(cfg, s, t);
    }
  }

  lemma EarlyThreads(cfg: Config, s: State, t: Thread)
    requires CanAdvance(s, t) && (s.At(t).New? || s.At(t).Insert? || s.At(t).RegLock?) && Threads(cfg, s)
    requires !TearingDown(s.user) || s.eq.Top?
    ensures Threads(cfg, Register(s, t))
  {
  }

  lemma LateThreads(cfg: Config, s: State, t: Thread)
    requires CanAdvance(s, t) && (s.At(t).RegInsert? || s.At(t).RegEpoll?) && Threads(cfg, s)
    ensures Threads(cfg, Register(s, t))
  {
  }

  lemma RegisterWorkers(cfg: Config, s: State, t: Thread)
    requires Registering(s.At(t)) && Workers(cfg, s)
    ensures Workers(cfg, Register(s, t))
  {
    forall w ensures Bound(Register(s, t), w) { assert Bound(s, w); }
  }

  lemma RegisterOthers(s: State, t: Thread)
    requires Registering(s.At(t)) && (s.At(t).New? ==> s.At(t).f in s.conns)
    ensures OnlyTouches(s, Register(s, t), s.At(t).f)
  {
    forall g | g != s.At(t).f ensures ViewOf(Register(s, t), g) == ViewOf(s, g) {}
  }

  lemma EarlyEffect(s: State, t: Thread)
    requires (s.At(t).New? || s.At(t).Insert? || s.At(t).RegLock?) && (s.At(t).New? ==> s.At(t).f in s.conns)
    ensures ViewOf(Register(s, t), s.At(t).f) == RegisterView(ViewOf(s, s.At(t).f), t)
  {
    var f := s.At(t).f;
    match s.At(t)
    case New(_, h) =>
      var c := s.Con(f).(status := if t.Eq? then AcceptReq else ConnectReq);
      ConView(s, f, c);
      GotoView(s.SetCon(f, c).(seqNum := s.seqNum + 1), t, Insert(f, h), f);
    case Insert(_, h) => GotoView(s.(conMap := s.conMap + {f}), t, RegLock(f, h), f);
    case RegLock(_, h) => GotoView(s.(proactor := Some(t)), t, RegInsert(f, h), f);
  }

  lemma LateEffect(s: State, t: Thread)
    requires s.At(t).RegInsert? || s.At(t).RegEpoll?
    ensures ViewOf(Register(s, t), s.At(t).f) == RegisterView(ViewOf(s, s.At(t).f), t)
  {
    var f := s.At(t).f;
    match s.At(t)
    case RegInsert(_, h) =>
      GotoView(s.(eventMap := if f in s.eventMap then s.eventMap else s.eventMap[f := h]), t, RegEpoll(f), f);
    case RegEpoll(_) => DoneView(s.(interest := s.interest + {f}, proactor := None), t, f);
  }

  lemma RegisterEffect(s: State, t: Thread)
    requires Registering(s.At(t)) && (s.At(t).New? ==> s.At(t).f in s.conns)
    ensures ViewOf(Register(s, t), s.At(t).f) == RegisterView(ViewOf(s, s.At(t).f), t)
  {
    if s.At(t).RegInsert? || s.At(t).RegEpoll? {
      LateEffect(s, t);
    } else {
      EarlyEffect(s, t);
    }
  }

  lemma RegisterLocal(cfg: Config, v: View, t: Thread)
    requires Registering(v.At(t)) && Local(cfg, v)
    ensures Local(cfg, RegisterView(v, t))
  {
  }

  lemma RegisterInv(cfg: Config, s: State, t: Thread)
    requires Inv(cfg, s) && CanAdvance(s, t) && Registering(s.At(t))
    ensures Inv(cfg, Register(s, t))
  {
    assert Local(cfg, ViewOf(s, s.At(t).f));
    RegisterThreads(cfg, s, t);
    RegisterWorkers(cfg, s, t);
    RegisterOthers(s, t);
    RegisterEffect(s, t);
    RegisterLocal(cfg, ViewOf(s, s.At(t).f), t);
    LocalStep(cfg, s, Register(s, t), s.At(t).f);
  }

  function EstablishView(v: View, t: Thread): View
    requires Establishing(v.At(t))
  {
    var (c, pc) := EstablishStep(v.Con(), v.At(t));
    v.(con := Some(c)).Goto(t, pc)
  }

  lemma EstablishThreads(cfg: Config, s: State, t: Thread)
    requires CanAdvance(s, t) && Establishing(s.At(t)) && Threads(cfg, s)
    requires Local(cfg, ViewOf(s, s.At(t).f))
    ensures Threads(cfg, Establish(s, t))
  {
    EqThreads(cfg, s);
  }

  lemma EqThreads(cfg: Config, s: State)
    requires Establishing(s.eq) && Threads(cfg, s)
    ensures Threads(cfg, Establish(s, Eq))
  {
  }

  lemma EstablishWorkers(cfg: Config, s: State, t: Thread)
    requires Establishing(s.At(t)) && Workers(cfg, s)
    ensures Workers(cfg, Establish(s, t))
  {
    forall w ensures Bound(Establish(s, t), w) { assert Bound(s, w); }
  }

  lemma EstablishOthers(s: State, t: Thread)
    requires Establishing(s.At(t)) && s.At(t).f in s.conns
    ensures OnlyTouches(s, Establish(s, t), s.At(t).f)
  {
    forall g | g != s.At(t).f ensures ViewOf(Establish(s, t), g) == ViewOf(s, g) {}
  }

  lemma EstablishEffect(s: State, t: Thread)
    requires Establishing(s.At(t)) && s.At(t).f in s.conns
    ensures ViewOf(Establish(s, t), s.At(t).f) == EstablishView(ViewOf(s, s.At(t).f), t)
  {
    var f := s.At(t).f;
    var (c, pc) := EstablishStep(s.Con(f), s.At(t));
    ConView(s, f, c);
    if pc.Top? {
      DoneView(s.SetCon(f, c), t, f);
    } else {
      GotoView(s.SetCon(f, c), t, pc, f);
    }
  }

  lemma EstablishLocal(cfg: Config, v: View, t: Thread)
    requires Establishing(v.At(t)) && Local(cfg, v) && (v.At(t).ConLock? ==> v.Con().lock.None?)
    ensures Local(cfg, EstablishView(v, t))
  {
  }

  lemma EstablishInv(cfg: Config, s: State, t: Thread)
    requires Inv(cfg, s) && CanAdvance(s, t) && Establishing(s.At(t))
    ensures Inv(cfg, Establish(s, t))
  {
    assert Local(cfg, ViewOf(s, s.At(t).f));
    EstablishThreads(cfg, s, t);
    EstablishWorkers(cfg, s, t);
    EstablishOthers(s, t);
    EstablishEffect(s, t);
    EstablishLocal(cfg, ViewOf(s, s.At(t).f), t);
    LocalStep(cfg, s, Establish(s, t), s.At(t).f);
  }

  function UnregisterView(v: View, t: Thread): View
    requires Unregistering(v.At(t))
  {
    var f := v.At(t).f;
    var next := if t.Eq? then CloseDown(f) else Reap(f);
    match v.At(t)
    case RemLock(_) => v.Goto(t, RemErase(f))
    case RemErase(_) => if v.handler.Some? then v.(handler := None).Goto(t, RemEpoll(f)) else v.Goto(t, next)
    case RemEpoll(_) => v.(watched := false).Goto(t, next)
  }

  lemma UnregisterThreads(cfg: Config, s: State, t: Thread)
    requires CanAdvance(s, t) && Unregistering(s.At(t))
    requires Local(cfg, ViewOf(s, s.At(t).f)) && Threads(cfg, s) && Workers(cfg, s)
    ensures Threads(cfg, Unregister(s, t))
  {
  }

  lemma UnregisterWorkers(cfg: Config, s: State, t: Thread)
    requires Unregistering(s.At(t)) && Workers(cfg, s)
    ensures Workers(cfg, Unregister(s, t))
  {
    forall w ensures Bound(Unregister(s, t), w) { assert Bound(s, w); }
  }

  lemma UnregisterOthers(s: State, t: Thread)
    requires Unregistering(s.At(t))
    ensures OnlyTouches(s, Unregister(s, t), s.At(t).f)
  {
    forall g | g != s.At(t).f ensures ViewOf(Unregister(s, t), g) == ViewOf(s, g) {}
  }

  lemma UnregisterEffect(s: State, t: Thread)
    requires Unregistering(s.At(t))
    ensures ViewOf(Unregister(s, t), s.At(t).f) == UnregisterView(ViewOf(s, s.At(t).f), t)
  {
    var f := s.At(t).f;
    if s.At(t).RemLock? {
      assert ViewOf(Unregister(s, t), f) == UnregisterView(ViewOf(s, f), t);
    } else if s.At(t).RemErase? {
      assert ViewOf(Unregister(s, t), f) == UnregisterView(ViewOf(s, f), t);
    }
  }

  lemma UnregisterLocal(cfg: Config, v: View, t: Thread)
    requires Unregistering(v.At(t)) && Local(cfg, v)
    ensures Local(cfg, UnregisterView(v, t))
  {
  }

  lemma UnregisterInv(cfg: Config, s: State, t: Thread)
    requires Inv(cfg, s) && CanAdvance(s, t) && Unregistering(s.At(t))
    ensures Inv(cfg, Unregister(s, t))
  {
    assert Local(cfg, ViewOf(s, s.At(t).f));
    UnregisterThreads(cfg, s, t);
    UnregisterWorkers(cfg, s, t);
    UnregisterOthers(s, t);
    UnregisterEffect(s, t);
    UnregisterLocal(cfg, ViewOf(s, s.At(t).f), t);
    LocalStep(cfg, s, Unregister(s, t), s.At(t).f);
  }

  function RetireView(v: View, t: Thread): View
    requires Retiring(v.At(t))
  {
    var f := v.At(t).f;
    match v.At(t)
    case CloseReq(_) => v.(con := Some(v.Con().(status := ShutdownReq))).Goto(t, RemLock(f))
    case CloseDown(_) => v.(con := Some(v.Con().(status := Down))).Goto(t, Reap(f))
    case Reap(_) => v.(listed := false).Goto(t, if v.listed && t.User? then Free(f) else Top)
    case Free(_) => v.(con := Some(v.Con().(freed := true))).Goto(t, Top)
  }

  lemma RetireThreads(cfg: Config, s: State, t: Thread)
    requires CanAdvance(s, t) && Retiring(s.At(t))
    requires Local(cfg, ViewOf(s, s.At(t).f)) && Threads(cfg, s) && Workers(cfg, s)
    ensures Threads(cfg, Retire(s, t))
  {
  }

  lemma RetireWorkers(cfg: Config, s: State, t: Thread)
    requires Retiring(s.At(t)) && Workers(cfg, s)
    ensures Workers(cfg, Retire(s, t))
  {
    forall w ensures Bound(Retire(s, t), w) { assert Bound(s, w); }
  }

  lemma RetireOthers(s: State, t: Thread)
    requires Retiring(s.At(t)) && s.At(t).f in s.conns
    ensures OnlyTouches(s, Retire(s, t), s.At(t).f)
  {
    forall g | g != s.At(t).f ensures ViewOf(Retire(s, t), g) == ViewOf(s, g) {}
  }

  lemma RetireEffect(s: State, t: Thread)
    requires Retiring(s.At(t)) && s.At(t).f in s.conns
    ensures ViewOf(Retire(s, t), s.At(t).f) == RetireView(ViewOf(s, s.At(t).f), t)
  {
    var f := s.At(t).f;
    match s.At(t)
    case CloseReq(_) =>
      var c := s.Con(f).(status := ShutdownReq);
      ConView(s, f, c);
      GotoView(s.SetCon(f, c), t, RemLock(f), f);
    case CloseDown(_) =>
      var c := s.Con(f).(status := Down);
      ConView(s, f, c);
      GotoView(s.SetCon(f, c), t, Reap(f), f);
    case Reap(_) =>
      if f !in s.conMap {
        GotoView(s, t, Crashed(ReapMissing), f);
      } else if t.Eq? {
        DoneView(s.(conMap := s.conMap - {f}), t, f);
      } else {
        GotoView(s.(conMap := s.conMap - {f}), t, Free(f), f);
      }
    case Free(_) =>
      var c := s.Con(f).(freed := true);
      ConView(s, f, c);
      DoneView(s.SetCon(f, c), t, f);
  }

  lemma CloseLocal(cfg: Config, v: View, t: Thread)
    requires (v.At(t).CloseReq? || v.At(t).CloseDown?) && Local(cfg, v)
    ensures Local(cfg, RetireView(v, t))
  {
  }

  lemma ReapLocal(cfg: Config, v: View, t: Thread)
    requires (v.At(t).Reap? || v.At(t).Free?) && Local(cfg, v)
    ensures Local(cfg, RetireView(v, t))
  {
  }

  lemma RetireLocal(cfg: Config, v: View, t: Thread)
    requires Retiring(v.At(t)) && Local(cfg, v)
    ensures Local(cfg, RetireView(v, t))
  {
    if v.At(t).CloseReq? || v.At(t).CloseDown? {
      CloseLocal(cfg, v, t);
    } else {
      ReapLocal(cfg, v, t);
    }
  }

  lemma RetireLocals(cfg: Config, s: State, t: Thread)
    requires Locals(cfg, s) && CanAdvance(s, t) && Retiring(s.At(t))
    ensures Locals(cfg, Retire(s, t))
  {
    assert Local(cfg, ViewOf(s, s.At(t).f));
    RetireOthers(s, t);
    RetireEffect(s, t);
    RetireLocal(cfg, ViewOf(s, s.At(t).f), t);
    LocalStep(cfg, s, Retire(s, t), s.At(t).f);
  }

  lemma RetireInv(cfg: Config, s: State, t: Thread)
    requires Inv(cfg, s) && CanAdvance(s, t) && Retiring(s.At(t))
    ensures Inv(cfg, Retire(s, t))
  {
    assert Local(cfg, ViewOf(s, s.At(t).f));
    RetireThreads(cfg, s, t);
    RetireWorkers(cfg, s, t);
    RetireLocals(cfg, s, t);
  }

  function WorkView(v: View, w: nat): View
    requires !v.gate.Polling? && !v.gate.Blocked?
  {
    var (c, pc) := GateStep(v.Con(), w, v.gate);
    v.(con := Some(c), gate := pc)
  }

  lemma WorkThreads(cfg: Config, s: State, w: nat)
    requires CanWork(s, w) && Threads(cfg, s) && Workers(cfg, s)
    requires Bound(s, w) && Local(cfg, ViewOf(s, s.workers[w].c))
    ensures Threads(cfg, WorkOn(s, w)) && Workers(cfg, WorkOn(s, w))
  {
    forall w' ensures Bound(WorkOn(s, w), w') { assert Bound(s, w'); }
  }

  lemma WorkEffect(s: State, w: nat)
    requires CanWork(s, w) && Bound(s, w)
    ensures OnlyTouches(s, WorkOn(s, w), s.workers[w].c)
    ensures ViewOf(WorkOn(s, w), s.workers[w].c) == WorkView(ViewOf(s, s.workers[w].c), w)
  {
    forall g | g != s.workers[w].c ensures ViewOf(WorkOn(s, w), g) == ViewOf(s, g) {}
  }

  /** What a thread's place asserts of a queue does not depend on the worker at its gate. */
  lemma AtGate(cfg: Config, t: Thread, pc: Pc, v: View, v': View)
    requires At(cfg, t, pc, v) && v.con.Some? && v'.con.Some?
    requires v' == v.(con := v'.con, gate := v'.gate)
    requires v'.con.value == v.con.value.(lock := v'.con.value.lock, published := v'.con.value.published)
    ensures At(cfg, t, pc, v')
  {
  }

  lemma WorkLocal(cfg: Config, v: View)
    requires v.con.Some? && !v.gate.Polling? && !v.gate.Blocked? && Local(cfg, v)
    requires v.gate.Locking? || v.gate.Waking? ==> v.con.value.lock.None?
    ensures Local(cfg, WorkView(v, v.con.value.cq))
  {
    var v' := WorkView(v, v.con.value.cq);
    AtGate(cfg, Eq, v.eq, v, v');
    AtGate(cfg, User, v.user, v, v');
    WorkCon(cfg, v);
  }

  lemma WorkCon(cfg: Config, v: View)
    requires v.con.Some? && !v.gate.Polling? && !v.gate.Blocked?
    requires ConOk(cfg, v.con.value, v) && GateOk(v.con.value, v)
    requires v.eq.Notify? || v.eq.ConUnlock? ==> v.con.value.wasConnected
    requires Connecting(v) ==> v.con.value.status.Rank() < ShutdownReq.Rank()
    requires v.gate.Locking? || v.gate.Waking? ==> v.con.value.lock.None?
    ensures var v' := WorkView(v, v.con.value.cq); ConOk(cfg, v'.con.value, v') && GateOk(v'.con.value, v')
  {
  }

  predicate Wakes(step: Step) {
    step.NotifyOne? || step.NotifyNobody? || step.Deliver? || step.SpuriousWake?
  }

  function WakeSubject(s: State, step: Step): Fid
    requires Wakes(step)
  {
    if step.Deliver? then step.c
    else if step.SpuriousWake? && !s.Worker(step.w).Polling? then s.Worker(step.w).c
    else if s.eq.Notify? then s.eq.f else 0
  }

  lemma WakeThreads(cfg: Config, s: State, step: Step)
    requires Wakes(step) && Enabled(cfg, s, step) && Threads(cfg, s)
    ensures Threads(cfg, Apply(cfg, s, step))
  {
  }

  lemma WakeWorkers(cfg: Config, s: State, step: Step)
    requires Wakes(step) && Enabled(cfg, s, step) && Workers(cfg, s)
    ensures Workers(cfg, Apply(cfg, s, step))
  {
    forall w ensures Bound(Apply(cfg, s, step), w) { assert Bound(s, w); }
  }

  lemma WakeOther(cfg: Config, s: State, step: Step, g: Fid)
    requires Wakes(step) && Enabled(cfg, s, step) && g != WakeSubject(s, step)
    requires !step.NotifyNobody? ==> Bound(s, step.w)
    ensures ViewOf(Apply(cfg, s, step), g) == ViewOf(s, g)
  {
  }

  lemma WakeOthers(cfg: Config, s: State, step: Step)
    requires Wakes(step) && Enabled(cfg, s, step) && Threads(cfg, s) && Workers(cfg, s)
    ensures Threads(cfg, Apply(cfg, s, step)) && Workers(cfg, Apply(cfg, s, step))
    ensures OnlyTouches(s, Apply(cfg, s, step), WakeSubject(s, step))
  {
    WakeThreads(cfg, s, step);
    WakeWorkers(cfg, s, step);
    assert !step.NotifyNobody? ==> Bound(s, step.w);
    forall g | g != WakeSubject(s, step) ensures ViewOf(Apply(cfg, s, step), g) == ViewOf(s, g) {
      WakeOther(cfg, s, step, g);
    }
  }

  lemma NotifyLocal(cfg: Config, s: State, step: Step)
    requires (step.NotifyOne? || step.NotifyNobody?) && Enabled(cfg, s, step)
    requires Local(cfg, ViewOf(s, s.eq.f)) && |s.workers| == cfg.workers
    requires step.NotifyOne? ==> Bound(s, step.w)
    ensures Local(cfg, ViewOf(Apply(cfg, s, step), s.eq.f))
  {
  }

  lemma DeliverLocal(cfg: Config, s: State, step: Step)
    requires step.Deliver? && Enabled(cfg, s, step)
    requires Local(cfg, ViewOf(s, step.c)) && Bound(s, step.w)
    ensures Local(cfg, ViewOf(Apply(cfg, s, step), step.c))
  {
  }

  lemma SpuriousLocal(cfg: Config, s: State, step: Step)
    requires step.SpuriousWake? && Enabled(cfg, s, step)
    requires Local(cfg, ViewOf(s, s.workers[step.w].c)) && Bound(s, step.w)
    ensures Local(cfg, ViewOf(Apply(cfg, s, step), s.workers[step.w].c))
  {
  }

  /** The calls of the user thread and the events read by the EQ thread. */
  predicate Calls(step: Step) {
    !step.Advance? && !step.Work? && !Wakes(step)
  }

  lemma CallOthers(cfg: Config, s: State, step: Step)
    requires Inv(cfg, s) && Calls(step) && Enabled(cfg, s, step)
    ensures Threads(cfg, Apply(cfg, s, step)) && Workers(cfg, Apply(cfg, s, step))
  {
    var s' := Apply(cfg, s, step);
    assert s.eq.Picked? ==> Local(cfg, ViewOf(s, s.eq.f));
    forall w ensures Bound(s', w) { assert Bound(s, w); }
    forall g ensures g in s.eventMap ==> s.eventMap[g] == cfg.callbacks {
      assert Local(cfg, ViewOf(s, g));
    }
  }

  lemma ConnectOther(cfg: Config, s: State, step: Step, f: Fid)
    requires step.Connect? && Enabled(cfg, s, step) && f != step.f
    ensures ViewOf(Apply(cfg, s, step), f) == ViewOf(s, f)
  {
  }

  lemma ConnectLocal(cfg: Config, s: State, step: Step, f: Fid)
    requires step.Connect? && Enabled(cfg, s, step)
    requires Threads(cfg, s) && Bound(s, s.seqNum % cfg.workers) && Local(cfg, ViewOf(s, f))
    ensures Local(cfg, ViewOf(Apply(cfg, s, step), f))
  {
    if f != step.f {
      ConnectOther(cfg, s, step, f);
    } else {
      assert ViewOf(Apply(cfg, s, step), f).con == Some(FreshCon(s.seqNum % cfg.workers, step.junk));
    }
  }

  lemma AcceptLocal(cfg: Config, s: State, step: Step, f: Fid)
    requires step.ConnReqEvent? && Enabled(cfg, s, step)
    requires Threads(cfg, s) && Bound(s, s.seqNum % cfg.workers) && Local(cfg, ViewOf(s, f))
    ensures Local(cfg, ViewOf(Apply(cfg, s, step), f))
  {
  }

  lemma UserCallLocal(cfg: Config, s: State, step: Step, f: Fid)
    requires (step.Listen? || step.Shutdown?) && Enabled(cfg, s, step)
    requires Local(cfg, ViewOf(s, f))
    ensures Local(cfg, ViewOf(Apply(cfg, s, step), f))
  {
  }

  lemma PollLocal(cfg: Config, s: State, step: Step, f: Fid)
    requires (step.Snapshot? || step.Timeout? || step.Poll?) && Enabled(cfg, s, step)
    requires Threads(cfg, s) && Local(cfg, ViewOf(s, f))
    ensures Local(cfg, ViewOf(Apply(cfg, s, step), f))
  {
    var v, v' := ViewOf(s, f), ViewOf(Apply(cfg, s, step), f);
    if step.Poll? && step.f == f {
      assert v' == v.(eq := if f in s.snapshot then Picked(f) else Top);
    } else {
      assert v' == v.(eq := Top);
    }
  }

  lemma InstallingLocal(cfg: Config, v: View, f: Fid)
    requires Local(cfg, v) && v.eq == Picked(f) && Live(v)
    ensures Local(cfg, v.(eq := Installing(f, cfg.callbacks, 0)))
  {
  }

  lemma ConnectedOwn(cfg: Config, s: State)
    requires Enabled(cfg, s, ConnectedEvent) && Threads(cfg, s) && Local(cfg, ViewOf(s, s.eq.f))
    ensures Local(cfg, ViewOf(Apply(cfg, s, ConnectedEvent), s.eq.f))
  {
    var v := ViewOf(s, s.eq.f);
    assert Live(v) && s.snapshot[s.eq.f] == cfg.callbacks;
    assert ViewOf(Apply(cfg, s, ConnectedEvent), s.eq.f) == v.(eq := Installing(s.eq.f, cfg.callbacks, 0));
    InstallingLocal(cfg, v, s.eq.f);
  }

  lemma ConnectedOther(cfg: Config, s: State, f: Fid)
    requires Enabled(cfg, s, ConnectedEvent) && f != s.eq.f
    ensures ViewOf(Apply(cfg, s, ConnectedEvent), f) == ViewOf(s, f)
  {
  }

  lemma ConnectedLocal(cfg: Config, s: State, step: Step, f: Fid)
    requires step.ConnectedEvent? && Enabled(cfg, s, step)
    requires Threads(cfg, s) && Local(cfg, ViewOf(s, f))
    ensures Local(cfg, ViewOf(Apply(cfg, s, step), f))
  {
    if f != s.eq.f {
      ConnectedOther(cfg, s, f);
    } else {
      ConnectedOwn(cfg, s);
    }
  }

  lemma ShutdownLocal(cfg: Config, s: State, step: Step, f: Fid)
    requires step.ShutdownEvent? && Enabled(cfg, s, step)
    requires Threads(cfg, s) && Local(cfg, ViewOf(s, f))
    ensures Local(cfg, ViewOf(Apply(cfg, s, step), f))
  {
  }

  lemma CallInv(cfg: Config, s: State, step: Step)
    requires Inv(cfg, s) && Calls(step) && Enabled(cfg, s, step)
    ensures Inv(cfg, Apply(cfg, s, step))
  {
    CallOthers(cfg, s, step);
    forall f ensures Local(cfg, ViewOf(Apply(cfg, s, step), f)) {
      assert Local(cfg, ViewOf(s, f));
      if step.Connect? {
        assert Bound(s, s.seqNum % cfg.workers);
        ConnectLocal(cfg, s, step, f);
      } else if step.ConnReqEvent? {
        assert Bound(s, s.seqNum % cfg.workers);
        AcceptLocal(cfg, s, step, f);
      } else if step.Snapshot? || step.Timeout? || step.Poll? {
        PollLocal(cfg, s, step, f);
      } else if step.Listen? || step.Shutdown? {
        UserCallLocal(cfg, s, step, f);
      } else if step.ConnectedEvent? {
        ConnectedLocal(cfg, s, step, f);
      } else {
        ShutdownLocal(cfg, s, step, f);
      }
    }
  }

  lemma WakeInv(cfg: Config, s: State, step: Step)
    requires Inv(cfg, s) && Wakes(step) && Enabled(cfg, s, step)
    ensures Inv(cfg, Apply(cfg, s, step))
  {
    var f := WakeSubject(s, step);
    assert Local(cfg, ViewOf(s, f));
    assert !step.NotifyNobody? ==> Bound(s, step.w);
    WakeOthers(cfg, s, step);
    if step.Deliver? {
      DeliverLocal(cfg, s, step);
    } else if step.SpuriousWake? {
      SpuriousLocal(cfg, s, step);
    } else {
      NotifyLocal(cfg, s, step);
    }
    LocalStep(cfg, s, Apply(cfg, s, step), f);
  }

  lemma WorkInv(cfg: Config, s: State, w: nat)
    requires Inv(cfg, s) && CanWork(s, w)
    ensures Inv(cfg, WorkOn(s, w))
  {
    var f := s.workers[w].c;
    assert Bound(s, w) && Local(cfg, ViewOf(s, f));
    WorkThreads(cfg, s, w);
    WorkEffect(s, w);
    WorkLocal(cfg, ViewOf(s, f));
    LocalStep(cfg, s, WorkOn(s, w), f);
  }

  /** Every step of every thread keeps the invariant. */
  lemma StepInv(cfg: Config, s: State, step: Step)
    requires Inv(cfg, s) && Enabled(cfg, s, step)
    ensures Inv(cfg, Apply(cfg, s, step))
  {
    if step.Work? {
      WorkInv(cfg, s, step.w);
    } else if Wakes(step) {
      WakeInv(cfg, s, step);
    } else if Calls(step) {
      CallInv(cfg, s, step);
    } else if Registering(s.At(step.t)) {
      RegisterInv(cfg, s, step.t);
    } else if Establishing(s.At(step.t)) {
      EstablishInv(cfg, s, step.t);
    } else if Unregistering(s.At(step.t)) {
      UnregisterInv(cfg, s, step.t);
    } else {
      RetireInv(cfg, s, step.t);
    }
  }
}
