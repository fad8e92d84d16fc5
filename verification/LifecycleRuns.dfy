/**
 What one thread of the lifecycle machine does when no other thread steps in between: the effect of
 registering, removing, each branch of handle_event, a user's shutdown and a receive completion, and
 that each is a run of the machine.
 */
module LifecycleRuns {
  import opened Common
  import opened Lifecycle
  import opened LifecycleInvariant
  import opened LifecycleTheorems

  // ---------- one statement ----------

  lemma RegisterTo(cfg: Config, s: State, t: Thread, s': State)
    requires Reachable(cfg, s) && Registering(s.At(t)) && CanAdvance(s, t) && s' == Register(s, t)
    ensures Reachable(cfg, s')
  {
    ReachStep(cfg, s, Advance(t));
  }

  /** The EQ thread at `pc`, with the connection of f as it is then. */
  function Handling(s: State, f: Fid, c: Conn, pc: Pc): State {
    s.SetCon(f, c).(eq := pc)
  }

  lemma EstablishTo(cfg: Config, s: State, f: Fid, c: Conn, pc: Pc, c': Conn, pc': Pc)
    requires Reachable(cfg, Handling(s, f, c, pc)) && Establishing(pc) && pc.f == f && !pc'.Top?
    requires (pc.ConLock? ==> c.lock.None?) && (c', pc') == EstablishStep(c, pc)
    ensures Reachable(cfg, Handling(s, f, c', pc'))
  {
    var before, after := Handling(s, f, c, pc), Handling(s, f, c', pc');
    assert after.conns == Establish(before, Eq).conns;
    ReachStep(cfg, before, Advance(Eq));
  }

  lemma UnregisterTo(cfg: Config, s: State, t: Thread, s': State)
    requires Reachable(cfg, s) && Unregistering(s.At(t)) && CanAdvance(s, t) && s' == Unregister(s, t)
    ensures Reachable(cfg, s')
  {
    ReachStep(cfg, s, Advance(t));
  }

  lemma RetireTo(cfg: Config, s: State, t: Thread, s': State)
    requires Reachable(cfg, s) && Retiring(s.At(t)) && CanAdvance(s, t) && s' == Retire(s, t)
    ensures Reachable(cfg, s')
  {
    ReachStep(cfg, s, Advance(t));
  }

  // ---------- a method's statements ----------

  /** register_handler; on the EQ thread eq_service then clears the snapshot. */
  function RegisteredEffect(s: State, t: Thread, f: Fid, h: Callbacks): State {
    var s' := s.(eventMap := if f in s.eventMap then s.eventMap else s.eventMap[f := h], interest := s.interest + {f});
    Done(s', t)
  }

  lemma RegisterRun(cfg: Config, s: State, t: Thread, f: Fid, h: Callbacks)
    requires Reachable(cfg, s) && s.At(t) == RegLock(f, h) && s.proactor.None?
    ensures Reachable(cfg, RegisteredEffect(s, t, f, h))
  {
    var s1 := Register(s, t);
    RegisterTo(cfg, s, t, s1);
    var s2 := Register(s1, t);
    RegisterTo(cfg, s1, t, s2);
    RegisterTo(cfg, s2, t, Register(s2, t));
    assert Register(s2, t) == RegisteredEffect(s, t, f, h);
  }

  /** remove_handler. */
  function RemoveEffect(s: State, t: Thread, f: Fid): State {
    s.(eventMap := s.eventMap - {f}, interest := if f in s.eventMap then s.interest - {f} else s.interest)
     .Goto(t, if t.Eq? then CloseDown(f) else Reap(f))
  }

  lemma RemoveRun(cfg: Config, s: State, t: Thread, f: Fid)
    requires Reachable(cfg, s) && s.At(t) == RemLock(f) && s.proactor.None?
    ensures Reachable(cfg, RemoveEffect(s, t, f))
  {
    var s1 := Unregister(s, t);
    UnregisterTo(cfg, s, t, s1);
    var s2 := Unregister(s1, t);
    UnregisterTo(cfg, s1, t, s2);
    if f in s.eventMap {
      UnregisterTo(cfg, s2, t, Unregister(s2, t));
      assert Unregister(s2, t) == RemoveEffect(s, t, f);
    } else {
      assert s.eventMap - {f} == s.eventMap;
      assert s2 == RemoveEffect(s, t, f);
    }
  }

  /** The callbacks after the first k of the five conditional installations. */
  function InstalledUpTo(before: Callbacks, h: Callbacks, k: nat): Callbacks
    requires k <= 5
  {
    if k == 0 then before
    else
      var now := InstalledUpTo(before, h, k - 1);
      if h[k - 1].Some? then now[k - 1 := h[k - 1]] else now
  }

  lemma {:induction false} InstallRun(cfg: Config, s: State, f: Fid, c: Conn, h: Callbacks, k: nat)
    requires k <= 5 && Reachable(cfg, Handling(s, f, c, Installing(f, h, 0)))
    ensures Reachable(cfg, Handling(s, f, c.(callbacks := InstalledUpTo(c.callbacks, h, k)), Installing(f, h, k)))
  {
    if k == 0 {
      assert c.(callbacks := c.callbacks) == c;
    } else {
      InstallRun(cfg, s, f, c, h, k - 1);
      EstablishTo(cfg, s, f, c.(callbacks := InstalledUpTo(c.callbacks, h, k - 1)), Installing(f, h, k - 1),
                  c.(callbacks := InstalledUpTo(c.callbacks, h, k)), Installing(f, h, k));
    }
  }

  lemma {:induction false} InstalledAt(before: Callbacks, h: Callbacks, k: nat, i: nat)
    requires k <= 5 && i < 5
    ensures InstalledUpTo(before, h, k)[i] == if i < k && h[i].Some? then h[i] else before[i]
  {
    if k > 0 {
      InstalledAt(before, h, k - 1, i);
    }
  }

  /** The gate is opened: lock, status, unlock. */
  lemma OpenRun(cfg: Config, s: State, f: Fid, c: Conn, h: Callbacks)
    requires c.lock.None? && Reachable(cfg, Handling(s, f, c, Installing(f, h, 5)))
    ensures Reachable(cfg, Handling(s, f, c.(status := Connected, wasConnected := true), Notify(f)))
  {
    EstablishTo(cfg, s, f, c, Installing(f, h, 5), c, ConLock(f));
    var locked := c.(lock := Some(EqOwner));
    EstablishTo(cfg, s, f, c, ConLock(f), locked, SetConnected(f));
    var open := locked.(status := Connected, wasConnected := true);
    EstablishTo(cfg, s, f, locked, SetConnected(f), open, ConUnlock(f));
    EstablishTo(cfg, s, f, open, ConUnlock(f), open.(lock := None), Notify(f));
    assert open.(lock := None) == c.(status := Connected, wasConnected := true);
  }

  // ---------- CONNECTED_EVENT ----------

  function HandlerOf(s: State, f: Fid): Callbacks {
    if f in s.snapshot then s.snapshot[f] else NO_CALLBACKS
  }

  function Woken(workers: seq<WorkerPc>, f: Fid): seq<WorkerPc> {
    seq(|workers|, w requires 0 <= w < |workers| => if workers[w] == Blocked(f) then Waking(f) else workers[w])
  }

  /** The connection after the branch: callbacks installed and the gate open. */
  function ConnectedCon(c: Conn, h: Callbacks): Conn {
    c.(callbacks := InstalledUpTo(c.callbacks, h, 5), status := Connected, wasConnected := true)
  }

  lemma NotifyRun(cfg: Config, s: State, f: Fid)
    requires Reachable(cfg, s) && s.eq == Notify(f)
    ensures Reachable(cfg, s.(eq := CallConnected(f), workers := Woken(s.workers, f)))
  {
    if w: nat :| w < |s.workers| && s.workers[w] == Blocked(f) {
      forall v: nat | v < |s.workers| && s.workers[v] == Blocked(f) ensures v == w {
        OneWaiter(cfg, s, v, w);
      }
      assert Woken(s.workers, f) == s.workers[w := Waking(f)];
      ReachStep(cfg, s, NotifyOne(w));
    } else {
      assert Woken(s.workers, f) == s.workers;
      ReachStep(cfg, s, NotifyNobody);
    }
  }

  function ConnectedEffect(s: State, f: Fid): State
    requires f in s.conns
  {
    EqDone(s.SetCon(f, ConnectedCon(s.conns[f], HandlerOf(s, f)).(published := true)).(workers := Woken(s.workers, f)))
  }

  lemma StartInstalling(cfg: Config, s: State, f: Fid)
    requires Reachable(cfg, s) && s.eq == Picked(f) && s.listener != Some(f)
    ensures f in s.conMap && f in s.conns
    ensures Reachable(cfg, Handling(s, f, s.conns[f], Installing(f, HandlerOf(s, f), 0)))
  {
    ConnectionExists(cfg, s, f);
    ReachStep(cfg, s, ConnectedEvent);
    assert s.conns[f := s.conns[f]] == s.conns;
  }

  /** The connected callback, and back to eq_service. */
  lemma CallRun(cfg: Config, s: State, f: Fid, c: Conn, workers: seq<WorkerPc>)
    requires Reachable(cfg, s.SetCon(f, c).(eq := CallConnected(f), workers := workers))
    ensures Reachable(cfg, EqDone(s.SetCon(f, c.(published := true)).(workers := workers)))
  {
    var called := s.SetCon(f, c).(eq := CallConnected(f), workers := workers);
    assert Establish(called, Eq).conns == s.conns[f := c.(published := true)];
    ReachStep(cfg, called, Advance(Eq));
  }

  lemma ConnectedRun(cfg: Config, s: State, f: Fid)
    requires Reachable(cfg, s) && s.eq == Picked(f) && s.listener != Some(f) && s.Con(f).lock.None?
    ensures f in s.conMap && f in s.conns && Reachable(cfg, ConnectedEffect(s, f))
  {
    StartInstalling(cfg, s, f);
    var c, h := s.conns[f], HandlerOf(s, f);
    InstallRun(cfg, s, f, c, h, 5);
    OpenRun(cfg, s, f, c.(callbacks := InstalledUpTo(c.callbacks, h, 5)), h);
    NotifyRun(cfg, Handling(s, f, ConnectedCon(c, h), Notify(f)), f);
    CallRun(cfg, s, f, ConnectedCon(c, h), Woken(s.workers, f));
  }

  /** The assertion at the head of both branches: the connection is there. */
  lemma ConnectionExists(cfg: Config, s: State, f: Fid)
    requires Reachable(cfg, s) && s.eq == Picked(f) && s.listener != Some(f)
    ensures f in s.conMap && f in s.conns
  {
    ReachStep(cfg, s, ShutdownEvent);
    EqAssertionsHold(cfg, Apply(cfg, s, ShutdownEvent));
    ReachableInv(cfg, s);
    assert Local(cfg, ViewOf(s, f));
  }

  // ---------- CLOSE_EVENT ----------

  function CloseEffect(s: State, f: Fid): State
    requires f in s.conns
  {
    EqDone(RemoveEffect(s, Eq, f).SetCon(f, s.conns[f].(status := Down)).(conMap := s.conMap - {f}))
  }

  lemma CloseFields(s: State, f: Fid)
    requires f in s.conns
    ensures CloseEffect(s, f) ==
            State(s.conns[f := s.conns[f].(status := Down)], s.conMap - {f}, s.eventMap - {f},
                  if f in s.eventMap then s.interest - {f} else s.interest, map[], s.listener, s.proactor, s.seqNum,
                  Top, s.user, s.workers, s.calls, s.log)
  {
  }

  lemma StartClosing(cfg: Config, s: State, f: Fid)
    requires Reachable(cfg, s) && s.eq == Picked(f) && s.listener != Some(f)
    ensures f in s.conMap && f in s.conns
    ensures Reachable(cfg, s.SetCon(f, s.conns[f].(status := ShutdownReq)).(eq := RemLock(f)))
  {
    ConnectionExists(cfg, s, f);
    ReachStep(cfg, s, ShutdownEvent);
    RetireTo(cfg, s.(eq := CloseReq(f)), Eq, s.SetCon(f, s.conns[f].(status := ShutdownReq)).(eq := RemLock(f)));
  }

  /** What follows remove_handler. */
  lemma FinishClosing(cfg: Config, s: State, f: Fid, c: Conn)
    requires Reachable(cfg, s.SetCon(f, c).(eq := CloseDown(f))) && f in s.conMap
    ensures Reachable(cfg, EqDone(s.SetCon(f, c.(status := Down)).(conMap := s.conMap - {f})))
  {
    var before := s.SetCon(f, c).(eq := CloseDown(f));
    var down := s.SetCon(f, c.(status := Down)).(eq := Reap(f));
    assert Retire(before, Eq).conns == down.conns;
    RetireTo(cfg, before, Eq, down);
    RetireTo(cfg, down, Eq, EqDone(down.(conMap := s.conMap - {f})));
  }

  lemma CloseRun(cfg: Config, s: State, f: Fid)
    requires Reachable(cfg, s) && s.eq == Picked(f) && s.listener != Some(f) && s.proactor.None?
    ensures f in s.conMap && f in s.conns && Reachable(cfg, CloseEffect(s, f))
  {
    StartClosing(cfg, s, f);
    var c := s.conns[f].(status := ShutdownReq);
    RemoveRun(cfg, s.SetCon(f, c).(eq := RemLock(f)), Eq, f);
    FinishClosing(cfg, RemoveEffect(s, Eq, f), f, c);
  }

  // ---------- ACCEPT_EVENT and connect ----------

  /** MsgStack::accept or connect and then register_handler. */
  function CreateEffect(cfg: Config, s: State, t: Thread, n: Fid, h: Callbacks, junk: Option<nat>): State
    requires 0 < cfg.workers
  {
    var c := FreshCon(s.seqNum % cfg.workers, junk).(status := if t.Eq? then AcceptReq else ConnectReq);
    RegisteredEffect(s.SetCon(n, c).(seqNum := s.seqNum + 1, conMap := s.conMap + {n}), t, n, h)
  }

  /** The same, field by field. */
  lemma CreateFields(cfg: Config, s: State, t: Thread, n: Fid, h: Callbacks, junk: Option<nat>)
    requires 0 < cfg.workers
    ensures var c := FreshCon(s.seqNum % cfg.workers, junk).(status := if t.Eq? then AcceptReq else ConnectReq);
            CreateEffect(cfg, s, t, n, h, junk) ==
            State(s.conns[n := c], s.conMap + {n}, if n in s.eventMap then s.eventMap else s.eventMap[n := h],
                  s.interest + {n}, if t.Eq? then map[] else s.snapshot, s.listener, s.proactor, s.seqNum + 1,
                  if t.Eq? then Top else s.eq, if t.Eq? then s.user else Top, s.workers, s.calls, s.log)
  {
  }

  lemma CreateRun(cfg: Config, s: State, t: Thread, n: Fid, h: Callbacks, junk: Option<nat>)
    requires 0 < cfg.workers && Reachable(cfg, NewConn(cfg, s, t, n, h, junk)) && s.proactor.None?
    ensures Reachable(cfg, CreateEffect(cfg, s, t, n, h, junk))
  {
    var c := FreshCon(s.seqNum % cfg.workers, junk).(status := if t.Eq? then AcceptReq else ConnectReq);
    var s1 := s.SetCon(n, c).(seqNum := s.seqNum + 1).Goto(t, Insert(n, h));
    WriteStatus(cfg, s, t, n, h, c, junk);
    var s2 := s1.(conMap := s.conMap + {n}).Goto(t, RegLock(n, h));
    RegisterTo(cfg, s1, t, s2);
    RegisterRun(cfg, s2, t, n, h);
    assert RegisteredEffect(s2, t, n, h) == CreateEffect(cfg, s, t, n, h, junk);
  }

  lemma AcceptRun(cfg: Config, s: State, f: Fid, n: Fid, junk: Option<nat>)
    requires Reachable(cfg, s) && s.eq == Picked(f) && s.listener == Some(f) && FreshFid(s, n)
    requires 0 < cfg.workers && s.proactor.None?
    ensures Reachable(cfg, CreateEffect(cfg, s, Eq, n, HandlerOf(s, f), junk))
  {
    ReachStep(cfg, s, ConnReqEvent(n, junk));
    CreateRun(cfg, s, Eq, n, HandlerOf(s, f), junk);
  }

  lemma ConnectRun(cfg: Config, s: State, f: Fid, junk: Option<nat>)
    requires Reachable(cfg, s) && Enabled(cfg, s, Connect(f, junk)) && s.proactor.None?
    ensures Reachable(cfg, CreateEffect(cfg, s.(calls := s.calls + 1), User, f, cfg.callbacks, junk))
  {
    ReachStep(cfg, s, Connect(f, junk));
    CreateRun(cfg, s.(calls := s.calls + 1), User, f, cfg.callbacks, junk);
  }

  /** listen, once the passive endpoint is open. */
  lemma ListenRun(cfg: Config, s: State, f: Fid)
    requires Reachable(cfg, s) && Enabled(cfg, s, Listen(f)) && s.proactor.None?
    ensures Reachable(cfg, RegisteredEffect(s.(listener := Some(f), calls := s.calls + 1), User, f, cfg.callbacks))
  {
    ReachStep(cfg, s, Listen(f));
    var s1 := s.(listener := Some(f), calls := s.calls + 1);
    RegisterRun(cfg, s1.(user := RegLock(f, cfg.callbacks)), User, f, cfg.callbacks);
  }

  lemma WriteStatus(cfg: Config, s: State, t: Thread, n: Fid, h: Callbacks, c: Conn, junk: Option<nat>)
    requires 0 < cfg.workers && Reachable(cfg, NewConn(cfg, s, t, n, h, junk))
    requires c == FreshCon(s.seqNum % cfg.workers, junk).(status := if t.Eq? then AcceptReq else ConnectReq)
    ensures Reachable(cfg, s.SetCon(n, c).(seqNum := s.seqNum + 1).Goto(t, Insert(n, h)))
  {
    var s0 := NewConn(cfg, s, t, n, h, junk);
    assert Register(s0, t).conns == s.conns[n := c];
    RegisterTo(cfg, s0, t, s.SetCon(n, c).(seqNum := s.seqNum + 1).Goto(t, Insert(n, h)));
  }

  // ---------- Service::shutdown(Connection*) ----------

  function UserShutdownEffect(s: State, f: Fid): State
    requires f in s.conns
  {
    var removed := RemoveEffect(s, User, f);
    if f !in s.conMap then removed.(user := Crashed(ReapMissing))
    else removed.(conMap := s.conMap - {f}, user := Top).SetCon(f, s.conns[f].(freed := true))
  }

  /** A connection that may be shut down is registered with the stack until the peer's close. */
  lemma ShutdownReaps(cfg: Config, s: State, f: Fid)
    requires Reachable(cfg, s) && Enabled(cfg, s, Shutdown(f))
    ensures f in s.conMap <==> !s.conns[f].status.Down?
  {
    ReachableInv(cfg, s);
    assert Local(cfg, ViewOf(s, f));
  }

  lemma UserShutdownRun(cfg: Config, s: State, f: Fid)
    requires Reachable(cfg, s) && Enabled(cfg, s, Shutdown(f)) && s.proactor.None?
    ensures Reachable(cfg, UserShutdownEffect(s, f))
  {
    ReachStep(cfg, s, Shutdown(f));
    var s1 := s.(user := RemLock(f));
    RemoveRun(cfg, s1, User, f);
    var s2 := RemoveEffect(s1, User, f);
    RetireTo(cfg, s2, User, Retire(s2, User));
    if f in s.conMap {
      var s3 := s2.(conMap := s.conMap - {f}, user := Free(f));
      RetireTo(cfg, s3, User, UserShutdownEffect(s, f));
    }
  }

  /** Service::shutdown(con) fires reap's assertion exactly when the peer's close was already
      handled; otherwise it leaves the queue in none of the three places. */
  lemma UserShutdownExact(cfg: Config, s: State, f: Fid)
    requires Reachable(cfg, s) && Enabled(cfg, s, Shutdown(f))
    ensures f in s.conns
    ensures var e := UserShutdownEffect(s, f);
            && Reachable(cfg, e)
            && (e.user == Crashed(ReapMissing) <==> s.conns[f].status.Down?)
            && (!s.conns[f].status.Down? ==>
                  e.user.Top? && f !in e.conMap && f !in e.eventMap && f !in e.interest && e.conns[f].freed)
  {
    ReachableInv(cfg, s);
    assert Local(cfg, ViewOf(s, f));
    ShutdownReaps(cfg, s, f);
    UserShutdownRun(cfg, s, f);
  }

  /** One iteration of the EQ thread that reads an event of a registered queue. */
  lemma PollRun(cfg: Config, s: State, f: Fid)
    requires Reachable(cfg, s) && s.eq.Top? && s.user.Top? && s.proactor.None?
    requires f in s.eventMap && f in s.interest
    ensures Reachable(cfg, s.(snapshot := s.eventMap, eq := Picked(f)))
  {
    ReachStep(cfg, s, Snapshot);
    ReachStep(cfg, s.(snapshot := s.eventMap, eq := Waiting), Poll(f));
  }

  /** A client's first connect. */
  lemma RequestedRun(cfg: Config, junk: Option<nat>) returns (s: State)
    requires !cfg.isServer && 0 < cfg.workers && 0 < cfg.maxCalls
    ensures Reachable(cfg, s) && s.eq.Top? && s.user.Top? && s.proactor.None? && s.listener.None?
    ensures 0 in s.eventMap && 0 in s.interest && s.workers == Init(cfg).workers
    ensures 0 in s.conns && s.conns[0] == FreshCon(0, junk).(status := ConnectReq)
  {
    ReachInit(cfg);
    ConnectRun(cfg, Init(cfg), 0, junk);
    s := CreateEffect(cfg, Init(cfg).(calls := 1), User, 0, cfg.callbacks, junk);
  }

  /** A connection of a client, established and handed to the application. */
  lemma EstablishedRun(cfg: Config, junk: Option<nat>) returns (s: State)
    requires !cfg.isServer && 0 < cfg.workers && 0 < cfg.maxCalls
    ensures Reachable(cfg, s) && s.eq.Top? && s.user.Top? && s.proactor.None? && s.listener.None?
    ensures 0 in s.eventMap && 0 in s.interest && 0 in s.conns && |s.workers| == cfg.workers && s.workers[0].Polling?
    ensures s.conns[0].status == Connected && s.conns[0].published && !s.conns[0].freed && s.conns[0].cq == 0
    ensures s.conns[0].junk == junk
  {
    var s1 := RequestedRun(cfg, junk);
    PollRun(cfg, s1, 0);
    var s2 := s1.(snapshot := s1.eventMap, eq := Picked(0));
    ConnectedRun(cfg, s2, 0);
    s := ConnectedEffect(s2, 0);
  }

  /** In a client without a write callback an application is handed what the slot happened to hold. */
  lemma WriteSlotRun(cfg: Config, p: nat)
    requires !cfg.isServer && 0 < cfg.workers && 0 < cfg.maxCalls && cfg.callbacks[WRITE].None?
    ensures exists s :: Reachable(cfg, s) && 0 in s.conns && s.conns[0].published && s.conns[0].callbacks[WRITE] == Some(p)
  {
    var s := EstablishedRun(cfg, Some(p));
    SendersHaveCallbacks(cfg, s, 0);
  }

  /** Every client has a run in which reap's assertion fires: the peer closes, then the user does. */
  lemma ReapFailsRun(cfg: Config)
    requires !cfg.isServer && 0 < cfg.workers && 0 < cfg.maxCalls
    ensures exists s :: Reachable(cfg, s) && s.user == Crashed(ReapMissing)
  {
    var s := EstablishedRun(cfg, None);
    PollRun(cfg, s, 0);
    var picked := s.(snapshot := s.eventMap, eq := Picked(0));
    CloseRun(cfg, picked, 0);
    UserShutdownExact(cfg, CloseEffect(picked, 0), 0);
  }

  /** And one in which the user's shutdown frees a connection whose worker has a completion in hand. */
  lemma FreedInUseRun(cfg: Config)
    requires !cfg.isServer && 0 < cfg.workers && 0 < cfg.maxCalls
    ensures exists s :: Reachable(cfg, s) && 0 in s.conns && s.conns[0].freed && s.Worker(0) == Gate(0)
  {
    var s := EstablishedRun(cfg, None);
    ReachStep(cfg, s, Deliver(0, 0));
    var t := s.SetWorker(0, Gate(0));
    UserShutdownExact(cfg, t, 0);
    assert UserShutdownEffect(t, 0).Worker(0) == Gate(0);
  }

  // ---------- the CONNECTED gate ----------

  /** A receive completion: dispatched when the gate is open, else the worker blocks. */
  function GateEffect(s: State, w: nat, f: Fid): State
    requires w < |s.workers| && f in s.conns
  {
    var c := s.conns[f];
    if c.status.Rank() < Connected.Rank() then s.SetWorker(w, Blocked(f))
    else s.SetCon(f, c.(published := c.published || c.callbacks[RECV].Some?))
          .(log := s.log + [Dispatch(w, f, c.callbacks, c.wasConnected, c.junk)])
  }

  lemma WorkTo(cfg: Config, s: State, w: nat, s': State)
    requires Reachable(cfg, s) && CanWork(s, w) && s' == WorkOn(s, w)
    ensures Reachable(cfg, s')
  {
    ReachStep(cfg, s, Work(w));
  }

  /** Worker w at `pc`, with the connection as it is then. */
  function Gating(s: State, w: nat, f: Fid, c: Conn, pc: WorkerPc): State {
    s.SetCon(f, c).SetWorker(w, pc)
  }

  lemma GateTo(cfg: Config, s: State, w: nat, f: Fid, c: Conn, pc: WorkerPc, c': Conn, pc': WorkerPc)
    requires w < |s.workers| && Reachable(cfg, Gating(s, w, f, c, pc))
    requires !pc.Polling? && !pc.Blocked? && !pc.Dispatching? && pc.c == f
    requires (pc.Locking? || pc.Waking? ==> c.lock.None?) && (c', pc') == GateStep(c, w, pc)
    ensures Reachable(cfg, Gating(s, w, f, c', pc'))
  {
    var before := Gating(s, w, f, c, pc);
    assert WorkOn(before, w).conns == s.conns[f := c'];
    assert WorkOn(before, w).workers == s.workers[w := pc'];
    WorkTo(cfg, before, w, Gating(s, w, f, c', pc'));
  }

  lemma GateRun(cfg: Config, s: State, w: nat, f: Fid)
    requires Reachable(cfg, s) && Enabled(cfg, s, Deliver(w, f)) && s.conns[f].lock.None?
    ensures Reachable(cfg, GateEffect(s, w, f))
  {
    var c := s.conns[f];
    ReachStep(cfg, s, Deliver(w, f));
    assert s.SetCon(f, c) == s;
    if c.status.Rank() < Connected.Rank() {
      var locked := c.(lock := Some(WorkerOwner(w)));
      GateTo(cfg, s, w, f, c, Gate(f), c, Locking(f));
      GateTo(cfg, s, w, f, c, Locking(f), locked, Testing(f));
      GateTo(cfg, s, w, f, locked, Testing(f), c, Blocked(f));
    } else {
      GateTo(cfg, s, w, f, c, Gate(f), c, Dispatching(f));
      var ready := s.SetWorker(w, Dispatching(f));
      assert WorkOn(ready, w).workers == s.workers;
      WorkTo(cfg, ready, w, GateEffect(s, w, f));
    }
  }
}
