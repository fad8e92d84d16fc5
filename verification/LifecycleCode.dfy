/**
 The lifecycle's code on the fields it updates: Proactor, EqHandler, MsgStack and Service, and the
 CONNECTED gate of CqDemultiplexer.  Whatever a method does is a run of the machine, so every theorem
 about the machine's runs holds of the code, its own assertions included.
 */
module LifecycleCode {
  import opened Common
  import opened Lifecycle
  import opened LifecycleTheorems
  import opened LifecycleRuns
  import opened LifecycleMessages

  class Reactor {
    const cfg: Config
    var conns: map<Fid, Conn>
    var conMap: set<Fid>
    var eventMap: map<Fid, Callbacks>
    var interest: set<Fid>
    var curEventMap: map<Fid, Callbacks>
    var listener: Option<Fid>
    var seqNum: nat
    var workers: seq<WorkerPc>
    ghost var eq: Pc
    ghost var user: Pc
    ghost var calls: nat
    ghost var log: seq<Dispatch>

    /** Between the methods no thread holds the proactor's mutex. */
    ghost function Value(): State
      reads this
    {
      State(conns, conMap, eventMap, interest, curEventMap, listener, None, seqNum, eq, user, workers, calls, log)
    }

    ghost predicate Valid()
      reads this
    {
      Reachable(cfg, Value())
    }

    constructor (cfg: Config)
      ensures Valid() && this.cfg == cfg && Value() == Init(cfg)
    {
      this.cfg := cfg;
      conns, conMap, eventMap, interest, curEventMap := map[], {}, map[], {}, map[];
      listener, seqNum, workers := None, 0, seq(cfg.workers, _ => Polling);
      eq, user, calls, log := Top, Top, 0, [];
      new;
      ReachInit(cfg);
    }

    // ---------- Proactor ----------

    /** eq_service up to the wait: the handlers are copied. */
    method TakeSnapshot()
      requires Valid() && Enabled(cfg, Value(), Snapshot)
      modifies this`curEventMap, this`eq
      ensures Valid() && eq == Waiting && curEventMap == eventMap
    {
      ghost var s := Value();
      curEventMap := eventMap;
      eq := Waiting;
      ReachStep(cfg, s, Snapshot);
    }

    method RegisterHandler(f: Fid, h: Callbacks)
      modifies this`eventMap, this`interest
      ensures eventMap == if f in old(eventMap) then old(eventMap) else old(eventMap)[f := h]
      ensures interest == old(interest) + {f}
    {
      if f !in eventMap {
        eventMap := eventMap[f := h];
      }
      interest := interest + {f};
    }

    method RemoveHandler(f: Fid) returns (ret: int)
      modifies this`eventMap, this`interest
      ensures eventMap == old(eventMap) - {f}
      ensures interest == if f in old(eventMap) then old(interest) - {f} else old(interest)
      ensures ret == if f in old(eventMap) then 0 else -1
    {
      if f !in eventMap {
        return -1;
      }
      eventMap := eventMap - {f};
      interest := interest - {f};
      ret := 0;
    }

    // ---------- MsgStack ----------

    /** What accept and connect do once init has succeeded; `n` is the event queue they open. */
    method Create(n: Fid, status: Status, junk: Option<nat>)
      requires 0 < cfg.workers
      modifies this`conns, this`conMap, this`seqNum
      ensures conns == old(conns)[n := FreshCon(old(seqNum) % cfg.workers, junk).(status := status)]
      ensures seqNum == old(seqNum) + 1 && conMap == old(conMap) + {n}
    {
      var con := FreshCon(seqNum % cfg.workers, junk);
      con := con.(status := status);
      seqNum := seqNum + 1;
      conns := conns[n := con];
      conMap := conMap + {n};
    }

    /** reap; false where its assertion fires. */
    method ReapCon(f: Fid) returns (ok: bool)
      modifies this`conMap
      ensures ok <==> f in old(conMap)
      ensures conMap == old(conMap) - {f}
    {
      ok := f in conMap;
      conMap := conMap - {f};
    }

    // ---------- EqHandler::handle_event ----------

    /** The callbacks of the handler an event of f goes to. */
    function Handler(f: Fid): Callbacks
      reads this
    {
      if f in curEventMap then curEventMap[f] else NO_CALLBACKS
    }

    /** ACCEPT_EVENT: the handler of the listener hands its callbacks on to the new connection's. */
    method HandleAccept(f: Fid, n: Fid, junk: Option<nat>)
      requires Valid() && eq == Picked(f) && listener == Some(f) && FreshFid(Value(), n) && 0 < cfg.workers
      modifies this`conns, this`conMap, this`seqNum, this`eventMap, this`interest, this`curEventMap, this`eq
      ensures Valid() && Value() == CreateEffect(cfg, old(Value()), Eq, n, old(Handler(f)), junk)
    {
      AcceptRun(cfg, Value(), f, n, junk);
      Accept(n, Handler(f), junk);
    }

    /** The stack's accept, the registration, and eq_service's clearing of the snapshot. */
    method Accept(n: Fid, h: Callbacks, junk: Option<nat>)
      requires 0 < cfg.workers
      modifies this`conns, this`conMap, this`seqNum, this`eventMap, this`interest, this`curEventMap, this`eq
      ensures Value() == CreateEffect(cfg, old(Value()), Eq, n, h, junk)
    {
      CreateFields(cfg, Value(), Eq, n, h, junk);
      Create(n, AcceptReq, junk);
      RegisterHandler(n, h);
      curEventMap := map[];
      eq := Top;
    }

    /** The five conditional assignments of callbacks. */
    method InstallCallbacks(before: Callbacks, h: Callbacks) returns (r: Callbacks)
      ensures r == InstalledUpTo(before, h, 5)
    {
      r := before;
      if h[0].Some? {
        r := r[0 := h[0]];
      }
      assert r == InstalledUpTo(before, h, 1);
      if h[1].Some? {
        r := r[1 := h[1]];
      }
      assert r == InstalledUpTo(before, h, 2);
      if h[2].Some? {
        r := r[2 := h[2]];
      }
      assert r == InstalledUpTo(before, h, 3);
      if h[3].Some? {
        r := r[3 := h[3]];
      }
      assert r == InstalledUpTo(before, h, 4);
      if h[4].Some? {
        r := r[4 := h[4]];
      }
    }

    /** CONNECTED_EVENT: callbacks, then the status under the connection's lock, then the notify. */
    method HandleConnected(f: Fid)
      requires Valid() && eq == Picked(f) && listener != Some(f) && Value().Con(f).lock.None?
      modifies this`conns, this`curEventMap, this`workers, this`eq
      ensures f in old(conns) && f in old(conMap)
      ensures Valid() && Value() == ConnectedEffect(old(Value()), f)
    {
      ghost var s := Value();
      ConnectedRun(cfg, s, f);
      assert f in conMap;
      var h := Handler(f);
      var con := conns[f];
      var callbacks := InstallCallbacks(con.callbacks, h);
      con := con.(callbacks := callbacks);
      con := con.(status := Connected, wasConnected := true);
      forall v: nat, w: nat | v < |workers| && w < |workers| && workers[v] == workers[w] == Blocked(f) ensures v == w {
        OneWaiter(cfg, s, v, w);
      }
      NotifyOne(f);
      conns := conns[f := con.(published := true)];
      curEventMap := map[];
      eq := Top;
    }

    /** con_cv.notify_one, when at most one worker waits. */
    method NotifyOne(f: Fid)
      requires forall v, w | 0 <= v < |workers| && 0 <= w < |workers| && workers[v] == workers[w] == Blocked(f) :: v == w
      modifies this`workers
      ensures workers == Woken(old(workers), f)
    {
      for w := 0 to |workers|
        invariant workers == old(workers)
        invariant forall v | 0 <= v < w :: workers[v] != Blocked(f)
      {
        if workers[w] == Blocked(f) {
          workers := workers[w := Waking(f)];
          return;
        }
      }
    }

    /** CLOSE_EVENT. */
    method HandleClose(f: Fid)
      requires Valid() && eq == Picked(f) && listener != Some(f)
      modifies this`conns, this`conMap, this`eventMap, this`interest, this`curEventMap, this`eq
      ensures f in old(conns) && f in old(conMap)
      ensures Valid() && Value() == CloseEffect(old(Value()), f)
    {
      CloseRun(cfg, Value(), f);
      assert f in conMap;
      var ok := Close(f);
      assert ok;
    }

    /** The branch's statements, and eq_service's clearing of the snapshot. */
    method Close(f: Fid) returns (ok: bool)
      requires f in conns
      modifies this`conns, this`conMap, this`eventMap, this`interest, this`curEventMap, this`eq
      ensures Value() == CloseEffect(old(Value()), f)
      ensures ok <==> f in old(conMap)
    {
      CloseFields(Value(), f);
      var con := conns[f].(status := ShutdownReq);
      var _ := RemoveHandler(f);
      con := con.(status := Down);
      conns := conns[f := con];
      ok := ReapCon(f);
      curEventMap := map[];
      eq := Top;
    }

    // ---------- Service ----------

    method DoListen(f: Fid)
      requires Valid() && Enabled(cfg, Value(), Listen(f))
      modifies this`listener, this`eventMap, this`interest, this`calls
      ensures Valid()
      ensures Value() == RegisteredEffect(old(Value()).(listener := Some(f), calls := old(calls) + 1), User, f, cfg.callbacks)
    {
      ghost var s := Value();
      listener := Some(f);
      calls := calls + 1;
      RegisterHandler(f, cfg.callbacks);
      ListenRun(cfg, s, f);
    }

    method DoConnect(f: Fid, junk: Option<nat>)
      requires Valid() && !cfg.isServer && user.Top? && calls < cfg.maxCalls && FreshFid(Value(), f) && 0 < cfg.workers
      modifies this`conns, this`conMap, this`seqNum, this`eventMap, this`interest, this`calls
      ensures Valid() && Value() == CreateEffect(cfg, old(Value()).(calls := old(calls) + 1), User, f, cfg.callbacks, junk)
    {
      ConnectRun(cfg, Value(), f, junk);
      calls := calls + 1;
      Request(f, cfg.callbacks, junk);
    }

    /** The stack's connect and the registration. */
    method Request(n: Fid, h: Callbacks, junk: Option<nat>)
      requires 0 < cfg.workers && user.Top?
      modifies this`conns, this`conMap, this`seqNum, this`eventMap, this`interest
      ensures Value() == CreateEffect(cfg, old(Value()), User, n, h, junk)
    {
      CreateFields(cfg, Value(), User, n, h, junk);
      Create(n, ConnectReq, junk);
      RegisterHandler(n, h);
    }

    /** shutdown(Connection*): reap's assertion fires exactly when the peer's close came first. */
    method DoShutdown(f: Fid) returns (ok: bool)
      requires Valid() && Enabled(cfg, Value(), Shutdown(f))
      modifies this`conns, this`conMap, this`eventMap, this`interest, this`user
      ensures ok <==> !old(conns)[f].status.Down?
      ensures Valid() && Value() == UserShutdownEffect(old(Value()), f)
    {
      ghost var s := Value();
      UserShutdownRun(cfg, s, f);
      ShutdownReaps(cfg, s, f);
      var _ := RemoveHandler(f);
      ok := ReapCon(f);
      if ok {
        conns := conns[f := conns[f].(freed := true)];
      } else {
        user := Crashed(ReapMissing);
        assert conMap == s.conMap;
      }
    }

    // ---------- CqDemultiplexer ----------

    /** The FI_RECV branch for a connection of worker w: dispatched, or blocked until it is connected. */
    method OnRecv(w: nat, f: Fid) returns (dispatched: bool)
      requires Valid() && Enabled(cfg, Value(), Deliver(w, f)) && conns[f].lock.None?
      modifies this`conns, this`workers, this`log
      ensures dispatched <==> Connected.Rank() <= old(conns)[f].status.Rank()
      ensures Valid() && Value() == GateEffect(old(Value()), w, f)
    {
      ghost var s := Value();
      GateRun(cfg, s, w, f);
      var con := conns[f];
      if con.status.Rank() < Connected.Rank() {
        workers := workers[w := Blocked(f)];
        return false;
      }
      log := log + [Dispatch(w, f, con.callbacks, con.wasConnected, con.junk)];
      conns := conns[f := con.(published := con.published || con.callbacks[RECV].Some?)];
      dispatched := true;
    }

    /** The same branch from the return of the wait on: its condition is tested again. */
    method OnWoken(w: nat, f: Fid) returns (dispatched: bool)
      requires Valid() && w < |workers| && workers[w] == Waking(f) && f in conns && conns[f].lock.None?
      modifies this`conns, this`workers, this`log
      ensures dispatched <==> Connected.Rank() <= old(conns)[f].status.Rank()
      ensures Valid() && Value() == WokenEffect(old(Value()), w, f)
    {
      ghost var s := Value();
      WokenRun(cfg, s, w, f);
      var con := conns[f];
      if con.status.Rank() < Connected.Rank() {
        workers := workers[w := Blocked(f)];
        return false;
      }
      log := log + [Dispatch(w, f, con.callbacks, con.wasConnected, con.junk)];
      conns := conns[f := con.(published := con.published || con.callbacks[RECV].Some?)];
      workers := workers[w := Polling];
      dispatched := true;
    }
  }
}
