/** What every run of the lifecycle machine guarantees, and the runs that show where a
    guarantee stops. */
module LifecycleTheorems {
  import opened Common
  import opened Lifecycle
  import opened LifecycleInvariant

  ghost predicate Reachable(cfg: Config, s: State) {
    exists steps :: IsRun(cfg, Init(cfg), steps) && After(cfg, Init(cfg), steps) == s
  }

  lemma {:induction false} RunInv(cfg: Config, s: State, steps: seq<Step>)
    requires Inv(cfg, s) && IsRun(cfg, s, steps)
    ensures Inv(cfg, After(cfg, s, steps))
    decreases |steps|
  {
    if steps != [] {
      StepInv(cfg, s, steps[0]);
      RunInv(cfg, Apply(cfg, s, steps[0]), steps[1..]);
    }
  }

  lemma ReachableInv(cfg: Config, s: State)
    requires Reachable(cfg, s)
    ensures Inv(cfg, s)
  {
    InitInv(cfg);
    var steps :| IsRun(cfg, Init(cfg), steps) && After(cfg, Init(cfg), steps) == s;
    RunInv(cfg, Init(cfg), steps);
  }

  lemma {:induction false} RunSnoc(cfg: Config, s: State, steps: seq<Step>, step: Step)
    requires IsRun(cfg, s, steps) && Enabled(cfg, After(cfg, s, steps), step)
    ensures IsRun(cfg, s, steps + [step])
    ensures After(cfg, s, steps + [step]) == Apply(cfg, After(cfg, s, steps), step)
    decreases |steps|
  {
    if steps == [] {
      assert IsRun(cfg, Apply(cfg, s, step), []);
      assert [step][1..] == [];
    } else {
      RunSnoc(cfg, Apply(cfg, s, steps[0]), steps[1..], step);
      assert (steps + [step])[1..] == steps[1..] + [step];
    }
  }

  lemma ReachInit(cfg: Config)
    ensures Reachable(cfg, Init(cfg))
  {
    assert IsRun(cfg, Init(cfg), []);
  }

  lemma ReachStep(cfg: Config, s: State, step: Step)
    requires Reachable(cfg, s) && Enabled(cfg, s, step)
    ensures Reachable(cfg, Apply(cfg, s, step))
  {
    var steps :| IsRun(cfg, Init(cfg), steps) && After(cfg, Init(cfg), steps) == s;
    RunSnoc(cfg, Init(cfg), steps, step);
  }

  // ---------- the CONNECTED gate ----------

  /** No lost wakeup: a worker blocked on a connection that has been marked CONNECTED has the
      notify still to come, in one of the EQ thread's next two statements. */
  lemma NoLostWakeup(cfg: Config, s: State, w: nat)
    requires Reachable(cfg, s) && w < |s.workers| && s.workers[w].Blocked?
    ensures s.workers[w].c in s.conns
    ensures s.conns[s.workers[w].c].status == Connected ==>
              s.eq == ConUnlock(s.workers[w].c) || s.eq == Notify(s.workers[w].c)
  {
    ReachableInv(cfg, s);
    assert Bound(s, w) && Local(cfg, ViewOf(s, s.workers[w].c));
  }

  /** notify_one suffices: a connection never has two workers at its gate. */
  lemma OneWaiter(cfg: Config, s: State, w1: nat, w2: nat)
    requires Reachable(cfg, s) && w1 < |s.workers| && w2 < |s.workers|
    requires !s.workers[w1].Polling? && !s.workers[w2].Polling? && s.workers[w1].c == s.workers[w2].c
    ensures w1 == w2
  {
    ReachableInv(cfg, s);
    assert Bound(s, w1) && Bound(s, w2);
  }

  /** After the notify nobody is left blocked on the connection. */
  lemma NotifyReleases(cfg: Config, s: State, step: Step, w: nat)
    requires Reachable(cfg, s) && Enabled(cfg, s, step) && (step.NotifyOne? || step.NotifyNobody?)
    ensures Apply(cfg, s, step).Worker(w) != Blocked(s.eq.f)
  {
    if step.NotifyOne? && w < |s.workers| && s.workers[w] == Blocked(s.eq.f) {
      OneWaiter(cfg, s, w, step.w);
    }
  }

  /** Callbacks before data: a receive completion past the gate runs no callback at all, or the
      connection then had every callback of the service; the first case is a connection that
      was closed before it was ever connected. */
  lemma CallbacksBeforeData(cfg: Config, s: State, i: nat)
    requires Reachable(cfg, s) && i < |s.log|
    ensures s.log[i].callbacks[RECV].Some? ==> s.log[i].callbacks == Full(cfg.callbacks, s.log[i].junk)
    ensures s.log[i].wasConnected ==> s.log[i].callbacks == Full(cfg.callbacks, s.log[i].junk)
    ensures !s.log[i].wasConnected ==> s.log[i].callbacks == Blank(s.log[i].junk)
  {
    ReachableInv(cfg, s);
    assert DispatchOk(cfg, s.log[i]);
  }

  /** A worker about to dispatch on a connection that was never connected finds it closed. */
  lemma UnconnectedDispatchIsClosed(cfg: Config, s: State, w: nat)
    requires Reachable(cfg, s) && w < |s.workers| && s.workers[w].Dispatching?
    ensures s.workers[w].c in s.conns
    ensures !s.conns[s.workers[w].c].wasConnected ==> s.conns[s.workers[w].c].status.Rank() >= ShutdownReq.Rank()
  {
    ReachableInv(cfg, s);
    assert Bound(s, w) && Local(cfg, ViewOf(s, s.workers[w].c));
  }

  /** While the EQ thread tears a connection down its status is SHUTDOWN_REQ, which opens the gate. */
  lemma ClosingOpensGate(cfg: Config, s: State)
    requires Reachable(cfg, s) && (s.eq.RemLock? || s.eq.RemErase? || s.eq.RemEpoll? || s.eq.CloseDown?)
    ensures s.eq.f in s.conns && s.conns[s.eq.f].status == ShutdownReq && s.eq.f in s.conMap
  {
    ReachableInv(cfg, s);
    assert Local(cfg, ViewOf(s, s.eq.f));
  }

  /** A connection the application can send on has its send callback: the assertion in the
      FI_SEND branch cannot fire when the service has one. */
  lemma SendersHaveCallbacks(cfg: Config, s: State, f: Fid)
    requires Reachable(cfg, s) && f in s.conns && s.conns[f].published
    ensures s.conns[f].callbacks == Full(cfg.callbacks, s.conns[f].junk)
    ensures forall k | 0 <= k < WRITE :: s.conns[f].callbacks[k] == cfg.callbacks[k]
  {
    ReachableInv(cfg, s);
    assert Local(cfg, ViewOf(s, f));
  }

  /** A connection handed to the application has the service's callbacks, all of them, exactly when the
      service has a write callback or the slot, which nothing initialises, happened to be empty. */
  lemma WriteSlotExactly(cfg: Config, s: State, f: Fid)
    requires Reachable(cfg, s) && f in s.conns && s.conns[f].published
    ensures s.conns[f].callbacks == cfg.callbacks <==> cfg.callbacks[WRITE].Some? || s.conns[f].junk.None?
  {
    SendersHaveCallbacks(cfg, s, f);
    if s.conns[f].callbacks == cfg.callbacks && cfg.callbacks[WRITE].None? {
      assert s.conns[f].callbacks[WRITE] == s.conns[f].junk;
    }
  }

  // ---------- the three maps ----------

  /** Map coherence: at every intermediate statement a registered queue is the listener's or
      has a connection, and epoll watches registered queues, but for the one statement between
      the map erase and the epoll removal. */
  lemma MapCoherence(cfg: Config, s: State, f: Fid)
    requires Reachable(cfg, s)
    ensures f in s.eventMap ==> s.eventMap[f] == cfg.callbacks && (s.listener == Some(f) || (f in s.conMap && f in s.conns))
    ensures f in s.interest ==> f in s.eventMap || s.eq == RemEpoll(f) || s.user == RemEpoll(f)
  {
    ReachableInv(cfg, s);
    assert Local(cfg, ViewOf(s, f));
  }

  /** The assertions of handle_event never fire, nor does reap's on the EQ thread. */
  lemma EqAssertionsHold(cfg: Config, s: State)
    requires Reachable(cfg, s)
    ensures s.eq != Crashed(NoConnection) && s.eq != Crashed(ReapMissing)
    ensures s.user != Crashed(NoConnection) && s.user != Crashed(SnapshotMiss)
  {
    ReachableInv(cfg, s);
  }

  // ---------- status ----------

  /** A status may only rise, closing fixes whether the connection was ever connected, and what the
      application has been given it keeps. */
  predicate Rises(c: Conn, c': Conn) {
    && c.status.Rank() <= c'.status.Rank()
    && (c.published ==> c'.published)
    && (3 < c.status.Rank() ==> c'.wasConnected == c.wasConnected)
  }

  lemma StatusStep(cfg: Config, s: State, step: Step, f: Fid)
    requires Inv(cfg, s) && Enabled(cfg, s, step) && f in s.conns
    ensures f in Apply(cfg, s, step).conns && Rises(s.conns[f], Apply(cfg, s, step).conns[f])
  {
    if step.Work? {
      assert Bound(s, step.w);
      WorkStatus(s, step.w, f);
    } else if step.Advance? {
      assert Local(cfg, ViewOf(s, s.At(step.t).f));
      AdvanceStatus(cfg, s, step.t, f);
    }
  }

  lemma WorkStatus(s: State, w: nat, f: Fid)
    requires CanWork(s, w) && Bound(s, w) && f in s.conns
    ensures f in WorkOn(s, w).conns && Rises(s.conns[f], WorkOn(s, w).conns[f])
  {
  }

  lemma AdvanceStatus(cfg: Config, s: State, t: Thread, f: Fid)
    requires CanAdvance(s, t) && Local(cfg, ViewOf(s, s.At(t).f)) && f in s.conns
    ensures f in Apply(cfg, s, Advance(t)).conns && Rises(s.conns[f], Apply(cfg, s, Advance(t)).conns[f])
  {
    if Registering(s.At(t)) {
      assert Apply(cfg, s, Advance(t)) == Register(s, t);
      RegisterStatus(cfg, s, t, f);
    } else if Establishing(s.At(t)) {
      assert Apply(cfg, s, Advance(t)) == Establish(s, t);
      EstablishStatus(cfg, s, t, f);
    } else if Retiring(s.At(t)) {
      assert Apply(cfg, s, Advance(t)) == Retire(s, t);
      RetireStatus(cfg, s, t, f);
    } else {
      assert Apply(cfg, s, Advance(t)) == Unregister(s, t);
      UnregisterStatus(s, t);
    }
  }

  lemma UnregisterStatus(s: State, t: Thread)
    requires Unregistering(s.At(t))
    ensures Unregister(s, t).conns == s.conns
  {
  }

  lemma RegisterStatus(cfg: Config, s: State, t: Thread, f: Fid)
    requires Registering(s.At(t)) && Local(cfg, ViewOf(s, s.At(t).f)) && f in s.conns
    ensures f in Register(s, t).conns && Rises(s.conns[f], Register(s, t).conns[f])
  {
  }

  lemma EstablishStatus(cfg: Config, s: State, t: Thread, f: Fid)
    requires Establishing(s.At(t)) && Local(cfg, ViewOf(s, s.At(t).f)) && f in s.conns
    ensures f in Establish(s, t).conns && Rises(s.conns[f], Establish(s, t).conns[f])
  {
  }

  lemma RetireStatus(cfg: Config, s: State, t: Thread, f: Fid)
    requires Retiring(s.At(t)) && Local(cfg, ViewOf(s, s.At(t).f)) && f in s.conns
    ensures f in Retire(s, t).conns && Rises(s.conns[f], Retire(s, t).conns[f])
  {
  }

  /** On every run, from every reachable state, statuses only rise. */
  lemma {:induction false} StatusMonotone(cfg: Config, s: State, steps: seq<Step>, f: Fid)
    requires Inv(cfg, s) && IsRun(cfg, s, steps) && f in s.conns
    ensures f in After(cfg, s, steps).conns
    ensures s.conns[f].status.Rank() <= After(cfg, s, steps).conns[f].status.Rank()
    decreases |steps|
  {
    if steps != [] {
      StatusStep(cfg, s, steps[0], f);
      StepInv(cfg, s, steps[0]);
      StatusMonotone(cfg, Apply(cfg, s, steps[0]), steps[1..], f);
    }
  }
}
