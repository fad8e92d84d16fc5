/** The per-iteration snapshot of the handler map: when the queue epoll reports is a key of the
    snapshot, and the run in which it is not. */
module LifecycleSnapshot {
  import opened Common
  import opened Lifecycle
  import opened LifecycleInvariant
  import opened LifecycleTheorems
  import opened LifecycleRuns

  /** The user thread registers at most one queue: a server listens once, and a client may be
      limited to one connect. */
  predicate RegistersOnce(cfg: Config) {
    cfg.isServer || cfg.maxCalls <= 1
  }

  ghost predicate SnapInv(cfg: Config, s: State) {
    && s.eq != Crashed(SnapshotMiss)
    && s.calls <= (if cfg.isServer then (if s.listener.Some? then 1 else 0) else cfg.maxCalls)
    && (s.calls == 0 ==> s.user.Top? && s.conns == map[])
    && (s.calls == 0 || (Registering(s.user) && !s.user.RegEpoll?) ==> s.eventMap == map[])
    && (s.calls == 0 || Registering(s.user) ==> s.interest == {})
    && (s.calls == 0 || Registering(s.user) ==> s.eq.Top? || (s.eq.Waiting? && s.snapshot == map[]))
    && (s.eq.Waiting? && s.snapshot != map[] ==> s.interest <= s.snapshot.Keys)
  }

  lemma SnapRegister(cfg: Config, s: State, t: Thread)
    requires RegistersOnce(cfg) && Threads(cfg, s) && SnapInv(cfg, s) && CanAdvance(s, t) && Registering(s.At(t))
    ensures SnapInv(cfg, Register(s, t))
  {
  }

  lemma SnapEstablish(cfg: Config, s: State, t: Thread)
    requires SnapInv(cfg, s) && Establishing(s.At(t))
    ensures SnapInv(cfg, Establish(s, t))
  {
  }

  lemma SnapUnregister(cfg: Config, s: State, t: Thread)
    requires Threads(cfg, s) && SnapInv(cfg, s) && Unregistering(s.At(t))
    ensures SnapInv(cfg, Unregister(s, t))
  {
  }

  lemma SnapRetire(cfg: Config, s: State, t: Thread)
    requires Threads(cfg, s) && SnapInv(cfg, s) && Retiring(s.At(t))
    ensures SnapInv(cfg, Retire(s, t))
  {
  }

  lemma SnapWork(cfg: Config, s: State, w: nat)
    requires Workers(cfg, s) && SnapInv(cfg, s) && CanWork(s, w)
    ensures SnapInv(cfg, WorkOn(s, w))
  {
    assert Bound(s, w);
  }

  lemma SnapOther(cfg: Config, s: State, step: Step)
    requires RegistersOnce(cfg) && Inv(cfg, s) && SnapInv(cfg, s) && Enabled(cfg, s, step)
    requires !step.Advance? && !step.Work?
    ensures SnapInv(cfg, Apply(cfg, s, step))
  {
    if step.Snapshot? {
      forall f ensures f in s.interest ==> f in s.eventMap {
        assert Local(cfg, ViewOf(s, f));
      }
    }
  }

  lemma SnapStep(cfg: Config, s: State, step: Step)
    requires RegistersOnce(cfg) && Inv(cfg, s) && SnapInv(cfg, s) && Enabled(cfg, s, step)
    ensures SnapInv(cfg, Apply(cfg, s, step))
  {
    if step.Advance? {
      if Registering(s.At(step.t)) {
        SnapRegister(cfg, s, step.t);
      } else if Establishing(s.At(step.t)) {
        SnapEstablish(cfg, s, step.t);
      } else if Unregistering(s.At(step.t)) {
        SnapUnregister(cfg, s, step.t);
      } else {
        SnapRetire(cfg, s, step.t);
      }
    } else if step.Work? {
      SnapWork(cfg, s, step.w);
    } else {
      SnapOther(cfg, s, step);
    }
  }

  lemma {:induction false} SnapRun(cfg: Config, s: State, steps: seq<Step>)
    requires RegistersOnce(cfg) && Inv(cfg, s) && SnapInv(cfg, s) && IsRun(cfg, s, steps)
    ensures SnapInv(cfg, After(cfg, s, steps))
    decreases |steps|
  {
    if steps != [] {
      SnapStep(cfg, s, steps[0]);
      StepInv(cfg, s, steps[0]);
      SnapRun(cfg, Apply(cfg, s, steps[0]), steps[1..]);
    }
  }

  /** Snapshot soundness: with one registration by the user thread, every queue epoll can report
      is in the snapshot taken for that iteration, and the proactor mutex is free whenever
      handle_event is entered. */
  lemma SnapshotSound(cfg: Config, s: State)
    requires Reachable(cfg, s) && RegistersOnce(cfg)
    ensures s.eq != Crashed(SnapshotMiss)
    ensures s.eq.Waiting? && s.snapshot != map[] ==> s.interest <= s.snapshot.Keys
    ensures s.eq.Picked? ==> s.proactor.None?
  {
    InitInv(cfg);
    var steps :| IsRun(cfg, Init(cfg), steps) && After(cfg, Init(cfg), steps) == s;
    RunInv(cfg, Init(cfg), steps);
    SnapRun(cfg, Init(cfg), steps);
  }

  /** Two connects by the user thread suffice to dereference a missing snapshot entry: epoll
      reports the second queue against a snapshot that holds only the first. */
  lemma TwoConnectsMiss(cfg: Config)
    requires !RegistersOnce(cfg) && 0 < cfg.workers
    ensures exists s :: Reachable(cfg, s) && s.eq == Crashed(SnapshotMiss)
  {
    ReachInit(cfg);
    ConnectRun(cfg, Init(cfg), 0, None);
    var s1 := CreateEffect(cfg, Init(cfg).(calls := 1), User, 0, cfg.callbacks, None);
    ReachStep(cfg, s1, Snapshot);
    var s2 := Apply(cfg, s1, Snapshot);
    ConnectRun(cfg, s2, 1, None);
    var s3 := CreateEffect(cfg, s2.(calls := 2), User, 1, cfg.callbacks, None);
    assert 0 in s3.snapshot && 1 in s3.interest && Enabled(cfg, s3, Poll(1));
    ReachStep(cfg, s3, Poll(1));
    assert Apply(cfg, s3, Poll(1)).eq == Crashed(SnapshotMiss);
  }

  /** The miss is impossible exactly when the user thread registers one queue at most. */
  lemma SnapshotSoundExactly(cfg: Config)
    requires 0 < cfg.workers
    ensures (forall s :: Reachable(cfg, s) ==> s.eq != Crashed(SnapshotMiss)) <==> RegistersOnce(cfg)
  {
    if RegistersOnce(cfg) {
      forall s | Reachable(cfg, s) ensures s.eq != Crashed(SnapshotMiss) {
        SnapshotSound(cfg, s);
      }
    } else {
      TwoConnectsMiss(cfg);
    }
  }
}
