/** A close that comes before the connection was ever established: which blocked workers some run can
    still wake, and which none can. */
module LifecycleStranded {
  import opened Common
  import opened Lifecycle
  import opened LifecycleInvariant
  import opened LifecycleTheorems
  import opened LifecycleRuns

  /** Closed without having been connected. */
  predicate Abandoned(s: State, f: Fid) {
    f in s.conns && ShutdownReq.Rank() <= s.conns[f].status.Rank() && !s.conns[f].wasConnected
  }

  /** A run, without a spurious wakeup of the worker, that moves it from where it is. */
  ghost predicate Moves(cfg: Config, s: State, steps: seq<Step>, w: nat) {
    IsRun(cfg, s, steps) && SpuriousWake(w) !in steps && After(cfg, s, steps).Worker(w) != s.Worker(w)
  }

  /** The worker is blocked, and no continuation but a spurious wakeup ever lets it go on. */
  ghost predicate Stranded(cfg: Config, s: State, w: nat) {
    w < |s.workers| && s.workers[w].Blocked? && forall steps :: !Moves(cfg, s, steps, w)
  }

  // ---------- abandoned connections ----------

  lemma AbandonedStep(cfg: Config, s: State, step: Step, f: Fid)
    requires Inv(cfg, s) && Enabled(cfg, s, step) && Abandoned(s, f)
    ensures Abandoned(Apply(cfg, s, step), f)
  {
    StatusStep(cfg, s, step, f);
  }

  /** No later step of any run notifies the waiters of an abandoned connection. */
  lemma {:induction false} AbandonedIsNeverNotified(cfg: Config, s: State, steps: seq<Step>, f: Fid)
    requires Inv(cfg, s) && IsRun(cfg, s, steps) && Abandoned(s, f)
    ensures Abandoned(After(cfg, s, steps), f) && After(cfg, s, steps).eq != Notify(f)
    decreases |steps|
  {
    assert Local(cfg, ViewOf(s, f));
    if steps != [] {
      StepInv(cfg, s, steps[0]);
      AbandonedStep(cfg, s, steps[0], f);
      AbandonedIsNeverNotified(cfg, Apply(cfg, s, steps[0]), steps[1..], f);
    }
  }

  /** What else could change the place of a blocked worker. */
  lemma BlockedStep(cfg: Config, s: State, step: Step, w: nat)
    requires Enabled(cfg, s, step) && w < |s.workers| && s.workers[w].Blocked?
    requires step != SpuriousWake(w) && s.eq != Notify(s.workers[w].c)
    ensures Apply(cfg, s, step).Worker(w) == s.Worker(w)
  {
  }

  /** So a worker blocked on one stays blocked on it in every run. */
  lemma {:induction false} AbandonedStays(cfg: Config, s: State, steps: seq<Step>, w: nat)
    requires Inv(cfg, s) && IsRun(cfg, s, steps) && SpuriousWake(w) !in steps
    requires w < |s.workers| && s.workers[w].Blocked? && Abandoned(s, s.workers[w].c)
    ensures After(cfg, s, steps).Worker(w) == s.Worker(w)
    decreases |steps|
  {
    if steps != [] {
      AbandonedIsNeverNotified(cfg, s, [], s.workers[w].c);
      BlockedStep(cfg, s, steps[0], w);
      StepInv(cfg, s, steps[0]);
      AbandonedStep(cfg, s, steps[0], s.workers[w].c);
      AbandonedStays(cfg, Apply(cfg, s, steps[0]), steps[1..], w);
    }
  }

  lemma AbandonedIsStranded(cfg: Config, s: State, w: nat)
    requires Reachable(cfg, s) && w < |s.workers| && s.workers[w].Blocked? && Abandoned(s, s.workers[w].c)
    ensures Stranded(cfg, s, w)
  {
    ReachableInv(cfg, s);
    forall steps ensures !Moves(cfg, s, steps, w) {
      if IsRun(cfg, s, steps) && SpuriousWake(w) !in steps {
        AbandonedStays(cfg, s, steps, w);
      }
    }
  }

  // ---------- connections still to be established ----------

  /** A connection that was requested and not yet established is registered, or about to be; the user
      shuts down established ones only; a worker's lock is held by a worker that is at it. */
  predicate Pending(s: State, f: Fid) {
    && (f in s.conns && s.conns[f].status.Rank() < Connected.Rank() ==>
          (Registering(s.eq) && s.eq.f == f) || (Registering(s.user) && s.user.f == f) ||
          (f in s.eventMap && f in s.interest))
    && (TearingDown(s.user) && s.user.f == f ==> f in s.conns && s.conns[f].wasConnected)
    && (f in s.conns && s.conns[f].lock.Some? && s.conns[f].lock.value.WorkerOwner? ==>
          s.Worker(s.conns[f].lock.value.w) == Testing(f) || s.Worker(s.conns[f].lock.value.w) == Unlocking(f))
  }

  lemma PendingStatus(cfg: Config, s: State, t: Thread, f: Fid)
    requires CanAdvance(s, t) && s.At(t).New? && Pending(s, f) && s.At(t).f in s.conns
    ensures Pending(Register(s, t), f)
  {
  }

  lemma PendingInsert(s: State, t: Thread, f: Fid)
    requires (s.At(t).Insert? || s.At(t).RegLock?) && Pending(s, f)
    ensures Pending(Register(s, t), f)
  {
  }

  lemma PendingRegister(cfg: Config, s: State, t: Thread, f: Fid)
    requires CanAdvance(s, t) && Registering(s.At(t)) && Pending(s, f) && Local(cfg, ViewOf(s, s.At(t).f))
    ensures Pending(Register(s, t), f)
  {
    if s.At(t).New? {
      PendingStatus(cfg, s, t, f);
    } else if s.At(t).Insert? || s.At(t).RegLock? {
      PendingInsert(s, t, f);
    }
  }

  lemma PendingEstablish(cfg: Config, s: State, f: Fid)
    requires CanAdvance(s, Eq) && Establishing(s.eq) && Pending(s, f) && Local(cfg, ViewOf(s, s.eq.f))
    ensures Pending(Establish(s, Eq), f)
  {
  }

  lemma PendingUnregister(cfg: Config, s: State, t: Thread, f: Fid)
    requires CanAdvance(s, t) && Unregistering(s.At(t)) && Pending(s, f) && Local(cfg, ViewOf(s, f))
    ensures Pending(Unregister(s, t), f)
  {
  }

  lemma PendingClose(cfg: Config, s: State, f: Fid)
    requires CanAdvance(s, Eq) && (s.eq.CloseReq? || s.eq.CloseDown?) && Pending(s, f) && s.eq.f in s.conns
    ensures Pending(Retire(s, Eq), f)
  {
  }

  lemma PendingReap(s: State, f: Fid)
    requires s.eq.Reap? && Pending(s, f)
    ensures Pending(Retire(s, Eq), f)
  {
  }

  lemma PendingFree(cfg: Config, s: State, f: Fid)
    requires CanAdvance(s, User) && Retiring(s.user) && Pending(s, f) && Local(cfg, ViewOf(s, s.user.f))
    ensures Pending(Retire(s, User), f)
  {
  }

  lemma PendingWork(cfg: Config, s: State, w: nat, f: Fid)
    requires CanWork(s, w) && Bound(s, w) && Pending(s, f) && Local(cfg, ViewOf(s, s.workers[w].c))
    ensures Pending(WorkOn(s, w), f)
  {
  }

  lemma PendingNew(cfg: Config, s: State, step: Step, f: Fid)
    requires Enabled(cfg, s, step) && (step.Connect? || step.ConnReqEvent?) && Pending(s, f)
    ensures Pending(Apply(cfg, s, step), f)
  {
  }

  lemma PendingWake(cfg: Config, s: State, step: Step, f: Fid)
    requires Enabled(cfg, s, step) && Wakes(step) && Pending(s, f)
    ensures Pending(Apply(cfg, s, step), f)
  {
  }

  lemma PendingCall(cfg: Config, s: State, step: Step, f: Fid)
    requires Enabled(cfg, s, step) && Calls(step) && !step.Connect? && !step.ConnReqEvent?
    requires Pending(s, f) && Local(cfg, ViewOf(s, f))
    ensures Pending(Apply(cfg, s, step), f)
  {
  }

  lemma PendingStep(cfg: Config, s: State, step: Step, f: Fid)
    requires Inv(cfg, s) && Enabled(cfg, s, step) && Pending(s, f)
    ensures Pending(Apply(cfg, s, step), f)
  {
    assert Local(cfg, ViewOf(s, f));
    if step.Work? {
      assert Bound(s, step.w) && Local(cfg, ViewOf(s, s.workers[step.w].c));
      PendingWork(cfg, s, step.w, f);
    } else if step.Advance? {
      assert Local(cfg, ViewOf(s, s.At(step.t).f));
      PendingAdvance(cfg, s, step.t, f);
    } else if Wakes(step) {
      PendingWake(cfg, s, step, f);
    } else if step.Connect? || step.ConnReqEvent? {
      PendingNew(cfg, s, step, f);
    } else {
      PendingCall(cfg, s, step, f);
    }
  }

  lemma PendingAdvance(cfg: Config, s: State, t: Thread, f: Fid)
    requires CanAdvance(s, t) && Pending(s, f) && Local(cfg, ViewOf(s, f)) && Local(cfg, ViewOf(s, s.At(t).f))
    ensures Pending(Apply(cfg, s, Advance(t)), f)
  {
    if Registering(s.At(t)) {
      PendingRegister(cfg, s, t, f);
    } else if Establishing(s.At(t)) {
      PendingEstablish(cfg, s, f);
    } else if Unregistering(s.At(t)) {
      PendingUnregister(cfg, s, t, f);
    } else if t.Eq? && s.eq.Reap? {
      PendingReap(s, f);
    } else if t.Eq? {
      PendingClose(cfg, s, f);
    } else {
      PendingFree(cfg, s, f);
    }
  }

  lemma {:induction false} PendingRun(cfg: Config, s: State, steps: seq<Step>, f: Fid)
    requires Inv(cfg, s) && IsRun(cfg, s, steps) && Pending(s, f)
    ensures Pending(After(cfg, s, steps), f)
    decreases |steps|
  {
    if steps != [] {
      StepInv(cfg, s, steps[0]);
      PendingStep(cfg, s, steps[0], f);
      PendingRun(cfg, Apply(cfg, s, steps[0]), steps[1..], f);
    }
  }

  lemma ReachablePending(cfg: Config, s: State, f: Fid)
    requires Reachable(cfg, s)
    ensures Pending(s, f)
  {
    InitInv(cfg);
    var steps :| IsRun(cfg, Init(cfg), steps) && After(cfg, Init(cfg), steps) == s;
    PendingRun(cfg, Init(cfg), steps, f);
  }

  // ---------- a run that wakes the worker ----------

  ghost predicate CanMove(cfg: Config, s: State, w: nat) {
    exists steps :: Moves(cfg, s, steps, w)
  }

  lemma MoveLater(cfg: Config, s: State, step: Step, w: nat)
    requires Enabled(cfg, s, step) && step != SpuriousWake(w)
    requires Apply(cfg, s, step).Worker(w) == s.Worker(w) && CanMove(cfg, Apply(cfg, s, step), w)
    ensures CanMove(cfg, s, w)
  {
    var steps :| Moves(cfg, Apply(cfg, s, step), steps, w);
    assert ([step] + steps)[1..] == steps;
    assert Moves(cfg, s, [step] + steps, w);
  }

  lemma MoveNow(cfg: Config, s: State, step: Step, w: nat)
    requires Enabled(cfg, s, step) && step != SpuriousWake(w) && Apply(cfg, s, step).Worker(w) != s.Worker(w)
    ensures CanMove(cfg, s, w)
  {
    var t := Apply(cfg, s, step);
    assert IsRun(cfg, t, []) && After(cfg, t, []) == t;
    assert [step][1..] == [];
    assert Moves(cfg, s, [step], w);
  }

  /** How far the EQ thread is from the notify. */
  function ToNotify(pc: Pc): nat {
    match pc
    case Installing(_, _, k) => if k <= 5 then 9 - k else 4
    case ConLock(_) => 3
    case SetConnected(_) => 2
    case ConUnlock(_) => 1
    case _ => 0
  }

  /** While it establishes f, it comes to the notify, which wakes the worker. */
  lemma {:induction false} EstablishWakes(cfg: Config, s: State, w: nat, f: Fid)
    requires w < |s.workers| && s.workers[w] == Blocked(f) && f in s.conns
    requires s.eq.Notify? || (Establishing(s.eq) && !s.eq.CallConnected?)
    requires s.eq.f == f && (s.eq.Installing? || s.eq.ConLock? ==> s.conns[f].lock.None?)
    ensures CanMove(cfg, s, w)
    decreases ToNotify(s.eq)
  {
    if s.eq.Notify? {
      MoveNow(cfg, s, NotifyOne(w), w);
    } else {
      var t := Establish(s, Eq);
      assert t == Apply(cfg, s, Advance(Eq));
      EstablishWakes(cfg, t, w, f);
      MoveLater(cfg, s, Advance(Eq), w);
    }
  }

  /** From between two iterations, the next one can read FI_CONNECTED of f. */
  lemma IterationWakes(cfg: Config, s: State, w: nat, f: Fid)
    requires w < |s.workers| && s.workers[w] == Blocked(f) && f in s.conns && s.conns[f].lock.None?
    requires s.eq.Top? && s.proactor.None? && !TearingDown(s.user)
    requires f in s.conMap && f in s.eventMap && f in s.interest && s.listener != Some(f)
    ensures CanMove(cfg, s, w)
  {
    var s1 := s.(snapshot := s.eventMap, eq := Waiting);
    var s2 := s1.(eq := Picked(f));
    var s3 := s2.(eq := Installing(f, s.eventMap[f], 0));
    assert Apply(cfg, s, Snapshot) == s1 && Apply(cfg, s1, Poll(f)) == s2 && Apply(cfg, s2, ConnectedEvent) == s3;
    EstablishWakes(cfg, s3, w, f);
    MoveLater(cfg, s2, ConnectedEvent, w);
    MoveLater(cfg, s1, Poll(f), w);
    MoveLater(cfg, s, Snapshot, w);
  }

  function ToTop(pc: Pc): nat {
    match pc
    case New(_, _) => 5
    case Insert(_, _) => 4
    case RegLock(_, _) => 3
    case RegInsert(_, _) => 2
    case RegEpoll(_) => 1
    case _ => 0
  }

  /** What a registration of f by the user thread has done so far; or f is registered. */
  predicate OnItsWay(s: State, f: Fid) {
    && (f in s.conMap || ((s.user.New? || s.user.Insert?) && s.user.f == f))
    && (f in s.eventMap || ((s.user.New? || s.user.Insert? || s.user.RegLock? || s.user.RegInsert?) && s.user.f == f))
    && (f in s.interest || (Registering(s.user) && s.user.f == f))
  }

  /** The user thread completes whatever registration it is in, f's own among them. */
  lemma {:induction false} RegistrationWakes(cfg: Config, s: State, w: nat, f: Fid)
    requires w < |s.workers| && s.workers[w] == Blocked(f) && f in s.conns && s.conns[f].lock.None?
    requires s.eq.Top? && (s.user.Top? || Registering(s.user)) && s.listener != Some(f) && OnItsWay(s, f)
    requires s.proactor == if s.user.RegInsert? || s.user.RegEpoll? then Some(User) else None
    ensures CanMove(cfg, s, w)
    decreases ToTop(s.user)
  {
    if s.user.Top? {
      IterationWakes(cfg, s, w, f);
    } else {
      var t := Register(s, User);
      assert t == Apply(cfg, s, Advance(User));
      RegistrationWakes(cfg, t, w, f);
      MoveLater(cfg, s, Advance(User), w);
    }
  }

  /**
   * Between two iterations of the EQ thread, and with no shutdown by the user under way, a blocked
   * worker is stranded exactly when its connection's status has passed the gate: the close path
   * writes it without a notify.  As long as it has not, some run wakes the worker.
   */
  lemma StrandedExactly(cfg: Config, s: State, w: nat)
    requires Reachable(cfg, s) && w < |s.workers| && s.workers[w].Blocked?
    requires s.eq.Top? && (s.user.Top? || Registering(s.user))
    ensures s.workers[w].c in s.conns
    ensures Stranded(cfg, s, w) <==> Connected.Rank() <= s.conns[s.workers[w].c].status.Rank()
  {
    var f := s.workers[w].c;
    ReachableInv(cfg, s);
    ReachablePending(cfg, s, f);
    assert Bound(s, w) && Local(cfg, ViewOf(s, f));
    if Connected.Rank() <= s.conns[f].status.Rank() {
      AbandonedIsStranded(cfg, s, w);
    } else {
      var lock := s.conns[f].lock;
      var holder := if lock.Some? && lock.value.WorkerOwner? then lock.value.w else w;
      assert Bound(s, holder);
      assert lock.None?;
      assert s.proactor == if s.user.RegInsert? || s.user.RegEpoll? then Some(User) else None;
      assert OnItsWay(s, f);
      RegistrationWakes(cfg, s, w, f);
      var steps :| Moves(cfg, s, steps, w);
    }
  }

  // ---------- how a worker comes to be stranded ----------

  /** A message and then FI_SHUTDOWN, read before FI_CONNECTED, strand the connection's worker. */
  lemma StrandsFrom(cfg: Config, s: State, w: nat, f: Fid)
    requires Reachable(cfg, s) && s.eq.Top? && s.user.Top? && s.proactor.None?
    requires f in s.eventMap && f in s.interest && s.listener != Some(f)
    requires Enabled(cfg, s, Deliver(w, f)) && s.conns[f].lock.None? && !s.conns[f].wasConnected
    requires s.conns[f].status.Rank() < Connected.Rank()
    ensures exists t :: Reachable(cfg, t) && Stranded(cfg, t, w)
  {
    GateRun(cfg, s, w, f);
    CloseStrands(cfg, s.SetWorker(w, Blocked(f)), w, f);
  }

  lemma CloseStrands(cfg: Config, s: State, w: nat, f: Fid)
    requires Reachable(cfg, s) && s.eq.Top? && s.user.Top? && s.proactor.None?
    requires f in s.eventMap && f in s.interest && s.listener != Some(f)
    requires w < |s.workers| && s.workers[w] == Blocked(f) && f in s.conns && !s.conns[f].wasConnected
    ensures exists t :: Reachable(cfg, t) && Stranded(cfg, t, w)
  {
    PollRun(cfg, s, f);
    var picked := s.(snapshot := s.eventMap, eq := Picked(f));
    CloseRun(cfg, picked, f);
    var t := CloseEffect(picked, f);
    assert t.workers[w] == Blocked(f);
    AbandonedIsStranded(cfg, t, w);
  }

  /** Every client has a run that comes to that. */
  lemma StrandedRun(cfg: Config)
    requires !cfg.isServer && 0 < cfg.workers && 0 < cfg.maxCalls
    ensures exists s :: Reachable(cfg, s) && Stranded(cfg, s, 0)
  {
    ReachInit(cfg);
    ConnectRun(cfg, Init(cfg), 0, None);
    StrandsFrom(cfg, CreateEffect(cfg, Init(cfg).(calls := 1), User, 0, cfg.callbacks, None), 0, 0);
  }
}
