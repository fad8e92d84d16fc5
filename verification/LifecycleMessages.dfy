/** What becomes of the messages: each worker dispatches every completion it takes, in order, and a
    completion that found the gate closed is dispatched once the gate is open. */
module LifecycleMessages {
  import opened Common
  import opened Lifecycle
  import opened LifecycleInvariant
  import opened LifecycleTheorems
  import opened LifecycleRuns

  // ---------- every message, in order ----------

  function Took(step: Step, w: nat): seq<Fid> {
    if step.Deliver? && step.w == w then [step.c] else []
  }

  /** The connections of the completions worker w takes in a run. */
  function Taken(steps: seq<Step>, w: nat): seq<Fid> {
    if steps == [] then []
    else Took(steps[0], w) + Taken(steps[1..], w)
  }

  /** The connections of the completions worker w has dispatched. */
  function DispatchedBy(log: seq<Dispatch>, w: nat): seq<Fid> {
    if log == [] then []
    else DispatchedBy(log[..|log| - 1], w) + (if log[|log| - 1].worker == w then [log[|log| - 1].c] else [])
  }

  /** The completion it is at work on. */
  function InHand(s: State, w: nat): seq<Fid> {
    if s.Worker(w).Polling? then [] else [s.Worker(w).c]
  }

  function Messages(s: State, w: nat): seq<Fid> {
    DispatchedBy(s.log, w) + InHand(s, w)
  }

  lemma WorkKeeps(s: State, v: nat, w: nat)
    requires CanWork(s, v)
    ensures Messages(WorkOn(s, v), w) == Messages(s, w)
  {
    if s.workers[v].Dispatching? {
      var log := WorkOn(s, v).log;
      assert log[..|log| - 1] == s.log;
    }
  }

  /** The threads' own statements touch neither the workers nor the log. */
  predicate Aside(s: State, s': State) {
    s'.workers == s.workers && s'.log == s.log
  }

  lemma RegisterAside(s: State, t: Thread)
    requires CanAdvance(s, t) && Registering(s.At(t))
    ensures Aside(s, Register(s, t))
  {
  }

  lemma EstablishAside(s: State, t: Thread)
    requires CanAdvance(s, t) && Establishing(s.At(t))
    ensures Aside(s, Establish(s, t))
  {
  }

  lemma UnregisterAside(s: State, t: Thread)
    requires CanAdvance(s, t) && Unregistering(s.At(t))
    ensures Aside(s, Unregister(s, t))
  {
  }

  lemma RetireAside(s: State, t: Thread)
    requires CanAdvance(s, t) && Retiring(s.At(t))
    ensures Aside(s, Retire(s, t))
  {
  }

  lemma AdvanceAside(cfg: Config, s: State, t: Thread)
    requires CanAdvance(s, t)
    ensures Aside(s, Apply(cfg, s, Advance(t)))
  {
    if Registering(s.At(t)) {
      RegisterAside(s, t);
    } else if Establishing(s.At(t)) {
      EstablishAside(s, t);
    } else if Unregistering(s.At(t)) {
      UnregisterAside(s, t);
    } else {
      RetireAside(s, t);
    }
  }

  predicate Wakes(step: Step) {
    step.NotifyOne? || step.SpuriousWake?
  }

  /** Outside its own work a worker only takes completions, and stays at the one it has. */
  lemma CallKeeps(cfg: Config, s: State, step: Step)
    requires Enabled(cfg, s, step) && !step.Work? && !step.Advance? && !step.Deliver? && !Wakes(step)
    ensures Aside(s, Apply(cfg, s, step))
  {
  }

  lemma WakeKeeps(cfg: Config, s: State, step: Step, w: nat)
    requires Enabled(cfg, s, step) && (Wakes(step) || step.Deliver?)
    ensures Apply(cfg, s, step).log == s.log
    ensures InHand(Apply(cfg, s, step), w) == InHand(s, w) + Took(step, w)
  {
  }

  lemma HandKeeps(cfg: Config, s: State, step: Step, w: nat)
    requires Enabled(cfg, s, step) && !step.Work?
    ensures Apply(cfg, s, step).log == s.log
    ensures InHand(Apply(cfg, s, step), w) == InHand(s, w) + Took(step, w)
  {
    if step.Advance? {
      AdvanceAside(cfg, s, step.t);
    } else if Wakes(step) || step.Deliver? {
      WakeKeeps(cfg, s, step, w);
    } else {
      CallKeeps(cfg, s, step);
    }
  }

  lemma MessageStep(cfg: Config, s: State, step: Step, w: nat)
    requires Enabled(cfg, s, step)
    ensures Messages(Apply(cfg, s, step), w) == Messages(s, w) + Took(step, w)
  {
    if step.Work? {
      assert Apply(cfg, s, step) == WorkOn(s, step.w);
      WorkKeeps(s, step.w, w);
    } else {
      HandKeeps(cfg, s, step, w);
    }
  }

  lemma Grows(a: seq<Fid>, b: seq<Fid>, x: seq<Fid>, y: seq<Fid>, c: seq<Fid>)
    requires b == a + x && c == b + y
    ensures c == a + (x + y)
  {
  }

  lemma {:induction false} MessageRun(cfg: Config, s: State, steps: seq<Step>, w: nat)
    requires IsRun(cfg, s, steps)
    ensures Messages(After(cfg, s, steps), w) == Messages(s, w) + Taken(steps, w)
    decreases |steps|
  {
    if steps == [] {
      assert After(cfg, s, steps) == s;
    } else {
      var t, rest := Apply(cfg, s, steps[0]), steps[1..];
      MessageStep(cfg, s, steps[0], w);
      MessageRun(cfg, t, rest, w);
      Grows(Messages(s, w), Messages(t, w), Took(steps[0], w), Taken(rest, w), Messages(After(cfg, t, rest), w));
    }
  }

  /** No message is dropped, doubled or overtaken: in every run the completions a worker has taken are those
      it has dispatched, in the same order, and the one it has in hand. */
  lemma MessagesInOrder(cfg: Config, steps: seq<Step>, w: nat)
    requires IsRun(cfg, Init(cfg), steps)
    ensures var s := After(cfg, Init(cfg), steps); Taken(steps, w) == Messages(s, w)
  {
    MessageRun(cfg, Init(cfg), steps, w);
  }

  /** Whoever has been called back about a connection has it. */
  ghost predicate Handed(s: State) {
    forall i :: 0 <= i < |s.log| && s.log[i].callbacks[RECV].Some? ==> s.log[i].c in s.conns && s.conns[s.log[i].c].published
  }

  lemma WorkHanded(s: State, w: nat)
    requires CanWork(s, w)
    ensures var s' := WorkOn(s, w);
            s'.log == s.log ||
            (var d := s'.log[|s.log|]; s'.log == s.log + [d] && d.c in s'.conns && (d.callbacks[RECV].Some? ==> s'.conns[d.c].published))
  {
  }

  lemma HandedStep(cfg: Config, s: State, step: Step)
    requires Inv(cfg, s) && Handed(s) && Enabled(cfg, s, step)
    ensures Handed(Apply(cfg, s, step))
  {
    var s' := Apply(cfg, s, step);
    if step.Work? {
      WorkHanded(s, step.w);
    } else {
      HandKeeps(cfg, s, step, 0);
    }
    forall i | 0 <= i < |s'.log| && s'.log[i].callbacks[RECV].Some?
      ensures s'.log[i].c in s'.conns && s'.conns[s'.log[i].c].published
    {
      if i < |s.log| {
        assert s'.log[i] == s.log[i];
        StatusStep(cfg, s, step, s.log[i].c);
      }
    }
  }

  lemma {:induction false} HandedRun(cfg: Config, s: State, steps: seq<Step>)
    requires Inv(cfg, s) && Handed(s) && IsRun(cfg, s, steps)
    ensures Handed(After(cfg, s, steps))
    decreases |steps|
  {
    if steps != [] {
      HandedStep(cfg, s, steps[0]);
      StepInv(cfg, s, steps[0]);
      HandedRun(cfg, Apply(cfg, s, steps[0]), steps[1..]);
    }
  }

  /** In every run, when the receive callback has been called about a connection the application has it from
      then on: it may send on it and shut it down. */
  lemma HandedOut(cfg: Config, s: State, i: nat)
    requires Reachable(cfg, s) && i < |s.log| && s.log[i].callbacks[RECV].Some?
    ensures s.log[i].c in s.conns && s.conns[s.log[i].c].published
  {
    InitInv(cfg);
    var steps :| IsRun(cfg, Init(cfg), steps) && After(cfg, Init(cfg), steps) == s;
    HandedRun(cfg, Init(cfg), steps);
  }

  // ---------- a message that had to wait ----------

  /** The message of worker w's connection dispatched, and the worker free again. */
  function DispatchEffect(s: State, w: nat, f: Fid): State
    requires w < |s.workers| && f in s.conns
  {
    var c := s.conns[f];
    s.SetCon(f, c.(published := c.published || c.callbacks[RECV].Some?)).SetWorker(w, Polling)
     .(log := s.log + [Dispatch(w, f, c.callbacks, c.wasConnected, c.junk)])
  }

  lemma DispatchRun(cfg: Config, s: State, w: nat, f: Fid)
    requires Reachable(cfg, s) && w < |s.workers| && s.workers[w] == Dispatching(f) && f in s.conns
    ensures Reachable(cfg, DispatchEffect(s, w, f))
  {
    assert WorkOn(s, w).conns == DispatchEffect(s, w, f).conns;
    WorkTo(cfg, s, w, DispatchEffect(s, w, f));
  }

  /** A woken worker dispatches its message, if it finds the gate open, and waits on otherwise. */
  function WokenEffect(s: State, w: nat, f: Fid): State
    requires w < |s.workers| && f in s.conns
  {
    if s.conns[f].status.Rank() < Connected.Rank() then s.SetWorker(w, Blocked(f)) else DispatchEffect(s, w, f)
  }

  lemma WokenRun(cfg: Config, s: State, w: nat, f: Fid)
    requires Reachable(cfg, s) && w < |s.workers| && s.workers[w] == Waking(f) && f in s.conns && s.conns[f].lock.None?
    ensures Reachable(cfg, WokenEffect(s, w, f))
  {
    var c := s.conns[f];
    var locked := c.(lock := Some(WorkerOwner(w)));
    assert s.conns[f := c] == s.conns && s.workers[w := Waking(f)] == s.workers;
    GateTo(cfg, s, w, f, c, Waking(f), locked, Testing(f));
    if c.status.Rank() < Connected.Rank() {
      GateTo(cfg, s, w, f, locked, Testing(f), c, Blocked(f));
    } else {
      GateTo(cfg, s, w, f, locked, Testing(f), locked, Unlocking(f));
      GateTo(cfg, s, w, f, locked, Unlocking(f), c, Dispatching(f));
      var ready := s.SetWorker(w, Dispatching(f));
      DispatchRun(cfg, ready, w, f);
      assert DispatchEffect(ready, w, f).workers == DispatchEffect(s, w, f).workers;
    }
  }

  /** So a message that came too early is dispatched, with all the service's callbacks, once FI_CONNECTED
      has been handled. */
  lemma WaitingRun(cfg: Config, s: State, w: nat, f: Fid)
    requires Reachable(cfg, s) && s.eq == Picked(f) && s.listener != Some(f) && s.Con(f).lock.None?
    requires w < |s.workers| && s.workers[w] == Blocked(f)
    ensures exists t :: Reachable(cfg, t) && t.Worker(w).Polling? && |t.log| == |s.log| + 1 &&
              t.log[..|s.log|] == s.log && t.log[|s.log|].worker == w && t.log[|s.log|].c == f &&
              t.log[|s.log|].callbacks == Full(cfg.callbacks, t.log[|s.log|].junk)
  {
    ConnectedRun(cfg, s, f);
    var t := ConnectedEffect(s, f);
    assert t.workers[w] == Waking(f);
    WokenRun(cfg, t, w, f);
    SendersHaveCallbacks(cfg, t, f);
  }

  // ---------- time-outs ----------

  /** With nothing in the snapshot the EQ thread can do nothing but return, and look again. */
  lemma EmptySnapshot(cfg: Config, s: State, step: Step)
    requires s.eq.Waiting? && s.snapshot == map[] && Enabled(cfg, s, step)
    ensures step == Timeout <==> Apply(cfg, s, step).eq != s.eq
    ensures step == Timeout ==> Apply(cfg, s, step) == s.(eq := Top)
  {
  }

  /** A server whose EQ thread has looked before there was a listener times out, finds the listener in the
      next snapshot and accepts on it. */
  lemma TimeoutRun(cfg: Config)
    requires cfg.isServer && 0 < cfg.workers && 0 < cfg.maxCalls
    ensures exists s :: Reachable(cfg, s) && s.listener == Some(0) && s.eq.Top? && 1 in s.conMap && 1 in s.eventMap && 1 in s.interest
                     && 1 in s.conns && s.conns[1].status == AcceptReq
  {
    ReachInit(cfg);
    ReachStep(cfg, Init(cfg), Snapshot);
    var s1 := Init(cfg).(eq := Waiting);
    ListenRun(cfg, s1, 0);
    var s2 := s1.(listener := Some(0), calls := 1, eventMap := map[0 := cfg.callbacks], interest := {0});
    assert RegisteredEffect(s1.(listener := Some(0), calls := 1), User, 0, cfg.callbacks) == s2 by {
      assert s1.interest + {0} == {0};
      assert s1.eventMap[0 := cfg.callbacks] == map[0 := cfg.callbacks];
    }
    EmptySnapshot(cfg, s2, Timeout);
    ReachStep(cfg, s2, Timeout);
    var s3 := s2.(eq := Top);
    PollRun(cfg, s3, 0);
    AcceptRun(cfg, s3.(snapshot := s3.eventMap, eq := Picked(0)), 0, 1, None);
  }

  // ---------- which queue, and which request ----------

  /** How many connections a run creates. */
  function Creations(steps: seq<Step>): nat {
    if steps == [] then 0
    else (if steps[0].Connect? || steps[0].ConnReqEvent? then 1 else 0) + Creations(steps[1..])
  }

  /** Where a new connection is bound before its number is counted. */
  function Started(s: State): nat {
    s.seqNum + (if s.eq.New? then 1 else 0) + (if s.user.New? then 1 else 0)
  }

  predicate RoleOk(cfg: Config, c: Conn) {
    (c.status == ConnectReq ==> !cfg.isServer) && (c.status == AcceptReq ==> cfg.isServer)
  }

  predicate RolesOk(cfg: Config, conns: map<Fid, Conn>) {
    forall f <- conns :: RoleOk(cfg, conns[f])
  }

  lemma RolesSet(cfg: Config, conns: map<Fid, Conn>, f: Fid, c: Conn)
    requires RolesOk(cfg, conns) && RoleOk(cfg, c)
    ensures RolesOk(cfg, conns[f := c])
  {
  }

  /** Servers only accept and clients only connect. */
  predicate RequestOk(cfg: Config, s: State) {
    && RolesOk(cfg, s.conns)
    && (cfg.isServer ==> !s.user.New? && !s.user.Insert?)
    && (!cfg.isServer ==> s.listener.None? && !s.eq.New? && !s.eq.Insert?)
  }

  lemma RequestAdvance(cfg: Config, s: State, t: Thread)
    requires RequestOk(cfg, s) && CanAdvance(s, t) && Local(cfg, ViewOf(s, s.At(t).f))
    ensures RequestOk(cfg, Apply(cfg, s, Advance(t)))
    ensures Started(Apply(cfg, s, Advance(t))) == Started(s)
  {
    if Registering(s.At(t)) {
      RequestRegister(cfg, s, t);
      assert Apply(cfg, s, Advance(t)) == Register(s, t);
    } else if Establishing(s.At(t)) {
      RequestEstablish(cfg, s, t);
      assert Apply(cfg, s, Advance(t)) == Establish(s, t);
    } else if Unregistering(s.At(t)) {
      RequestUnregister(cfg, s, t);
      assert Apply(cfg, s, Advance(t)) == Unregister(s, t);
    } else {
      RequestRetire(cfg, s, t);
      assert Apply(cfg, s, Advance(t)) == Retire(s, t);
    }
  }

  lemma RequestEstablish(cfg: Config, s: State, t: Thread)
    requires RequestOk(cfg, s) && CanAdvance(s, t) && Establishing(s.At(t))
    ensures RequestOk(cfg, Establish(s, t)) && Started(Establish(s, t)) == Started(s)
  {
    EstablishRoles(cfg, s, t);
    EstablishPlaces(s, t);
  }

  lemma EstablishRoles(cfg: Config, s: State, t: Thread)
    requires RolesOk(cfg, s.conns) && Establishing(s.At(t))
    ensures RolesOk(cfg, Establish(s, t).conns)
  {
    var (c, pc) := EstablishStep(s.Con(s.At(t).f), s.At(t));
    assert RoleOk(cfg, c);
    RolesSet(cfg, s.conns, s.At(t).f, c);
    assert Establish(s, t).conns == s.conns[s.At(t).f := c];
  }

  lemma EstablishPlaces(s: State, t: Thread)
    requires Establishing(s.At(t))
    ensures Establish(s, t).seqNum == s.seqNum && Establish(s, t).listener == s.listener
    ensures !Establish(s, t).At(t).New? && !Establish(s, t).At(t).Insert?
    ensures forall o: Thread :: o != t ==> Establish(s, t).At(o) == s.At(o)
  {
  }

  lemma RequestUnregister(cfg: Config, s: State, t: Thread)
    requires RequestOk(cfg, s) && CanAdvance(s, t) && Unregistering(s.At(t))
    ensures RequestOk(cfg, Unregister(s, t)) && Started(Unregister(s, t)) == Started(s)
  {
  }

  lemma RequestRetire(cfg: Config, s: State, t: Thread)
    requires RequestOk(cfg, s) && CanAdvance(s, t) && Retiring(s.At(t))
    ensures RequestOk(cfg, Retire(s, t)) && Started(Retire(s, t)) == Started(s)
  {
    var f := s.At(t).f;
    var c := s.Con(f);
    RolesSet(cfg, s.conns, f, c.(status := ShutdownReq));
    RolesSet(cfg, s.conns, f, c.(status := Down));
    RolesSet(cfg, s.conns, f, c.(freed := true));
    RetireConns(s, t);
    RetirePlaces(s, t);
  }

  lemma RetireConns(s: State, t: Thread)
    requires Retiring(s.At(t))
    ensures var f, c := s.At(t).f, s.Con(s.At(t).f);
            Retire(s, t).conns == match s.At(t)
                                  case CloseReq(_) => s.conns[f := c.(status := ShutdownReq)]
                                  case CloseDown(_) => s.conns[f := c.(status := Down)]
                                  case Reap(_) => s.conns
                                  case Free(_) => s.conns[f := c.(freed := true)]
  {
  }

  lemma RetirePlaces(s: State, t: Thread)
    requires Retiring(s.At(t))
    ensures Retire(s, t).seqNum == s.seqNum && Retire(s, t).listener == s.listener
    ensures !Retire(s, t).At(t).New? && !Retire(s, t).At(t).Insert?
    ensures forall o: Thread :: o != t ==> Retire(s, t).At(o) == s.At(o)
  {
  }

  lemma RequestRegister(cfg: Config, s: State, t: Thread)
    requires RequestOk(cfg, s) && CanAdvance(s, t) && Registering(s.At(t))
    ensures RequestOk(cfg, Register(s, t)) && Started(Register(s, t)) == Started(s)
  {
    if s.At(t).New? {
      RolesSet(cfg, s.conns, s.At(t).f, s.Con(s.At(t).f).(status := if t.Eq? then AcceptReq else ConnectReq));
    }
  }

  lemma RequestWork(cfg: Config, s: State, w: nat)
    requires RequestOk(cfg, s) && CanWork(s, w) && Bound(s, w)
    ensures RequestOk(cfg, WorkOn(s, w)) && Started(WorkOn(s, w)) == Started(s)
  {
  }

  lemma RequestCall(cfg: Config, s: State, step: Step)
    requires RequestOk(cfg, s) && Enabled(cfg, s, step) && !step.Work? && !step.Advance?
    ensures RequestOk(cfg, Apply(cfg, s, step))
    ensures Started(Apply(cfg, s, step)) == Started(s) + Creations([step])
  {
    assert [step][1..] == [];
  }

  lemma RequestStep(cfg: Config, s: State, step: Step)
    requires Inv(cfg, s) && RequestOk(cfg, s) && Enabled(cfg, s, step)
    ensures RequestOk(cfg, Apply(cfg, s, step))
    ensures Started(Apply(cfg, s, step)) == Started(s) + Creations([step])
  {
    assert [step][1..] == [];
    if step.Advance? {
      assert Local(cfg, ViewOf(s, s.At(step.t).f));
      RequestAdvance(cfg, s, step.t);
    } else if step.Work? {
      assert Bound(s, step.w);
      RequestWork(cfg, s, step.w);
    } else {
      RequestCall(cfg, s, step);
    }
  }

  lemma {:induction false} RequestRun(cfg: Config, s: State, steps: seq<Step>)
    requires Inv(cfg, s) && RequestOk(cfg, s) && IsRun(cfg, s, steps)
    ensures RequestOk(cfg, After(cfg, s, steps))
    ensures Started(After(cfg, s, steps)) == Started(s) + Creations(steps)
    decreases |steps|
  {
    if steps != [] {
      assert [steps[0]][1..] == [];
      RequestStep(cfg, s, steps[0]);
      StepInv(cfg, s, steps[0]);
      RequestRun(cfg, Apply(cfg, s, steps[0]), steps[1..]);
    }
  }

  /** In every run the connections are bound to the CQs in turn, whichever thread creates them; a server's
      come from requests it accepts, a client's from requests it makes. */
  lemma CqsInTurn(cfg: Config, steps: seq<Step>, step: Step, f: Fid)
    requires IsRun(cfg, Init(cfg), steps) && Enabled(cfg, After(cfg, Init(cfg), steps), step)
    requires (step.Connect? && step.f == f) || (step.ConnReqEvent? && step.n == f)
    ensures var s' := Apply(cfg, After(cfg, Init(cfg), steps), step);
            f in s'.conns && 0 < cfg.workers && s'.conns[f].cq == Creations(steps) % cfg.workers
  {
    InitInv(cfg);
    RequestRun(cfg, Init(cfg), steps);
  }

  lemma RequestsByRole(cfg: Config, s: State, f: Fid)
    requires Reachable(cfg, s) && f in s.conns
    ensures s.conns[f].status == ConnectReq ==> !cfg.isServer
    ensures s.conns[f].status == AcceptReq ==> cfg.isServer
  {
    InitInv(cfg);
    var steps :| IsRun(cfg, Init(cfg), steps) && After(cfg, Init(cfg), steps) == s;
    RequestRun(cfg, Init(cfg), steps);
  }
}
