/** What EqService.connect returns: the missing latch, timed calls, and connections overtaken by others. */
module JavaConnect {
  import opened Common
  import opened JavaTeardown

  predicate HandledBy(s: Sys, e: Eq) {
    (s.eq.InCallback? || s.eq.Released?) && s.eq.e == e
  }

  // ---------- the second lookup of the latch ----------

  /** connect finds no latch exactly when the EQ thread has handled FI_CONNECTED, from its beginning to
      its end, since the queue was made pollable. */
  lemma NoLatchExactly(s: Sys)
    requires Reachable(s) && s.user.Polled?
    ensures Apply(s, GetLatch) == Ended(s, NoLatchThrown) <==> s.user.e in s.objects && !HandledBy(s, s.user.e)
  {
    ReachableInv(s);
    assert Inv(s, s.user.e);
  }

  /** That happens: every client thread that connects can lose its latch so. */
  lemma NoLatchFrom(s: Sys, e: Eq)
    requires Reachable(s) && s.eq.Polling? && s.user == Polled(e, false) && e in s.fidMap && e !in s.objects
    ensures exists t :: Reachable(t) && t.results == s.results + [Result(e, false, NoLatchThrown)]
  {
    ReachableInv(s);
    assert Inv(s, e);
    var s1 := BeginConnected(s, e);
    ReachStep(s, ConnectedEvent(e));
    ReachStep(s1, CountDown);
    var s2 := CountDownSpec(s1);
    ReachStep(s2, FinishConnected);
    var s3 := FinishConnectedSpec(s2);
    ReachStep(s3, GetLatch);
    assert Apply(s3, GetLatch).results == s.results + [Result(e, false, NoLatchThrown)];
  }

  lemma PolledRun(s: Sys, e: Eq, timed: bool)
    requires Reachable(s) && !s.isServer && s.user.Outside? && e !in s.status && s.eq.Polling?
    ensures Reachable(Connected(s, e, timed))
  {
    ReachStep(s, NativeConnect(e, timed));
    var s1 := Apply(s, NativeConnect(e, timed));
    ReachStep(s1, PutLatch);
    var s2 := Apply(s1, PutLatch);
    ReachStep(s2, AddEvent);
    assert Apply(s2, AddEvent) == Connected(s, e, timed);
  }

  /** A connect up to where its queue is pollable. */
  function Connected(s: Sys, e: Eq, timed: bool): Sys {
    s.(nativeCons := s.nativeCons + {e}, status := s.status[e := Status.ConnectReq], latches := s.latches + {e},
       fidMap := s.fidMap + {e}, user := Polled(e, timed))
  }

  lemma NoLatchRun()
    ensures exists t :: Reachable(t) && t.results == [Result(0, false, NoLatchThrown)]
  {
    ReachInit(false);
    PolledRun(Init(false), 0, false);
    NoLatchFrom(Connected(Init(false), 0, false), 0);
  }

  // ---------- timed calls ----------

  predicate TimedEmpty(results: seq<Result>) {
    forall r <- results :: r.timed ==> r.outcome == Got(None) || r.outcome == NoLatchThrown
  }

  lemma {:induction false} TimedRun(s: Sys, steps: seq<Step>)
    requires IsRun(s, steps) && TimedEmpty(s.results)
    ensures TimedEmpty(After(s, steps).results)
    decreases |steps|
  {
    if steps != [] {
      TimedRun(Apply(s, steps[0]), steps[1..]);
    }
  }

  /** A connect with a time-out never returns a connection, not even one established in time. */
  lemma TimedReturnsNothing(s: Sys, r: Result)
    requires Reachable(s) && r in s.results && r.timed
    ensures r.outcome == Got(None) || r.outcome == NoLatchThrown
  {
    var isServer, steps :| Reaches(isServer, steps, s);
    TimedRun(Init(isServer), steps);
  }

  // ---------- without time-outs ----------

  /** Without time-outs at most the requested connection is still to be established. */
  ghost predicate OnePending(s: Sys) {
    && !s.isServer
    && (forall x <- s.status :: x in s.objects || (!s.user.Outside? && s.user.e == x))
    && (!s.user.Outside? ==> s.user.e in s.status && (s.user.e in s.counted ==> s.curCon == Some(s.user.e)))
    && (s.eq.InCallback? ==> !s.user.Outside? && s.user.e == s.eq.e)
    && (forall r <- s.results :: !r.timed && r.outcome.Got? ==> r.outcome.con == Some(r.asked))
  }

  lemma PendingUserStep(s: Sys, step: Step)
    requires OnePending(s) && Enabled(s, step)
    requires step.NativeConnect? || step.PutLatch? || step.AddEvent? || step.GetLatch? || step.Return?
    requires Inv(s, Subject(s, step))
    ensures OnePending(Apply(s, step))
  {
  }

  lemma PendingEqStep(s: Sys, step: Step)
    requires OnePending(s) && Enabled(s, step) && Inv(s, Subject(s, step))
    requires step.ConnectedEvent? || step.CountDown? || step.FinishConnected?
          || step.ShutdownEvent? || step.LocalShutdown? || step.NativeFree?
    ensures OnePending(Apply(s, step))
  {
  }

  lemma {:induction false} RunPending(s: Sys, steps: seq<Step>)
    requires IsRun(s, steps) && AllInv(s) && OnePending(s) && TimeOut !in steps
    ensures OnePending(After(s, steps))
    decreases |steps|
  {
    if steps != [] {
      AllStep(s, steps[0]);
      assert Inv(s, Subject(s, steps[0]));
      if steps[0].NativeConnect? || steps[0].PutLatch? || steps[0].AddEvent? || steps[0].GetLatch? || steps[0].Return? {
        PendingUserStep(s, steps[0]);
      } else {
        PendingEqStep(s, steps[0]);
      }
      RunPending(Apply(s, steps[0]), steps[1..]);
    }
  }

  /** As long as no connect times out, every untimed connect that returns returns the connection it has
      asked for. */
  lemma ConnectReturnsOwn(steps: seq<Step>, r: Result)
    requires IsRun(Init(false), steps) && TimeOut !in steps && r in After(Init(false), steps).results
    ensures !r.timed && r.outcome.Got? ==> r.outcome.con == Some(r.asked)
  {
    RunPending(Init(false), steps);
  }

  // ---------- an awaiting connect: what it may return ----------

  /** A run, before connect returns, after which it can return. */
  ghost predicate Returns(s: Sys, steps: seq<Step>) {
    IsRun(s, steps) && Return !in steps && Enabled(After(s, steps), Return)
  }

  ghost predicate CanReturn(s: Sys) {
    exists steps :: Returns(s, steps)
  }

  /** Such a run after which it would return something other than e. */
  ghost predicate Misleads(s: Sys, steps: seq<Step>, e: Eq) {
    Returns(s, steps) && After(s, steps).curCon != Some(e)
  }

  /** If connect returns, it returns the connection asked for. */
  ghost predicate OwnAlways(s: Sys, e: Eq) {
    forall steps :: !Misleads(s, steps, e)
  }

  lemma OneMore(s: Sys, step: Step, steps: seq<Step>)
    requires Enabled(s, step) && IsRun(Apply(s, step), steps)
    ensures IsRun(s, [step] + steps) && After(s, [step] + steps) == After(Apply(s, step), steps)
  {
    assert ([step] + steps)[1..] == steps;
  }

  lemma MisleadLater(s: Sys, step: Step, e: Eq)
    requires Enabled(s, step) && step != Return && !OwnAlways(Apply(s, step), e)
    ensures !OwnAlways(s, e)
  {
    var steps :| Misleads(Apply(s, step), steps, e);
    OneMore(s, step, steps);
    assert Misleads(s, [step] + steps, e);
  }

  lemma ReturnLater(s: Sys, step: Step)
    requires Enabled(s, step) && step != Return && CanReturn(Apply(s, step))
    ensures CanReturn(s)
  {
    var steps :| Returns(Apply(s, step), steps);
    OneMore(s, step, steps);
    assert Returns(s, [step] + steps);
  }

  lemma ReturnNow(s: Sys)
    requires Enabled(s, Return)
    ensures CanReturn(s) && forall e: Eq :: s.curCon != Some(e) ==> !OwnAlways(s, e)
  {
    assert IsRun(s, []) && After(s, []) == s;
    forall e: Eq | s.curCon != Some(e) ensures !OwnAlways(s, e) {
      assert Misleads(s, [], e);
    }
    assert Returns(s, []);
  }

  /** Nothing but e itself can be established while connect waits for e. */
  predicate Alone(s: Sys, e: Eq) {
    && !s.isServer && s.user == Awaiting(e, false)
    && (forall x <- s.fidMap :: x in s.objects || x == e)
    && (s.eq.InCallback? ==> s.eq.e == e)
    && (e in s.counted ==> s.curCon == Some(e))
  }

  lemma AloneStep(s: Sys, step: Step, e: Eq)
    requires Alone(s, e) && Enabled(s, step) && step != Return
    ensures Alone(Apply(s, step), e)
  {
  }

  lemma {:induction false} AloneRun(s: Sys, steps: seq<Step>, e: Eq)
    requires Alone(s, e) && IsRun(s, steps) && Return !in steps
    ensures Alone(After(s, steps), e)
    decreases |steps|
  {
    if steps != [] {
      AloneStep(s, steps[0], e);
      AloneRun(Apply(s, steps[0]), steps[1..], e);
    }
  }

  /** FI_CONNECTED of another queue, after e's own: connect would return the other connection. */
  lemma Overtaken(s: Sys, e: Eq, x: Eq)
    requires AllInv(s) && !s.isServer && s.eq.Polling? && s.user == Awaiting(e, false) && e in s.counted
    requires x in s.fidMap && x !in s.objects && x != e
    ensures !OwnAlways(s, e)
  {
    assert Inv(s, x);
    var s1 := BeginConnected(s, x);
    OwnBegin(s, x);
    OwnCountDown(s1);
    ReturnNow(CountDownSpec(s1));
    MisleadLater(s1, CountDown, e);
    MisleadLater(s, ConnectedEvent(x), e);
  }

  /** e's own FI_CONNECTED, up to the next event. */
  lemma Establish(s: Sys, e: Eq) returns (t: Sys)
    requires AllInv(s) && !s.isServer && s.eq.Polling? && s.user == Awaiting(e, false)
    requires e in s.fidMap && e !in s.objects
    ensures AllInv(t) && !t.isServer && t.eq.Polling? && t.user == s.user && e in t.counted
    ensures t.fidMap == s.fidMap && t.objects == s.objects[e := true]
    ensures !OwnAlways(t, e) ==> !OwnAlways(s, e)
    ensures CanReturn(t) ==> CanReturn(s)
  {
    assert Inv(s, e);
    var s1 := BeginConnected(s, e);
    OwnBegin(s, e);
    AllStep(s, ConnectedEvent(e));
    var s2 := CountDownSpec(s1);
    OwnCountDown(s1);
    AllStep(s1, CountDown);
    t := FinishConnectedSpec(s2);
    AllStep(s2, FinishConnected);
    if !OwnAlways(t, e) {
      MisleadLater(s2, FinishConnected, e);
      MisleadLater(s1, CountDown, e);
      MisleadLater(s, ConnectedEvent(e), e);
    }
    if CanReturn(t) {
      ReturnLater(s2, FinishConnected);
      ReturnLater(s1, CountDown);
      ReturnLater(s, ConnectedEvent(e));
    }
  }

  /** Its own FI_CONNECTED has come, or can still come. */
  predicate MayCome(s: Sys, e: Eq) {
    e in s.counted || (e in s.fidMap && e !in s.objects)
  }

  /** What comes first has not been overtaken, and nothing else can come. */
  predicate NothingElse(s: Sys, e: Eq) {
    (e in s.counted ==> s.curCon == Some(e)) && (forall x <- s.fidMap :: x in s.objects || x == e)
  }

  /**
   * While an untimed connect waits, between two events, it can return nothing but its own connection
   * exactly when it cannot return at all, or no other queue is pollable and still to be established and
   * none has come in between already.
   */
  lemma AwaitExactly(s: Sys, e: Eq)
    requires Reachable(s) && !s.isServer && s.eq.Polling? && s.user == Awaiting(e, false)
    ensures OwnAlways(s, e) <==> !MayCome(s, e) || NothingElse(s, e)
  {
    ReachableInv(s);
    if !MayCome(s, e) {
      HangsUnlessMayCome(s, e);
    } else if e in s.counted && s.curCon != Some(e) {
      ReturnNow(s);
    } else if x :| x in s.fidMap && x !in s.objects && x != e {
      if e in s.counted {
        Overtaken(s, e, x);
      } else {
        var t := Establish(s, e);
        Overtaken(t, e, x);
      }
    } else {
      forall steps ensures !Misleads(s, steps, e) {
        if IsRun(s, steps) && Return !in steps {
          AloneRun(s, steps, e);
        }
      }
    }
  }

  // ---------- an awaiting connect: whether it returns at all ----------

  /** No continuation ends the wait for e; the caller keeps the monitor that EqService.shutdown needs. */
  ghost predicate Hangs(s: Sys, e: Eq) {
    forall steps :: IsRun(s, steps) ==> After(s, steps).user == Awaiting(e, false) && e !in After(s, steps).counted
  }

  /** The queue waited for is gone without having been established. */
  predicate Deserted(s: Sys, e: Eq) {
    !s.isServer && s.user == Awaiting(e, false) && e !in s.counted && e !in s.fidMap && !HandledBy(s, e)
  }

  lemma DesertedStep(s: Sys, step: Step, e: Eq)
    requires Deserted(s, e) && Enabled(s, step)
    ensures Deserted(Apply(s, step), e)
  {
  }

  lemma {:induction false} DesertedRun(s: Sys, steps: seq<Step>, e: Eq)
    requires Deserted(s, e) && IsRun(s, steps)
    ensures Deserted(After(s, steps), e)
    decreases |steps|
  {
    if steps != [] {
      DesertedStep(s, steps[0], e);
      DesertedRun(Apply(s, steps[0]), steps[1..], e);
    }
  }

  lemma DesertedHangs(s: Sys, e: Eq)
    requires Deserted(s, e)
    ensures Hangs(s, e) && !CanReturn(s)
  {
    forall steps | IsRun(s, steps)
      ensures After(s, steps).user == Awaiting(e, false) && e !in After(s, steps).counted
    {
      DesertedRun(s, steps, e);
    }
  }

  lemma HangsUnlessMayCome(s: Sys, e: Eq)
    requires AllInv(s) && !s.isServer && s.eq.Polling? && s.user == Awaiting(e, false) && !MayCome(s, e)
    ensures Hangs(s, e) && !CanReturn(s)
  {
    assert Inv(s, e);
    DesertedHangs(s, e);
  }

  /** While it waits, between two events, some run has connect return exactly when its own FI_CONNECTED
      has come or its queue is still polled; otherwise it waits for ever. */
  lemma CanReturnExactly(s: Sys, e: Eq)
    requires Reachable(s) && !s.isServer && s.eq.Polling? && s.user == Awaiting(e, false)
    ensures CanReturn(s) <==> MayCome(s, e)
    ensures Hangs(s, e) <==> !MayCome(s, e)
  {
    ReachableInv(s);
    if !MayCome(s, e) {
      HangsUnlessMayCome(s, e);
    } else if e in s.counted {
      ReturnNow(s);
      assert IsRun(s, []) && After(s, []) == s;
    } else {
      var t := Establish(s, e);
      ReturnNow(t);
      var steps :| Returns(s, steps);
      assert IsRun(s, steps) && Enabled(After(s, steps), Return);
    }
  }

  /** A run, before connect returns, to a state in which it waits for ever. */
  ghost predicate Denies(s: Sys, steps: seq<Step>, e: Eq) {
    IsRun(s, steps) && Return !in steps && Hangs(After(s, steps), e)
  }

  lemma {:induction false} CountedStays(s: Sys, steps: seq<Step>, e: Eq)
    requires IsRun(s, steps) && e in s.counted
    ensures e in After(s, steps).counted
    decreases |steps|
  {
    if steps != [] {
      CountedStays(Apply(s, steps[0]), steps[1..], e);
    }
  }

  /** FI_SHUTDOWN can still deny it its connection exactly as long as its own FI_CONNECTED has not come. */
  lemma DeniedExactly(s: Sys, e: Eq)
    requires Reachable(s) && !s.isServer && s.eq.Polling? && s.user == Awaiting(e, false)
    ensures (exists steps :: Denies(s, steps, e)) <==> e !in s.counted
  {
    ReachableInv(s);
    assert Inv(s, e);
    if e in s.counted {
      forall steps ensures !Denies(s, steps, e) {
        if IsRun(s, steps) {
          CountedStays(s, steps, e);
          assert IsRun(After(s, steps), []) && After(After(s, steps), []) == After(s, steps);
        }
      }
    } else if e in s.fidMap {
      var t := PeerShutdown(s, e);
      DesertedHangs(t, e);
      assert IsRun(t, []) && After(t, []) == t;
      OneMore(s, ShutdownEvent(e), []);
      assert Denies(s, [ShutdownEvent(e)] + [], e);
    } else {
      HangsUnlessMayCome(s, e);
      assert IsRun(s, []) && After(s, []) == s;
      assert Denies(s, [], e);
    }
  }

  /** Connect is bound to return the connection it asked for: no continuation makes it wait for ever, and
      none has it return another. */
  ghost predicate Sure(s: Sys, e: Eq) {
    OwnAlways(s, e) && forall steps :: !Denies(s, steps, e)
  }

  /** That is so exactly when its own FI_CONNECTED has come, is the last that came, and no other queue is
      pollable and still to be established. */
  lemma SureExactly(s: Sys, e: Eq)
    requires Reachable(s) && !s.isServer && s.eq.Polling? && s.user == Awaiting(e, false)
    ensures Sure(s, e) <==> e in s.counted && NothingElse(s, e)
  {
    AwaitExactly(s, e);
    DeniedExactly(s, e);
  }

  /** And there is a run in which connect waits for ever: FI_SHUTDOWN comes before FI_CONNECTED. */
  lemma HangingRun()
    ensures exists s :: Reachable(s) && s.user == Awaiting(0, false) && Hangs(s, 0)
  {
    ReachInit(false);
    PolledRun(Init(false), 0, false);
    var s1 := Connected(Init(false), 0, false);
    ReachStep(s1, GetLatch);
    var s2 := s1.(user := Awaiting(0, false));
    ReachStep(s2, ShutdownEvent(0));
    var s3 := PeerShutdown(s2, 0);
    DesertedHangs(s3, 0);
  }

  /** A timed-out connect leaves such a queue behind, for the next one to meet. */
  lemma LateConnectionRun()
    ensures exists s :: Reachable(s) && !s.isServer && s.eq.Polling? && s.user == Awaiting(1, false) && !OwnAlways(s, 1)
  {
    ReachInit(false);
    PolledRun(Init(false), 0, true);
    var s1 := Connected(Init(false), 0, true);
    ReachStep(s1, GetLatch);
    var s2 := s1.(user := Awaiting(0, true));
    ReachStep(s2, TimeOut);
    var s3 := s1.(user := Outside, results := [Result(0, true, Got(None))]);
    assert Apply(s2, TimeOut) == s3;
    PolledRun(s3, 1, false);
    var s4 := Connected(s3, 1, false);
    ReachStep(s4, GetLatch);
    var s5 := s4.(user := Awaiting(1, false));
    assert 0 in s5.fidMap && 0 !in s5.objects && 1 in s5.fidMap;
    AwaitExactly(s5, 1);
  }
}
