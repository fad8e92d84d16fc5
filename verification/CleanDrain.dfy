/**
 Shutting the Java service down.  EqService.shutdown walks the connection map on a user thread and
 queues every connection, then clears the EQ thread's `running` flag.  The EQ thread goes on until
 the flag is down and the queue empty, shutting down what is queued, and then frees the native
 service.  One step is one access to the shared state; the map is a java.util.HashMap, whose
 iterator throws on the first next() after a change.
 */
module CleanDrain {
  type Eq = nat

  datatype UserPc =
    | Before
    | Iterating(todo: set<Eq>, expected: nat)
    | Holding(k: Eq, todo: set<Eq>, expected: nat)
    | Stopping
    | Stopped
    | Aborted

  datatype EqPc =
    | CheckRunning
    | CheckReap
    | Waiting
    | Reaping
    | Shutting(k: Eq)
    | Freeing
    | Freed

  /** History: `keys` are the connections present when the walk started, `queued` those it queued,
      `late` those of them it queued after the EQ thread had left its loop, `down` those shut down. */
  datatype State = State(
    conMap: set<Eq>,
    modCount: nat,
    reapCons: seq<Eq>,
    running: bool,
    user: UserPc,
    eq: EqPc,
    keys: set<Eq>,
    queued: set<Eq>,
    late: set<Eq>,
    down: set<Eq>)
  {
    predicate LeftLoop() {
      eq.Freeing? || eq.Freed?
    }
  }

  function Init(): State {
    State({}, 0, [], true, Before, CheckRunning, {}, {}, {}, {})
  }

  datatype Step =
    | Walk
    | NextKey(k: Eq)
    | Queue
    | EndOfKeys
    | ClearRunning
    | ReadRunning
    | ReadQueue
    | Established(k: Eq)
    | PeerClosed(k: Eq)
    | NoEvent
    | FatalError
    | PollQueue
    | ShutDown
    | Free
    | AppShutdown(k: Eq)

  predicate Enabled(s: State, step: Step) {
    match step
    case Walk => s.user.Before?
    case NextKey(k) => s.user.Iterating? && k in s.user.todo
    case Queue => s.user.Holding?
    case EndOfKeys => s.user.Iterating? && s.user.todo == {}
    case ClearRunning => s.user.Stopping?
    case ReadRunning => s.eq.CheckRunning?
    case ReadQueue => s.eq.CheckReap?
    case Established(k) => s.eq.Waiting? && k !in s.conMap && k !in s.down
    case PeerClosed(k) => s.eq.Waiting? && k in s.conMap
    case NoEvent => s.eq.Waiting?
    case FatalError => s.eq.Waiting?
    case PollQueue => s.eq.Reaping?
    case ShutDown => s.eq.Shutting?
    case Free => s.eq.Freeing?
    case AppShutdown(k) => k in s.conMap
  }

  /** HashMap.remove. */
  function Removed(s: State, k: Eq): State {
    if k in s.conMap then s.(conMap := s.conMap - {k}, modCount := s.modCount + 1) else s
  }

  function Apply(s: State, step: Step): State
    requires Enabled(s, step)
  {
    match step
    case Walk => s.(user := Iterating(s.conMap, s.modCount), keys := s.conMap)
    case NextKey(k) =>
      s.(user := if s.modCount != s.user.expected then Aborted
                 else Holding(k, s.user.todo - {k}, s.user.expected))
    case Queue =>
      if s.user.k !in s.conMap then s.(user := Aborted)
      else
        s.(user := Iterating(s.user.todo, s.user.expected), reapCons := s.reapCons + [s.user.k],
           queued := s.queued + {s.user.k}, late := if s.LeftLoop() then s.late + {s.user.k} else s.late)
    case EndOfKeys => s.(user := Stopping)
    case ClearRunning => s.(running := false, user := Stopped)
    case ReadRunning => s.(eq := if s.running then Waiting else CheckReap)
    case ReadQueue => s.(eq := if s.reapCons != [] then Waiting else Freeing)
    case Established(k) => s.(conMap := s.conMap + {k}, modCount := s.modCount + 1, eq := Reaping)
    case PeerClosed(k) => Removed(s, k).(eq := Reaping)
    case NoEvent => s.(eq := Reaping)
    case FatalError => s.(running := false, eq := Reaping)
    case PollQueue =>
      if s.reapCons == [] then s.(eq := CheckRunning)
      else s.(eq := Shutting(s.reapCons[0]), reapCons := s.reapCons[1..])
    case ShutDown => Removed(s, s.eq.k).(eq := Reaping, down := s.down + {s.eq.k})
    case Free => s.(eq := Freed)
    case AppShutdown(k) => Removed(s, k).(down := s.down + {k})
  }

  ghost predicate IsRun(s: State, steps: seq<Step>)
    decreases |steps|
  {
    steps == [] || (Enabled(s, steps[0]) && IsRun(Apply(s, steps[0]), steps[1..]))
  }

  ghost function After(s: State, steps: seq<Step>): State
    requires IsRun(s, steps)
    decreases |steps|
  {
    if steps == [] then s else After(Apply(s, steps[0]), steps[1..])
  }

  // ---------- the invariant ----------

  /** Of every connection queued: it is down, or waits its turn, or is being shut down. */
  ghost predicate Accounted(s: State) {
    forall k <- s.queued :: k in s.down || k in s.reapCons || s.eq == Shutting(k)
  }

  /** Only what is queued after the loop's last look at the queue stays there. */
  ghost predicate LateExplains(s: State) {
    (forall k <- s.reapCons :: s.LeftLoop() ==> k in s.late) && (!s.LeftLoop() ==> s.late == {})
  }

  /** The walk misses no connection that was there when it started. */
  predicate WalkComplete(s: State) {
    match s.user
    case Iterating(todo, _) => s.keys <= s.queued + todo
    case Holding(k, todo, _) => s.keys <= s.queued + todo + {k}
    case Stopping => s.keys <= s.queued
    case Stopped => s.keys <= s.queued
    case _ => true
  }

  /** The walk's next() throws exactly when the map has changed since the walk began; while it
      has not, every key still to come is in the map. */
  predicate WalkInStep(s: State) {
    match s.user
    case Iterating(todo, expected) => expected <= s.modCount && (expected == s.modCount ==> todo <= s.conMap)
    case Holding(k, todo, expected) =>
      expected <= s.modCount && (expected == s.modCount ==> todo + {k} <= s.conMap) && k !in todo
    case _ => true
  }

  ghost predicate Inv(s: State) {
    Accounted(s) && LateExplains(s) && WalkComplete(s) && WalkInStep(s) && s.conMap !! s.down
  }

  /** What holds as long as there is no fatal error: the flag falls only behind the walk. */
  predicate FlagBehindWalk(s: State) {
    (!s.running <==> s.user.Stopped?) && (s.eq.CheckReap? || s.LeftLoop() ==> !s.running) && s.late == {}
  }

  lemma StepInv(s: State, step: Step)
    requires Enabled(s, step) && Inv(s)
    ensures Inv(Apply(s, step))
  {
  }

  lemma StepFlag(s: State, step: Step)
    requires Enabled(s, step) && FlagBehindWalk(s) && !step.FatalError?
    ensures FlagBehindWalk(Apply(s, step))
  {
  }

  lemma {:induction false} RunInv(s: State, steps: seq<Step>)
    requires IsRun(s, steps) && Inv(s)
    ensures Inv(After(s, steps))
    ensures FlagBehindWalk(s) && FatalError !in steps ==> FlagBehindWalk(After(s, steps))
    decreases |steps|
  {
    if steps != [] {
      StepInv(s, steps[0]);
      if FlagBehindWalk(s) && FatalError !in steps {
        StepFlag(s, steps[0]);
      }
      RunInv(Apply(s, steps[0]), steps[1..]);
    }
  }

  // ---------- reachable states ----------

  ghost predicate Reaches(steps: seq<Step>, s: State) {
    IsRun(Init(), steps) && After(Init(), steps) == s
  }

  ghost predicate Reachable(s: State) {
    exists steps :: Reaches(steps, s)
  }

  lemma {:induction false} RunSnoc(s: State, steps: seq<Step>, step: Step)
    requires IsRun(s, steps) && Enabled(After(s, steps), step)
    ensures IsRun(s, steps + [step]) && After(s, steps + [step]) == Apply(After(s, steps), step)
    decreases |steps|
  {
    if steps == [] {
      assert IsRun(Apply(s, step), []);
      assert [step][1..] == [];
    } else {
      RunSnoc(Apply(s, steps[0]), steps[1..], step);
      assert (steps + [step])[1..] == steps[1..] + [step];
    }
  }

  lemma ReachInit()
    ensures Reachable(Init())
  {
    assert Reaches([], Init());
  }

  lemma ReachStep(s: State, step: Step)
    requires Reachable(s) && Enabled(s, step)
    ensures Reachable(Apply(s, step))
  {
    var steps :| Reaches(steps, s);
    RunSnoc(Init(), steps, step);
    assert Reaches(steps + [step], Apply(s, step));
  }

  lemma {:induction false} ReachRun(s: State, steps: seq<Step>)
    requires Reachable(s) && IsRun(s, steps)
    ensures Reachable(After(s, steps))
    decreases |steps|
  {
    if steps != [] {
      ReachStep(s, steps[0]);
      ReachRun(Apply(s, steps[0]), steps[1..]);
    }
  }

  lemma ReachableInv(s: State)
    requires Reachable(s)
    ensures Inv(s) && WalkInStep(s) && s.conMap !! s.down
  {
    var steps :| Reaches(steps, s);
    RunInv(Init(), steps);
  }

  // ---------- theorems ----------

  /**
   * Clean drain: with no fatal EQ error, in every interleaving, by the time the EQ thread decides to
   * free the native service every connection queued is down, and so is every one that was
   * there when the shutdown started.
   */
  lemma CleanDrain(steps: seq<Step>)
    requires IsRun(Init(), steps) && FatalError !in steps
    ensures var s := After(Init(), steps); s.LeftLoop() ==> s.queued <= s.down && s.keys <= s.down
  {
    RunInv(Init(), steps);
  }

  /** The walk can still queue a connection. */
  predicate CanQueue(s: State) {
    match s.user
    case Before => s.conMap != {}
    case Iterating(todo, expected) => todo != {} && expected == s.modCount
    case Holding(k, _, _) => k in s.conMap
    case _ => false
  }

  /** In every continuation everything that was queued is down. */
  ghost predicate StaysClean(s: State) {
    forall steps :: IsRun(s, steps) ==> After(s, steps).queued <= After(s, steps).down
  }

  /**
   * With fatal errors too: when the EQ thread finds the flag down and the queue empty and leaves its
   * loop, everything ever queued will be down at the free and after it, exactly when the walk can
   * queue nothing more.
   */
  lemma DrainExactly(s: State)
    requires Reachable(s) && s.eq.CheckReap? && s.reapCons == []
    ensures StaysClean(Apply(s, ReadQueue)) <==> !CanQueue(s)
  {
    ReachableInv(s);
    var t := Apply(s, ReadQueue);
    if CanQueue(s) {
      LateQueue(t);
    } else {
      forall steps | IsRun(t, steps) ensures After(t, steps).queued <= After(t, steps).down {
        NothingLate(t, steps);
      }
    }
  }

  lemma {:induction false} NothingLate(s: State, steps: seq<Step>)
    requires IsRun(s, steps) && s.LeftLoop() && !CanQueue(s) && WalkInStep(s) && s.queued <= s.down
    ensures After(s, steps).queued <= After(s, steps).down
    decreases |steps|
  {
    if steps != [] {
      NothingLate(Apply(s, steps[0]), steps[1..]);
    }
  }

  lemma LateQueue(s: State)
    requires s.LeftLoop() && CanQueue(s) && WalkInStep(s) && s.conMap !! s.down
    ensures !StaysClean(s)
    decreases if s.user.Before? then 2 else if s.user.Iterating? then 1 else 0
  {
    var step := match s.user
      case Before => Walk
      case Iterating(todo, _) => (var k :| k in todo; NextKey(k))
      case Holding(_, _, _) => Queue;
    var t := Apply(s, step);
    if step.Queue? {
      assert s.user.k in t.queued && s.user.k !in t.down;
      assert IsRun(t, []) && After(t, []) == t;
    } else {
      LateQueue(t);
    }
    var steps :| IsRun(t, steps) && !(After(t, steps).queued <= After(t, steps).down);
    OneMore(s, step, steps);
  }

  lemma OneMore(s: State, step: Step, rest: seq<Step>)
    requires Enabled(s, step) && IsRun(Apply(s, step), rest)
    ensures IsRun(s, [step] + rest) && After(s, [step] + rest) == After(Apply(s, step), rest)
  {
    assert ([step] + rest)[1..] == rest;
  }

  /** The fatal error does break it: from every state in which the walk holds a key while the EQ
      thread waits with nothing queued, the service can be freed before that connection is down. */
  lemma FatalErrorLeaks(s: State)
    requires s.user.Holding? && s.user.k in s.conMap && s.user.k !in s.down && s.eq.Waiting? && s.reapCons == []
    ensures var steps := [FatalError, PollQueue, ReadRunning, ReadQueue, Queue, Free];
            IsRun(s, steps) &&
            var t := After(s, steps); t.eq.Freed? && s.user.k in t.queued && s.user.k !in t.down
  {
    var s1 := Apply(s, FatalError);
    var s2 := Apply(s1, PollQueue);
    var s3 := Apply(s2, ReadRunning);
    var s4 := Apply(s3, ReadQueue);
    var s5 := Apply(s4, Queue);
    OneMore(s5, Free, []);
    OneMore(s4, Queue, [Free]);
    OneMore(s3, ReadQueue, [Queue, Free]);
    OneMore(s2, ReadRunning, [ReadQueue, Queue, Free]);
    OneMore(s1, PollQueue, [ReadRunning, ReadQueue, Queue, Free]);
    OneMore(s, FatalError, [PollQueue, ReadRunning, ReadQueue, Queue, Free]);
  }

  /** And such a state occurs: the service can be freed with a queued connection still up. */
  lemma FatalErrorRun()
    ensures exists s, k: Eq :: Reachable(s) && s.eq.Freed? && k in s.queued && k !in s.down
  {
    ReachInit();
    var s1 := Settled({0}, 1, Before);
    OneConnection(Init(), 0);
    assert {} + {0} == {0 as Eq};
    ReachStep(s1, Walk);
    var s2 := Apply(s1, Walk);
    ReachStep(s2, NextKey(0));
    var s3 := Apply(s2, NextKey(0));
    var steps := [FatalError, PollQueue, ReadRunning, ReadQueue, Queue, Free];
    FatalErrorLeaks(s3);
    ReachRun(s3, steps);
    assert s3.user.k == 0;
    assert 0 in After(s3, steps).queued;
  }

  /** The EQ thread waits in its loop with nothing queued and nothing shut down. */
  function Settled(conMap: set<Eq>, modCount: nat, user: UserPc): State {
    State(conMap, modCount, [], true, user, Waiting, {}, {}, {}, {})
  }

  /** One iteration that establishes a connection, from the check of the flag or from the wait. */
  lemma OneConnection(s: State, k: Eq)
    requires Reachable(s) && s.user.Before? && k !in s.conMap
    requires s == Settled(s.conMap, s.modCount, Before) || s == Settled(s.conMap, s.modCount, Before).(eq := CheckRunning)
    ensures Reachable(Settled(s.conMap + {k}, s.modCount + 1, Before))
  {
    if s.eq.CheckRunning? {
      ReachStep(s, ReadRunning);
    }
    var s1 := s.(eq := Waiting);
    ReachStep(s1, Established(k));
    var s2 := Apply(s1, Established(k));
    ReachStep(s2, PollQueue);
    ReachStep(Apply(s2, PollQueue), ReadRunning);
    assert Apply(Apply(s2, PollQueue), ReadRunning) == Settled(s.conMap + {k}, s.modCount + 1, Before);
  }

  // ---------- the drain ends ----------

  /** The service can be freed with everything in ks down. */
  ghost predicate CanFree(s: State, ks: set<Eq>) {
    exists steps :: IsRun(s, steps) && Frees(After(s, steps), ks)
  }

  predicate Frees(s: State, ks: set<Eq>) {
    s.eq.Freed? && s.reapCons == [] && ks <= s.down
  }

  lemma FreeLater(s: State, step: Step, ks: set<Eq>)
    requires Enabled(s, step) && CanFree(Apply(s, step), ks)
    ensures CanFree(s, ks)
  {
    var steps :| IsRun(Apply(s, step), steps) && Frees(After(Apply(s, step), steps), ks);
    OneMore(s, step, steps);
  }

  function Pending(s: State): nat {
    2 * |s.reapCons| + if s.eq.Shutting? then 1 else 0
  }

  /** How far the EQ thread is from its next shutdown, or from the free. */
  function ToGo(s: State): nat {
    if s.reapCons == [] then
      match s.eq
      case Waiting => 6 case Reaping => 5 case CheckRunning => 4 case CheckReap => 3 case Freeing => 2 case _ => 0
    else
      match s.eq
      case CheckRunning => 4 case CheckReap => 3 case Waiting => 2 case Reaping => 1 case _ => 0
  }

  lemma {:induction false} DrainOn(s: State, ks: set<Eq>)
    requires !s.running && (s.LeftLoop() ==> s.reapCons == [])
    requires forall k <- ks :: k in s.down || k in s.reapCons || s.eq == Shutting(k)
    ensures CanFree(s, ks)
    decreases Pending(s), ToGo(s)
  {
    if s.eq.Freed? {
      assert IsRun(s, []) && Frees(After(s, []), ks);
    } else {
      var step := match s.eq
        case CheckRunning => ReadRunning
        case CheckReap => ReadQueue
        case Waiting => NoEvent
        case Reaping => PollQueue
        case Shutting(_) => ShutDown
        case _ => Free;
      DrainOn(Apply(s, step), ks);
      FreeLater(s, step, ks);
    }
  }

  lemma FirstIn(q: seq<Eq>)
    ensures q == [] || q[0] in q
  {
  }

  /** Once the walk is over the drain can always be completed: whatever has happened, short of a fatal
      error, the EQ thread left to itself shuts down all that is queued and frees the service. */
  lemma DrainEnds(steps: seq<Step>)
    requires IsRun(Init(), steps) && FatalError !in steps && After(Init(), steps).user.Stopped?
    ensures var s := After(Init(), steps); CanFree(s, s.queued + s.keys)
  {
    RunInv(Init(), steps);
    var s := After(Init(), steps);
    assert FlagBehindWalk(s);
    FirstIn(s.reapCons);
    DrainOn(s, s.queued + s.keys);
  }

  // ---------- the walk and the map ----------

  /** The peer's close of the connection the walk is at throws at the queueing, and that of any other at the next key. */
  lemma PeerCloseAborts(s: State, k: Eq)
    requires Reachable(s) && s.eq.Waiting? && k in s.conMap
    requires s.user.Holding? || (s.user.Iterating? && s.user.todo != {})
    ensures var t := Apply(s, PeerClosed(k));
            (s.user.Holding? && s.user.k == k ==> Apply(t, Queue).user.Aborted?) &&
            (s.user.Iterating? ==> forall n <- s.user.todo :: Apply(t, NextKey(n)).user.Aborted?)
  {
    ReachableInv(s);
  }

  lemma WalkStep(s: State, step: Step)
    requires Enabled(s, step) && WalkInStep(s)
    ensures WalkInStep(Apply(s, step))
    ensures Apply(s, step).user.Aborted? && !s.user.Aborted? ==>
              (s.user.Iterating? || s.user.Holding?) && s.user.expected < s.modCount
  {
  }

  /** Steps by which others than the draining EQ thread change the map, and the fatal error. */
  predicate Quiet(steps: seq<Step>) {
    forall step <- steps :: !step.Established? && !step.PeerClosed? && !step.AppShutdown? && !step.FatalError?
  }

  /** No run goes on, without such steps, to an aborted walk. */
  ghost predicate WalkSafe(s: State) {
    forall steps :: IsRun(s, steps) && Quiet(steps) ==> !After(s, steps).user.Aborted?
  }

  /** The EQ thread is in its loop and the walk has not begun. */
  predicate BeforeWalk(s: State) {
    s.user.Before? && s.running && s.reapCons == [] && (s.eq.CheckRunning? || s.eq.Waiting? || s.eq.Reaping?)
  }

  /** That is so in every reachable state before the walk, unless a fatal error has occurred. */
  lemma {:induction false} BeforeWalkHolds(s: State, steps: seq<Step>)
    requires IsRun(s, steps) && FatalError !in steps && (s.user.Before? ==> BeforeWalk(s))
    ensures After(s, steps).user.Before? ==> BeforeWalk(After(s, steps))
    decreases |steps|
  {
    if steps != [] {
      BeforeWalkHolds(Apply(s, steps[0]), steps[1..]);
    }
  }

  /**
   * Draining alone aborts the walk that feeds it exactly when more than one connection is there: with
   * no other change of the map and no fatal error, every run completes the walk if and only if
   * conMap has at most one entry when the shutdown starts.
   */
  lemma WalkSafeExactly(steps: seq<Step>)
    requires IsRun(Init(), steps) && FatalError !in steps && After(Init(), steps).user.Before?
    ensures var s := After(Init(), steps); WalkSafe(Apply(s, Walk)) <==> |s.conMap| <= 1
  {
    BeforeWalkHolds(Init(), steps);
    var s := After(Init(), steps);
    var t := Apply(s, Walk);
    if |s.conMap| <= 1 {
      forall a, b | a in s.conMap && b in s.conMap ensures a == b {
        AtMostOne(s.conMap, a, b);
      }
      forall more | IsRun(t, more) && Quiet(more) ensures !After(t, more).user.Aborted? {
        ShortWalk(t, more);
      }
    } else {
      var a :| a in s.conMap;
      assert |s.conMap - {a}| == |s.conMap| - 1;
      var b :| b in s.conMap - {a};
      WalkAborts(t, a, b);
    }
  }

  /** No run at all goes on to an aborted walk. */
  ghost predicate NeverAborts(s: State) {
    forall steps :: IsRun(s, steps) ==> !After(s, steps).user.Aborted?
  }

  /** With other changes of the map allowed, a walk is safe exactly when there is nothing to walk over. */
  lemma NeverAbortsExactly(s: State)
    requires s.user.Before?
    ensures NeverAborts(Apply(s, Walk)) <==> s.conMap == {}
  {
    var t := Apply(s, Walk);
    if s.conMap == {} {
      forall steps | IsRun(t, steps) ensures !After(t, steps).user.Aborted? {
        EmptyWalk(t, steps);
      }
    } else {
      var k :| k in s.conMap;
      var t1 := Apply(t, AppShutdown(k));
      OneMore(t1, NextKey(k), []);
      OneMore(t, AppShutdown(k), [NextKey(k)]);
      assert After(t, [AppShutdown(k)] + [NextKey(k)]).user.Aborted?;
    }
  }

  lemma {:induction false} EmptyWalk(s: State, steps: seq<Step>)
    requires IsRun(s, steps) && (s.user.Stopping? || s.user.Stopped? || (s.user.Iterating? && s.user.todo == {}))
    ensures !After(s, steps).user.Aborted?
    decreases |steps|
  {
    if steps != [] {
      EmptyWalk(Apply(s, steps[0]), steps[1..]);
    }
  }

  lemma AtMostOne(s: set<Eq>, a: Eq, b: Eq)
    requires |s| <= 1 && a in s && b in s
    ensures a == b
  {
    assert s == {a} + (s - {a});
  }

  /** A walk over at most one key, which nothing can disturb before it is queued. */
  predicate Short(s: State) {
    match s.user
    case Iterating(todo, expected) =>
      todo == {} || (expected == s.modCount && todo <= s.conMap && s.reapCons == [] && !s.eq.Shutting?)
    case Holding(k, todo, expected) => todo == {} && k in s.conMap && s.reapCons == [] && !s.eq.Shutting?
    case Aborted => false
    case Before => false
    case _ => true
  }

  lemma {:induction false} ShortWalk(s: State, steps: seq<Step>)
    requires IsRun(s, steps) && Quiet(steps) && Short(s)
    requires s.user.Iterating? ==> forall a, b :: a in s.user.todo && b in s.user.todo ==> a == b
    ensures !After(s, steps).user.Aborted?
    decreases |steps|
  {
    if steps != [] {
      assert steps[0] in steps;
      assert Quiet(steps[1..]);
      ShortWalk(Apply(s, steps[0]), steps[1..]);
    }
  }

  /** The EQ thread shuts the first key down while the second is still to come. */
  lemma WalkAborts(s: State, a: Eq, b: Eq)
    requires s.user.Iterating? && a in s.user.todo && b in s.user.todo && a != b
    requires s.user.expected == s.modCount && s.user.todo <= s.conMap && s.running && s.reapCons == []
    requires s.eq.CheckRunning? || s.eq.Waiting? || s.eq.Reaping?
    ensures !WalkSafe(s)
    decreases if s.eq.CheckRunning? then 2 else if s.eq.Waiting? then 1 else 0
  {
    if s.eq.CheckRunning? {
      var t := Apply(s, ReadRunning);
      WalkAborts(t, a, b);
      Unsafe(s, ReadRunning);
    } else if s.eq.Waiting? {
      var t := Apply(s, NoEvent);
      WalkAborts(t, a, b);
      Unsafe(s, NoEvent);
    } else {
      var s1 := Apply(s, NextKey(a));
      var s2 := Apply(s1, Queue);
      var s3 := Apply(s2, PollQueue);
      var s4 := Apply(s3, ShutDown);
      var s5 := Apply(s4, NextKey(b));
      assert IsRun(s5, []) && Quiet([]) && After(s5, []).user.Aborted?;
      Unsafe(s4, NextKey(b));
      Unsafe(s3, ShutDown);
      Unsafe(s2, PollQueue);
      Unsafe(s1, Queue);
      Unsafe(s, NextKey(a));
    }
  }

  lemma Unsafe(s: State, step: Step)
    requires Enabled(s, step) && Quiet([step]) && !WalkSafe(Apply(s, step))
    ensures !WalkSafe(s)
  {
    var steps :| IsRun(Apply(s, step), steps) && Quiet(steps) && After(Apply(s, step), steps).user.Aborted?;
    OneMore(s, step, steps);
    assert step in [step];
    assert Quiet([step] + steps);
  }

  /** The step of it that does the harm, from any state: shutting down what the walk has queued. */
  lemma DrainAbortsWalk(s: State, k: Eq)
    requires s.user.Iterating? && k in s.user.todo && s.user.expected == s.modCount
    requires s.eq.Reaping? && s.reapCons != [] && s.reapCons[0] in s.conMap
    ensures var steps := [PollQueue, ShutDown, NextKey(k)];
            IsRun(s, steps) && After(s, steps).user.Aborted? && After(s, steps).running == s.running
  {
    var s1 := Apply(s, PollQueue);
    var s2 := Apply(s1, ShutDown);
    OneMore(s2, NextKey(k), []);
    OneMore(s1, ShutDown, [NextKey(k)]);
    OneMore(s, PollQueue, [ShutDown, NextKey(k)]);
  }

  /** And the walk of two connections is reached. */
  lemma AbortedWalkRun()
    ensures exists s :: Reachable(s) && s.user.Aborted? && s.running && !s.eq.CheckReap? && !s.LeftLoop()
  {
    ReachInit();
    OneConnection(Init(), 0);
    assert {} + {0} == {0 as Eq};
    OneConnection(Settled({0}, 1, Before), 1);
    var s := Settled({0} + {1}, 2, Before);
    var t := Apply(s, Walk);
    ReachStep(s, Walk);
    WalkAborts(t, 0, 1);
    var steps :| IsRun(t, steps) && Quiet(steps) && After(t, steps).user.Aborted?;
    ReachRun(t, steps);
    StillRunning(t, steps);
  }

  lemma {:induction false} StillRunning(s: State, steps: seq<Step>)
    requires IsRun(s, steps) && Quiet(steps) && (s.user.Iterating? || s.user.Holding? || s.user.Aborted? || s.user.Stopping? || s.user.Stopped?)
    requires !s.user.Stopped? ==> s.running && !s.eq.CheckReap? && !s.LeftLoop()
    ensures var t := After(s, steps); !t.user.Stopped? ==> t.running && !t.eq.CheckReap? && !t.LeftLoop()
    decreases |steps|
  {
    if steps != [] {
      assert steps[0] in steps;
      assert Quiet(steps[1..]);
      StillRunning(Apply(s, steps[0]), steps[1..]);
    }
  }

  /** After an abort, unless a fatal error occurs, the EQ thread never stops and nothing is freed. */
  lemma {:induction false} AbortedNeverFrees(s: State, steps: seq<Step>)
    requires IsRun(s, steps) && FatalError !in steps
    requires s.user.Aborted? && s.running && !s.eq.CheckReap? && !s.LeftLoop()
    ensures var t := After(s, steps); t.running && !t.LeftLoop()
    decreases |steps|
  {
    if steps != [] {
      AbortedNeverFrees(Apply(s, steps[0]), steps[1..]);
    }
  }
}
