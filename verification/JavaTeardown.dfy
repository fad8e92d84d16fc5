/**
 The Java binding's version of the connection lifecycle.  A connection, known by its event queue,
 is kept in three maps: the native demultiplexer's fid_map, the native stack's conMap and the Java
 conMap.  It can be torn down from two sides: by the peer's FI_SHUTDOWN on the event-queue (EQ)
 thread, and by Connection.shutdown.
 */
module JavaTeardown {
  import opened Common
  import L = Lifecycle

  type Eq = nat
  type Status = L.Status

  datatype Fault = NoConnection | NoLatch

  /** Where a client thread is inside EqService.connect; `timed` tells a call with a time-out. */
  datatype UserPc =
    | Outside
    | Connecting(e: Eq, timed: bool)
    | LatchPut(e: Eq, timed: bool)
    | Polled(e: Eq, timed: bool)
    | Awaiting(e: Eq, timed: bool)

  /** The EQ thread: in the connected callback, or past the release of the latch.  `shut` is history:
      the callback has shut its own connection down. */
  datatype EqPc = Polling | InCallback(e: Eq, shut: bool) | Released(e: Eq, shut: bool) | Faulted(why: Fault)

  /** How a connect ended: with what it returned, or with the failure of finding no latch. */
  datatype Outcome = Got(con: Option<Eq>) | NoLatchThrown
  datatype Result = Result(asked: Eq, timed: bool, outcome: Outcome)

  /** `objects` holds the `connected` flag of every Java Connection; `latches` is the latch map and
      `counted` the latches counted down; `reaped` and `frees` count the calls of MsgStack::reap and
      the native frees handed to a completion-queue (CQ) worker, which has executed those in `freed`. */
  datatype Sys = Sys(
    isServer: bool,
    fidMap: set<Eq>,
    nativeCons: set<Eq>,
    status: map<Eq, Status>,
    javaCons: set<Eq>,
    objects: map<Eq, bool>,
    latches: set<Eq>,
    counted: set<Eq>,
    curCon: Option<Eq>,
    reaped: multiset<Eq>,
    frees: multiset<Eq>,
    freed: set<Eq>,
    results: seq<Result>,
    user: UserPc,
    eq: EqPc)

  function Init(isServer: bool): Sys {
    Sys(isServer, {}, {}, map[], {}, map[], {}, {}, None, multiset{}, multiset{}, {}, [], Outside, Polling)
  }

  // ---------- the operations ----------

  function Created(s: Sys, e: Eq, st: Status): Sys {
    s.(nativeCons := s.nativeCons + {e}, status := s.status[e := st])
  }

  function ReapSpec(s: Sys, e: Eq): Sys {
    s.(nativeCons := s.nativeCons - {e}, status := s.status[e := L.Down], reaped := s.reaped + multiset{e})
  }

  /** shutdown1. */
  function NativeShutdown(s: Sys, e: Eq): Sys {
    if e in s.nativeCons && e in s.status && s.status[e].Rank() < L.Status.Down.Rank() then ReapSpec(s, e) else s
  }

  function Close(s: Sys, e: Eq): Sys {
    if e in s.javaCons then s.(frees := s.frees + multiset{e}, javaCons := s.javaCons - {e}) else s
  }

  /** Connection.shutdown. */
  function LocalShutdownSpec(s: Sys, e: Eq): (r: Sys)
    requires e in s.objects
    ensures r.objects.Keys == s.objects.Keys
  {
    if !s.objects[e] then s
    else
      var native := NativeShutdown(s, e);
      var closed := Close(native.(fidMap := native.fidMap - {e}), e);
      closed.(objects := closed.objects[e := false],
              eq := if s.eq.InCallback? && s.eq.e == e then InCallback(e, true) else s.eq)
  }

  /** FI_SHUTDOWN: the native part and then the Java part. */
  function PeerShutdown(s: Sys, e: Eq): Sys {
    var removed := s.(fidMap := s.fidMap - {e});
    Close(if e in s.nativeCons then ReapSpec(removed, e) else removed, e)
  }

  /** FI_CONNECTED up to the application's connected callback. */
  function BeginConnected(s: Sys, e: Eq): Sys {
    if e !in s.nativeCons then s.(eq := Faulted(NoConnection))
    else s.(objects := s.objects[e := true], javaCons := s.javaCons + {e}, eq := InCallback(e, false))
  }

  /** After the callback a client records the connection and counts its latch down. */
  function CountDownSpec(s: Sys): Sys
    requires s.eq.InCallback?
  {
    var e := s.eq.e;
    if s.isServer then s.(eq := Released(e, s.eq.shut))
    else if e !in s.latches then s.(curCon := Some(e), eq := Faulted(NoLatch))
    else s.(curCon := Some(e), counted := s.counted + {e}, eq := Released(e, s.eq.shut))
  }

  /** Then the latch leaves its map and the status is written. */
  function FinishConnectedSpec(s: Sys): Sys
    requires s.eq.Released?
  {
    s.(latches := s.latches - {s.eq.e}, status := s.status[s.eq.e := L.Connected], eq := Polling)
  }

  function Ended(s: Sys, outcome: Outcome): Sys
    requires !s.user.Outside?
  {
    s.(results := s.results + [Result(s.user.e, s.user.timed, outcome)], user := Outside)
  }

  // ---------- the machine ----------

  datatype Step =
    | NativeConnect(e: Eq, timed: bool)
    | PutLatch
    | AddEvent
    | GetLatch
    | Return
    | TimeOut
    | Accept(e: Eq)
    | ConnectedEvent(e: Eq)
    | CountDown
    | FinishConnected
    | ShutdownEvent(e: Eq)
    | LocalShutdown(e: Eq)
    | NativeFree(e: Eq)

  /** Event queues are new when opened; FI_CONNECTED comes once, and only for a polled queue;
      shutdowns are serialised with the EQ thread, or made by the connected callback it runs. */
  predicate Enabled(s: Sys, step: Step) {
    match step
    case NativeConnect(e, _) => !s.isServer && s.user.Outside? && e !in s.status
    case PutLatch => s.user.Connecting?
    case AddEvent => s.user.LatchPut?
    case GetLatch => s.user.Polled?
    case Return => s.user.Awaiting? && s.user.e in s.counted
    case TimeOut => s.user.Awaiting? && s.user.timed
    case Accept(e) => s.isServer && s.eq.Polling? && e !in s.status
    case ConnectedEvent(e) => s.eq.Polling? && e in s.fidMap && e !in s.objects
    case CountDown => s.eq.InCallback?
    case FinishConnected => s.eq.Released?
    case ShutdownEvent(e) => s.eq.Polling? && e in s.fidMap
    case LocalShutdown(e) => (s.eq.Polling? || s.eq.InCallback?) && e in s.objects
    case NativeFree(e) => e in s.frees && e !in s.freed
  }

  function Apply(s: Sys, step: Step): Sys
    requires Enabled(s, step)
  {
    match step
    case NativeConnect(e, timed) => Created(s, e, L.ConnectReq).(user := Connecting(e, timed))
    case PutLatch => s.(latches := s.latches + {s.user.e}, user := LatchPut(s.user.e, s.user.timed))
    case AddEvent => s.(fidMap := s.fidMap + {s.user.e}, user := Polled(s.user.e, s.user.timed))
    case GetLatch =>
      if s.user.e in s.latches then s.(user := Awaiting(s.user.e, s.user.timed)) else Ended(s, NoLatchThrown)
    case Return => Ended(s, Got(if s.user.timed then None else s.curCon))
    case TimeOut => Ended(s, Got(None))
    case Accept(e) => Created(s, e, L.AcceptReq).(fidMap := s.fidMap + {e})
    case ConnectedEvent(e) => BeginConnected(s, e)
    case CountDown => CountDownSpec(s)
    case FinishConnected => FinishConnectedSpec(s)
    case ShutdownEvent(e) => PeerShutdown(s, e)
    case LocalShutdown(e) => LocalShutdownSpec(s, e)
    case NativeFree(e) => s.(freed := s.freed + {e})
  }

  ghost predicate IsRun(s: Sys, steps: seq<Step>)
    decreases |steps|
  {
    steps == [] || (Enabled(s, steps[0]) && IsRun(Apply(s, steps[0]), steps[1..]))
  }

  ghost function After(s: Sys, steps: seq<Step>): Sys
    requires IsRun(s, steps)
    decreases |steps|
  {
    if steps == [] then s else After(Apply(s, steps[0]), steps[1..])
  }

  ghost predicate Reaches(isServer: bool, steps: seq<Step>, s: Sys) {
    IsRun(Init(isServer), steps) && After(Init(isServer), steps) == s
  }

  ghost predicate Reachable(s: Sys) {
    exists isServer, steps :: Reaches(isServer, steps, s)
  }

  lemma {:induction false} RunSnoc(s: Sys, steps: seq<Step>, step: Step)
    requires IsRun(s, steps) && Enabled(After(s, steps), step)
    ensures IsRun(s, steps + [step]) && After(s, steps + [step]) == Apply(After(s, steps), step)
    decreases |steps|
  {
    if steps == [] {
      assert IsRun(Apply(s, step), []);
      assert [step][1..] == [];
    } else {
      RunSnoc(Apply(s, steps[0]), steps[1..], step);
      assert (steps + [step])[1..] == steps[1..] + [step];
    }
  }

  lemma ReachInit(isServer: bool)
    ensures Reachable(Init(isServer))
  {
    assert Reaches(isServer, [], Init(isServer));
  }

  lemma ReachStep(s: Sys, step: Step)
    requires Reachable(s) && Enabled(s, step)
    ensures Reachable(Apply(s, step))
  {
    var isServer, steps :| Reaches(isServer, steps, s);
    RunSnoc(Init(isServer), steps, step);
    assert Reaches(isServer, steps + [step], Apply(s, step));
  }

  // ---------- the invariant, one event queue at a time ----------

  datatype Doing = Elsewhere | OnLatch | OnPoll | Waits
  datatype Handling = No | Callback(shut: bool) | Release(shut: bool)

  /** What the state says about one queue: its places, its connection, and what the threads do to it.
      `doing` is the client thread inside connect, before the latch is put, before the queue is polled
      and after that. */
  datatype View = View(
    polled: bool, native: bool, status: Option<Status>, java: bool, obj: Option<bool>,
    latch: bool, counted: bool, reaped: nat, frees: nat, freed: bool, doing: Doing, handling: Handling)

  function ViewOf(s: Sys, e: Eq): View {
    View(e in s.fidMap, e in s.nativeCons, if e in s.status then Some(s.status[e]) else None,
         e in s.javaCons, if e in s.objects then Some(s.objects[e]) else None,
         e in s.latches, e in s.counted, s.reaped[e], s.frees[e], e in s.freed,
         DoingTo(s.user, e),
         if s.eq.InCallback? && s.eq.e == e then Callback(s.eq.shut)
         else if s.eq.Released? && s.eq.e == e then Release(s.eq.shut) else No)
  }

  function DoingTo(user: UserPc, e: Eq): Doing {
    if user.Outside? || user.e != e then Elsewhere
    else if user.Connecting? then OnLatch else if user.LatchPut? then OnPoll else Waits
  }

  const NOWHERE := View(false, false, None, false, None, false, false, 0, 0, false, Elsewhere, No)

  predicate Live(isServer: bool, v: View) {
    && v.native && v.reaped == 0 && v.frees == 0 && !v.freed
    && (v.polled <==> !v.doing.OnLatch? && !v.doing.OnPoll?)
    && (v.java <==> v.obj.Some?)
    && (v.obj.Some? ==> v.obj.value && v.polled)
    && (!v.handling.No? ==> v.obj.Some? && !v.handling.shut)
    && v.status == Some(if v.obj.Some? && v.handling.No? then L.Connected
                        else if isServer then L.AcceptReq else L.ConnectReq)
  }

  predicate Gone(v: View) {
    && !v.polled && !v.native && !v.java && v.reaped == 1
    && v.frees == (if v.obj.Some? then 1 else 0)
    && !v.doing.OnLatch? && !v.doing.OnPoll?
    && (!v.handling.No? ==> v.obj.Some? && v.handling.shut && v.status == Some(L.Down))
    && (v.status == Some(L.Down) || (v.status == Some(L.Connected) && v.obj.Some?))
    && (v.freed ==> v.obj.Some?)
  }

  /** The latch of a client's queue is in the map from its put to the end of FI_CONNECTED, and counted
      down once FI_CONNECTED has come past the callback. */
  predicate LatchOk(isServer: bool, v: View) {
    if isServer || v.status.None? then !v.latch && !v.counted
    else (v.latch <==> !v.doing.OnLatch? && (v.obj.None? || !v.handling.No?)) &&
         (v.counted <==> v.obj.Some? && !v.handling.Callback?)
  }

  predicate ViewOk(isServer: bool, v: View) {
    (Live(isServer, v) || Gone(v) || v == NOWHERE) && LatchOk(isServer, v)
  }

  predicate Inv(s: Sys, e: Eq) {
    !s.eq.Faulted? && (s.isServer ==> s.user.Outside?) && ViewOk(s.isServer, ViewOf(s, e))
  }

  predicate IsGone(s: Sys, e: Eq) {
    Gone(ViewOf(s, e))
  }

  predicate Falls(s: Sys, s': Sys, e: Eq) {
    e in s.status && (e in s'.status ==> s'.status[e].Rank() < s.status[e].Rank())
  }

  /** The queue a step is about. */
  function Subject(s: Sys, step: Step): Eq
    requires Enabled(s, step)
  {
    match step
    case NativeConnect(e, _) => e
    case Accept(e) => e
    case ConnectedEvent(e) => e
    case ShutdownEvent(e) => e
    case LocalShutdown(e) => e
    case NativeFree(e) => e
    case CountDown => s.eq.e
    case FinishConnected => s.eq.e
    case _ => s.user.e
  }

  // ---------- a step and the queue it is about ----------

  lemma OwnConnect(s: Sys, step: Step)
    requires Enabled(s, step) && Inv(s, Subject(s, step))
    requires step.NativeConnect? || step.PutLatch? || step.AddEvent? || step.Accept?
    ensures Inv(Apply(s, step), Subject(s, step)) && !Falls(s, Apply(s, step), Subject(s, step))
    ensures !IsGone(s, Subject(s, step))
  {
  }

  lemma OwnWait(s: Sys, step: Step)
    requires Enabled(s, step) && Inv(s, Subject(s, step))
    requires step.GetLatch? || step.Return? || step.TimeOut?
    ensures ViewOf(Apply(s, step), Subject(s, step)) ==
            ViewOf(s, Subject(s, step)).(doing := if step.GetLatch? && s.user.e in s.latches then Waits else Elsewhere)
    ensures Inv(Apply(s, step), Subject(s, step)) && !Falls(s, Apply(s, step), Subject(s, step))
  {
  }

  lemma OwnBegin(s: Sys, e: Eq)
    requires Enabled(s, ConnectedEvent(e)) && Inv(s, e)
    ensures Inv(BeginConnected(s, e), e) && !Falls(s, BeginConnected(s, e), e) && !IsGone(s, e)
  {
  }

  lemma OwnCountDown(s: Sys)
    requires s.eq.InCallback? && Inv(s, s.eq.e)
    ensures Inv(CountDownSpec(s), s.eq.e) && !Falls(s, CountDownSpec(s), s.eq.e)
    ensures IsGone(s, s.eq.e) ==> IsGone(CountDownSpec(s), s.eq.e)
  {
  }

  lemma OwnFinish(s: Sys)
    requires s.eq.Released? && Inv(s, s.eq.e)
    ensures Inv(FinishConnectedSpec(s), s.eq.e) && (Falls(s, FinishConnectedSpec(s), s.eq.e) <==> s.eq.shut)
    ensures IsGone(s, s.eq.e) ==> IsGone(FinishConnectedSpec(s), s.eq.e)
  {
  }

  lemma OwnPeer(s: Sys, e: Eq)
    requires Enabled(s, ShutdownEvent(e)) && Inv(s, e)
    ensures IsGone(PeerShutdown(s, e), e) && Inv(PeerShutdown(s, e), e) && !Falls(s, PeerShutdown(s, e), e)
  {
  }

  lemma OwnLocal(s: Sys, e: Eq)
    requires Enabled(s, LocalShutdown(e)) && Inv(s, e)
    ensures IsGone(LocalShutdownSpec(s, e), e) && Inv(LocalShutdownSpec(s, e), e) && !Falls(s, LocalShutdownSpec(s, e), e)
  {
    if s.objects[e] {
      LocalView(s, e);
    }
  }

  /** What Connection.shutdown does to a live connection, and to one the peer has closed. */
  lemma LocalView(s: Sys, e: Eq)
    requires e in s.objects && s.objects[e] && ViewOk(s.isServer, ViewOf(s, e))
    ensures var v := ViewOf(s, e);
            ViewOf(LocalShutdownSpec(s, e), e) ==
            v.(polled := false, native := false, java := false, obj := Some(false),
               status := if v.native then Some(L.Down) else v.status,
               reaped := v.reaped + (if v.native then 1 else 0), frees := v.frees + (if v.java then 1 else 0),
               handling := if v.handling.Callback? then Callback(true) else v.handling)
  {
  }

  lemma OwnFree(s: Sys, e: Eq)
    requires Enabled(s, NativeFree(e)) && Inv(s, e)
    ensures Inv(Apply(s, NativeFree(e)), e) && IsGone(Apply(s, NativeFree(e)), e)
  {
  }

  // ---------- a step and any other queue ----------

  predicate ByUser(step: Step) {
    step.NativeConnect? || step.PutLatch? || step.AddEvent? || step.GetLatch? || step.Return? || step.TimeOut?
  }

  lemma OtherUser(s: Sys, step: Step, e: Eq)
    requires Enabled(s, step) && ByUser(step) && Subject(s, step) != e && Inv(s, Subject(s, step)) && Inv(s, e)
    ensures ViewOf(Apply(s, step), e) == ViewOf(s, e)
  {
  }

  lemma OtherSame(s: Sys, step: Step, e: Eq)
    requires Enabled(s, step) && !ByUser(step) && Subject(s, step) != e && Inv(s, Subject(s, step))
    requires !step.LocalShutdown? && !step.ShutdownEvent?
    ensures ViewOf(Apply(s, step), e) == ViewOf(s, e)
  {
  }

  lemma OtherNative(s: Sys, own: Eq, e: Eq)
    requires own != e
    ensures ViewOf(NativeShutdown(s, own), e) == ViewOf(s, e)
  {
  }

  lemma OtherClose(s: Sys, own: Eq, e: Eq)
    requires own != e
    ensures ViewOf(Close(s, own), e) == ViewOf(s, e)
  {
  }

  lemma OtherPeer(s: Sys, own: Eq, e: Eq)
    requires own != e
    ensures ViewOf(PeerShutdown(s, own), e) == ViewOf(s, e)
  {
    var removed := s.(fidMap := s.fidMap - {own});
    OtherClose(if own in s.nativeCons then ReapSpec(removed, own) else removed, own, e);
  }

  lemma OtherLocal(s: Sys, own: Eq, e: Eq)
    requires own in s.objects && own != e
    ensures ViewOf(LocalShutdownSpec(s, own), e) == ViewOf(s, e)
  {
    var native := NativeShutdown(s, own);
    OtherNative(s, own, e);
    OtherClose(native.(fidMap := native.fidMap - {own}), own, e);
  }

  // ---------- every step ----------

  ghost predicate AllInv(s: Sys) {
    forall e :: Inv(s, e)
  }

  /** One step keeps the invariant of every event queue, what is torn down stays so, and the status
      falls in one case only. */
  lemma StepInv(s: Sys, step: Step, e: Eq)
    requires Enabled(s, step) && Inv(s, e) && Inv(s, Subject(s, step))
    ensures Inv(Apply(s, step), e)
    ensures IsGone(s, e) ==> IsGone(Apply(s, step), e)
    ensures Falls(s, Apply(s, step), e) <==> step == FinishConnected && s.eq == Released(e, true)
    ensures step == LocalShutdown(e) || step == ShutdownEvent(e) ==> IsGone(Apply(s, step), e)
  {
    if Subject(s, step) == e {
      StepOwn(s, step);
    } else {
      OwnFaults(s, step);
      if step.ShutdownEvent? {
        OtherPeer(s, step.e, e);
      } else if step.LocalShutdown? {
        OtherLocal(s, step.e, e);
      } else if ByUser(step) {
        OtherUser(s, step, e);
      } else {
        OtherSame(s, step, e);
      }
      SameView(s, Apply(s, step), e);
    }
  }

  lemma SameView(s: Sys, s': Sys, e: Eq)
    requires ViewOf(s', e) == ViewOf(s, e)
    ensures !Falls(s, s', e) && (IsGone(s, e) <==> IsGone(s', e))
  {
  }

  lemma StepOwn(s: Sys, step: Step)
    requires Enabled(s, step) && Inv(s, Subject(s, step))
    ensures var e := Subject(s, step);
            && Inv(Apply(s, step), e) && (IsGone(s, e) ==> IsGone(Apply(s, step), e))
            && (Falls(s, Apply(s, step), e) <==> step == FinishConnected && s.eq == Released(e, true))
            && (step.LocalShutdown? || step.ShutdownEvent? ==> IsGone(Apply(s, step), e))
  {
    var e := Subject(s, step);
    if step.ConnectedEvent? {
      OwnBegin(s, e);
    } else if step.CountDown? {
      OwnCountDown(s);
    } else if step.FinishConnected? {
      OwnFinish(s);
    } else if step.ShutdownEvent? {
      OwnPeer(s, e);
    } else if step.LocalShutdown? {
      OwnLocal(s, e);
    } else if step.NativeFree? {
      OwnFree(s, e);
    } else if step.GetLatch? || step.Return? || step.TimeOut? {
      OwnWait(s, step);
    } else {
      OwnConnect(s, step);
    }
  }

  /** No step faults, nor puts a server's thread into connect. */
  lemma OwnFaults(s: Sys, step: Step)
    requires Enabled(s, step) && Inv(s, Subject(s, step))
    ensures !Apply(s, step).eq.Faulted? && Apply(s, step).isServer == s.isServer
    ensures s.isServer ==> Apply(s, step).user.Outside?
  {
    StepOwn(s, step);
  }

  lemma AllStep(s: Sys, step: Step)
    requires AllInv(s) && Enabled(s, step)
    ensures AllInv(Apply(s, step))
  {
    assert Inv(s, Subject(s, step));
    forall e ensures Inv(Apply(s, step), e) {
      assert Inv(s, e);
      StepInv(s, step, e);
    }
  }

  lemma {:induction false} RunInv(s: Sys, steps: seq<Step>)
    requires IsRun(s, steps) && AllInv(s)
    ensures AllInv(After(s, steps))
    decreases |steps|
  {
    if steps != [] {
      AllStep(s, steps[0]);
      RunInv(Apply(s, steps[0]), steps[1..]);
    }
  }

  lemma ReachableInv(s: Sys)
    requires Reachable(s)
    ensures AllInv(s)
  {
    var isServer, steps :| Reaches(isServer, steps, s);
    RunInv(Init(isServer), steps);
  }

  // ---------- theorems ----------

  /**
   * Exactly-once teardown: in every reachable state an established connection is either in all
   * three maps and untouched, or in none of them, reaped once and handed to one native free.
   */
  lemma TeardownExactlyOnce(s: Sys, e: Eq)
    requires Reachable(s) && e in s.objects
    ensures (e in s.fidMap && e in s.nativeCons && e in s.javaCons && s.reaped[e] == 0 && s.frees[e] == 0)
         || (e !in s.fidMap && e !in s.nativeCons && e !in s.javaCons && s.reaped[e] == 1 && s.frees[e] == 1)
  {
    ReachableInv(s);
    assert Inv(s, e);
  }

  /** Either side's shutdown of a connection tears it down, whichever comes first. */
  lemma EitherSideTearsDown(s: Sys, step: Step, e: Eq)
    requires Reachable(s) && Enabled(s, step)
    requires step == LocalShutdown(e) || step == ShutdownEvent(e)
    ensures IsGone(Apply(s, step), e)
  {
    ReachableInv(s);
    assert Inv(s, e);
    StepInv(s, step, e);
  }

  /** And whatever happens afterwards, further shutdowns included, it stays torn down once. */
  lemma {:induction false} GoneForEver(s: Sys, steps: seq<Step>, e: Eq)
    requires IsRun(s, steps) && AllInv(s) && IsGone(s, e)
    ensures IsGone(After(s, steps), e)
    decreases |steps|
  {
    if steps != [] {
      AllStep(s, steps[0]);
      assert Inv(s, e) && Inv(s, Subject(s, steps[0]));
      StepInv(s, steps[0], e);
      GoneForEver(Apply(s, steps[0]), steps[1..], e);
    }
  }

  /** The native object is freed only after both teardowns are complete. */
  lemma FreedAfterTeardown(s: Sys, e: Eq)
    requires Reachable(s) && e in s.freed
    ensures IsGone(s, e) && e in s.objects
  {
    ReachableInv(s);
    assert Inv(s, e);
  }

  /** Connect's ordering: an event queue becomes pollable, and can become established, only after the
      status is written, the connection is in the native map and, on a client, the latch exists. */
  lemma LatchBeforeEvents(s: Sys, e: Eq)
    requires Reachable(s) && e in s.fidMap && e !in s.objects
    ensures e in s.nativeCons && e in s.status && s.status[e] == (if s.isServer then L.AcceptReq else L.ConnectReq)
    ensures !s.isServer ==> e in s.latches
  {
    ReachableInv(s);
    assert Inv(s, e);
  }

  /** So the EQ thread never meets a missing connection or latch. */
  lemma NeverFaulted(s: Sys)
    requires Reachable(s)
    ensures !s.eq.Faulted?
  {
    ReachableInv(s);
    assert Inv(s, 0);
  }

  /** A connection's status falls at exactly one kind of step: the end of FI_CONNECTED after a connected
      callback that has shut its own connection down, which overwrites DOWN with CONNECTED. */
  lemma StatusFallsExactly(s: Sys, step: Step, e: Eq)
    requires Reachable(s) && Enabled(s, step)
    ensures Falls(s, Apply(s, step), e) <==> step == FinishConnected && s.eq == Released(e, true)
  {
    ReachableInv(s);
    assert Inv(s, e) && Inv(s, Subject(s, step));
    StepInv(s, step, e);
  }

  /** What a connected callback that calls shutdown leaves, in every state: a torn-down connection
      whose status opens the CQ's gate. */
  lemma ShutdownInCallback(s: Sys)
    requires Reachable(s) && s.eq.InCallback?
    ensures var e := s.eq.e;
            Enabled(s, LocalShutdown(e)) &&
            var s1 := Apply(s, LocalShutdown(e));
            s1.eq.InCallback? &&
            var s2 := CountDownSpec(s1);
            s2.eq.Released? &&
            var s3 := FinishConnectedSpec(s2);
            IsGone(s3, e) && s3.status[e] == L.Connected
  {
    var e := s.eq.e;
    ReachableInv(s);
    assert Inv(s, e);
    OwnLocal(s, e);
    OwnCountDown(Apply(s, LocalShutdown(e)));
    OwnFinish(CountDownSpec(Apply(s, LocalShutdown(e))));
  }

  /** The EQ thread's write of the status may come after the CQ worker has freed the native object
      exactly when the callback has shut its own connection down. */
  lemma StatusOfFreedExactly(s: Sys)
    requires Reachable(s) && s.eq.Released?
    ensures (s.eq.e in s.freed || Enabled(s, NativeFree(s.eq.e))) <==> s.eq.shut
  {
    ReachableInv(s);
    assert Inv(s, s.eq.e);
  }

  /** Every connected callback could do that. */
  lemma FreedUnderCallback(s: Sys)
    requires Reachable(s) && s.eq.InCallback?
    ensures exists t :: Reachable(t) && t.eq == Released(s.eq.e, true) && s.eq.e in t.freed
  {
    var e := s.eq.e;
    ReachableInv(s);
    assert Inv(s, e);
    OwnLocal(s, e);
    assert Enabled(s, LocalShutdown(e)) && LocalShutdownSpec(s, e).eq == InCallback(e, true);
    ReachStep(s, LocalShutdown(e));
    ReleasedRun(LocalShutdownSpec(s, e));
  }

  lemma ReleasedRun(s: Sys)
    requires Reachable(s) && s.eq.InCallback? && s.eq.shut
    ensures exists t :: Reachable(t) && t.eq == Released(s.eq.e, true) && s.eq.e in t.freed
  {
    ReachableInv(s);
    assert Inv(s, s.eq.e);
    OwnCountDown(s);
    ReachStep(s, CountDown);
    var t := CountDownSpec(s);
    StatusOfFreedExactly(t);
    if s.eq.e !in t.freed {
      ReachStep(t, NativeFree(s.eq.e));
      assert Apply(t, NativeFree(s.eq.e)).eq == Released(s.eq.e, true);
    }
  }

  /** And servers run them. */
  lemma CallbackRun()
    ensures exists s :: Reachable(s) && s.eq.InCallback?
  {
    ReachInit(true);
    ReachStep(Init(true), Accept(1));
    var s := Apply(Init(true), Accept(1));
    ReachStep(s, ConnectedEvent(1));
    assert Apply(s, ConnectedEvent(1)).eq.InCallback?;
  }

  // ---------- the application is told once ----------

  /** How often a run calls the shutdown callback of e: Connection.shutdown calls it, once past its flag. */
  ghost function Notices(s: Sys, steps: seq<Step>, e: Eq): nat
    requires IsRun(s, steps)
    decreases |steps|
  {
    if steps == [] then 0
    else (if steps[0] == LocalShutdown(e) && s.objects[e] then 1 else 0) + Notices(Apply(s, steps[0]), steps[1..], e)
  }

  lemma FlagStep(s: Sys, step: Step, e: Eq)
    requires Enabled(s, step)
    ensures var s' := Apply(s, step);
            && (e in s.objects ==> e in s'.objects && (s'.objects[e] <==> s.objects[e] && step != LocalShutdown(e)))
            && (e !in s.objects && e in s'.objects ==> s'.objects[e])
  {
  }

  lemma {:induction false} FlagRun(s: Sys, steps: seq<Step>, e: Eq)
    requires IsRun(s, steps)
    ensures var shut := LocalShutdown(e) in steps; var s' := After(s, steps);
            if e in s.objects && !s.objects[e] then Notices(s, steps, e) == 0 && e in s'.objects && !s'.objects[e]
            else Notices(s, steps, e) == (if shut then 1 else 0) && (e in s'.objects ==> (s'.objects[e] <==> !shut))
    decreases |steps|
  {
    if steps != [] {
      FlagStep(s, steps[0], e);
      FlagRun(Apply(s, steps[0]), steps[1..], e);
    }
  }

  /** The shutdown callback is called once if the application ever shuts the connection down, however often
      it does, and never by the peer's FI_SHUTDOWN; the connection's flag is down exactly then. */
  lemma NoticeExactly(isServer: bool, steps: seq<Step>, e: Eq)
    requires IsRun(Init(isServer), steps)
    ensures Notices(Init(isServer), steps, e) == if LocalShutdown(e) in steps then 1 else 0
    ensures var s := After(Init(isServer), steps); e in s.objects ==> (s.objects[e] <==> LocalShutdown(e) !in steps)
  {
    FlagRun(Init(isServer), steps, e);
  }

  // ---------- draining ----------

  function ShutdownAll(s: Sys, es: seq<Eq>): Sys
    requires forall e <- es :: e in s.objects
    decreases |es|
  {
    if es == [] then s else ShutdownAll(LocalShutdownSpec(s, es[0]), es[1..])
  }

  /** Draining the queue between two events tears down all of it, and repeated entries do no harm. */
  lemma {:induction false} DrainTearsDownAll(s: Sys, es: seq<Eq>, e: Eq)
    requires AllInv(s) && s.eq.Polling? && forall x <- es :: x in s.objects
    ensures AllInv(ShutdownAll(s, es)) && ShutdownAll(s, es).eq.Polling?
    ensures e in es || IsGone(s, e) ==> IsGone(ShutdownAll(s, es), e)
    decreases |es|
  {
    if es != [] {
      AllStep(s, LocalShutdown(es[0]));
      assert Inv(s, e) && Inv(s, es[0]);
      StepInv(s, LocalShutdown(es[0]), e);
      DrainTearsDownAll(LocalShutdownSpec(s, es[0]), es[1..], e);
    }
  }
}
