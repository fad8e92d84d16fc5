/**
 One connection of the Java binding between the event-queue (EQ) thread and its completion-queue (CQ)
 worker: the EQ thread makes the Java connection, gives it its send buffers and callbacks, calls the
 connected callback and only then writes CONNECTED and notifies; the worker passes the gate of
 ExternalCqDemultiplexer and hands the message to whatever connection the Java map holds.  Connections
 do not touch each other's state, and each has one worker, so one connection is enough.
 */
module JavaGate {
  import L = Lifecycle

  type Status = L.Status

  /** The EQ thread: between events; in CONNECTED_EVENT, with a shutdown by the connected callback that has
      reached the Java map or not; or in a later shutdown. */
  datatype EqPc =
    | Idle
    | Pushing
    | Setting(k: nat)
    | Calling(shut: bool)
    | ShuttingInCall
    | Writing
    | Notifying
    | Closing

  datatype WorkerPc = Polling | AtGate | Blocked | Passed

  /** What the Java side had when a message was handed to it. */
  datatype Delivery = Delivery(buffers: bool, slots: nat, called: bool)

  const SLOTS := 5

  /** `native` and `java` tell whether the connection is in the native and the Java map; `slots` counts the
      callbacks set; `called` is history: the connected callback has returned. */
  datatype State = State(status: Status, native: bool, java: bool, buffers: bool, slots: nat, called: bool,
                         eq: EqPc, worker: WorkerPc, log: seq<Delivery>)
  {
    predicate Open() {
      L.Status.Connected.Rank() <= status.Rank()
    }
  }

  function Init(isServer: bool): State {
    State(if isServer then L.AcceptReq else L.ConnectReq, true, false, false, 0, false, Idle, Polling, [])
  }

  datatype Step =
    | ConnectedEvent
    | Push
    | Set
    | ShutInCall
    | CloseJava
    | EndCall
    | WriteStatus
    | Notify
    | ShutdownEvent
    | Message
    | Test
    | Hand
    | SpuriousWake

  predicate Enabled(s: State, step: Step) {
    match step
    case ConnectedEvent => s.eq.Idle? && s.native && !s.Open()
    case Push => s.eq.Pushing?
    case Set => s.eq.Setting?
    case ShutInCall => s.eq == Calling(false)
    case CloseJava => s.eq.ShuttingInCall? || s.eq.Closing?
    case EndCall => s.eq.Calling?
    case WriteStatus => s.eq.Writing?
    case Notify => s.eq.Notifying?
    case ShutdownEvent => s.eq.Idle? && s.native
    case Message => s.worker.Polling?
    case Test => s.worker.AtGate?
    case Hand => s.worker.Passed?
    case SpuriousWake => s.worker.Blocked?
  }

  function Apply(s: State, step: Step): State
    requires Enabled(s, step)
  {
    match step
    case ConnectedEvent => s.(java := true, eq := Pushing)
    case Push => s.(buffers := true, eq := Setting(0))
    case Set => if s.eq.k < SLOTS then s.(slots := s.eq.k + 1, eq := Setting(s.eq.k + 1)) else s.(eq := Calling(false))
    case ShutInCall => s.(status := L.Down, native := false, eq := ShuttingInCall)
    case CloseJava => s.(java := false, eq := if s.eq.Closing? then Idle else Calling(true))
    case EndCall => s.(called := true, eq := Writing)
    case WriteStatus => s.(status := L.Connected, eq := Notifying)
    case Notify => s.(worker := if s.worker.Blocked? then AtGate else s.worker, eq := Idle)
    case ShutdownEvent => s.(status := L.Down, native := false, eq := Closing)
    case Message => s.(worker := AtGate)
    case Test => s.(worker := if s.Open() then Passed else Blocked)
    case Hand =>
      s.(worker := Polling, log := if s.java then s.log + [Delivery(s.buffers, s.slots, s.called)] else s.log)
    case SpuriousWake => s.(worker := AtGate)
  }

  ghost predicate IsRun(s: State, steps: seq<Step>)
    decreases |steps|
  {
    steps == [] || (Enabled(s, steps[0]) && IsRun(Apply(s, steps[0]), steps[1..]))
  }

  ghost function After(s: State, steps: seq<Step>): State
    requires IsRun(s, steps)
    decreases |steps|
  {
    if steps == [] then s else After(Apply(s, steps[0]), steps[1..])
  }

  ghost predicate Reaches(isServer: bool, steps: seq<Step>, s: State) {
    IsRun(Init(isServer), steps) && After(Init(isServer), steps) == s
  }

  ghost predicate Reachable(s: State) {
    exists isServer, steps :: Reaches(isServer, steps, s)
  }

  // ---------- the invariant ----------

  /** The connection is equipped from the end of the setters on. */
  predicate Equipped(s: State) {
    s.buffers && s.slots == SLOTS
  }

  predicate EqOk(s: State) {
    match s.eq
    case Idle =>
      s.native ==> (s.Open() <==> s.java) && (s.Open() ==> Equipped(s) && s.called && s.status == L.Connected)
                   && (!s.Open() ==> s.slots == 0 && !s.called)
    case Pushing => s.native && s.java && !s.Open() && !s.called && s.slots == 0
    case Setting(k) => s.native && s.java && !s.Open() && s.buffers && s.slots == k <= SLOTS && !s.called
    case Calling(shut) => Equipped(s) && !s.called && (s.java <==> !shut) && (s.native <==> !shut) && (s.Open() <==> shut)
    case ShuttingInCall => Equipped(s) && !s.called && s.java && !s.native && s.Open()
    case Writing => Equipped(s) && s.called && (s.native <==> s.java) && (s.Open() <==> !s.native)
    case Notifying => Equipped(s) && s.called && (s.native <==> s.java) && s.status == L.Connected
    case Closing => s.Open() && !s.native && (s.java ==> Equipped(s) && s.called)
  }

  predicate Inv(s: State) {
    && EqOk(s)
    && (!s.native && s.eq.Idle? ==> !s.java && s.Open())
    && (s.worker.Passed? ==> s.Open())
    && (s.worker.Blocked? && s.status == L.Connected ==> s.eq.Notifying?)
    && (forall d <- s.log :: d.buffers && d.slots == SLOTS)
  }

  lemma StepInv(s: State, step: Step)
    requires Inv(s) && Enabled(s, step)
    ensures Inv(Apply(s, step))
  {
  }

  lemma {:induction false} RunInv(s: State, steps: seq<Step>)
    requires Inv(s) && IsRun(s, steps)
    ensures Inv(After(s, steps))
    decreases |steps|
  {
    if steps != [] {
      StepInv(s, steps[0]);
      RunInv(Apply(s, steps[0]), steps[1..]);
    }
  }

  lemma ReachableInv(s: State)
    requires Reachable(s)
    ensures Inv(s)
  {
    var isServer, steps :| Reaches(isServer, steps, s);
    RunInv(Init(isServer), steps);
  }

  lemma {:induction false} RunSnoc(s: State, steps: seq<Step>, step: Step)
    requires IsRun(s, steps) && Enabled(After(s, steps), step)
    ensures IsRun(s, steps + [step]) && After(s, steps + [step]) == Apply(After(s, steps), step)
    decreases |steps|
  {
    if steps == [] {
      assert IsRun(Apply(s, step), []);
      assert [step][1..] == [];
    } else {
      RunSnoc(Apply(s, steps[0]), steps[1..], step);
      assert (steps + [step])[1..] == steps[1..] + [step];
    }
  }

  lemma ReachStep(s: State, step: Step)
    requires Reachable(s) && Enabled(s, step)
    ensures Reachable(Apply(s, step))
  {
    var isServer, steps :| Reaches(isServer, steps, s);
    RunSnoc(Init(isServer), steps, step);
    assert Reaches(isServer, steps + [step], Apply(s, step));
  }

  // ---------- data ----------

  /** Callbacks before data: whatever is handed to the Java connection finds its send buffers and all its
      callbacks in place, in every interleaving. */
  lemma CallbacksBeforeData(s: State, d: Delivery)
    requires Reachable(s) && d in s.log
    ensures d.buffers && d.slots == SLOTS
  {
    ReachableInv(s);
  }

  /** Data is handed over before the connected callback has returned exactly when the callback is in the
      middle of shutting its own connection down. */
  lemma EarlyExactly(s: State)
    requires Reachable(s) && Enabled(s, Hand)
    ensures Apply(s, Hand).log == s.log + [Delivery(true, SLOTS, false)] <==> s.eq.ShuttingInCall?
  {
    ReachableInv(s);
    if s.eq.ShuttingInCall? {
      assert s.java && !s.called;
    } else {
      assert s.java ==> s.called;
      assert (s.log + [Delivery(true, SLOTS, false)])[|s.log|] == Delivery(true, SLOTS, false);
    }
  }

  lemma {:induction false} SetAll(s: State)
    requires Reachable(s) && s.eq.Setting? && s.eq.k <= SLOTS
    ensures Reachable(s.(slots := if s.eq.k < SLOTS then SLOTS else s.slots, eq := Calling(false)))
    decreases SLOTS - s.eq.k
  {
    ReachStep(s, Set);
    if s.eq.k < SLOTS {
      SetAll(Apply(s, Set));
    }
  }

  /** Such a run exists: the worker passes the gate that the callback's shutdown has opened. */
  lemma EarlyRun()
    ensures exists s :: Reachable(s) && Delivery(true, SLOTS, false) in s.log
  {
    var s0 := Init(true);
    assert Reaches(true, [], s0);
    ReachStep(s0, Message);
    var s1 := s0.(worker := AtGate);
    ReachStep(s1, ConnectedEvent);
    ReachStep(s1.(java := true, eq := Pushing), Push);
    SetAll(s1.(java := true, buffers := true, eq := Setting(0)));
    var s2 := s1.(java := true, buffers := true, slots := SLOTS, eq := Calling(false));
    ReachStep(s2, ShutInCall);
    var s3 := Apply(s2, ShutInCall);
    ReachStep(s3, Test);
    var s4 := Apply(s3, Test);
    ReachStep(s4, Hand);
    EarlyExactly(s4);
    assert Apply(s4, Hand).log == [] + [Delivery(true, SLOTS, false)];
  }

  // ---------- every message ----------

  /** The connection is in the Java map after these steps. */
  ghost predicate HeldBy(steps: seq<Step>) {
    exists i :: EnteredAt(steps, i)
  }

  ghost predicate EnteredAt(steps: seq<Step>, i: int) {
    0 <= i < |steps| && steps[i].ConnectedEvent? && forall j | i < j < |steps| :: !steps[j].CloseJava?
  }

  function Count(steps: seq<Step>, step: Step): nat {
    if steps == [] then 0 else Count(steps[..|steps| - 1], step) + if steps[|steps| - 1] == step then 1 else 0
  }

  /** The messages that were handed over while the connection was in the Java map. */
  ghost function Delivered(steps: seq<Step>): nat {
    if steps == [] then 0
    else
      var n := |steps| - 1;
      Delivered(steps[..n]) + if steps[n].Hand? && HeldBy(steps[..n]) then 1 else 0
  }

  lemma {:induction false} RunInit(s: State, steps: seq<Step>)
    requires IsRun(s, steps) && steps != []
    ensures var n := |steps| - 1;
            IsRun(s, steps[..n]) && Enabled(After(s, steps[..n]), steps[n]) &&
            After(s, steps) == Apply(After(s, steps[..n]), steps[n])
    decreases |steps|
  {
    var n := |steps| - 1;
    if n == 0 {
      assert steps[..0] == [];
    } else {
      RunInit(Apply(s, steps[0]), steps[1..]);
      assert steps[1..][..n - 1] == steps[..n][1..];
    }
  }

  lemma HeldStep(steps: seq<Step>)
    requires steps != []
    ensures var n := |steps| - 1;
            HeldBy(steps) <==> steps[n].ConnectedEvent? || (HeldBy(steps[..n]) && !steps[n].CloseJava?)
  {
    var n := |steps| - 1;
    if steps[n].ConnectedEvent? {
      assert EnteredAt(steps, n);
    } else if HeldBy(steps[..n]) && !steps[n].CloseJava? {
      var i :| EnteredAt(steps[..n], i);
      assert EnteredAt(steps, i);
    } else if HeldBy(steps) {
      var i :| EnteredAt(steps, i);
      assert EnteredAt(steps[..n], i);
    }
  }

  /** No message is lost or doubled before the hand-over: those that came are those handed over and the one
      the worker has; and just those reach the Java connection that are handed over between CONNECTED_EVENT
      and the connection's leaving the Java map. */
  lemma {:induction false} MessagesKept(isServer: bool, steps: seq<Step>)
    requires IsRun(Init(isServer), steps)
    ensures var s := After(Init(isServer), steps);
            && Count(steps, Message) == Count(steps, Hand) + (if s.worker.Polling? then 0 else 1)
            && |s.log| == Delivered(steps) && (s.java <==> HeldBy(steps))
    decreases |steps|
  {
    if steps != [] {
      RunInit(Init(isServer), steps);
      MessagesKept(isServer, steps[..|steps| - 1]);
      HeldStep(steps);
    }
  }

  // ---------- the gate ----------

  /** No lost wakeup: a worker blocked while the status is CONNECTED has the notify to come next. */
  lemma NoLostWakeup(s: State)
    requires Reachable(s) && s.worker.Blocked? && s.status == L.Connected
    ensures s.eq.Notifying? && Apply(s, Notify).worker.AtGate?
  {
    ReachableInv(s);
  }

  /** A run, without a spurious wakeup, that lets the worker go on. */
  ghost predicate Wakes(s: State, steps: seq<Step>) {
    IsRun(s, steps) && SpuriousWake !in steps && !After(s, steps).worker.Blocked?
  }

  ghost predicate Stranded(s: State) {
    s.worker.Blocked? && forall steps :: !Wakes(s, steps)
  }

  lemma WakeLater(s: State, step: Step)
    requires Enabled(s, step) && !step.SpuriousWake? && (exists steps :: Wakes(Apply(s, step), steps))
    ensures exists steps :: Wakes(s, steps)
  {
    var steps :| Wakes(Apply(s, step), steps);
    assert ([step] + steps)[1..] == steps;
    assert Wakes(s, [step] + steps);
  }

  /** How far the EQ thread, in CONNECTED_EVENT, is from the notify. */
  function ToNotify(pc: EqPc): nat {
    match pc
    case Pushing => 11
    case Setting(k) => if k <= SLOTS then 10 - k else 5
    case ShuttingInCall => 4
    case Calling(_) => 3
    case Writing => 2
    case Notifying => 1
    case _ => 0
  }

  /** In CONNECTED_EVENT it comes to the notify, even if the callback shuts the connection down. */
  lemma {:induction false} EventWakes(s: State)
    requires s.worker.Blocked? && !s.eq.Idle? && !s.eq.Closing?
    ensures exists steps :: Wakes(s, steps)
    decreases ToNotify(s.eq)
  {
    if s.eq.Notifying? {
      var t := Apply(s, Notify);
      assert IsRun(t, []) && After(t, []) == t;
      assert Wakes(t, []);
      WakeLater(s, Notify);
    } else {
      var step := if s.eq.Pushing? then Push else if s.eq.Setting? then Set else if s.eq.ShuttingInCall? then CloseJava
                  else if s.eq.Calling? then EndCall else WriteStatus;
      EventWakes(Apply(s, step));
      WakeLater(s, step);
    }
  }

  lemma {:induction false} ClosedStays(s: State, steps: seq<Step>)
    requires IsRun(s, steps) && SpuriousWake !in steps && s.worker.Blocked? && !s.native && (s.eq.Idle? || s.eq.Closing?)
    ensures After(s, steps).worker.Blocked?
    decreases |steps|
  {
    if steps != [] {
      ClosedStays(Apply(s, steps[0]), steps[1..]);
    }
  }

  /** Between two events a blocked worker is stranded exactly when the connection has been closed: DOWN is
      written without the lock and without a notify.  Until then FI_CONNECTED can still release it. */
  lemma StrandedExactly(s: State)
    requires Reachable(s) && s.worker.Blocked? && s.eq.Idle?
    ensures Stranded(s) <==> s.Open()
    ensures s.Open() <==> !s.native
  {
    ReachableInv(s);
    if s.native {
      EventWakes(Apply(s, ConnectedEvent));
      WakeLater(s, ConnectedEvent);
    } else {
      forall steps ensures !Wakes(s, steps) {
        if IsRun(s, steps) && SpuriousWake !in steps {
          ClosedStays(s, steps);
        }
      }
    }
  }

  /** And a worker is stranded in some run: a message, and then FI_SHUTDOWN, come before FI_CONNECTED. */
  lemma StrandedRun(isServer: bool)
    ensures exists s :: Reachable(s) && Stranded(s)
  {
    var s0 := Init(isServer);
    assert Reaches(isServer, [], s0);
    ReachStep(s0, Message);
    ReachStep(s0.(worker := AtGate), Test);
    var s1 := s0.(worker := Blocked);
    ReachStep(s1, ShutdownEvent);
    var s2 := Apply(s1, ShutdownEvent);
    ReachStep(s2, CloseJava);
    StrandedExactly(Apply(s2, CloseJava));
  }
}
