/**
 The Java send path.  A send made on a thread other than the connection's completion-queue (CQ)
 thread becomes a handler on that thread's queue; the CQ thread takes an idle send buffer, puts the
 payload into it and sends natively, or puts the handler back when no buffer is idle; a completion runs
 the send callback and then returns the buffer.  A payload that the buffer's current limit does not
 admit makes put throw: the send and its buffer are lost, and so is the CQ thread itself when it was
 running a queued handler, since only callbacks catch.  One step is one access to a shared queue, one
 put or one native call.
 */
module SendPath {
  import opened Common
  import opened ByteBuffers
  import HpnlBuffers

  type BufId = nat

  /** One call of Connection.send by the application, with the length of its payload. */
  datatype Task = Task(con: nat, id: nat, size: nat)

  /** A buffer the fabric is sending. */
  datatype Flight = Flight(buf: BufId, task: Task)

  /** Where a CQ thread is inside Connection.send; `polled` tells a send run by a queued handler. */
  datatype Hand =
    | Empty
    | Running(task: Task, polled: bool)
    | Retrying(task: Task, polled: bool)
    | Holding(task: Task, polled: bool, buf: BufId)
    | Filled(task: Task, polled: bool, buf: BufId)

  /** A CQ thread: its handler queue, the send it executes, and the completed buffer whose callback it
      runs.  History: the handlers queued, and those of them that have left the queue for good. */
  datatype Worker = Worker(queue: seq<Task>, hand: Hand, recycling: Option<(nat, BufId)>, dead: bool,
                           arrived: seq<Task>, handled: seq<Task>)

  /** A connection: its CQ thread, its idle buffers, those in flight, the current limit of each buffer
      pushed at connect, and the buffers a put has lost. */
  datatype Con = Con(owner: nat, idle: seq<BufId>, flight: seq<Flight>, limits: map<BufId, nat>, lost: multiset<BufId>)

  datatype State = State(workers: seq<Worker>, cons: seq<Con>,
                         submitted: multiset<Task>, done: multiset<Task>, lost: multiset<Task>)
  {
    function SetWorker(w: nat, x: Worker): State
      requires w < |workers|
    {
      this.(workers := workers[w := x])
    }

    function SetCon(c: nat, x: Con): State
      requires c < |cons|
    {
      this.(cons := cons[c := x])
    }

    predicate IsCon(c: nat) {
      c < |cons| && cons[c].owner < |workers|
    }

    /** Worker w is alive with nothing in hand. */
    predicate Free(w: nat) {
      w < |workers| && workers[w].hand.Empty? && !workers[w].dead
    }
  }

  const NEW_WORKER := Worker([], Empty, None, false, [], [])

  function Init(workerNum: nat): State {
    State(seq(workerNum, _ => NEW_WORKER), [], multiset{}, multiset{}, multiset{})
  }

  // ---------- the put ----------

  /** The limit a put of `size` bytes leaves, or None where it throws (see PutLimitIsPut). */
  function PutLimit(limit: nat, size: nat): Option<nat> {
    var need := Wrap(HpnlBuffers.METADATA_SIZE + size);
    if need > limit then if size <= limit then Some(size) else None
    else if need < 0 then None
    else Some(need)
  }

  // ---------- the machine ----------

  datatype Step =
    | Connected(owner: nat, buffers: seq<BufId>, limits: map<BufId, nat>)
    | SendElsewhere(task: Task)
    | SendHere(task: Task)
    | Poll(w: nat)
    | Take(w: nat)
    | Requeue(w: nat)
    | Put(w: nat)
    | Submit(w: nat)
    | Complete(c: nat, i: nat)
    | Recycle(w: nat)

  predicate Distinct(s: seq<BufId>) {
    forall i, j | 0 <= i < j < |s| :: s[i] != s[j]
  }

  predicate Enabled(s: State, step: Step) {
    match step
    case Connected(owner, buffers, limits) =>
      owner < |s.workers| && Distinct(buffers) && (forall b <- buffers :: b in limits) && forall b <- limits :: b in buffers
    case SendElsewhere(t) => s.IsCon(t.con) && t !in s.submitted
    case SendHere(t) => s.IsCon(t.con) && t !in s.submitted && s.Free(s.cons[t.con].owner)
    case Poll(w) => s.Free(w) && s.workers[w].recycling.None? && s.workers[w].queue != []
    case Take(w) => w < |s.workers| && s.workers[w].hand.Running? && s.IsCon(s.workers[w].hand.task.con)
    case Requeue(w) => w < |s.workers| && s.workers[w].hand.Retrying?
    case Put(w) => w < |s.workers| && s.workers[w].hand.Holding? && s.IsCon(s.workers[w].hand.task.con)
    case Submit(w) => w < |s.workers| && s.workers[w].hand.Filled? && s.IsCon(s.workers[w].hand.task.con)
    case Complete(c, i) =>
      s.IsCon(c) && i < |s.cons[c].flight| && s.Free(s.cons[c].owner) && s.workers[s.cons[c].owner].recycling.None?
    case Recycle(w) => s.Free(w) && s.workers[w].recycling.Some? && s.IsCon(s.workers[w].recycling.value.0)
  }

  /** addExternalEvent. */
  function Enqueued(x: Worker, t: Task): Worker {
    x.(queue := x.queue + [t], arrived := x.arrived + [t])
  }

  /** send on the thread of worker w, up to taking a buffer. */
  function TakeSpec(s: State, w: nat): State
    requires Enabled(s, Take(w))
  {
    var x := s.workers[w];
    var t := x.hand.task;
    var con := s.cons[t.con];
    if con.owner != w then
      var s1 := s.SetWorker(w, x.(hand := Empty));
      s1.SetWorker(con.owner, Enqueued(s1.workers[con.owner], t))
    else if con.idle == [] then s.SetWorker(w, x.(hand := Retrying(t, x.hand.polled)))
    else s.SetWorker(w, x.(hand := Holding(t, x.hand.polled, con.idle[0]))).SetCon(t.con, con.(idle := con.idle[1..]))
  }

  /** A handler that was polled is put back; another send is queued for the first time. */
  function RequeueSpec(x: Worker): Worker
    requires x.hand.Retrying?
  {
    if x.hand.polled then x.(queue := x.queue + [x.hand.task], hand := Empty)
    else Enqueued(x, x.hand.task).(hand := Empty)
  }

  /** The worker without the send it has in hand, which counts as handled if it was queued. */
  function HandledHand(x: Worker): Worker
    requires !x.hand.Empty?
  {
    x.(hand := Empty, handled := if x.hand.polled then x.handled + [x.hand.task] else x.handled)
  }

  /** The current limit of a buffer of the connection. */
  function Limit(con: Con, b: BufId): nat {
    if b in con.limits then con.limits[b] else 0
  }

  /** The put this worker is about to make throws. */
  predicate Throws(s: State, w: nat)
    requires Enabled(s, Put(w))
  {
    var hand := s.workers[w].hand;
    PutLimit(Limit(s.cons[hand.task.con], hand.buf), hand.task.size).None?
  }

  function PutSpec(s: State, w: nat): State
    requires Enabled(s, Put(w))
  {
    var x := s.workers[w];
    var t, b := x.hand.task, x.hand.buf;
    var con := s.cons[t.con];
    if Throws(s, w) then
      s.SetWorker(w, HandledHand(x).(dead := x.hand.polled)).SetCon(t.con, con.(lost := con.lost + multiset{b}))
       .(lost := s.lost + multiset{t})
    else
      s.SetWorker(w, x.(hand := Filled(t, x.hand.polled, b)))
       .SetCon(t.con, con.(limits := con.limits[b := PutLimit(Limit(con, b), t.size).value]))
  }

  function SubmitSpec(s: State, w: nat): State
    requires Enabled(s, Submit(w))
  {
    var x := s.workers[w];
    var con := s.cons[x.hand.task.con];
    s.SetWorker(w, HandledHand(x))
     .SetCon(x.hand.task.con, con.(flight := con.flight + [Flight(x.hand.buf, x.hand.task)]))
  }

  function Apply(s: State, step: Step): State
    requires Enabled(s, step)
  {
    match step
    case Connected(owner, buffers, limits) =>
      s.(cons := s.cons + [Con(owner, buffers, [], limits, multiset{})])
    case SendElsewhere(t) =>
      var w := s.cons[t.con].owner;
      s.SetWorker(w, Enqueued(s.workers[w], t)).(submitted := s.submitted + multiset{t})
    case SendHere(t) =>
      var w := s.cons[t.con].owner;
      s.SetWorker(w, s.workers[w].(hand := Running(t, false))).(submitted := s.submitted + multiset{t})
    case Poll(w) =>
      var x := s.workers[w];
      s.SetWorker(w, x.(queue := x.queue[1..], hand := Running(x.queue[0], true)))
    case Take(w) => TakeSpec(s, w)
    case Requeue(w) => s.SetWorker(w, RequeueSpec(s.workers[w]))
    case Put(w) => PutSpec(s, w)
    case Submit(w) => SubmitSpec(s, w)
    case Complete(c, i) =>
      var con := s.cons[c];
      s.SetWorker(con.owner, s.workers[con.owner].(recycling := Some((c, con.flight[i].buf))))
       .SetCon(c, con.(flight := con.flight[..i] + con.flight[i + 1..]))
       .(done := s.done + multiset{con.flight[i].task})
    case Recycle(w) =>
      var (c, b) := s.workers[w].recycling.value;
      s.SetWorker(w, s.workers[w].(recycling := None)).SetCon(c, s.cons[c].(idle := s.cons[c].idle + [b]))
  }

  ghost predicate IsRun(s: State, steps: seq<Step>)
    decreases |steps|
  {
    steps == [] || (Enabled(s, steps[0]) && IsRun(Apply(s, steps[0]), steps[1..]))
  }

  ghost function After(s: State, steps: seq<Step>): State
    requires IsRun(s, steps)
    decreases |steps|
  {
    if steps == [] then s else After(Apply(s, steps[0]), steps[1..])
  }

  // ---------- counting ----------

  function Queued(x: Worker, t: Task): nat {
    multiset(x.queue)[t] + if !x.hand.Empty? && x.hand.task == t then 1 else 0
  }

  function Flying(fs: seq<Flight>, t: Task): nat {
    if fs == [] then 0 else Flying(fs[1..], t) + if fs[0].task == t then 1 else 0
  }

  function Carrying(fs: seq<Flight>, b: BufId): nat {
    if fs == [] then 0 else Carrying(fs[1..], b) + if fs[0].buf == b then 1 else 0
  }

  function HeldBy(x: Worker, c: nat, b: BufId): nat {
    (if (x.hand.Holding? || x.hand.Filled?) && x.hand.task.con == c && x.hand.buf == b then 1 else 0) +
    (if x.recycling == Some((c, b)) then 1 else 0)
  }

  lemma {:induction false} AddFlight(fs: seq<Flight>, f: Flight, t: Task, b: BufId)
    ensures Flying(fs + [f], t) == Flying(fs, t) + if f.task == t then 1 else 0
    ensures Carrying(fs + [f], b) == Carrying(fs, b) + if f.buf == b then 1 else 0
  {
    if fs != [] {
      assert (fs + [f])[1..] == fs[1..] + [f];
      AddFlight(fs[1..], f, t, b);
    }
  }

  lemma {:induction false} RemoveFlight(fs: seq<Flight>, i: nat, t: Task, b: BufId)
    requires i < |fs|
    ensures var r := fs[..i] + fs[i + 1..];
            Flying(fs, t) == Flying(r, t) + (if fs[i].task == t then 1 else 0) &&
            Carrying(fs, b) == Carrying(r, b) + (if fs[i].buf == b then 1 else 0)
  {
    var r := fs[..i] + fs[i + 1..];
    if i == 0 {
      assert r == fs[1..];
    } else {
      RemoveFlight(fs[1..], i - 1, t, b);
      assert r[1..] == fs[1..][..i - 1] + fs[1..][i - 1 + 1..];
    }
  }

  lemma {:induction false} DistinctCount(s: seq<BufId>, b: BufId)
    requires Distinct(s)
    ensures multiset(s)[b] == if b in s then 1 else 0
    decreases |s|
  {
    if s != [] {
      assert s == [s[0]] + s[1..];
      assert forall i, j | 0 <= i < j < |s[1..]| :: s[1..][i] == s[i + 1] && s[1..][j] == s[j + 1];
      DistinctCount(s[1..], b);
    }
  }

  // ---------- the invariant, one send and one buffer at a time ----------

  /** A worker holds sends and buffers of its own connections only. */
  predicate OwnOnly(s: State, w: nat)
    requires w < |s.workers|
  {
    var x := s.workers[w];
    (forall t <- x.queue :: t.con < |s.cons| && s.cons[t.con].owner == w) &&
    (!x.hand.Empty? ==> x.hand.task.con < |s.cons| && s.cons[x.hand.task.con].owner == w) &&
    (x.recycling.Some? ==> x.recycling.value.0 < |s.cons| && s.cons[x.recycling.value.0].owner == w)
  }

  /** Every submitted send is queued or executing at its connection's worker, in flight, completed, or
      lost to a put that threw. */
  predicate SendAccounted(s: State, t: Task) {
    if s.IsCon(t.con) then
      Queued(s.workers[s.cons[t.con].owner], t) + Flying(s.cons[t.con].flight, t) + s.done[t] + s.lost[t]
        == s.submitted[t] <= 1
    else s.submitted[t] == 0 && s.done[t] == 0 && s.lost[t] == 0
  }

  /** Every buffer pushed at connect is idle, in the worker's hand, in flight, about to be returned, or
      lost likewise. */
  predicate BufferAccounted(s: State, c: nat, b: BufId) {
    s.IsCon(c) ==>
      multiset(s.cons[c].idle)[b] + Carrying(s.cons[c].flight, b) + HeldBy(s.workers[s.cons[c].owner], c, b)
        + s.cons[c].lost[b] == if b in s.cons[c].limits then 1 else 0
  }

  /** What was queued for a worker has left the queue in the order of arrival, and is waiting in it. */
  predicate InOrder(x: Worker) {
    x.arrived == x.handled + (if !x.hand.Empty? && x.hand.polled then [x.hand.task] else []) + x.queue
  }

  /** A connection's flights carry its own sends. */
  predicate FlightsOwn(s: State, c: nat)
    requires c < |s.cons|
  {
    forall f <- s.cons[c].flight :: f.task.con == c
  }

  ghost predicate AllCons(s: State) {
    forall c | 0 <= c < |s.cons| :: s.IsCon(c)
  }

  ghost predicate Owners(s: State) {
    AllCons(s) && (forall w | 0 <= w < |s.workers| :: OwnOnly(s, w)) && forall c | 0 <= c < |s.cons| :: FlightsOwn(s, c)
  }

  lemma TailCount<T>(q: seq<T>, x: T)
    requires q != []
    ensures multiset(q)[x] == multiset(q[1..])[x] + if q[0] == x then 1 else 0
  {
    assert q == [q[0]] + q[1..];
  }
}
