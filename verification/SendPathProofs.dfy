/** Conservation, ownership and order on the Java send path, for every interleaving. */
module SendPathProofs {
  import opened Common
  import opened SendPath
  import B = ByteBuffers
  import H = HpnlBuffers
  import P = HpnlBufferProofs

  predicate Arrival(step: Step) {
    step.Connected? || step.SendElsewhere? || step.SendHere?
  }

  predicate Execution(step: Step) {
    step.Poll? || step.Requeue? || step.Submit?
  }

  predicate Completion(step: Step) {
    step.Complete? || step.Recycle?
  }

  // ---------- ownership ----------

  lemma ConsStep(s: State, step: Step)
    requires AllCons(s) && Enabled(s, step)
    ensures AllCons(Apply(s, step)) && |Apply(s, step).workers| == |s.workers|
  {
    var s' := Apply(s, step);
    forall c | 0 <= c < |s'.cons| ensures s'.IsCon(c) {
      assert c < |s.cons| ==> s.IsCon(c);
    }
  }

  lemma OwnArrival(s: State, step: Step, v: nat)
    requires AllCons(s) && Enabled(s, step) && v < |s.workers| && OwnOnly(s, v) && Arrival(step)
    ensures OwnOnly(Apply(s, step), v)
  {
  }

  lemma OwnExecution(s: State, step: Step, v: nat)
    requires AllCons(s) && Enabled(s, step) && v < |s.workers| && OwnOnly(s, v) && Execution(step)
    ensures OwnOnly(Apply(s, step), v)
  {
  }

  lemma OwnTake(s: State, w: nat, v: nat)
    requires AllCons(s) && Enabled(s, Take(w)) && v < |s.workers| && OwnOnly(s, v)
    ensures OwnOnly(TakeSpec(s, w), v)
  {
  }

  lemma OwnPut(s: State, w: nat, v: nat)
    requires AllCons(s) && Enabled(s, Put(w)) && v < |s.workers| && OwnOnly(s, v)
    ensures OwnOnly(PutSpec(s, w), v)
  {
  }

  lemma OwnCompletion(s: State, step: Step, v: nat)
    requires AllCons(s) && Enabled(s, step) && v < |s.workers| && OwnOnly(s, v) && Completion(step)
    ensures OwnOnly(Apply(s, step), v)
  {
  }

  // ---------- order ----------

  lemma OrderArrival(s: State, step: Step, v: nat)
    requires Enabled(s, step) && v < |s.workers| && Arrival(step)
    ensures InOrder(s.workers[v]) ==> InOrder(Apply(s, step).workers[v])
  {
  }

  lemma OrderExecution(s: State, step: Step, v: nat)
    requires Enabled(s, step) && v < |s.workers| && (step.Poll? || step.Submit?)
    ensures InOrder(s.workers[v]) ==> InOrder(Apply(s, step).workers[v])
  {
  }

  lemma OrderTake(s: State, w: nat, v: nat)
    requires Enabled(s, Take(w)) && v < |s.workers| && OwnOnly(s, v)
    ensures InOrder(s.workers[v]) ==> InOrder(TakeSpec(s, w).workers[v])
  {
  }

  lemma OrderPut(s: State, w: nat, v: nat)
    requires Enabled(s, Put(w)) && v < |s.workers|
    ensures InOrder(s.workers[v]) ==> InOrder(PutSpec(s, w).workers[v])
  {
  }

  lemma OrderCompletion(s: State, step: Step, v: nat)
    requires Enabled(s, step) && v < |s.workers| && Completion(step)
    ensures InOrder(s.workers[v]) ==> InOrder(Apply(s, step).workers[v])
  {
  }

  /** Putting a polled handler back upsets the order exactly when another handler is waiting. */
  lemma OrderRequeue(x: Worker)
    requires x.hand.Retrying? && InOrder(x) && x.hand.task !in x.queue
    ensures InOrder(RequeueSpec(x)) <==> !x.hand.polled || x.queue == []
  {
    var t := x.hand.task;
    if x.hand.polled {
      assert x.arrived[|x.handled|] == t;
      if x.queue != [] {
        assert (x.handled + x.queue + [t])[|x.handled|] == x.queue[0];
        assert x.queue[0] in x.queue;
      }
    }
  }

  // ---------- sends ----------

  lemma Appended<T>(q: seq<T>, x: T, y: T)
    ensures multiset(q + [x])[y] == multiset(q)[y] + if x == y then 1 else 0
  {
  }

  lemma SendConnected(s: State, step: Step, t: Task)
    requires AllCons(s) && Enabled(s, step) && SendAccounted(s, t) && step.Connected? && OwnOnly(s, step.owner)
    ensures SendAccounted(Apply(s, step), t)
  {
    assert t.con < |s.cons| ==> s.IsCon(t.con);
  }

  lemma SendArrival(s: State, step: Step, t: Task)
    requires AllCons(s) && Enabled(s, step) && SendAccounted(s, t) && (step.SendElsewhere? || step.SendHere?)
    ensures SendAccounted(Apply(s, step), t)
  {
    if step.SendElsewhere? {
      Appended(s.workers[s.cons[step.task.con].owner].queue, step.task, t);
    }
  }

  lemma SendPoll(s: State, w: nat, t: Task)
    requires AllCons(s) && Enabled(s, Poll(w)) && SendAccounted(s, t)
    ensures SendAccounted(Apply(s, Poll(w)), t)
  {
    TailCount(s.workers[w].queue, t);
  }

  lemma SendRequeue(s: State, w: nat, t: Task)
    requires AllCons(s) && Enabled(s, Requeue(w)) && SendAccounted(s, t)
    ensures SendAccounted(Apply(s, Requeue(w)), t)
  {
    Appended(s.workers[w].queue, s.workers[w].hand.task, t);
  }

  lemma SendSubmit(s: State, w: nat, t: Task)
    requires AllCons(s) && Enabled(s, Submit(w)) && SendAccounted(s, t) && OwnOnly(s, w)
    ensures SendAccounted(SubmitSpec(s, w), t)
  {
    var x := s.workers[w];
    AddFlight(s.cons[x.hand.task.con].flight, Flight(x.hand.buf, x.hand.task), t, 0);
  }

  lemma SendExecution(s: State, step: Step, t: Task)
    requires AllCons(s) && Enabled(s, step) && SendAccounted(s, t) && Execution(step) && OwnOnly(s, step.w)
    ensures SendAccounted(Apply(s, step), t)
  {
    if step.Poll? {
      SendPoll(s, step.w, t);
    } else if step.Requeue? {
      SendRequeue(s, step.w, t);
    } else {
      SendSubmit(s, step.w, t);
    }
  }

  lemma SendTake(s: State, w: nat, t: Task)
    requires AllCons(s) && Enabled(s, Take(w)) && SendAccounted(s, t) && OwnOnly(s, w)
    ensures SendAccounted(TakeSpec(s, w), t)
  {
  }

  lemma SendPut(s: State, w: nat, t: Task)
    requires AllCons(s) && Enabled(s, Put(w)) && SendAccounted(s, t) && OwnOnly(s, w)
    ensures SendAccounted(PutSpec(s, w), t)
  {
  }

  lemma SendComplete(s: State, c: nat, i: nat, t: Task)
    requires AllCons(s) && Enabled(s, Complete(c, i)) && SendAccounted(s, t) && FlightsOwn(s, c)
    ensures SendAccounted(Apply(s, Complete(c, i)), t)
  {
    RemoveFlight(s.cons[c].flight, i, t, 0);
    assert s.cons[c].flight[i] in s.cons[c].flight;
  }

  lemma SendRecycle(s: State, w: nat, t: Task)
    requires AllCons(s) && Enabled(s, Recycle(w)) && SendAccounted(s, t)
    ensures SendAccounted(Apply(s, Recycle(w)), t)
  {
  }

  // ---------- buffers ----------

  lemma BufferArrival(s: State, step: Step, c: nat, b: BufId)
    requires AllCons(s) && Enabled(s, step) && BufferAccounted(s, c, b) && Arrival(step)
    requires step.Connected? ==> OwnOnly(s, step.owner)
    ensures BufferAccounted(Apply(s, step), c, b)
  {
    assert c < |s.cons| ==> s.IsCon(c);
    if step.Connected? {
      DistinctCount(step.buffers, b);
    }
  }

  lemma BufferExecution(s: State, step: Step, c: nat, b: BufId)
    requires AllCons(s) && Enabled(s, step) && BufferAccounted(s, c, b) && Execution(step) && OwnOnly(s, step.w)
    ensures BufferAccounted(Apply(s, step), c, b)
  {
    var x := s.workers[step.w];
    if step.Submit? {
      AddFlight(s.cons[x.hand.task.con].flight, Flight(x.hand.buf, x.hand.task), x.hand.task, b);
    }
  }

  lemma BufferTake(s: State, w: nat, c: nat, b: BufId)
    requires AllCons(s) && Enabled(s, Take(w)) && BufferAccounted(s, c, b) && OwnOnly(s, w)
    ensures BufferAccounted(TakeSpec(s, w), c, b)
  {
    var con := s.cons[s.workers[w].hand.task.con];
    if con.idle != [] {
      TailCount(con.idle, b);
    }
  }

  lemma BufferPut(s: State, w: nat, c: nat, b: BufId)
    requires AllCons(s) && Enabled(s, Put(w)) && BufferAccounted(s, c, b) && OwnOnly(s, w)
    ensures BufferAccounted(PutSpec(s, w), c, b)
  {
    if Throws(s, w) {
      assert BufferAccounted(PutSpec(s, w), c, b);
    }
  }

  lemma BufferComplete(s: State, d: nat, i: nat, c: nat, b: BufId)
    requires AllCons(s) && Enabled(s, Complete(d, i)) && BufferAccounted(s, c, b)
    ensures BufferAccounted(Apply(s, Complete(d, i)), c, b)
  {
    RemoveFlight(s.cons[d].flight, i, Task(0, 0, 0), b);
  }

  lemma BufferRecycle(s: State, w: nat, c: nat, b: BufId)
    requires AllCons(s) && Enabled(s, Recycle(w)) && BufferAccounted(s, c, b) && OwnOnly(s, w)
    ensures BufferAccounted(Apply(s, Recycle(w)), c, b)
  {
    var (d, x) := s.workers[w].recycling.value;
    Appended(s.cons[d].idle, x, b);
  }

  // ---------- one step, any step ----------

  /** Only a submission and a completion change what a connection has in flight. */
  lemma SameFlight(s: State, step: Step, c: nat)
    requires AllCons(s) && Enabled(s, step) && c < |s.cons| && !step.Submit? && !step.Complete?
    ensures c < |Apply(s, step).cons| && Apply(s, step).cons[c].flight == s.cons[c].flight
  {
  }

  lemma FlightStep(s: State, step: Step, c: nat)
    requires AllCons(s) && Enabled(s, step) && c < |Apply(s, step).cons|
    requires c < |s.cons| ==> FlightsOwn(s, c)
    ensures FlightsOwn(Apply(s, step), c)
  {
    if c < |s.cons| && !step.Submit? && !step.Complete? {
      SameFlight(s, step, c);
    }
  }

  lemma OwnStep(s: State, step: Step, v: nat)
    requires AllCons(s) && Enabled(s, step) && v < |s.workers| && OwnOnly(s, v)
    ensures |Apply(s, step).workers| == |s.workers| && OwnOnly(Apply(s, step), v)
  {
    ConsStep(s, step);
    if Arrival(step) {
      OwnArrival(s, step, v);
    } else if Execution(step) {
      OwnExecution(s, step, v);
    } else if step.Take? {
      OwnTake(s, step.w, v);
    } else if step.Put? {
      OwnPut(s, step.w, v);
    } else {
      OwnCompletion(s, step, v);
    }
  }

  lemma OwnersStep(s: State, step: Step)
    requires Owners(s) && Enabled(s, step)
    ensures Owners(Apply(s, step))
  {
    var s' := Apply(s, step);
    ConsStep(s, step);
    forall w | 0 <= w < |s'.workers| ensures OwnOnly(s', w) {
      OwnStep(s, step, w);
    }
    forall c | 0 <= c < |s'.cons| ensures FlightsOwn(s', c) {
      FlightStep(s, step, c);
    }
  }

  lemma SendStep(s: State, step: Step, t: Task)
    requires Owners(s) && Enabled(s, step) && SendAccounted(s, t)
    ensures SendAccounted(Apply(s, step), t)
  {
    if step.Connected? {
      SendConnected(s, step, t);
    } else if Arrival(step) {
      SendArrival(s, step, t);
    } else if Execution(step) {
      SendExecution(s, step, t);
    } else if step.Take? {
      SendTake(s, step.w, t);
    } else if step.Put? {
      SendPut(s, step.w, t);
    } else if step.Complete? {
      SendComplete(s, step.c, step.i, t);
    } else {
      SendRecycle(s, step.w, t);
    }
  }

  lemma BufferStep(s: State, step: Step, c: nat, b: BufId)
    requires Owners(s) && Enabled(s, step) && BufferAccounted(s, c, b)
    ensures BufferAccounted(Apply(s, step), c, b)
  {
    if Arrival(step) {
      BufferArrival(s, step, c, b);
    } else if Execution(step) {
      BufferExecution(s, step, c, b);
    } else if step.Take? {
      BufferTake(s, step.w, c, b);
    } else if step.Put? {
      BufferPut(s, step.w, c, b);
    } else if step.Complete? {
      BufferComplete(s, step.c, step.i, c, b);
    } else {
      BufferRecycle(s, step.w, c, b);
    }
  }

  /** The queue of worker v is upset: a handler is put back behind another one. */
  predicate Overtakes(s: State, step: Step, v: nat)
    requires Enabled(s, step)
  {
    step == Requeue(v) && s.workers[v].hand.polled && s.workers[v].queue != []
  }

  lemma OrderStep(s: State, step: Step, v: nat)
    requires Owners(s) && Enabled(s, step) && v < |s.workers| && InOrder(s.workers[v])
    requires forall t :: SendAccounted(s, t)
    ensures |Apply(s, step).workers| == |s.workers|
    ensures InOrder(Apply(s, step).workers[v]) <==> !Overtakes(s, step, v)
  {
    ConsStep(s, step);
    if Arrival(step) {
      OrderArrival(s, step, v);
    } else if step.Requeue? {
      if step.w == v {
        NotQueuedTwice(s, v);
        OrderRequeue(s.workers[v]);
      }
    } else if Execution(step) {
      OrderExecution(s, step, v);
    } else if step.Take? {
      OrderTake(s, step.w, v);
    } else if step.Put? {
      OrderPut(s, step.w, v);
    } else {
      OrderCompletion(s, step, v);
    }
  }

  lemma NotQueuedTwice(s: State, v: nat)
    requires AllCons(s) && v < |s.workers| && OwnOnly(s, v) && !s.workers[v].hand.Empty?
    requires SendAccounted(s, s.workers[v].hand.task)
    ensures s.workers[v].hand.task !in s.workers[v].queue
  {
    assert s.IsCon(s.workers[v].hand.task.con);
    assert multiset(s.workers[v].queue)[s.workers[v].hand.task] == 0;
  }

  // ---------- what put does ----------

  /** PutLimit is what HpnlBuffer.put does to the limit of the buffer it is given. */
  lemma PutLimitIsPut(b: B.Buf, m: H.Message)
    requires b.Valid() && m.Valid() && m.Msg?
    ensures H.PutSpec(b, m).Done? <==> PutLimit(b.lim, |m.src|).Some?
    ensures H.PutSpec(b, m).b.lim == if H.PutSpec(b, m).Done? then PutLimit(b.lim, |m.src|).value else b.lim
  {
    if m.Need() > b.lim {
      B.PutAllIsOneWrite(b.Rewind(), [m.src]);
      assert B.Concat([m.src]) == m.src by { assert [m.src][1..] == []; }
    } else if m.Need() >= 0 {
      P.PutAccepted(b, m);
    }
  }

  /** It throws exactly when the payload alone exceeds the current limit, or the frame's length an int. */
  lemma ThrowsExactly(limit: nat, size: nat)
    requires limit < 0x8000_0000 && size < 0x8000_0000
    ensures PutLimit(limit, size).None? <==> limit < size || 0x8000_0000 <= 10 + size
  {
  }

  // ---------- theorems over every run ----------

  ghost predicate Inv(s: State) {
    Owners(s) && (forall t :: SendAccounted(s, t)) && forall c, b :: BufferAccounted(s, c, b)
  }

  lemma InvStep(s: State, step: Step)
    requires Inv(s) && Enabled(s, step)
    ensures Inv(Apply(s, step))
  {
    OwnersStep(s, step);
    forall t ensures SendAccounted(Apply(s, step), t) {
      SendStep(s, step, t);
    }
    forall c: nat, b: BufId ensures BufferAccounted(Apply(s, step), c, b) {
      BufferStep(s, step, c, b);
    }
  }

  lemma {:induction false} RunInv(s: State, steps: seq<Step>)
    requires IsRun(s, steps) && Inv(s)
    ensures Inv(After(s, steps))
    decreases |steps|
  {
    if steps != [] {
      InvStep(s, steps[0]);
      RunInv(Apply(s, steps[0]), steps[1..]);
    }
  }

  /** In every run every send and every buffer is accounted for, and only the owning worker ever executes
      a send or holds a buffer. */
  lemma SendPathSound(workerNum: nat, steps: seq<Step>)
    requires IsRun(Init(workerNum), steps)
    ensures Inv(After(Init(workerNum), steps))
  {
    RunInv(Init(workerNum), steps);
  }

  /** No put of the run throws. */
  ghost predicate PutsFit(s: State, steps: seq<Step>)
    requires IsRun(s, steps)
    decreases |steps|
  {
    steps == [] ||
    ((steps[0].Put? ==> !Throws(s, steps[0].w)) && PutsFit(Apply(s, steps[0]), steps[1..]))
  }

  ghost predicate NothingLost(s: State) {
    s.lost == multiset{} && forall c | 0 <= c < |s.cons| :: s.cons[c].lost == multiset{}
  }

  lemma LostPut(s: State, w: nat)
    requires Enabled(s, Put(w))
    ensures s.lost <= PutSpec(s, w).lost
    ensures Throws(s, w) ==> PutSpec(s, w).lost != multiset{}
    ensures NothingLost(s) && !Throws(s, w) ==> NothingLost(PutSpec(s, w))
  {
    if Throws(s, w) {
      assert s.workers[w].hand.task in PutSpec(s, w).lost;
    }
  }

  lemma LostOther(s: State, step: Step)
    requires Enabled(s, step) && !step.Put?
    ensures Apply(s, step).lost == s.lost
    ensures forall c | 0 <= c < |Apply(s, step).cons| ::
              if c < |s.cons| then Apply(s, step).cons[c].lost == s.cons[c].lost else Apply(s, step).cons[c].lost == multiset{}
  {
  }

  lemma LostStep(s: State, step: Step)
    requires Enabled(s, step)
    ensures s.lost <= Apply(s, step).lost
    ensures step.Put? && Throws(s, step.w) ==> Apply(s, step).lost != multiset{}
    ensures NothingLost(s) && !(step.Put? && Throws(s, step.w)) ==> NothingLost(Apply(s, step))
  {
    if step.Put? {
      LostPut(s, step.w);
    } else {
      LostOther(s, step);
    }
  }

  lemma {:induction false} LostRun(s: State, steps: seq<Step>)
    requires IsRun(s, steps)
    ensures s.lost <= After(s, steps).lost
    ensures !PutsFit(s, steps) ==> After(s, steps).lost != multiset{}
    ensures NothingLost(s) && PutsFit(s, steps) ==> NothingLost(After(s, steps))
    decreases |steps|
  {
    if steps != [] {
      LostStep(s, steps[0]);
      LostRun(Apply(s, steps[0]), steps[1..]);
    }
  }

  /** A send is in exactly one place: on its connection's worker, in flight, or completed. */
  predicate SendConserved(s: State, t: Task) {
    SendAccounted(s, t) && s.lost[t] == 0
  }

  /** A buffer pushed at connect is in exactly one place: idle, with the worker, or in flight. */
  predicate BufferConserved(s: State, c: nat, b: BufId) {
    BufferAccounted(s, c, b) && (c < |s.cons| ==> s.cons[c].lost[b] == 0)
  }

  /** Conservation: every send is at the end in exactly one place, and every buffer too, exactly when no
      put of the run has thrown. */
  lemma ConservedExactly(workerNum: nat, steps: seq<Step>)
    requires IsRun(Init(workerNum), steps)
    ensures (forall t :: SendConserved(After(Init(workerNum), steps), t)) <==> PutsFit(Init(workerNum), steps)
    ensures PutsFit(Init(workerNum), steps) ==> forall c, b :: BufferConserved(After(Init(workerNum), steps), c, b)
  {
    var s := After(Init(workerNum), steps);
    RunInv(Init(workerNum), steps);
    LostRun(Init(workerNum), steps);
    if PutsFit(Init(workerNum), steps) {
      forall t ensures SendConserved(s, t) {
        assert SendAccounted(s, t);
      }
      forall c: nat, b: BufId ensures BufferConserved(s, c, b) {
        assert BufferAccounted(s, c, b);
      }
    } else {
      var t :| t in s.lost;
      assert !SendConserved(s, t);
    }
  }

  /** A send that is neither completed, nor in flight, nor lost to a put is still with its worker. */
  lemma StillWithWorker(workerNum: nat, steps: seq<Step>, t: Task)
    requires IsRun(Init(workerNum), steps)
    ensures var s := After(Init(workerNum), steps);
            t in s.submitted && t !in s.done && t !in s.lost ==>
              s.IsCon(t.con) &&
              (Flying(s.cons[t.con].flight, t) == 1 || Queued(s.workers[s.cons[t.con].owner], t) == 1)
  {
    RunInv(Init(workerNum), steps);
    assert SendAccounted(After(Init(workerNum), steps), t);
  }

  // ---------- order over runs ----------

  /** At every moment of the run worker v has handled, and has waiting, what was queued in its order. */
  ghost predicate AlwaysInOrder(s: State, steps: seq<Step>, v: nat)
    requires IsRun(s, steps)
    decreases |steps|
  {
    (v < |s.workers| ==> InOrder(s.workers[v])) &&
    (steps == [] || AlwaysInOrder(Apply(s, steps[0]), steps[1..], v))
  }

  /** No handler is put back while another one waits. */
  ghost predicate NeverOvertakes(s: State, steps: seq<Step>, v: nat)
    requires IsRun(s, steps)
    decreases |steps|
  {
    steps == [] || (!Overtakes(s, steps[0], v) && NeverOvertakes(Apply(s, steps[0]), steps[1..], v))
  }

  lemma {:induction false} OrderRun(s: State, steps: seq<Step>, v: nat)
    requires Inv(s) && IsRun(s, steps) && v < |s.workers| && InOrder(s.workers[v])
    ensures AlwaysInOrder(s, steps, v) <==> NeverOvertakes(s, steps, v)
    decreases |steps|
  {
    if steps != [] {
      OrderStep(s, steps[0], v);
      InvStep(s, steps[0]);
      if InOrder(Apply(s, steps[0]).workers[v]) {
        OrderRun(Apply(s, steps[0]), steps[1..], v);
      }
    }
  }

  /** A worker keeps to the order of arrival throughout a run exactly when it never puts a handler back
      while another is waiting. */
  lemma FifoExactly(workerNum: nat, steps: seq<Step>, v: nat)
    requires IsRun(Init(workerNum), steps) && v < workerNum
    ensures AlwaysInOrder(Init(workerNum), steps, v) <==> NeverOvertakes(Init(workerNum), steps, v)
  {
    OrderRun(Init(workerNum), steps, v);
  }
}
