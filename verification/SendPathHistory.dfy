/** What the history of the send path tells: the order in which send buffers are used, and which threads die. */
module SendPathHistory {
  import opened Common
  import opened SendPath
  import opened SendPathProofs

  // ---------- the buffers go round ----------

  function IdleOf(s: State, c: nat): seq<BufId> {
    if c < |s.cons| then s.cons[c].idle else []
  }

  /** The buffers a step adds to connection c: those pushed at connect, or one whose send is complete. */
  function Added(s: State, step: Step, c: nat): seq<BufId>
    requires Enabled(s, step)
  {
    if step.Connected? && c == |s.cons| then step.buffers
    else if step.Recycle? && s.workers[step.w].recycling.value.0 == c then [s.workers[step.w].recycling.value.1]
    else []
  }

  /** The buffer a step takes from it for a send. */
  function TakenFrom(s: State, step: Step, c: nat): seq<BufId>
    requires Enabled(s, step)
  {
    var s' := Apply(s, step);
    if step.Take? && step.w < |s'.workers| && s'.workers[step.w].hand.Holding? && s.workers[step.w].hand.task.con == c
    then [s'.workers[step.w].hand.buf] else []
  }

  ghost function AllAdded(s: State, steps: seq<Step>, c: nat): seq<BufId>
    requires IsRun(s, steps)
    decreases |steps|
  {
    if steps == [] then [] else Added(s, steps[0], c) + AllAdded(Apply(s, steps[0]), steps[1..], c)
  }

  ghost function AllTaken(s: State, steps: seq<Step>, c: nat): seq<BufId>
    requires IsRun(s, steps)
    decreases |steps|
  {
    if steps == [] then [] else TakenFrom(s, steps[0], c) + AllTaken(Apply(s, steps[0]), steps[1..], c)
  }

  lemma TakeRotates(s: State, w: nat, c: nat)
    requires Enabled(s, Take(w))
    ensures IdleOf(s, c) == TakenFrom(s, Take(w), c) + IdleOf(TakeSpec(s, w), c)
  {
    var con := s.cons[s.workers[w].hand.task.con];
    assert con.idle != [] ==> con.idle == [con.idle[0]] + con.idle[1..];
  }

  lemma ArrivalIdle(s: State, step: Step, c: nat)
    requires Enabled(s, step) && Arrival(step)
    ensures IdleOf(Apply(s, step), c) == IdleOf(s, c) + Added(s, step, c)
  {
  }

  lemma ExecutionIdle(s: State, step: Step, c: nat)
    requires Enabled(s, step) && Execution(step)
    ensures IdleOf(Apply(s, step), c) == IdleOf(s, c)
  {
  }

  lemma PutIdle(s: State, w: nat, c: nat)
    requires Enabled(s, Put(w))
    ensures IdleOf(PutSpec(s, w), c) == IdleOf(s, c)
  {
  }

  lemma CompletionIdle(s: State, step: Step, c: nat)
    requires Enabled(s, step) && Completion(step)
    ensures IdleOf(Apply(s, step), c) == IdleOf(s, c) + Added(s, step, c)
  {
  }

  lemma RotateStep(s: State, step: Step, c: nat)
    requires Enabled(s, step)
    ensures IdleOf(s, c) + Added(s, step, c) == TakenFrom(s, step, c) + IdleOf(Apply(s, step), c)
  {
    if step.Take? {
      TakeRotates(s, step.w, c);
      assert Apply(s, step) == TakeSpec(s, step.w);
    } else if Arrival(step) {
      ArrivalIdle(s, step, c);
    } else if Execution(step) {
      ExecutionIdle(s, step, c);
    } else if step.Put? {
      PutIdle(s, step.w, c);
    } else {
      CompletionIdle(s, step, c);
    }
  }

  lemma Chain(a: seq<BufId>, x: seq<BufId>, y: seq<BufId>, b: seq<BufId>, u: seq<BufId>, v: seq<BufId>, c: seq<BufId>)
    requires a + x == y + b && b + u == v + c
    ensures a + (x + u) == (y + v) + c
  {
    assert a + (x + u) == (a + x) + u;
    assert (y + b) + u == y + (b + u);
    assert y + (v + c) == (y + v) + c;
  }

  lemma {:induction false} RotateRun(s: State, steps: seq<Step>, c: nat)
    requires IsRun(s, steps)
    ensures IdleOf(s, c) + AllAdded(s, steps, c) == AllTaken(s, steps, c) + IdleOf(After(s, steps), c)
    decreases |steps|
  {
    if steps != [] {
      var t, rest := Apply(s, steps[0]), steps[1..];
      RotateStep(s, steps[0], c);
      RotateRun(t, rest, c);
      Chain(IdleOf(s, c), Added(s, steps[0], c), TakenFrom(s, steps[0], c), IdleOf(t, c),
            AllAdded(t, rest, c), AllTaken(t, rest, c), IdleOf(After(t, rest), c));
    }
  }

  /** A connection uses its buffers in the order in which they became idle: in every run those pushed at
      connect and returned since are those taken for sends, in the same order, and then those idle. */
  lemma BuffersInTurn(workerNum: nat, steps: seq<Step>, c: nat)
    requires IsRun(Init(workerNum), steps)
    ensures var s := Init(workerNum); AllAdded(s, steps, c) == AllTaken(s, steps, c) + IdleOf(After(s, steps), c)
  {
    RotateRun(Init(workerNum), steps, c);
    assert IdleOf(Init(workerNum), c) + AllAdded(Init(workerNum), steps, c) == AllAdded(Init(workerNum), steps, c);
  }

  // ---------- which threads die ----------

  /** A send that is in flight or completed. */
  function Out(s: State, t: Task): nat
    requires t.con < |s.cons|
  {
    Flying(s.cons[t.con].flight, t) + s.done[t]
  }

  /** The last handler that left worker w's queue for good is out, or lost if the thread is dead. */
  predicate LastOk(s: State, w: nat)
    requires w < |s.workers|
  {
    var x := s.workers[w];
    (x.dead ==> x.hand.Empty? && x.handled != []) &&
    (x.handled != [] ==>
       var t := x.handled[|x.handled| - 1];
       s.IsCon(t.con) && if x.dead then s.lost[t] >= 1 else Out(s, t) >= 1)
  }

  lemma SameOut(s: State, step: Step, t: Task)
    requires AllCons(s) && Enabled(s, step) && t.con < |s.cons| && !step.Submit? && !step.Complete?
    ensures Apply(s, step).IsCon(t.con) && Out(Apply(s, step), t) == Out(s, t)
  {
    ConsStep(s, step);
    SameFlight(s, step, t.con);
  }

  lemma SubmitOut(s: State, w: nat, t: Task)
    requires AllCons(s) && Enabled(s, Submit(w)) && t.con < |s.cons|
    ensures SubmitSpec(s, w).IsCon(t.con) && Out(SubmitSpec(s, w), t) == Out(s, t) + if t == s.workers[w].hand.task then 1 else 0
  {
    var x := s.workers[w];
    AddFlight(s.cons[x.hand.task.con].flight, Flight(x.hand.buf, x.hand.task), t, 0);
    ConsStep(s, Submit(w));
  }

  lemma CompleteOut(s: State, c: nat, i: nat, t: Task)
    requires AllCons(s) && Enabled(s, Complete(c, i)) && t.con < |s.cons| && FlightsOwn(s, c)
    ensures Apply(s, Complete(c, i)).IsCon(t.con) && Out(Apply(s, Complete(c, i)), t) == Out(s, t)
  {
    RemoveFlight(s.cons[c].flight, i, t, 0);
    assert s.cons[c].flight[i] in s.cons[c].flight;
    ConsStep(s, Complete(c, i));
  }

  lemma OutStep(s: State, step: Step, t: Task)
    requires Owners(s) && Enabled(s, step) && t.con < |s.cons|
    ensures Apply(s, step).IsCon(t.con) && Out(s, t) <= Out(Apply(s, step), t)
  {
    if step.Submit? {
      SubmitOut(s, step.w, t);
    } else if step.Complete? {
      CompleteOut(s, step.c, step.i, t);
    } else {
      SameOut(s, step, t);
    }
  }

  /** The worker has taken nothing off its queue for good, and lives if it lived. */
  predicate SameLast(x: Worker, y: Worker) {
    y.handled == x.handled && y.dead == x.dead && (x.dead && x.hand.Empty? ==> y.hand.Empty?)
  }

  lemma SameArrival(s: State, step: Step, w: nat)
    requires Enabled(s, step) && w < |s.workers| && Arrival(step)
    ensures w < |Apply(s, step).workers| && SameLast(s.workers[w], Apply(s, step).workers[w])
  {
  }

  lemma SameExecution(s: State, step: Step, w: nat)
    requires Enabled(s, step) && w < |s.workers| && Execution(step) && step != Submit(w)
    ensures w < |Apply(s, step).workers| && SameLast(s.workers[w], Apply(s, step).workers[w])
  {
  }

  lemma SameTake(s: State, v: nat, w: nat)
    requires Enabled(s, Take(v)) && w < |s.workers|
    ensures w < |TakeSpec(s, v).workers| && SameLast(s.workers[w], TakeSpec(s, v).workers[w])
  {
  }

  lemma SamePut(s: State, v: nat, w: nat)
    requires Enabled(s, Put(v)) && w < |s.workers| && !(v == w && Throws(s, v))
    ensures w < |PutSpec(s, v).workers| && SameLast(s.workers[w], PutSpec(s, v).workers[w])
  {
  }

  lemma SameCompletion(s: State, step: Step, w: nat)
    requires Enabled(s, step) && w < |s.workers| && Completion(step)
    ensures w < |Apply(s, step).workers| && SameLast(s.workers[w], Apply(s, step).workers[w])
  {
  }

  /** Only a submission and a put that throws take a handler off worker w, or end its thread. */
  lemma SameHandled(s: State, step: Step, w: nat)
    requires Enabled(s, step) && w < |s.workers| && step != Submit(w) && !(step == Put(w) && Throws(s, w))
    ensures w < |Apply(s, step).workers| && SameLast(s.workers[w], Apply(s, step).workers[w])
  {
    if Arrival(step) {
      SameArrival(s, step, w);
    } else if Execution(step) {
      SameExecution(s, step, w);
    } else if step.Take? {
      SameTake(s, step.w, w);
    } else if step.Put? {
      SamePut(s, step.w, w);
    } else {
      SameCompletion(s, step, w);
    }
  }

  lemma LastSubmit(s: State, w: nat)
    requires Owners(s) && Enabled(s, Submit(w)) && LastOk(s, w)
    ensures LastOk(SubmitSpec(s, w), w)
  {
    var x := s.workers[w];
    SubmitOut(s, w, x.hand.task);
    if x.handled != [] {
      SubmitOut(s, w, x.handled[|x.handled| - 1]);
    }
  }

  lemma LastThrow(s: State, w: nat)
    requires Owners(s) && Enabled(s, Put(w)) && Throws(s, w) && LastOk(s, w)
    ensures LastOk(PutSpec(s, w), w)
  {
    var x := s.workers[w];
    ConsStep(s, Put(w));
    if x.handled != [] {
      SameOut(s, Put(w), x.handled[|x.handled| - 1]);
    }
  }

  lemma LastStep(s: State, step: Step, w: nat)
    requires Owners(s) && Enabled(s, step) && w < |s.workers| && LastOk(s, w)
    ensures w < |Apply(s, step).workers| && LastOk(Apply(s, step), w)
  {
    if step == Submit(w) {
      LastSubmit(s, w);
    } else if step == Put(w) && Throws(s, w) {
      LastThrow(s, w);
    } else {
      SameHandled(s, step, w);
      LostStep(s, step);
      var x := s.workers[w];
      if x.handled != [] {
        OutStep(s, step, x.handled[|x.handled| - 1]);
      }
    }
  }

  lemma {:induction false} LastRun(s: State, steps: seq<Step>, w: nat)
    requires Owners(s) && IsRun(s, steps) && w < |s.workers| && LastOk(s, w)
    ensures w < |After(s, steps).workers| && LastOk(After(s, steps), w)
    decreases |steps|
  {
    if steps != [] {
      OwnersStep(s, steps[0]);
      LastStep(s, steps[0], w);
      LastRun(Apply(s, steps[0]), steps[1..], w);
    }
  }

  /** In every run a completion-queue thread is dead exactly when the last handler that left its queue for good
      was lost to a put; a put that throws in the application's own call kills no thread. */
  lemma DeadExactly(workerNum: nat, steps: seq<Step>, w: nat)
    requires IsRun(Init(workerNum), steps) && w < workerNum
    ensures var s := After(Init(workerNum), steps);
            w < |s.workers| &&
            var x := s.workers[w]; x.dead <==> x.handled != [] && x.handled[|x.handled| - 1] in s.lost
  {
    RunInv(Init(workerNum), steps);
    LastRun(Init(workerNum), steps, w);
    var s := After(Init(workerNum), steps);
    var x := s.workers[w];
    if x.handled != [] {
      assert SendAccounted(s, x.handled[|x.handled| - 1]);
    }
  }
}
