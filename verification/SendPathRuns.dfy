/** What one CQ thread of the send path does when no other thread steps in between, and the runs in which
    a send is lost or overtaken. */
module SendPathRuns {
  import opened Common
  import opened SendPath
  import opened SendPathProofs

  ghost predicate Reaches(workerNum: nat, steps: seq<Step>, s: State) {
    IsRun(Init(workerNum), steps) && After(Init(workerNum), steps) == s
  }

  ghost predicate Reachable(s: State) {
    exists workerNum, steps :: Reaches(workerNum, steps, s)
  }

  lemma {:induction false} RunSnoc(s: State, steps: seq<Step>, step: Step)
    requires IsRun(s, steps) && Enabled(After(s, steps), step)
    ensures IsRun(s, steps + [step]) && After(s, steps + [step]) == Apply(After(s, steps), step)
    decreases |steps|
  {
    if steps == [] {
      assert IsRun(Apply(s, step), []);
      assert [step][1..] == [];
    } else {
      RunSnoc(Apply(s, steps[0]), steps[1..], step);
      assert (steps + [step])[1..] == steps[1..] + [step];
    }
  }

  lemma ReachInit(workerNum: nat)
    ensures Reachable(Init(workerNum))
  {
    assert Reaches(workerNum, [], Init(workerNum));
  }

  lemma ReachStep(s: State, step: Step)
    requires Reachable(s) && Enabled(s, step)
    ensures Reachable(Apply(s, step))
  {
    var workerNum, steps :| Reaches(workerNum, steps, s);
    RunSnoc(Init(workerNum), steps, step);
    assert Reaches(workerNum, steps + [step], Apply(s, step));
  }

  // ---------- one execution of send ----------

  /** The steps of one execution of send on worker w, which has it in hand. */
  function SendNow(s: State, w: nat): State
    requires Enabled(s, Take(w)) && s.cons[s.workers[w].hand.task.con].owner == w
  {
    var taken := TakeSpec(s, w);
    if taken.workers[w].hand.Retrying? then taken.SetWorker(w, RequeueSpec(taken.workers[w])) else FillNow(taken, w)
  }

  /** The put and what follows it. */
  function FillNow(s: State, w: nat): State
    requires Enabled(s, Put(w))
  {
    var filled := PutSpec(s, w);
    if Throws(s, w) then filled else SubmitSpec(filled, w)
  }

  /** What they amount to, for a worker x that has taken up t. */
  function Sent(s: State, w: nat, x: Worker, t: Task, polled: bool): State
    requires w < |s.workers| && t.con < |s.cons|
  {
    var con := s.cons[t.con];
    if con.idle == [] then s.SetWorker(w, if polled then x.(queue := x.queue + [t]) else Enqueued(x, t))
    else
      var b := con.idle[0];
      var limit := PutLimit(Limit(con, b), t.size);
      var y := if polled then x.(handled := x.handled + [t]) else x;
      if limit.None? then
        s.SetWorker(w, y.(dead := polled)).SetCon(t.con, con.(idle := con.idle[1..], lost := con.lost + multiset{b}))
         .(lost := s.lost + multiset{t})
      else
        s.SetWorker(w, y)
         .SetCon(t.con, con.(idle := con.idle[1..], limits := con.limits[b := limit.value],
                             flight := con.flight + [Flight(b, t)]))
  }

  lemma RetryNow(s: State, w: nat)
    requires Enabled(s, Take(w)) && s.cons[s.workers[w].hand.task.con].owner == w
    requires s.cons[s.workers[w].hand.task.con].idle == []
    ensures var x := s.workers[w]; SendNow(s, w) == Sent(s, w, x.(hand := Empty), x.hand.task, x.hand.polled)
  {
  }

  /** A worker that has a send and an idle buffer for it. */
  predicate CanFill(s: State, w: nat) {
    Enabled(s, Take(w)) && !s.workers[w].dead &&
    s.cons[s.workers[w].hand.task.con].owner == w && s.cons[s.workers[w].hand.task.con].idle != []
  }

  lemma TakenBuffer(s: State, w: nat)
    requires CanFill(s, w)
    ensures Enabled(TakeSpec(s, w), Put(w))
    ensures var x, con := s.workers[w], s.cons[s.workers[w].hand.task.con];
            TakeSpec(s, w) == s.SetWorker(w, x.(hand := Holding(x.hand.task, x.hand.polled, con.idle[0])))
                               .SetCon(x.hand.task.con, con.(idle := con.idle[1..]))
    ensures var con := s.cons[s.workers[w].hand.task.con];
            Throws(TakeSpec(s, w), w) <==> PutLimit(Limit(con, con.idle[0]), s.workers[w].hand.task.size).None?
  {
  }

  lemma ThrowIsSent(s: State, w: nat)
    requires CanFill(s, w) && Enabled(TakeSpec(s, w), Put(w)) && Throws(TakeSpec(s, w), w)
    ensures var x := s.workers[w]; FillNow(TakeSpec(s, w), w) == Sent(s, w, x.(hand := Empty), x.hand.task, x.hand.polled)
  {
    TakenBuffer(s, w);
    var t, con := s.workers[w].hand.task, s.cons[s.workers[w].hand.task.con];
    assert FillNow(TakeSpec(s, w), w).cons == s.cons[t.con := con.(idle := con.idle[1..], lost := con.lost + multiset{con.idle[0]})];
  }

  lemma FitIsSent(s: State, w: nat)
    requires CanFill(s, w) && Enabled(TakeSpec(s, w), Put(w)) && !Throws(TakeSpec(s, w), w)
    ensures var x := s.workers[w]; FillNow(TakeSpec(s, w), w) == Sent(s, w, x.(hand := Empty), x.hand.task, x.hand.polled)
  {
    TakenBuffer(s, w);
    var x := s.workers[w];
    var sent := Sent(s, w, x.(hand := Empty), x.hand.task, x.hand.polled);
    assert FillNow(TakeSpec(s, w), w).cons == sent.cons;
  }

  lemma FillIsSent(s: State, w: nat)
    requires CanFill(s, w)
    ensures Enabled(TakeSpec(s, w), Put(w))
    ensures var x := s.workers[w]; FillNow(TakeSpec(s, w), w) == Sent(s, w, x.(hand := Empty), x.hand.task, x.hand.polled)
  {
    TakenBuffer(s, w);
    if Throws(TakeSpec(s, w), w) {
      ThrowIsSent(s, w);
    } else {
      FitIsSent(s, w);
    }
  }

  lemma SendNowIsSent(s: State, w: nat)
    requires Enabled(s, Take(w)) && s.cons[s.workers[w].hand.task.con].owner == w && !s.workers[w].dead
    ensures var x := s.workers[w]; SendNow(s, w) == Sent(s, w, x.(hand := Empty), x.hand.task, x.hand.polled)
  {
    if s.cons[s.workers[w].hand.task.con].idle == [] {
      RetryNow(s, w);
    } else {
      FillIsSent(s, w);
    }
  }

  /** What the worker was before does not matter. */
  lemma SentOverwrites(s: State, w: nat, y: Worker, x: Worker, t: Task, polled: bool)
    requires w < |s.workers| && t.con < |s.cons|
    ensures Sent(s.SetWorker(w, y), w, x, t, polled) == Sent(s, w, x, t, polled)
  {
    assert Sent(s.SetWorker(w, y), w, x, t, polled).workers == Sent(s, w, x, t, polled).workers;
  }

  lemma SendNowReach(s: State, w: nat)
    requires Reachable(s) && Enabled(s, Take(w)) && s.cons[s.workers[w].hand.task.con].owner == w
    ensures Reachable(SendNow(s, w))
  {
    ReachStep(s, Take(w));
    var taken := TakeSpec(s, w);
    if taken.workers[w].hand.Retrying? {
      ReachStep(taken, Requeue(w));
    } else {
      FillReach(taken, w);
    }
  }

  lemma FillReach(s: State, w: nat)
    requires Reachable(s) && Enabled(s, Put(w))
    ensures Reachable(FillNow(s, w))
  {
    ReachStep(s, Put(w));
    if !Throws(s, w) {
      ReachStep(PutSpec(s, w), Submit(w));
    }
  }

  // ---------- what the code does ----------

  /** A send on the owning thread. */
  function HereNow(s: State, t: Task): State
    requires Enabled(s, SendHere(t))
  {
    var w := s.cons[t.con].owner;
    Sent(s.(submitted := s.submitted + multiset{t}), w, s.workers[w], t, false)
  }

  lemma HereNowRun(s: State, t: Task)
    requires Reachable(s) && Enabled(s, SendHere(t))
    ensures Reachable(HereNow(s, t))
  {
    var w := s.cons[t.con].owner;
    var here := Apply(s, SendHere(t));
    ReachStep(s, SendHere(t));
    SendNowReach(here, w);
    SendNowIsSent(here, w);
    assert here.workers[w].(hand := Empty) == s.workers[w];
    SentOverwrites(s.(submitted := s.submitted + multiset{t}), w, here.workers[w], s.workers[w], t, false);
  }

  /** waitExternalEvent with a handler waiting. */
  function PollNow(s: State, w: nat): State
    requires Enabled(s, Poll(w)) && s.workers[w].queue[0].con < |s.cons|
  {
    var x := s.workers[w];
    Sent(s, w, x.(queue := x.queue[1..]), x.queue[0], true)
  }

  lemma PollNowRun(s: State, w: nat)
    requires Reachable(s) && Enabled(s, Poll(w))
    ensures s.workers[w].queue[0].con < |s.cons| && Reachable(PollNow(s, w))
  {
    var workerNum, steps :| Reaches(workerNum, steps, s);
    RunInv(Init(workerNum), steps);
    var x := s.workers[w];
    assert OwnOnly(s, w) && x.queue[0] in x.queue && s.IsCon(x.queue[0].con);
    var polled := Apply(s, Poll(w));
    ReachStep(s, Poll(w));
    SendNowReach(polled, w);
    SendNowIsSent(polled, w);
    SentOverwrites(s, w, polled.workers[w], x.(queue := x.queue[1..]), x.queue[0], true);
  }

  /** A send completion whose callback sends nothing. */
  function CompleteNow(s: State, c: nat, i: nat): State
    requires Enabled(s, Complete(c, i))
  {
    var con := s.cons[c];
    s.SetCon(c, con.(flight := con.flight[..i] + con.flight[i + 1..], idle := con.idle + [con.flight[i].buf]))
     .(done := s.done + multiset{con.flight[i].task})
  }

  lemma CompleteNowRun(s: State, c: nat, i: nat)
    requires Reachable(s) && Enabled(s, Complete(c, i))
    ensures Reachable(CompleteNow(s, c, i))
  {
    var w := s.cons[c].owner;
    ReachStep(s, Complete(c, i));
    var completed := Apply(s, Complete(c, i));
    ReachStep(completed, Recycle(w));
    assert Apply(completed, Recycle(w)).workers == s.workers;
    assert Apply(completed, Recycle(w)).cons == CompleteNow(s, c, i).cons;
  }

  // ---------- runs that show what can go wrong ----------

  /** One worker and one connection with one buffer. */
  function One(x: Worker, con: Con, submitted: multiset<Task>, done: multiset<Task>, lost: multiset<Task>): State {
    State([x], [con], submitted, done, lost)
  }

  lemma OneBuffer(limit: nat)
    ensures Reachable(One(NEW_WORKER, Con(0, [0], [], map[0 := limit], multiset{}), multiset{}, multiset{}, multiset{}))
  {
    ReachInit(1);
    var step := Connected(0, [0], map[0 := limit]);
    ReachStep(Init(1), step);
    assert Init(1).workers == [NEW_WORKER];
    assert Apply(Init(1), step).cons == [Con(0, [0], [], map[0 := limit], multiset{})];
  }

  lemma SendOne(s: State, x: Worker, con: Con, t: Task)
    requires Reachable(s) && s.workers == [x] && s.cons == [con] && con.owner == 0 && t.con == 0 && t !in s.submitted
    ensures Reachable(s.(workers := [Enqueued(x, t)], submitted := s.submitted + multiset{t}))
  {
    ReachStep(s, SendElsewhere(t));
    assert Apply(s, SendElsewhere(t)).workers == [Enqueued(x, t)];
  }

  /** The one worker takes up the handler at the head of its queue. */
  lemma PollOne(s: State, x: Worker, con: Con, t: Task, rest: seq<Task>)
    requires Reachable(s) && s.workers == [x] && s.cons == [con] && con.owner == 0 && t.con == 0
    requires x.queue == [t] + rest && x.hand.Empty? && x.recycling.None? && !x.dead
    ensures Reachable(Sent(s, 0, x.(queue := rest), t, true))
  {
    PollNowRun(s, 0);
    assert x.queue[1..] == rest;
  }

  lemma CompleteOne(s: State, x: Worker, con: Con, f: Flight)
    requires Reachable(s) && s.workers == [x] && s.cons == [con] && con.owner == 0 && con.flight == [f]
    requires x.hand.Empty? && x.recycling.None? && !x.dead
    ensures Reachable(s.(cons := [con.(flight := [], idle := con.idle + [f.buf])], done := s.done + multiset{f.task}))
  {
    CompleteNowRun(s, 0, 0);
    assert con.flight[..0] + con.flight[1..] == [];
    assert CompleteNow(s, 0, 0).cons == [con.(flight := [], idle := con.idle + [f.buf])];
  }

  lemma SmallPuts()
    ensures PutLimit(64, 4) == Some(14) && PutLimit(14, 4) == Some(14) && PutLimit(14, 20).None?
  {
  }

  /** A first payload of 4 bytes through the one buffer of 64, from handlers [a] + rest: it is in flight. */
  lemma FirstSend(s: State, x: Worker, con: Con, a: Task, rest: seq<Task>)
    requires Reachable(s) && s.workers == [x] && s.cons == [con] && a.con == 0 && a.size == 4
    requires con == Con(0, [0], [], map[0 := 64], multiset{})
    requires x.queue == [a] + rest && x.hand.Empty? && x.recycling.None? && !x.dead
    ensures Reachable(s.(workers := [x.(queue := rest, handled := x.handled + [a])],
                         cons := [Con(0, [], [Flight(0, a)], map[0 := 14], multiset{})]))
  {
    SmallPuts();
    PollOne(s, x, con, a, rest);
    var t := Sent(s, 0, x.(queue := rest), a, true);
    assert con.limits[0 := 14] == map[0 := 14] && con.idle[1..] == [] && con.flight + [Flight(0, a)] == [Flight(0, a)];
    assert t.workers == [x.(queue := rest, handled := x.handled + [a])];
    assert t.cons == [Con(0, [], [Flight(0, a)], map[0 := 14], multiset{})];
  }

  /** A buffer of 64 bytes: after a payload of 4 its limit is 14, and one of 20 bytes makes put throw; the
      second send and the only buffer are gone, and the CQ thread with them. */
  lemma LosingRun()
    ensures exists s :: Reachable(s) && Task(0, 1, 20) in s.lost && |s.cons| == 1 && s.cons[0].idle == [] && s.cons[0].flight == []
                     && |s.workers| == 1 && s.workers[0].dead
  {
    var a, b := Task(0, 0, 4), Task(0, 1, 20);
    var con := Con(0, [0], [], map[0 := 64], multiset{});
    OneBuffer(64);
    var s0 := One(NEW_WORKER, con, multiset{}, multiset{}, multiset{});
    SendOne(s0, NEW_WORKER, con, a);
    var x1 := Enqueued(NEW_WORKER, a);
    var s1 := s0.(workers := [x1], submitted := s0.submitted + multiset{a});
    FirstSend(s1, x1, con, a, []);
    var x2 := x1.(queue := [], handled := [] + [a]);
    var con2 := Con(0, [], [Flight(0, a)], map[0 := 14], multiset{});
    var s2 := s1.(workers := [x2], cons := [con2]);
    CompleteOne(s2, x2, con2, Flight(0, a));
    var con3 := con2.(flight := [], idle := [] + [0]);
    var s3 := s2.(cons := [con3], done := s2.done + multiset{a});
    SendOne(s3, x2, con3, b);
    var x4 := Enqueued(x2, b);
    var s4 := s3.(workers := [x4], submitted := s3.submitted + multiset{b});
    PollOne(s4, x4, con3, b, []);
    SmallPuts();
    var s5 := Sent(s4, 0, x4.(queue := []), b, true);
    assert s5.cons[0].idle == [] && s5.workers[0].dead && b in s5.lost;
  }

  /** Three handlers waiting for the one buffer. */
  lemma ThreeQueued(a: Task, b: Task, c: Task) returns (s: State)
    requires a.con == b.con == c.con == 0 && a != b && b != c && a != c
    ensures Reachable(s) && s.workers == [Worker([a, b, c], Empty, None, false, [a, b, c], [])]
    ensures s.cons == [Con(0, [0], [], map[0 := 64], multiset{})]
  {
    var con := Con(0, [0], [], map[0 := 64], multiset{});
    OneBuffer(64);
    s := One(NEW_WORKER, con, multiset{}, multiset{}, multiset{});
    SendOne(s, NEW_WORKER, con, a);
    var x1 := Worker([a], Empty, None, false, [a], []);
    assert Enqueued(NEW_WORKER, a) == x1;
    s := s.(workers := [x1], submitted := s.submitted + multiset{a});
    SendOne(s, x1, con, b);
    var x2 := Worker([a, b], Empty, None, false, [a, b], []);
    assert Enqueued(x1, b) == x2;
    s := s.(workers := [x2], submitted := s.submitted + multiset{b});
    SendOne(s, x2, con, c);
    assert Enqueued(x2, c) == Worker([a, b, c], Empty, None, false, [a, b, c], []);
    s := s.(workers := [Enqueued(x2, c)], submitted := s.submitted + multiset{c});
  }

  /** Three sends on one buffer: the second, put back while the first is in flight, is overtaken by the
      third, which has left the queue in its place. */
  lemma OvertakingRun()
    ensures exists s :: Reachable(s) && |s.workers| == 1 &&
              s.workers[0].arrived == [Task(0, 0, 4), Task(0, 1, 4), Task(0, 2, 4)] &&
              s.workers[0].handled == [Task(0, 0, 4), Task(0, 2, 4)]
  {
    var a, b, c := Task(0, 0, 4), Task(0, 1, 4), Task(0, 2, 4);
    var s := ThreeQueued(a, b, c);
    FirstSend(s, s.workers[0], s.cons[0], a, [b, c]);
    var x := Worker([b, c], Empty, None, false, [a, b, c], [a]);
    assert s.workers[0].(queue := [b, c], handled := [] + [a]) == x;
    Overtaken(s.(workers := [x], cons := [Con(0, [], [Flight(0, a)], map[0 := 14], multiset{})]), a, b, c);
  }

  lemma Overtaken(s: State, a: Task, b: Task, c: Task)
    requires Reachable(s) && s.workers == [Worker([b, c], Empty, None, false, [a, b, c], [a])]
    requires s.cons == [Con(0, [], [Flight(0, a)], map[0 := 14], multiset{})]
    requires b.con == c.con == 0 && c.size == 4
    ensures exists t :: Reachable(t) && |t.workers| == 1 && t.workers[0].arrived == [a, b, c] && t.workers[0].handled == [a, c]
  {
    var x, con := s.workers[0], s.cons[0];
    PollOne(s, x, con, b, [c]);
    var s1 := Sent(s, 0, x.(queue := [c]), b, true);
    var x1 := x.(queue := [c] + [b]);
    assert s1.workers == [x1];
    CompleteOne(s1, x1, con, Flight(0, a));
    var con2 := con.(flight := [], idle := [] + [0]);
    var s2 := s1.(cons := [con2], done := s1.done + multiset{a});
    PollOne(s2, x1, con2, c, [b]);
    SmallPuts();
    assert Sent(s2, 0, x1.(queue := [b]), c, true).workers == [x1.(queue := [b], handled := [a] + [c])];
  }
}
