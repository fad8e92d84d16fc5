/** Connection.send, the handler queues of CqService and the send completion, as one thread runs them. */
module SendPathCode {
  import opened Common
  import opened SendPath
  import opened SendPathRuns

  class CqService {
    const threads: nat
    /** Per worker: handlers waiting; and the history the specification keeps. */
    var externalHandlers: seq<seq<Task>>
    var cons: seq<Con>
    ghost var dead: seq<bool>
    ghost var arrived: seq<seq<Task>>
    ghost var handled: seq<seq<Task>>
    ghost var submitted: multiset<Task>
    ghost var done: multiset<Task>
    ghost var lost: multiset<Task>

    ghost predicate Valid()
      reads this
    {
      |externalHandlers| == threads && |arrived| == threads && |handled| == threads && |dead| == threads
    }

    ghost function Worker(w: nat): SendPath.Worker
      requires Valid() && w < threads
      reads this
    {
      SendPath.Worker(externalHandlers[w], Empty, None, dead[w], arrived[w], handled[w])
    }

    ghost function Value(): State
      requires Valid()
      reads this
    {
      State(seq(threads, w requires 0 <= w < threads reads this requires Valid() => Worker(w)),
            cons, submitted, done, lost)
    }

    /** start. */
    constructor (workerNum: nat)
      ensures Valid() && Value() == Init(workerNum)
    {
      threads := workerNum;
      externalHandlers, cons := seq(workerNum, _ => []), [];
      arrived, handled, dead := seq(workerNum, _ => []), seq(workerNum, _ => []), seq(workerNum, _ => false);
      submitted, done, lost := multiset{}, multiset{}, multiset{};
    }

    method AddExternalEvent(index: nat, t: Task)
      requires Valid() && index < threads
      modifies this`externalHandlers, this`arrived
      ensures Valid()
      ensures Value() == old(Value()).SetWorker(index, Enqueued(old(Value()).workers[index], t))
    {
      externalHandlers := externalHandlers[index := externalHandlers[index] + [t]];
      arrived := arrived[index := arrived[index] + [t]];
    }

    /** Takes the first idle buffer, puts the payload into it and hands it to the fabric; false when put
        throws, which leaves the buffer nowhere. */
    method NativeSend(t: Task) returns (ok: bool)
      requires t.con < |cons| && cons[t.con].idle != []
      modifies this`cons, this`lost
      ensures var con := old(cons)[t.con];
              var b, limit := con.idle[0], PutLimit(Limit(con, con.idle[0]), t.size);
              && (ok <==> limit.Some?)
              && lost == (if ok then old(lost) else old(lost) + multiset{t})
              && cons == old(cons)[t.con :=
                   if ok then con.(idle := con.idle[1..], limits := con.limits[b := limit.value],
                                   flight := con.flight + [Flight(b, t)])
                   else con.(idle := con.idle[1..], lost := con.lost + multiset{b})]
    {
      var con := cons[t.con];
      var b := con.idle[0];
      con := con.(idle := con.idle[1..]);
      var limit := PutLimit(Limit(con, b), t.size);
      if limit.None? {
        cons := cons[t.con := con.(lost := con.lost + multiset{b})];
        lost := lost + multiset{t};
        return false;
      }
      cons := cons[t.con := con.(limits := con.limits[b := limit.value], flight := con.flight + [Flight(b, t)])];
      ok := true;
    }

    /** send by the application; `thread` is None off the CQ threads; false for an exception. */
    method Send(thread: Option<nat>, t: Task) returns (ok: bool)
      requires Valid() && Value().IsCon(t.con) && t !in submitted
      requires thread == Some(cons[t.con].owner) ==> !dead[cons[t.con].owner]
      modifies this
      ensures Valid()
      ensures var s := old(Value());
              Value() == if thread != Some(s.cons[t.con].owner) then Apply(s, SendElsewhere(t)) else HereNow(s, t)
      ensures thread != Some(old(cons)[t.con].owner) ==> ok
      ensures thread == Some(old(cons)[t.con].owner) ==> (ok <==> lost == old(lost))
    {
      var owner := cons[t.con].owner;
      if thread != Some(owner) {
        submitted := submitted + multiset{t};
        AddExternalEvent(owner, t);
        ok := true;
      } else {
        ok := SendByOwner(t);
      }
    }

    method SendByOwner(t: Task) returns (ok: bool)
      requires Valid() && Value().IsCon(t.con) && t !in submitted && !dead[cons[t.con].owner]
      modifies this
      ensures Valid() && Value() == HereNow(old(Value()), t)
      ensures ok <==> lost == old(lost)
    {
      ghost var s := Value();
      submitted := submitted + multiset{t};
      ok := true;
      if cons[t.con].idle == [] {
        AddExternalEvent(cons[t.con].owner, t);
      } else {
        assert (lost + multiset{t})[t] == lost[t] + 1;
        ok := NativeSend(t);
      }
      assert Value().workers == HereNow(s, t).workers;
    }

    /** Runs one waiting handler, if there is one; false for an exception, which ends the thread. */
    method WaitExternalEvent(index: nat) returns (ok: bool)
      requires Valid() && index < threads && !dead[index]
      requires forall t <- externalHandlers[index] :: t.con < |cons|
      modifies this
      ensures Valid()
      ensures Value() == if old(externalHandlers)[index] == [] then old(Value()) else PollNow(old(Value()), index)
      ensures ok <==> !dead[index]
    {
      if externalHandlers[index] == [] {
        return true;
      }
      var t := externalHandlers[index][0];
      if cons[t.con].idle == [] {
        PutBack(index, t);
        ok := true;
      } else {
        ok := SendPolled(index, t);
      }
    }

    /** The handler at the head of the queue goes to its tail. */
    method PutBack(index: nat, t: Task)
      requires Valid() && index < threads && !dead[index] && t.con < |cons| && cons[t.con].idle == []
      requires externalHandlers[index] != [] && externalHandlers[index][0] == t
      modifies this`externalHandlers
      ensures Valid() && Value() == PollNow(old(Value()), index)
    {
      ghost var s := Value();
      externalHandlers := externalHandlers[index := externalHandlers[index][1..] + [t]];
      assert Value().workers == PollNow(s, index).workers;
    }

    /** The handler at the head of the queue is executed with a buffer. */
    method SendPolled(index: nat, t: Task) returns (ok: bool)
      requires Valid() && index < threads && !dead[index] && t.con < |cons| && cons[t.con].idle != []
      requires externalHandlers[index] != [] && externalHandlers[index][0] == t
      modifies this
      ensures Valid() && Value() == PollNow(old(Value()), index)
      ensures ok <==> !dead[index]
    {
      ghost var s := Value();
      ghost var x := s.workers[index].(queue := externalHandlers[index][1..]);
      externalHandlers := externalHandlers[index := externalHandlers[index][1..]];
      ok := NativeSend(t);
      handled := handled[index := handled[index] + [t]];
      dead := dead[index := !ok];
      assert Value().workers == s.workers[index := x.(handled := x.handled + [t], dead := !ok)];
      assert Value().cons == PollNow(s, index).cons;
    }

    /** A send completion whose callback sends nothing: the buffer goes back to the idle ones. */
    method HandleSendEvent(c: nat, i: nat)
      requires Valid() && Enabled(Value(), Complete(c, i))
      modifies this`cons, this`done
      ensures Valid() && Value() == CompleteNow(old(Value()), c, i)
    {
      ghost var s := Value();
      var con := cons[c];
      var f := con.flight[i];
      cons := cons[c := con.(flight := con.flight[..i] + con.flight[i + 1..], idle := con.idle + [f.buf])];
      done := done + multiset{f.task};
      assert Value().workers == s.workers;
    }
  }
}
