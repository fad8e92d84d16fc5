/** Which payload sizes the send path can carry without ever losing a send. */
module SendPathSizes {
  import opened Common
  import opened SendPath
  import opened SendPathProofs

  // ---------- sizes that keep their room ----------

  /** Connections start with limits of at least `room`, and only payloads of the given sizes are sent. */
  predicate Within(step: Step, sizes: set<nat>, room: nat) {
    match step
    case Connected(_, _, limits) => forall b <- limits :: room <= limits[b] < 0x8000_0000
    case SendElsewhere(t) => t.size in sizes
    case SendHere(t) => t.size in sizes
    case _ => true
  }

  /** A buffer with at least that much room keeps it, whichever of the sizes is put into it. */
  ghost predicate Keeps(sizes: set<nat>, room: nat) {
    forall m, limit | m in sizes && room <= limit < 0x8000_0000 ::
      PutLimit(limit, m).Some? && room <= PutLimit(limit, m).value < 0x8000_0000
  }

  ghost predicate Roomy(s: State, sizes: set<nat>, room: nat) {
    && (forall c, b | 0 <= c < |s.cons| && b in s.cons[c].limits :: room <= s.cons[c].limits[b] < 0x8000_0000)
    && (forall w | 0 <= w < |s.workers| :: RoomyWorker(s.workers[w], sizes))
  }

  predicate RoomyWorker(x: Worker, sizes: set<nat>) {
    (forall t <- x.queue :: t.size in sizes) && (!x.hand.Empty? ==> x.hand.task.size in sizes)
  }

  /** The put this worker is about to make writes the whole frame. */
  predicate Frames(s: State, w: nat)
    requires Enabled(s, Put(w))
  {
    var hand := s.workers[w].hand;
    PutLimit(Limit(s.cons[hand.task.con], hand.buf), hand.task.size) == Some(10 + hand.task.size)
  }

  /** The room is enough for any of the payloads and its header. */
  predicate Ample(sizes: set<nat>, room: nat) {
    room < 0x8000_0000 && forall m <- sizes :: m + 10 <= room
  }

  lemma HeldIsKnown(s: State, w: nat)
    requires Inv(s) && w < |s.workers| && s.workers[w].hand.Holding?
    ensures s.IsCon(s.workers[w].hand.task.con)
    ensures s.workers[w].hand.buf in s.cons[s.workers[w].hand.task.con].limits
  {
    assert OwnOnly(s, w);
    assert BufferAccounted(s, s.workers[w].hand.task.con, s.workers[w].hand.buf);
  }

  lemma RoomyPut(s: State, w: nat, sizes: set<nat>, room: nat)
    requires Enabled(s, Put(w)) && Roomy(s, sizes, room) && Keeps(sizes, room)
    requires s.workers[w].hand.buf in s.cons[s.workers[w].hand.task.con].limits
    ensures !Throws(s, w) && Roomy(PutSpec(s, w), sizes, room)
    ensures Ample(sizes, room) ==> Frames(s, w)
  {
    assert RoomyWorker(s.workers[w], sizes);
  }

  lemma RoomyArrival(s: State, step: Step, sizes: set<nat>, room: nat)
    requires Enabled(s, step) && Roomy(s, sizes, room) && Within(step, sizes, room) && Arrival(step)
    ensures Roomy(Apply(s, step), sizes, room)
  {
  }

  lemma RoomyExecution(s: State, step: Step, sizes: set<nat>, room: nat)
    requires Enabled(s, step) && Roomy(s, sizes, room) && Execution(step)
    ensures Roomy(Apply(s, step), sizes, room)
  {
  }

  lemma RoomyTake(s: State, w: nat, sizes: set<nat>, room: nat)
    requires Enabled(s, Take(w)) && Roomy(s, sizes, room)
    ensures Roomy(TakeSpec(s, w), sizes, room)
  {
  }

  lemma RoomyCompletion(s: State, step: Step, sizes: set<nat>, room: nat)
    requires Enabled(s, step) && Roomy(s, sizes, room) && Completion(step)
    ensures Roomy(Apply(s, step), sizes, room)
  {
  }

  lemma RoomyStep(s: State, step: Step, sizes: set<nat>, room: nat)
    requires Inv(s) && Enabled(s, step) && Roomy(s, sizes, room) && Within(step, sizes, room) && Keeps(sizes, room)
    ensures Roomy(Apply(s, step), sizes, room)
    ensures step.Put? ==> !Throws(s, step.w) && (Ample(sizes, room) ==> Frames(s, step.w))
  {
    if step.Put? {
      HeldIsKnown(s, step.w);
      RoomyPut(s, step.w, sizes, room);
    } else if Arrival(step) {
      RoomyArrival(s, step, sizes, room);
    } else if Execution(step) {
      RoomyExecution(s, step, sizes, room);
    } else if step.Take? {
      RoomyTake(s, step.w, sizes, room);
    } else {
      RoomyCompletion(s, step, sizes, room);
    }
  }

  /** Every put of the run writes its whole frame. */
  ghost predicate PutsFrame(s: State, steps: seq<Step>)
    requires IsRun(s, steps)
    decreases |steps|
  {
    steps == [] ||
    ((steps[0].Put? ==> Frames(s, steps[0].w)) && PutsFrame(Apply(s, steps[0]), steps[1..]))
  }

  lemma {:induction false} RoomyRun(s: State, steps: seq<Step>, sizes: set<nat>, room: nat)
    requires Inv(s) && IsRun(s, steps) && Roomy(s, sizes, room) && Keeps(sizes, room)
    requires forall step <- steps :: Within(step, sizes, room)
    ensures PutsFit(s, steps) && (Ample(sizes, room) ==> PutsFrame(s, steps))
    decreases |steps|
  {
    if steps != [] {
      RoomyStep(s, steps[0], sizes, room);
      InvStep(s, steps[0]);
      RoomyRun(Apply(s, steps[0]), steps[1..], sizes, room);
    }
  }

  /** Sends that all have one size n never make a put throw if the buffers start with room for n bytes,
      and are always framed if they start with room for the header too, however often buffers are reused. */
  lemma EqualSizesFit(workerNum: nat, steps: seq<Step>, n: nat, room: nat)
    requires IsRun(Init(workerNum), steps) && n + 10 < 0x8000_0000 && (room == n || room == n + 10)
    requires forall step <- steps :: Within(step, {n}, room)
    ensures PutsFit(Init(workerNum), steps) && (room == n + 10 ==> PutsFrame(Init(workerNum), steps))
  {
    RoomyRun(Init(workerNum), steps, {n}, room);
  }

  // ---------- exactly which sizes ----------

  /** No run that sends these sizes through buffers of that room loses anything. */
  ghost predicate AlwaysFit(sizes: set<nat>, room: nat) {
    forall workerNum, steps :: !Loses(workerNum, steps, sizes, room)
  }

  ghost predicate Loses(workerNum: nat, steps: seq<Step>, sizes: set<nat>, room: nat) {
    IsRun(Init(workerNum), steps) && (forall step <- steps :: Within(step, sizes, room)) && !PutsFit(Init(workerNum), steps)
  }

  /** Any two of the sizes differ by just the header. */
  predicate HeaderApart(sizes: set<nat>) {
    forall n <- sizes, m <- sizes :: n < m ==> m == n + 10
  }

  lemma ApartKeeps(sizes: set<nat>, room: nat, top: nat)
    requires HeaderApart(sizes) && Ample(sizes, room) && top in sizes && forall m <- sizes :: m <= top
    ensures Keeps(sizes, top)
  {
  }

  lemma {:induction false} Largest(sizes: set<nat>) returns (top: nat)
    requires sizes != {}
    ensures top in sizes && forall m <- sizes :: m <= top
  {
    var x :| x in sizes;
    if sizes == {x} {
      top := x;
    } else {
      var rest := sizes - {x};
      assert sizes == rest + {x};
      var y := Largest(rest);
      top := if x <= y then y else x;
    }
  }

  /** Led to by a run that sends only these sizes through buffers of that room. */
  ghost predicate LedBy(workerNum: nat, steps: seq<Step>, s: State, sizes: set<nat>, room: nat) {
    IsRun(Init(workerNum), steps) && After(Init(workerNum), steps) == s && forall step <- steps :: Within(step, sizes, room)
  }

  ghost predicate Led(s: State, sizes: set<nat>, room: nat) {
    exists workerNum, steps :: LedBy(workerNum, steps, s, sizes, room)
  }

  lemma {:induction false} RunSnoc(s: State, steps: seq<Step>, step: Step)
    requires IsRun(s, steps) && Enabled(After(s, steps), step)
    ensures IsRun(s, steps + [step]) && After(s, steps + [step]) == Apply(After(s, steps), step)
    decreases |steps|
  {
    if steps == [] {
      assert IsRun(Apply(s, step), []);
      assert [step][1..] == [];
    } else {
      RunSnoc(Apply(s, steps[0]), steps[1..], step);
      assert (steps + [step])[1..] == steps[1..] + [step];
    }
  }

  lemma LedStep(s: State, step: Step, sizes: set<nat>, room: nat)
    requires Led(s, sizes, room) && Enabled(s, step) && Within(step, sizes, room)
    ensures Led(Apply(s, step), sizes, room)
  {
    var workerNum, steps :| LedBy(workerNum, steps, s, sizes, room);
    RunSnoc(Init(workerNum), steps, step);
    assert LedBy(workerNum, steps + [step], Apply(s, step), sizes, room);
  }

  lemma LostIsLost(s: State, sizes: set<nat>, room: nat)
    requires Led(s, sizes, room) && s.lost != multiset{}
    ensures !AlwaysFit(sizes, room)
  {
    var workerNum, steps :| LedBy(workerNum, steps, s, sizes, room);
    LostRun(Init(workerNum), steps);
    assert Loses(workerNum, steps, sizes, room);
  }

  /** One idle worker, one connection with one idle buffer of that limit, and ids from `id` on unused. */
  predicate Ready(s: State, limit: nat, id: nat) {
    && |s.workers| == 1 && s.workers[0].queue == [] && s.workers[0].hand.Empty?
    && s.workers[0].recycling.None? && !s.workers[0].dead
    && s.cons == [Con(0, [0], [], map[0 := limit], multiset{})]
    && forall t <- s.submitted :: t.id < id
  }

  lemma StartReady(sizes: set<nat>, room: nat) returns (s: State)
    requires room < 0x8000_0000
    ensures Led(s, sizes, room) && Ready(s, room, 0)
  {
    assert LedBy(1, [], Init(1), sizes, room);
    var step := Connected(0, [0], map[0 := room]);
    LedStep(Init(1), step, sizes, room);
    s := Apply(Init(1), step);
    assert s.cons == [Con(0, [0], [], map[0 := room], multiset{})];
  }

  /** A send of that size taken up with the buffer, about to be put. */
  predicate AboutToPut(s: State, limit: nat, t: Task) {
    && |s.workers| == 1 && s.workers[0].queue == [] && s.workers[0].hand == Holding(t, true, 0)
    && s.workers[0].recycling.None? && !s.workers[0].dead
    && s.cons == [Con(0, [], [], map[0 := limit], multiset{})] && t.con == 0
    && forall u <- s.submitted :: u.id <= t.id
  }

  lemma TakeUp(s: State, limit: nat, id: nat, size: nat, sizes: set<nat>, room: nat) returns (r: State)
    requires Led(s, sizes, room) && Ready(s, limit, id) && size in sizes
    ensures Led(r, sizes, room) && AboutToPut(r, limit, Task(0, id, size))
  {
    var t := Task(0, id, size);
    LedStep(s, SendElsewhere(t), sizes, room);
    var s1 := Apply(s, SendElsewhere(t));
    assert s1.workers[0].queue == [t];
    LedStep(s1, Poll(0), sizes, room);
    var s2 := Apply(s1, Poll(0));
    assert s2.workers[0].queue == [] && s2.workers[0].hand == Running(t, true);
    r := TakeBuffer(s2, limit, t, sizes, room);
  }

  lemma TakeBuffer(s: State, limit: nat, t: Task, sizes: set<nat>, room: nat) returns (r: State)
    requires Led(s, sizes, room) && |s.workers| == 1 && s.workers[0].queue == [] && s.workers[0].hand == Running(t, true)
    requires s.workers[0].recycling.None? && !s.workers[0].dead && t.con == 0
    requires s.cons == [Con(0, [0], [], map[0 := limit], multiset{})] && forall u <- s.submitted :: u.id <= t.id
    ensures Led(r, sizes, room) && AboutToPut(r, limit, t)
  {
    LedStep(s, Take(0), sizes, room);
    r := TakeSpec(s, 0);
    assert s.cons[0].idle[1..] == [];
    assert r.cons == [Con(0, [], [], map[0 := limit], multiset{})];
  }

  /** If it fits, it is sent, completed, and the buffer ready again with its new limit. */
  lemma Cycle(s: State, limit: nat, t: Task, sizes: set<nat>, room: nat) returns (r: State)
    requires Led(s, sizes, room) && AboutToPut(s, limit, t) && PutLimit(limit, t.size).Some?
    ensures Led(r, sizes, room) && Ready(r, PutLimit(limit, t.size).value, t.id + 1)
  {
    var l := PutLimit(limit, t.size).value;
    LedStep(s, Put(0), sizes, room);
    var s1 := PutSpec(s, 0);
    assert map[0 := limit][0 := l] == map[0 := l];
    assert s1.cons == [Con(0, [], [], map[0 := l], multiset{})];
    r := Hand(s1, l, t, sizes, room);
  }

  lemma Hand(s: State, l: nat, t: Task, sizes: set<nat>, room: nat) returns (r: State)
    requires Led(s, sizes, room) && |s.workers| == 1 && s.workers[0].queue == []
    requires s.workers[0].hand == Filled(t, true, 0) && s.workers[0].recycling.None? && !s.workers[0].dead && t.con == 0
    requires s.cons == [Con(0, [], [], map[0 := l], multiset{})] && forall u <- s.submitted :: u.id <= t.id
    ensures Led(r, sizes, room) && Ready(r, l, t.id + 1)
  {
    LedStep(s, Submit(0), sizes, room);
    var s1 := SubmitSpec(s, 0);
    assert [] + [Flight(0, t)] == [Flight(0, t)];
    assert s1.cons == [Con(0, [], [Flight(0, t)], map[0 := l], multiset{})];
    r := Return(s1, l, t, sizes, room);
  }

  lemma Return(s: State, l: nat, t: Task, sizes: set<nat>, room: nat) returns (r: State)
    requires Led(s, sizes, room) && |s.workers| == 1 && s.workers[0].queue == [] && s.workers[0].hand.Empty?
    requires s.workers[0].recycling.None? && !s.workers[0].dead
    requires s.cons == [Con(0, [], [Flight(0, t)], map[0 := l], multiset{})] && forall u <- s.submitted :: u.id <= t.id
    ensures Led(r, sizes, room) && Ready(r, l, t.id + 1)
  {
    LedStep(s, Complete(0, 0), sizes, room);
    var s1 := Apply(s, Complete(0, 0));
    assert s.cons[0].flight[..0] + s.cons[0].flight[1..] == [];
    assert s1.cons == [Con(0, [], [], map[0 := l], multiset{})];
    LedStep(s1, Recycle(0), sizes, room);
    r := Apply(s1, Recycle(0));
    assert [] + [0 as BufId] == [0];
    assert r.cons == [Con(0, [0], [], map[0 := l], multiset{})];
  }

  /** If it does not fit, it is lost. */
  lemma ThrowLoses(s: State, limit: nat, t: Task, sizes: set<nat>, room: nat)
    requires Led(s, sizes, room) && AboutToPut(s, limit, t) && PutLimit(limit, t.size).None?
    ensures !AlwaysFit(sizes, room)
  {
    LedStep(s, Put(0), sizes, room);
    assert t in PutSpec(s, 0).lost;
    LostIsLost(PutSpec(s, 0), sizes, room);
  }

  /** Two sizes that differ by more than the header lose the second send; by less, the fourth. */
  lemma TwoSizesLose(sizes: set<nat>, room: nat, n: nat, m: nat)
    requires Ample(sizes, room) && n in sizes && m in sizes && n < m && m != n + 10
    ensures !AlwaysFit(sizes, room)
  {
    var s := StartReady(sizes, room);
    var t := TakeUp(s, room, 0, n, sizes, room);
    s := Cycle(t, room, Task(0, 0, n), sizes, room);
    t := TakeUp(s, n + 10, 1, m, sizes, room);
    if m > n + 10 {
      ThrowLoses(t, n + 10, Task(0, 1, m), sizes, room);
    } else {
      s := Cycle(t, n + 10, Task(0, 1, m), sizes, room);
      FourthLost(s, sizes, room, n, m);
    }
  }

  /** The buffer has been left without room for the header of either size. */
  lemma FourthLost(s: State, sizes: set<nat>, room: nat, n: nat, m: nat)
    requires n in sizes && m in sizes && n < m < n + 10 < 0x8000_0000 && Led(s, sizes, room) && Ready(s, m, 2)
    ensures !AlwaysFit(sizes, room)
  {
    var t := TakeUp(s, m, 2, n, sizes, room);
    var s1 := Cycle(t, m, Task(0, 2, n), sizes, room);
    t := TakeUp(s1, n, 3, m, sizes, room);
    ThrowLoses(t, n, Task(0, 3, m), sizes, room);
  }

  /**
   * With buffers that have room for every frame to begin with, no run ever loses a send exactly when any
   * two payload sizes differ by just the ten bytes of the header: one size, or two of that kind.
   */
  lemma SizesExactly(sizes: set<nat>, room: nat)
    requires Ample(sizes, room)
    ensures AlwaysFit(sizes, room) <==> HeaderApart(sizes)
  {
    if !HeaderApart(sizes) {
      var n, m :| n in sizes && m in sizes && n < m && m != n + 10;
      TwoSizesLose(sizes, room, n, m);
    } else {
      forall workerNum, steps ensures !Loses(workerNum, steps, sizes, room) {
        if IsRun(Init(workerNum), steps) && forall step <- steps :: Within(step, sizes, room) {
          ApartFits(workerNum, steps, sizes, room);
        }
      }
    }
  }

  lemma ApartFits(workerNum: nat, steps: seq<Step>, sizes: set<nat>, room: nat)
    requires Ample(sizes, room) && HeaderApart(sizes)
    requires IsRun(Init(workerNum), steps) && forall step <- steps :: Within(step, sizes, room)
    ensures PutsFit(Init(workerNum), steps)
  {
    var top := room;
    if sizes != {} {
      top := Largest(sizes);
      ApartKeeps(sizes, room, top);
    }
    forall step <- steps ensures Within(step, sizes, top) {
      assert Within(step, sizes, room);
    }
    RoomyRun(Init(workerNum), steps, sizes, top);
  }
}
