/**
 The receive window of the native connections over one ChunkPool: MsgConnection::init posts
 `bufferNum` chunks, a receive completion takes one out, the receive callback sends it back
 (or keeps it), activate_recv_chunk posts another, and the send callback reclaims what was sent.
 Fabric calls succeed.
 */
module ReceiveWindow {
  import opened ChunkMgr
  import opened ChunkMgrProofs

  /** What malloc and boost would choose if the pool had to grow. */
  datatype Choice = Choice(memory: nat, n: nat)

  /** Where the chunks handed out by the pool are: posted by a connection (`posted[c]` for the
      c-th), held by the application, or in the fabric's send queue.  A connection in `busy` has
      its worker between a receive completion and the repost. */
  datatype Places = Places(posted: seq<set<nat>>, busy: set<nat>, held: set<nat>, inFlight: set<nat>)

  datatype Window = Window(pool: Pool, at: Places)

  const START := Window(EMPTY, Places([], {}, {}, {}))

  // ---------- MsgConnection ----------

  predicate Usable(choices: seq<Choice>) {
    forall i :: 0 <= i < |choices| ==> 0 < choices[i].n
  }

  /** One get per choice; the pool after them and the chunks in the order they were obtained. */
  function GetMany(g: Geometry, p: Pool, choices: seq<Choice>): (Pool, seq<nat>)
    requires 0 < g.stride && Usable(choices)
  {
    if choices == [] then (p, []) else
      var (q, cks) := GetMany(g, p, choices[..|choices| - 1]);
      var c := choices[|choices| - 1];
      var (r, ck, _) := GetSpec(g, q, c.memory, c.n);
      (r, cks + [ck])
  }

  class MsgConnection {
    const pool: ChunkPool
    const bufferNum: nat
    var posted: seq<nat>

    constructor (pool: ChunkPool, bufferNum: nat)
      ensures this.pool == pool && this.bufferNum == bufferNum && posted == []
    {
      this.pool, this.bufferNum := pool, bufferNum;
      posted := [];
    }

    /** The posting loop of MsgConnection::init (native binding). */
    method Init(choices: seq<Choice>)
      requires pool.g.Valid() && pool.ctx.stride == pool.g.stride
      requires |choices| == bufferNum && Usable(choices) && posted == []
      modifies this, pool, pool.ctx, pool.allocator
      ensures (pool.Value(), posted) == GetMany(pool.g, old(pool.Value()), choices)
    {
      var size := 0;
      while size < bufferNum
        invariant 0 <= size <= bufferNum
        invariant (pool.Value(), posted) == GetMany(pool.g, old(pool.Value()), choices[..size])
      {
        assert choices[..size + 1][..size] == choices[..size];
        var ck, id := pool.Get(choices[size].memory, choices[size].n);
        posted := posted + [ck];
        size := size + 1;
      }
      assert choices[..bufferNum] == choices;
    }

    /** activate_recv_chunk(nullptr). */
    method ActivateRecvChunk(c: Choice)
      requires pool.g.Valid() && pool.ctx.stride == pool.g.stride && 0 < c.n
      modifies this, pool, pool.ctx, pool.allocator
      ensures var (q, ck, _) := GetSpec(pool.g, old(pool.Value()), c.memory, c.n);
              pool.Value() == q && posted == old(posted) + [ck]
    {
      var ck, id := pool.Get(c.memory, c.n);
      posted := posted + [ck];
    }
  }

  function Elements(s: seq<nat>): set<nat> {
    set x | x in s
  }

  // ---------- the steps of a run ----------

  datatype Step =
    | Establish(choices: seq<Choice>)
    | RecvAndSend(c: nat, ck: nat)
    | RecvAndKeep(c: nat, ck: nat)
    | Repost(c: nat, choice: Choice)
    | SendDone(ck: nat)
    | AppGet(choice: Choice)
    | AppSend(ck: nat)

  /** malloc's contract along a sequence of gets. */
  ghost predicate FreshChoices(g: Geometry, p: Pool, choices: seq<Choice>)
    requires 0 < g.stride && Usable(choices)
  {
    choices == [] ||
    (var init, c := choices[..|choices| - 1], choices[|choices| - 1];
     FreshChoices(g, p, init) && CanDo(g, GetMany(g, p, init).0, OpGet(c.memory, c.n)))
  }

  ghost predicate Enabled(g: Geometry, bufferNum: nat, s: Window, step: Step)
    requires 0 < g.stride
  {
    match step
    case Establish(choices) => |choices| == bufferNum && Usable(choices) && FreshChoices(g, s.pool, choices)
    case RecvAndSend(c, ck) => c < |s.at.posted| && c !in s.at.busy && ck in s.at.posted[c]
    case RecvAndKeep(c, ck) => c < |s.at.posted| && c !in s.at.busy && ck in s.at.posted[c]
    case Repost(c, ch) => c in s.at.busy && c < |s.at.posted| && CanDo(g, s.pool, OpGet(ch.memory, ch.n))
    case SendDone(ck) => ck in s.at.inFlight && 0 < s.pool.used
    case AppGet(ch) => CanDo(g, s.pool, OpGet(ch.memory, ch.n))
    case AppSend(ck) => ck in s.at.held
  }

  /** The callbacks look their chunk up by the buffer id they are given. */
  function ById(p: Pool, ck: nat): nat {
    var id := if ck in p.ctx.chunkToId then p.ctx.chunkToId[ck] else 0;
    if id in p.ctx.idToChunk then p.ctx.idToChunk[id] else 0
  }

  /** A receive completion: chunk `ck` leaves connection `c`'s window, and the callback finds
      `found` and sends it or keeps it. */
  function Received(at: Places, c: nat, ck: nat, found: nat, sent: bool): Places
    requires c < |at.posted|
  {
    at.(posted := at.posted[c := at.posted[c] - {ck}], busy := at.busy + {c},
        inFlight := if sent then at.inFlight + {found} else at.inFlight,
        held := if sent then at.held else at.held + {found})
  }

  function Reposted(at: Places, c: nat, ck: nat): Places
    requires c < |at.posted|
  {
    at.(posted := at.posted[c := at.posted[c] + {ck}], busy := at.busy - {c})
  }

  ghost function Apply(g: Geometry, bufferNum: nat, s: Window, step: Step): Window
    requires 0 < g.stride && Enabled(g, bufferNum, s, step)
  {
    match step
    case Establish(choices) =>
      var (p, cks) := GetMany(g, s.pool, choices);
      Window(p, s.at.(posted := s.at.posted + [Elements(cks)]))
    case RecvAndSend(c, ck) => s.(at := Received(s.at, c, ck, ById(s.pool, ck), true))
    case RecvAndKeep(c, ck) => s.(at := Received(s.at, c, ck, ById(s.pool, ck), false))
    case Repost(c, ch) =>
      var (p, ck, _) := GetSpec(g, s.pool, ch.memory, ch.n);
      Window(p, Reposted(s.at, c, ck))
    case SendDone(ck) =>
      Window(ReclaimSpec(s.pool, ById(s.pool, ck)), s.at.(inFlight := s.at.inFlight - {ck}))
    case AppGet(ch) =>
      var (p, ck, _) := GetSpec(g, s.pool, ch.memory, ch.n);
      Window(p, s.at.(held := s.at.held + {ck}))
    case AppSend(ck) =>
      s.(at := s.at.(held := s.at.held - {ck}, inFlight := s.at.inFlight + {ck}))
  }

  ghost predicate IsRun(g: Geometry, bufferNum: nat, s: Window, steps: seq<Step>)
    requires 0 < g.stride
    decreases |steps|
  {
    steps == [] || (Enabled(g, bufferNum, s, steps[0]) && IsRun(g, bufferNum, Apply(g, bufferNum, s, steps[0]), steps[1..]))
  }

  ghost function After(g: Geometry, bufferNum: nat, s: Window, steps: seq<Step>): Window
    requires 0 < g.stride && IsRun(g, bufferNum, s, steps)
    decreases |steps|
  {
    if steps == [] then s else After(g, bufferNum, Apply(g, bufferNum, s, steps[0]), steps[1..])
  }

  // ---------- the invariant ----------

  ghost function Sum(sets: seq<set<nat>>): nat {
    if sets == [] then 0 else Sum(sets[..|sets| - 1]) + |sets[|sets| - 1]|
  }

  predicate In(at: Places, i: nat, a: nat) {
    i < |at.posted| && a in at.posted[i]
  }

  ghost predicate Posted(at: Places, a: nat) {
    exists i :: In(at, i, a)
  }

  /** The outstanding chunks are partitioned into posted, held and in flight. */
  ghost predicate Partition(out: set<nat>, at: Places) {
    && (forall i, j, a :: In(at, i, a) && In(at, j, a) ==> i == j)
    && (forall i, a :: In(at, i, a) ==> a !in at.held && a !in at.inFlight && a in out)
    && (forall a :: a in at.held ==> a !in at.inFlight && a in out)
    && (forall a :: a in at.inFlight ==> a in out)
    && (forall a :: a in out ==> a in at.held || a in at.inFlight || Posted(at, a))
  }

  /** Each connection has its full window posted, less the chunk being dispatched. */
  ghost predicate Full(bufferNum: nat, at: Places) {
    && (forall i :: 0 <= i < |at.posted| ==> |at.posted[i]| + (if i in at.busy then 1 else 0) == bufferNum)
    && (forall c :: c in at.busy ==> c < |at.posted|)
  }

  ghost predicate Shape(bufferNum: nat, out: set<nat>, used: nat, at: Places) {
    Partition(out, at) && Full(bufferNum, at) && used == Sum(at.posted) + |at.held| + |at.inFlight|
  }

  ghost predicate Inv(g: Geometry, bufferNum: nat, s: Window) {
    Ok(g, s.pool) && Shape(bufferNum, s.pool.out, s.pool.used, s.at)
  }

  lemma {:induction false} SumUpdate(sets: seq<set<nat>>, i: nat, x: set<nat>)
    requires i < |sets|
    ensures Sum(sets[i := x]) == Sum(sets) - |sets[i]| + |x|
  {
    var n := |sets| - 1;
    if i < n {
      SumUpdate(sets[..n], i, x);
      assert sets[i := x][..n] == sets[..n][i := x];
    } else {
      assert sets[i := x][..n] == sets[..n];
    }
  }

  /** A window that loses nothing keeps its chunks posted. */
  lemma StillPosted(at: Places, at': Places, a: nat)
    requires Posted(at, a) && forall i :: In(at, i, a) ==> In(at', i, a)
    ensures Posted(at', a)
  {
    var i :| In(at, i, a);
    assert In(at', i, a);
  }

  lemma EstablishPartition(out: set<nat>, at: Places, cks: set<nat>)
    requires Partition(out, at) && cks !! out
    ensures Partition(out + cks, at.(posted := at.posted + [cks]))
  {
    var at' := at.(posted := at.posted + [cks]);
    var n := |at.posted|;
    assert forall i, a :: In(at', i, a) <==> In(at, i, a) || (i == n && a in cks);
    forall a | a in out + cks ensures a in at.held || a in at.inFlight || Posted(at', a) {
      if a in cks {
        assert In(at', n, a);
      } else if Posted(at, a) {
        StillPosted(at, at', a);
      }
    }
  }

  lemma EstablishShape(bufferNum: nat, out: set<nat>, used: nat, at: Places, cks: set<nat>)
    requires Shape(bufferNum, out, used, at) && cks !! out && |cks| == bufferNum
    ensures Shape(bufferNum, out + cks, used + bufferNum, at.(posted := at.posted + [cks]))
  {
    EstablishPartition(out, at, cks);
    assert (at.posted + [cks])[..|at.posted|] == at.posted;
  }

  lemma ReceivedMoves(at: Places, c: nat, ck: nat, sent: bool)
    requires c < |at.posted| && forall i :: In(at, i, ck) ==> i == c
    ensures var t := Received(at, c, ck, ck, sent);
            |t.posted| == |at.posted| && (forall i, a :: In(t, i, a) <==> In(at, i, a) && a != ck)
  {
  }

  lemma RecvPartition(out: set<nat>, at: Places, c: nat, ck: nat, sent: bool)
    requires Partition(out, at) && In(at, c, ck)
    ensures Partition(out, Received(at, c, ck, ck, sent))
  {
    ReceivedMoves(at, c, ck, sent);
    var at' := Received(at, c, ck, ck, sent);
    forall a | a in out ensures a in at'.held || a in at'.inFlight || Posted(at', a) {
      if a != ck && Posted(at, a) {
        StillPosted(at, at', a);
      }
    }
  }

  lemma RecvShape(bufferNum: nat, out: set<nat>, used: nat, at: Places, c: nat, ck: nat, sent: bool)
    requires Shape(bufferNum, out, used, at) && c < |at.posted| && c !in at.busy && ck in at.posted[c]
    ensures Shape(bufferNum, out, used, Received(at, c, ck, ck, sent))
  {
    assert In(at, c, ck);
    RecvPartition(out, at, c, ck, sent);
    SumUpdate(at.posted, c, at.posted[c] - {ck});
  }

  lemma RepostedMoves(at: Places, c: nat, ck: nat)
    requires c < |at.posted|
    ensures var t := Reposted(at, c, ck);
            |t.posted| == |at.posted| && (forall i, a :: In(t, i, a) <==> In(at, i, a) || (i == c && a == ck))
  {
  }

  lemma RepostPartition(out: set<nat>, at: Places, c: nat, ck: nat)
    requires Partition(out, at) && c < |at.posted| && ck !in out
    ensures Partition(out + {ck}, Reposted(at, c, ck))
  {
    RepostedMoves(at, c, ck);
    var at' := Reposted(at, c, ck);
    forall a | a in out + {ck} ensures a in at.held || a in at.inFlight || Posted(at', a) {
      if a == ck {
        assert In(at', c, ck);
      } else if Posted(at, a) {
        StillPosted(at, at', a);
      }
    }
  }

  lemma RepostShape(bufferNum: nat, out: set<nat>, used: nat, at: Places, c: nat, ck: nat)
    requires Shape(bufferNum, out, used, at) && c in at.busy && ck !in out
    ensures c < |at.posted| && Shape(bufferNum, out + {ck}, used + 1, Reposted(at, c, ck))
  {
    assert !In(at, c, ck);
    RepostPartition(out, at, c, ck);
    SumUpdate(at.posted, c, at.posted[c] + {ck});
  }

  lemma SentShape(bufferNum: nat, out: set<nat>, used: nat, at: Places, ck: nat)
    requires Shape(bufferNum, out, used, at) && ck in at.inFlight && 0 < used
    ensures Shape(bufferNum, out - {ck}, used - 1, at.(inFlight := at.inFlight - {ck}))
  {
    SamePosted(at, at.(inFlight := at.inFlight - {ck}));
  }

  lemma TakenShape(bufferNum: nat, out: set<nat>, used: nat, at: Places, ck: nat)
    requires Shape(bufferNum, out, used, at) && ck !in out
    ensures Shape(bufferNum, out + {ck}, used + 1, at.(held := at.held + {ck}))
  {
    SamePosted(at, at.(held := at.held + {ck}));
  }

  lemma SubmittedShape(bufferNum: nat, out: set<nat>, used: nat, at: Places, ck: nat)
    requires Shape(bufferNum, out, used, at) && ck in at.held
    ensures Shape(bufferNum, out, used, at.(held := at.held - {ck}, inFlight := at.inFlight + {ck}))
  {
    SamePosted(at, at.(held := at.held - {ck}, inFlight := at.inFlight + {ck}));
  }

  /** Moves between the application, the send queue and the pool leave the windows alone. */
  lemma SamePosted(at: Places, at': Places)
    requires at'.posted == at.posted
    ensures forall i, a :: In(at', i, a) <==> In(at, i, a)
    ensures forall a :: Posted(at', a) <==> Posted(at, a)
  {
    forall a ensures Posted(at', a) <==> Posted(at, a) {
      if Posted(at, a) {
        StillPosted(at, at', a);
      } else if Posted(at', a) {
        StillPosted(at', at, a);
      }
    }
  }

  // ---------- the steps keep it ----------

  lemma {:induction false} GetManyOk(g: Geometry, p: Pool, choices: seq<Choice>)
    requires g.Valid() && g.stride == g.partition && Ok(g, p) && Usable(choices) && FreshChoices(g, p, choices)
    ensures Ok(g, GetMany(g, p, choices).0)
    ensures Obtained(p, GetMany(g, p, choices).0, GetMany(g, p, choices).1) && |GetMany(g, p, choices).1| == |choices|
  {
    if choices != [] {
      var init, c := choices[..|choices| - 1], choices[|choices| - 1];
      GetManyOk(g, p, init);
      var (q, cks) := GetMany(g, p, init);
      GetOk(g, q, c.memory, c.n);
      ObtainedSnoc(p, q, cks, GetSpec(g, q, c.memory, c.n).0, GetSpec(g, q, c.memory, c.n).1);
    }
  }

  /** The pool handed out the chunks `cks`, all different and none outstanding before. */
  ghost predicate Obtained(p: Pool, q: Pool, cks: seq<nat>) {
    && NoDuplicates(cks) && (forall i :: 0 <= i < |cks| ==> cks[i] !in p.out)
    && q.out == p.out + Elements(cks) && q.used == p.used + |cks|
  }

  lemma ObtainedSnoc(p: Pool, q: Pool, cks: seq<nat>, r: Pool, ck: nat)
    requires Obtained(p, q, cks) && ck !in q.out && r.out == q.out + {ck} && r.used == q.used + 1
    ensures Obtained(p, r, cks + [ck])
  {
  }

  lemma {:induction false} DistinctCount(s: seq<nat>)
    requires NoDuplicates(s)
    ensures |Elements(s)| == |s|
  {
    if s != [] {
      var init, last := s[..|s| - 1], s[|s| - 1];
      DistinctCount(init);
      assert s == init + [last];
      SnocCount(init, last);
    }
  }

  lemma SnocCount(init: seq<nat>, last: nat)
    requires last !in init
    ensures |Elements(init + [last])| == |Elements(init)| + 1
  {
    assert Elements(init + [last]) == Elements(init) + {last};
  }

  /** The callback finds the very chunk that completed. */
  lemma ByIdIsSame(g: Geometry, p: Pool, ck: nat)
    requires Ok(g, p) && ck in p.out
    ensures ById(p, ck) == ck
  {
    assert ck in p.ctx.chunkToId;
  }

  lemma RecvInv(g: Geometry, bufferNum: nat, s: Window, step: Step)
    requires Inv(g, bufferNum, s) && 0 < g.stride && Enabled(g, bufferNum, s, step)
    requires step.RecvAndSend? || step.RecvAndKeep?
    ensures Inv(g, bufferNum, Apply(g, bufferNum, s, step))
  {
    assert In(s.at, step.c, step.ck);
    ByIdIsSame(g, s.pool, step.ck);
    RecvShape(bufferNum, s.pool.out, s.pool.used, s.at, step.c, step.ck, step.RecvAndSend?);
  }

  lemma PostInv(g: Geometry, bufferNum: nat, s: Window, step: Step)
    requires g.Valid() && g.stride == g.partition && Inv(g, bufferNum, s) && Enabled(g, bufferNum, s, step)
    requires step.Establish? || step.Repost?
    ensures Inv(g, bufferNum, Apply(g, bufferNum, s, step))
  {
    if step.Establish? {
      GetManyOk(g, s.pool, step.choices);
      var cks := GetMany(g, s.pool, step.choices).1;
      DistinctCount(cks);
      EstablishShape(bufferNum, s.pool.out, s.pool.used, s.at, Elements(cks));
    } else {
      GetOk(g, s.pool, step.choice.memory, step.choice.n);
      RepostShape(bufferNum, s.pool.out, s.pool.used, s.at, step.c, GetSpec(g, s.pool, step.choice.memory, step.choice.n).1);
    }
  }

  lemma SendDoneOk(g: Geometry, p: Pool, ck: nat)
    requires Ok(g, p) && ck in p.out
    ensures 0 < p.used && Ok(g, ReclaimSpec(p, ck)) && ById(p, ck) == ck
  {
    ByIdIsSame(g, p, ck);
    ReclaimOk(g, p, ck);
  }

  lemma SendDoneInv(g: Geometry, bufferNum: nat, s: Window, step: Step)
    requires 0 < g.stride && Inv(g, bufferNum, s) && Enabled(g, bufferNum, s, step) && step.SendDone?
    ensures Inv(g, bufferNum, Apply(g, bufferNum, s, step))
  {
    SendDoneOk(g, s.pool, step.ck);
    SentShape(bufferNum, s.pool.out, s.pool.used, s.at, step.ck);
  }

  lemma AppGetInv(g: Geometry, bufferNum: nat, s: Window, step: Step)
    requires g.Valid() && g.stride == g.partition && Inv(g, bufferNum, s) && Enabled(g, bufferNum, s, step) && step.AppGet?
    ensures Inv(g, bufferNum, Apply(g, bufferNum, s, step))
  {
    GetOk(g, s.pool, step.choice.memory, step.choice.n);
    TakenShape(bufferNum, s.pool.out, s.pool.used, s.at, GetSpec(g, s.pool, step.choice.memory, step.choice.n).1);
  }

  lemma AppSendInv(g: Geometry, bufferNum: nat, s: Window, ck: nat)
    requires 0 < g.stride && Inv(g, bufferNum, s) && ck in s.at.held
    ensures Inv(g, bufferNum, Apply(g, bufferNum, s, AppSend(ck)))
  {
    var at' := s.at.(held := s.at.held - {ck}, inFlight := s.at.inFlight + {ck});
    SubmittedShape(bufferNum, s.pool.out, s.pool.used, s.at, ck);
    assert Apply(g, bufferNum, s, AppSend(ck)) == s.(at := at');
  }

  lemma StepInv(g: Geometry, bufferNum: nat, s: Window, step: Step)
    requires g.Valid() && g.stride == g.partition && Inv(g, bufferNum, s) && Enabled(g, bufferNum, s, step)
    ensures Inv(g, bufferNum, Apply(g, bufferNum, s, step))
  {
    if step.RecvAndSend? || step.RecvAndKeep? {
      RecvInv(g, bufferNum, s, step);
    } else if step.Establish? || step.Repost? {
      PostInv(g, bufferNum, s, step);
    } else {
      match step
      case SendDone(_) => SendDoneInv(g, bufferNum, s, step);
      case AppGet(_) => AppGetInv(g, bufferNum, s, step);
      case AppSend(ck) => AppSendInv(g, bufferNum, s, ck);
    }
  }

  lemma {:induction false} RunInv(g: Geometry, bufferNum: nat, s: Window, steps: seq<Step>)
    requires g.Valid() && g.stride == g.partition && Inv(g, bufferNum, s) && IsRun(g, bufferNum, s, steps)
    ensures Inv(g, bufferNum, After(g, bufferNum, s, steps))
    decreases |steps|
  {
    if steps != [] {
      StepInv(g, bufferNum, s, steps[0]);
      RunInv(g, bufferNum, Apply(g, bufferNum, s, steps[0]), steps[1..]);
    }
  }

  // ---------- where each chunk goes ----------

  lemma RecvApply(g: Geometry, bufferNum: nat, s: Window, step: Step)
    requires 0 < g.stride && Inv(g, bufferNum, s) && Enabled(g, bufferNum, s, step) && (step.RecvAndSend? || step.RecvAndKeep?)
    ensures Apply(g, bufferNum, s, step) == s.(at := Received(s.at, step.c, step.ck, step.ck, step.RecvAndSend?))
  {
    assert In(s.at, step.c, step.ck);
    ByIdIsSame(g, s.pool, step.ck);
  }

  /** A receive completion moves its chunk from the connection's window to the send queue or to the
      application, and nothing else moves. */
  lemma RecvMoves(g: Geometry, bufferNum: nat, s: Window, step: Step)
    requires 0 < g.stride && Inv(g, bufferNum, s) && Enabled(g, bufferNum, s, step) && (step.RecvAndSend? || step.RecvAndKeep?)
    ensures var t := Apply(g, bufferNum, s, step);
            t.pool == s.pool && t.at.busy == s.at.busy + {step.c} && |t.at.posted| == |s.at.posted| &&
            (forall i, a :: In(t.at, i, a) <==> In(s.at, i, a) && a != step.ck) &&
            t.at.inFlight == (if step.RecvAndSend? then s.at.inFlight + {step.ck} else s.at.inFlight) &&
            t.at.held == (if step.RecvAndKeep? then s.at.held + {step.ck} else s.at.held)
  {
    RecvApply(g, bufferNum, s, step);
    assert In(s.at, step.c, step.ck);
    ReceivedMoves(s.at, step.c, step.ck, step.RecvAndSend?);
  }

  /** The repost puts a chunk that was nowhere outside the pool into the connection's window, which is then full. */
  lemma RepostMoves(g: Geometry, bufferNum: nat, s: Window, c: nat, choice: Choice)
    requires g.Valid() && g.stride == g.partition && Inv(g, bufferNum, s) && Enabled(g, bufferNum, s, Repost(c, choice))
    ensures var t, ck := Apply(g, bufferNum, s, Repost(c, choice)), GetSpec(g, s.pool, choice.memory, choice.n).1;
            ck !in s.pool.out && t.pool.out == s.pool.out + {ck} &&
            t.at.busy == s.at.busy - {c} && t.at.held == s.at.held && t.at.inFlight == s.at.inFlight &&
            (forall i, a :: In(t.at, i, a) <==> In(s.at, i, a) || (i == c && a == ck)) && |t.at.posted[c]| == bufferNum
  {
    GetOk(g, s.pool, choice.memory, choice.n);
    PostInv(g, bufferNum, s, Repost(c, choice));
  }

  /** The application's own get gives it a chunk that was nowhere outside the pool. */
  lemma AppGetMoves(g: Geometry, bufferNum: nat, s: Window, choice: Choice)
    requires g.Valid() && g.stride == g.partition && Inv(g, bufferNum, s) && Enabled(g, bufferNum, s, AppGet(choice))
    ensures var t, ck := Apply(g, bufferNum, s, AppGet(choice)), GetSpec(g, s.pool, choice.memory, choice.n).1;
            ck !in s.pool.out && t.pool.out == s.pool.out + {ck} && t.at == s.at.(held := s.at.held + {ck})
  {
    GetOk(g, s.pool, choice.memory, choice.n);
  }

  /** And its send passes on a chunk it has; the pool, the windows and all other chunks stay. */
  lemma AppSendMoves(g: Geometry, bufferNum: nat, s: Window, ck: nat, a: nat)
    requires 0 < g.stride && Inv(g, bufferNum, s) && Enabled(g, bufferNum, s, AppSend(ck))
    ensures var t := Apply(g, bufferNum, s, AppSend(ck));
            t.pool == s.pool && t.at.posted == s.at.posted && t.at.busy == s.at.busy &&
            (a in t.at.held <==> a in s.at.held && a != ck) && (a in t.at.inFlight <==> a in s.at.inFlight || a == ck)
  {
  }

  /** A send completion returns its chunk to the pool, where it is the next to be given out. */
  lemma SendDoneMoves(g: Geometry, bufferNum: nat, s: Window, ck: nat)
    requires 0 < g.stride && Inv(g, bufferNum, s) && ck in s.at.inFlight
    ensures Enabled(g, bufferNum, s, SendDone(ck))
    ensures var t := Apply(g, bufferNum, s, SendDone(ck));
            t.pool.store == [ck] + s.pool.store && t.pool.out == s.pool.out - {ck} && t.pool.ctx == s.pool.ctx &&
            t.at == s.at.(inFlight := s.at.inFlight - {ck})
  {
    SendDoneOk(g, s.pool, ck);
  }

  /** So an echo costs the pool nothing: the receive, the send's completion and the repost leave the pool as it
      was, and the very chunk received is posted again. */
  lemma EchoRun(g: Geometry, bufferNum: nat, s: Window, c: nat, ck: nat, choice: Choice)
    requires g.Valid() && g.stride == g.partition && Inv(g, bufferNum, s) && 0 < choice.n
    requires Enabled(g, bufferNum, s, RecvAndSend(c, ck))
    ensures var sent := Apply(g, bufferNum, s, RecvAndSend(c, ck));
            Enabled(g, bufferNum, sent, SendDone(ck)) &&
            var done := Apply(g, bufferNum, sent, SendDone(ck));
            Enabled(g, bufferNum, done, Repost(c, choice)) && Apply(g, bufferNum, done, Repost(c, choice)) == s
  {
    RecvInv(g, bufferNum, s, RecvAndSend(c, ck));
    RecvApply(g, bufferNum, s, RecvAndSend(c, ck));
    var sent := s.(at := Received(s.at, c, ck, ck, true));
    SendDoneOk(g, s.pool, ck) by { assert In(s.at, c, ck); }
    var done := Window(ReclaimSpec(s.pool, ck), sent.at.(inFlight := sent.at.inFlight - {ck}));
    assert Apply(g, bufferNum, sent, SendDone(ck)) == done;
    EchoRepost(g, bufferNum, s, c, ck, done, choice);
  }

  lemma EchoRepost(g: Geometry, bufferNum: nat, s: Window, c: nat, ck: nat, done: Window, choice: Choice)
    requires 0 < g.stride && Inv(g, bufferNum, s) && 0 < choice.n && c < |s.at.posted| && c !in s.at.busy && ck in s.at.posted[c]
    requires var sent := Received(s.at, c, ck, ck, true);
             ck in s.pool.out && 0 < s.pool.used && done == Window(ReclaimSpec(s.pool, ck), sent.(inFlight := sent.inFlight - {ck}))
    ensures Enabled(g, bufferNum, done, Repost(c, choice)) && Apply(g, bufferNum, done, Repost(c, choice)) == s
  {
    assert In(s.at, c, ck);
    ReclaimThenGet(g, s.pool, ck, choice.memory, choice.n);
    EchoPlaces(s.at, c, ck);
  }

  lemma EchoPlaces(at: Places, c: nat, ck: nat)
    requires c < |at.posted| && c !in at.busy && ck in at.posted[c] && ck !in at.inFlight
    ensures var sent := Received(at, c, ck, ck, true); Reposted(sent.(inFlight := sent.inFlight - {ck}), c, ck) == at
  {
    assert at.posted[c] - {ck} + {ck} == at.posted[c];
    assert at.posted[c := at.posted[c]] == at.posted;
    assert at.busy + {c} - {c} == at.busy;
    assert at.inFlight + {ck} - {ck} == at.inFlight;
  }

  lemma {:induction false} SumFull(bufferNum: nat, sets: seq<set<nat>>)
    requires forall i :: 0 <= i < |sets| ==> |sets[i]| == bufferNum
    ensures Sum(sets) == |sets| * bufferNum
  {
    if sets != [] {
      SumFull(bufferNum, sets[..|sets| - 1]);
    }
  }

  /** The chunks are partitioned into free, posted, held and in flight; a connection between
      dispatches has exactly `bufferNum` posted; and when none is dispatching, the pool's total is
      free + connections * bufferNum + held + in flight. */
  ghost predicate WindowsKept(bufferNum: nat, s: Window) {
    && Partition(s.pool.out, s.at) && Conserved(s.pool)
    && (forall c :: 0 <= c < |s.at.posted| && c !in s.at.busy ==> |s.at.posted[c]| == bufferNum)
    && (s.at.busy == {} ==>
          s.pool.ctx.id == |s.pool.store| + |s.at.posted| * bufferNum + |s.at.held| + |s.at.inFlight|)
  }

  /** Receive-window conservation, in every run. */
  lemma {:induction false} WindowConserved(g: Geometry, bufferNum: nat, steps: seq<Step>)
    requires g.Valid() && g.stride == g.partition && IsRun(g, bufferNum, START, steps)
    ensures WindowsKept(bufferNum, After(g, bufferNum, START, steps))
  {
    RunInv(g, bufferNum, START, steps);
    var s := After(g, bufferNum, START, steps);
    if s.at.busy == {} {
      SumFull(bufferNum, s.at.posted);
    }
  }
}
