/**
 Several threads take chunks from several pools, each pool with its own buffer size.  All pools share
 the allocator's static context pointer and its static mutex; a get is a sequence of statements that
 interleave with those of the other threads.  `PoolAllocator::malloc` registers a block in whatever
 context the pointer designates at that moment, and carves it by that context's buffer size.
 */
module PoolContext {
  import opened Common
  import opened ChunkMgr
  import opened ChunkMgrProofs

  datatype Pc =
    | Idle
    | Locked(i: nat)
    | Updating(i: nat)
    | Allocating(i: nat)
    | Taking(i: nat)

  datatype World = World(pools: seq<Pool>, mutex: Option<nat>, context: Option<nat>, pcs: seq<Pc>)

  datatype Step =
    | Lock(t: nat, i: nat)
    | Look(t: nat)
    | Update(t: nat)
    | Allocate(t: nat, memory: nat, n: nat)
    | Take(t: nat)
    | Reclaim(t: nat, i: nat, ck: nat)

  function Init(pools: nat, threads: nat): World {
    World(seq(pools, _ => EMPTY), None, None, seq(threads, _ => Idle))
  }

  /** malloc's contract: the new block overlaps no block of any pool. */
  ghost predicate FreshEverywhere(w: World, b: Block) {
    forall j :: 0 <= j < |w.pools| ==> FreshBlock(w.pools[j], b)
  }

  ghost predicate Enabled(gs: seq<Geometry>, w: World, step: Step) {
    && step.t < |w.pcs| && |gs| == |w.pools|
    && match step
       case Lock(t, i) => w.pcs[t].Idle? && w.mutex.None? && i < |w.pools|
       case Look(t) => w.pcs[t].Locked? && w.pcs[t].i < |w.pools|
       case Update(t) => w.pcs[t].Updating?
       case Allocate(t, memory, n) =>
         && w.pcs[t].Allocating? && w.pcs[t].i < |w.pools| && 0 < n
         && w.context.Some? && w.context.value < |w.pools| && FreshEverywhere(w, Block(memory, gs[w.pcs[t].i].Bytes(n)))
       case Take(t) => w.pcs[t].Taking? && w.pcs[t].i < |w.pools| && w.pools[w.pcs[t].i].store != []
       case Reclaim(t, i, ck) =>
         w.pcs[t].Idle? && w.mutex.None? && i < |w.pools| && ck in w.pools[i].out && 0 < w.pools[i].used
  }

  predicate Geometries(gs: seq<Geometry>) {
    forall i :: 0 <= i < |gs| ==> gs[i].Valid()
  }

  /** The block goes to the requesting pool's free list, cut as boost cuts it for that pool; its ids go
      to the current context, counted by that context's stride. */
  function AllocateIn(gs: seq<Geometry>, w: World, i: nat, c: nat, memory: nat, n: nat): World
    requires i < |w.pools| && c < |w.pools| == |gs| && Geometries(gs)
  {
    var bytes := gs[i].Bytes(n);
    var p := w.pools[i].(store := Partitions(memory, gs[i].partition, n), blocks := w.pools[i].blocks + [Block(memory, bytes)]);
    var ps := w.pools[i := p];
    w.(pools := ps[c := ps[c].(ctx := Carve(ps[c].ctx, gs[c].stride, memory, bytes / gs[c].stride))])
  }

  ghost function Apply(gs: seq<Geometry>, w: World, step: Step): World
    requires Geometries(gs) && Enabled(gs, w, step)
  {
    match step
    case Lock(t, i) => w.(mutex := Some(t), pcs := w.pcs[t := Locked(i)])
    case Look(t) =>
      var i := w.pcs[t].i;
      w.(pcs := w.pcs[t := if w.pools[i].store == [] then Updating(i) else Taking(i)])
    case Update(t) => w.(context := Some(w.pcs[t].i), pcs := w.pcs[t := Allocating(w.pcs[t].i)])
    case Allocate(t, memory, n) =>
      AllocateIn(gs, w, w.pcs[t].i, w.context.value, memory, n).(pcs := w.pcs[t := Taking(w.pcs[t].i)])
    case Take(t) =>
      var i := w.pcs[t].i;
      w.(pools := w.pools[i := GetSpec(gs[i], w.pools[i], 0, 1).0], mutex := None, pcs := w.pcs[t := Idle])
    case Reclaim(t, i, ck) => w.(pools := w.pools[i := ReclaimSpec(w.pools[i], ck)])
  }

  ghost predicate IsRun(gs: seq<Geometry>, w: World, steps: seq<Step>)
    requires Geometries(gs)
    decreases |steps|
  {
    steps == [] || (Enabled(gs, w, steps[0]) && IsRun(gs, Apply(gs, w, steps[0]), steps[1..]))
  }

  ghost function After(gs: seq<Geometry>, w: World, steps: seq<Step>): World
    requires Geometries(gs) && IsRun(gs, w, steps)
    decreases |steps|
  {
    if steps == [] then w else After(gs, Apply(gs, w, steps[0]), steps[1..])
  }

  // ---------- the invariant ----------

  /** Only the mutex holder is inside a get, and between update_context and the allocation the
      shared pointer designates its pool. */
  ghost predicate Threads(w: World) {
    && (w.mutex.Some? ==> w.mutex.value < |w.pcs| && !w.pcs[w.mutex.value].Idle?)
    && (forall t :: 0 <= t < |w.pcs| && !w.pcs[t].Idle? ==> w.mutex == Some(t) && w.pcs[t].i < |w.pools|)
    && (forall t :: 0 <= t < |w.pcs| && w.pcs[t].Allocating? ==> w.context == Some(w.pcs[t].i))
    && (forall t :: 0 <= t < |w.pcs| && (w.pcs[t].Updating? || w.pcs[t].Allocating?) ==> w.pools[w.pcs[t].i].store == [])
  }

  /** A chunk a pool has registered, keeps free or has given out. */
  predicate Has(p: Pool, a: nat) {
    a in p.ctx.chunkToId || a in p.store || a in p.out
  }

  /** Every registered, free or outstanding chunk of a pool lies in a block that pool asked for. */
  ghost predicate Own(g: Geometry, p: Pool) {
    forall a :: Has(p, a) ==> InSomeBlock(p.blocks, a, g.stride)
  }

  ghost predicate AllOwn(gs: seq<Geometry>, w: World) {
    |gs| == |w.pools| && forall i :: 0 <= i < |w.pools| ==> Own(gs[i], w.pools[i])
  }

  /** Blocks of different pools never overlap. */
  ghost predicate BlocksApart(w: World) {
    forall i, j, a, b :: 0 <= i < j < |w.pools| && 0 <= a < |w.pools[i].blocks| && 0 <= b < |w.pools[j].blocks| ==>
      w.pools[i].blocks[a].Apart(w.pools[j].blocks[b])
  }

  ghost predicate Inv(gs: seq<Geometry>, w: World) {
    Threads(w) && AllOwn(gs, w) && BlocksApart(w)
  }

  // ---------- isolation ----------

  lemma InNewBlock(g: Geometry, memory: nat, n: nat, size: nat, k: nat, blocks: seq<Block>)
    requires Slot(memory, size, k + 1) <= memory + g.Bytes(n) && g.stride <= size
    ensures InSomeBlock(blocks + [Block(memory, g.Bytes(n))], Slot(memory, size, k), g.stride)
  {
    assert Slot(memory, size, k + 1) == Slot(memory, size, k) + size;
    assert (blocks + [Block(memory, g.Bytes(n))])[|blocks|].Holds(Slot(memory, size, k), g.stride);
  }

  lemma InOldBlock(blocks: seq<Block>, b: Block, a: nat, stride: nat)
    requires InSomeBlock(blocks, a, stride)
    ensures InSomeBlock(blocks + [b], a, stride)
  {
    var k :| 0 <= k < |blocks| && blocks[k].Holds(a, stride);
    assert (blocks + [b])[k].Holds(a, stride);
  }

  /** What boost cuts off a block stays in it. */
  lemma CutsInside(g: Geometry, memory: nat, n: nat, k: nat, blocks: seq<Block>)
    requires g.Valid() && k < n
    ensures InSomeBlock(blocks + [Block(memory, g.Bytes(n))], Slot(memory, g.partition, k), g.stride)
  {
    MulMono(k + 1, n, g.partition);
    InNewBlock(g, memory, n, g.partition, k, blocks);
  }

  /** And so does what the allocator registers of it, whatever the partition size. */
  lemma CarvesInside(g: Geometry, memory: nat, n: nat, k: nat, blocks: seq<Block>)
    requires g.Valid() && k < g.Bytes(n) / g.stride
    ensures InSomeBlock(blocks + [Block(memory, g.Bytes(n))], Slot(memory, g.stride, k), g.stride)
  {
    var m := g.Bytes(n) / g.stride;
    MulMono(k + 1, m, g.stride);
    assert g.Bytes(n) == m * g.stride + g.Bytes(n) % g.stride;
    InNewBlock(g, memory, n, g.stride, k, blocks);
  }

  lemma GrowOwn(g: Geometry, p: Pool, memory: nat, n: nat)
    requires g.Valid() && Own(g, p)
    ensures Own(g, Grow(g, p, memory, n))
  {
    var q, b := Grow(g, p, memory, n), Block(memory, g.Bytes(n));
    var m := g.Bytes(n) / g.stride;
    CarveKeys(p.ctx, g.stride, memory, m);
    forall a | Has(q, a) ensures InSomeBlock(q.blocks, a, g.stride) {
      if Has(p, a) {
        InOldBlock(p.blocks, b, a, g.stride);
      } else if a in q.store {
        var k :| 0 <= k < n && q.store[k] == a;
        CutsInside(g, memory, n, k, p.blocks);
      } else {
        var k :| 0 <= k < m && Partitions(memory, g.stride, m)[k] == a;
        CarvesInside(g, memory, n, k, p.blocks);
      }
    }
  }

  lemma TakeOwn(g: Geometry, p: Pool)
    requires 0 < g.stride && Own(g, p) && p.store != []
    ensures Own(g, GetSpec(g, p, 0, 1).0)
  {
    assert p.store == [p.store[0]] + p.store[1..];
  }

  lemma ReclaimOwn(g: Geometry, p: Pool, ck: nat)
    requires Own(g, p) && ck in p.out && 0 < p.used
    ensures Own(g, ReclaimSpec(p, ck))
  {
  }

  lemma StepOwn(gs: seq<Geometry>, w: World, step: Step)
    requires Geometries(gs) && Threads(w) && AllOwn(gs, w) && Enabled(gs, w, step)
    ensures AllOwn(gs, Apply(gs, w, step))
  {
    match step
    case Allocate(t, memory, n) =>
      var i := w.pcs[t].i;
      GrowOwn(gs[i], w.pools[i], memory, n);
      assert Apply(gs, w, step).pools == w.pools[i := Grow(gs[i], w.pools[i], memory, n)];
    case Take(t) => TakeOwn(gs[w.pcs[t].i], w.pools[w.pcs[t].i]);
    case Reclaim(t, i, ck) => ReclaimOwn(gs[i], w.pools[i], ck);
    case _ =>
  }

  lemma StepThreads(gs: seq<Geometry>, w: World, step: Step)
    requires Geometries(gs) && Threads(w) && Enabled(gs, w, step)
    ensures Threads(Apply(gs, w, step))
  {
  }

  lemma StepApart(gs: seq<Geometry>, w: World, step: Step)
    requires Geometries(gs) && Threads(w) && BlocksApart(w) && Enabled(gs, w, step)
    ensures BlocksApart(Apply(gs, w, step))
  {
  }

  lemma {:induction false} RunInv(gs: seq<Geometry>, w: World, steps: seq<Step>)
    requires Geometries(gs) && Inv(gs, w) && IsRun(gs, w, steps)
    ensures Inv(gs, After(gs, w, steps))
    decreases |steps|
  {
    if steps != [] {
      StepThreads(gs, w, steps[0]);
      StepOwn(gs, w, steps[0]);
      StepApart(gs, w, steps[0]);
      RunInv(gs, Apply(gs, w, steps[0]), steps[1..]);
    }
  }

  /** Context isolation: in every interleaving of any pools of any sizes, every chunk of a pool, registered,
      free or given out, lies in a block that pool asked for, and chunks of different pools never overlap. */
  lemma ContextIsolation(gs: seq<Geometry>, threads: nat, steps: seq<Step>, i: nat, j: nat, a: nat, b: nat)
    requires Geometries(gs) && IsRun(gs, Init(|gs|, threads), steps)
    requires i < |gs| && j < |gs| && i != j
    ensures var w := After(gs, Init(|gs|, threads), steps);
            |w.pools| == |gs|
            && (Has(w.pools[i], a) ==> InSomeBlock(w.pools[i].blocks, a, gs[i].stride))
            && (Has(w.pools[i], a) && Has(w.pools[j], b) ==> a + gs[i].stride <= b || b + gs[j].stride <= a)
  {
    RunInv(gs, Init(|gs|, threads), steps);
    var w := After(gs, Init(|gs|, threads), steps);
    assert Own(gs[i], w.pools[i]) && Own(gs[j], w.pools[j]);
    if Has(w.pools[i], a) && Has(w.pools[j], b) {
      assert BlocksApart(w);
      ChunksApart(gs, w, i, j, a, b);
    }
  }

  lemma ChunksApart(gs: seq<Geometry>, w: World, i: nat, j: nat, a: nat, b: nat)
    requires BlocksApart(w) && i < |w.pools| == |gs| && j < |w.pools| && i != j
    requires InSomeBlock(w.pools[i].blocks, a, gs[i].stride) && InSomeBlock(w.pools[j].blocks, b, gs[j].stride)
    ensures a + gs[i].stride <= b || b + gs[j].stride <= a
  {
    var k :| 0 <= k < |w.pools[i].blocks| && w.pools[i].blocks[k].Holds(a, gs[i].stride);
    var l :| 0 <= l < |w.pools[j].blocks| && w.pools[j].blocks[l].Holds(b, gs[j].stride);
    if i < j {
      assert w.pools[i].blocks[k].Apart(w.pools[j].blocks[l]);
    } else {
      assert w.pools[j].blocks[l].Apart(w.pools[i].blocks[k]);
    }
  }

  // ---------- the mutex ----------

  predicate AllIdle(w: World) {
    forall t :: 0 <= t < |w.pcs| ==> w.pcs[t].Idle?
  }

  /** In every interleaving the mutex is free, and a get or a reclaim can begin, exactly when no thread is inside a get. */
  lemma MutexExactly(gs: seq<Geometry>, threads: nat, steps: seq<Step>, t: nat, i: nat)
    requires Geometries(gs) && IsRun(gs, Init(|gs|, threads), steps) && t < threads && i < |gs|
    ensures var w := After(gs, Init(|gs|, threads), steps);
            (w.mutex.None? <==> AllIdle(w)) && (Enabled(gs, w, Lock(t, i)) <==> AllIdle(w))
  {
    RunInv(gs, Init(|gs|, threads), steps);
    SameSize(gs, Init(|gs|, threads), steps);
  }

  lemma {:induction false} SameSize(gs: seq<Geometry>, w: World, steps: seq<Step>)
    requires Geometries(gs) && IsRun(gs, w, steps)
    ensures |After(gs, w, steps).pcs| == |w.pcs| && |After(gs, w, steps).pools| == |w.pools|
    decreases |steps|
  {
    if steps != [] {
      SameSize(gs, Apply(gs, w, steps[0]), steps[1..]);
    }
  }

  ghost predicate Leads(gs: seq<Geometry>, w: World, w': World)
    requires Geometries(gs)
  {
    exists steps :: IsRun(gs, w, steps) && After(gs, w, steps) == w'
  }

  lemma OneStep(gs: seq<Geometry>, w: World, step: Step, w': World)
    requires Geometries(gs) && Enabled(gs, w, step) && Leads(gs, Apply(gs, w, step), w')
    ensures Leads(gs, w, w')
  {
    var rest :| IsRun(gs, Apply(gs, w, step), rest) && After(gs, Apply(gs, w, step), rest) == w';
    var steps := [step] + rest;
    assert steps[0] == step && steps[1..] == rest;
    assert IsRun(gs, w, steps) && After(gs, w, steps) == w';
  }

  /** Without interference the statements of a get are the get of the pool asked for, whatever the context
      pointer designated before, and they give the mutex back. */
  lemma GetRun(gs: seq<Geometry>, w: World, t: nat, i: nat, memory: nat, n: nat)
    requires Geometries(gs) && |gs| == |w.pools| && w.mutex.None? && t < |w.pcs| && w.pcs[t].Idle? && i < |gs| && 0 < n
    requires w.pools[i].store == [] ==> FreshEverywhere(w, Block(memory, gs[i].Bytes(n)))
    ensures Leads(gs, w, w.(pools := w.pools[i := GetSpec(gs[i], w.pools[i], memory, n).0],
                            context := if w.pools[i].store == [] then Some(i) else w.context))
  {
    var p := w.pools[i];
    var q := if p.store == [] then Grow(gs[i], p, memory, n) else p;
    var c := if p.store == [] then Some(i) else w.context;
    var taking := w.(pools := w.pools[i := q], context := c, mutex := Some(t), pcs := w.pcs[t := Taking(i)]);
    var done := w.(pools := w.pools[i := GetSpec(gs[i], p, memory, n).0], context := c);
    assert GetSpec(gs[i], q, 0, 1).0 == GetSpec(gs[i], p, memory, n).0;
    TakeRun(gs, taking, t, i, done);
    LockRun(gs, w, t, i, memory, n, taking, done);
  }

  /** A reclaim puts the chunk at the head of its pool's free list and touches no other pool; whichever thread
      gets from that pool next is given the same chunk, and the pools are as they were. */
  lemma ReclaimThenGetRun(gs: seq<Geometry>, w: World, t: nat, i: nat, ck: nat, u: nat)
    requires Geometries(gs) && Enabled(gs, w, Reclaim(t, i, ck)) && Ok(gs[i], w.pools[i])
    requires u < |w.pcs| && w.pcs[u].Idle?
    ensures var w' := Apply(gs, w, Reclaim(t, i, ck));
            w'.pools[i].store == [ck] + w.pools[i].store && w'.pools[i].out == w.pools[i].out - {ck} &&
            (forall j | 0 <= j < |w.pools| && j != i :: w'.pools[j] == w.pools[j]) && Leads(gs, w', w)
  {
    var w' := Apply(gs, w, Reclaim(t, i, ck));
    ReclaimThenGet(gs[i], w.pools[i], ck, 0, 1);
    GetRun(gs, w', u, i, 0, 1);
    assert w'.pools[i := w.pools[i]] == w.pools;
  }

  lemma TakeRun(gs: seq<Geometry>, w: World, t: nat, i: nat, w': World)
    requires Geometries(gs) && |gs| == |w.pools| && t < |w.pcs| && i < |gs| && w.pcs[t] == Taking(i) && w.pools[i].store != []
    requires w' == w.(pools := w.pools[i := GetSpec(gs[i], w.pools[i], 0, 1).0], mutex := None, pcs := w.pcs[t := Idle])
    ensures Leads(gs, w, w')
  {
    assert IsRun(gs, w', []) && After(gs, w', []) == w';
    assert Apply(gs, w, Take(t)) == w';
    OneStep(gs, w, Take(t), w');
  }

  /** From the lock to the point where a chunk can be taken. */
  lemma LockRun(gs: seq<Geometry>, w: World, t: nat, i: nat, memory: nat, n: nat, taking: World, done: World)
    requires Geometries(gs) && |gs| == |w.pools| && w.mutex.None? && t < |w.pcs| && w.pcs[t].Idle? && i < |gs| && 0 < n
    requires w.pools[i].store == [] ==> FreshEverywhere(w, Block(memory, gs[i].Bytes(n)))
    requires var grows := w.pools[i].store == [];
             taking == w.(pools := w.pools[i := if grows then Grow(gs[i], w.pools[i], memory, n) else w.pools[i]],
                          context := if grows then Some(i) else w.context, mutex := Some(t), pcs := w.pcs[t := Taking(i)])
    requires Leads(gs, taking, done)
    ensures Leads(gs, w, done)
  {
    var locked := w.(mutex := Some(t), pcs := w.pcs[t := Locked(i)]);
    assert Apply(gs, w, Lock(t, i)) == locked;
    if w.pools[i].store == [] {
      var updating := w.(mutex := Some(t), pcs := w.pcs[t := Updating(i)]);
      var allocating := w.(mutex := Some(t), context := Some(i), pcs := w.pcs[t := Allocating(i)]);
      assert Apply(gs, locked, Look(t)) == updating;
      assert Apply(gs, updating, Update(t)) == allocating;
      assert FreshEverywhere(allocating, Block(memory, gs[i].Bytes(n)));
      assert Apply(gs, allocating, Allocate(t, memory, n)) == taking;
      OneStep(gs, allocating, Allocate(t, memory, n), done);
      OneStep(gs, updating, Update(t), done);
    } else {
      assert w.pools[i := w.pools[i]] == w.pools;
      assert Apply(gs, locked, Look(t)) == taking;
    }
    OneStep(gs, locked, Look(t), done);
    OneStep(gs, w, Lock(t, i), done);
  }

  // ---------- pools of aligned sizes ----------

  /** The sizes are such that ids come out right at all. */
  predicate Aligned(gs: seq<Geometry>) {
    Geometries(gs) && forall i :: 0 <= i < |gs| ==> gs[i].stride == gs[i].partition
  }

  ghost predicate Pools(gs: seq<Geometry>, w: World) {
    |gs| == |w.pools| && forall i :: 0 <= i < |w.pools| ==> Ok(gs[i], w.pools[i])
  }

  lemma StepPools(gs: seq<Geometry>, w: World, step: Step)
    requires Aligned(gs) && Threads(w) && Pools(gs, w) && Enabled(gs, w, step)
    ensures Pools(gs, Apply(gs, w, step))
  {
    match step
    case Allocate(t, memory, n) =>
      var i := w.pcs[t].i;
      GrowOk(gs[i], w.pools[i], memory, n);
      assert Apply(gs, w, step).pools == w.pools[i := Grow(gs[i], w.pools[i], memory, n)];
    case Take(t) => GetOk(gs[w.pcs[t].i], w.pools[w.pcs[t].i], 0, 1);
    case Reclaim(t, i, ck) => ReclaimOk(gs[i], w.pools[i], ck);
    case _ =>
  }

  lemma {:induction false} RunPools(gs: seq<Geometry>, w: World, steps: seq<Step>)
    requires Aligned(gs) && Threads(w) && Pools(gs, w) && IsRun(gs, w, steps)
    ensures Pools(gs, After(gs, w, steps))
    decreases |steps|
  {
    if steps != [] {
      StepThreads(gs, w, steps[0]);
      StepPools(gs, w, steps[0]);
      RunPools(gs, Apply(gs, w, steps[0]), steps[1..]);
    }
  }

  /** And where every size is a multiple of boost's alignment, each pool keeps its whole invariant. */
  lemma AlignedPools(gs: seq<Geometry>, threads: nat, steps: seq<Step>)
    requires Aligned(gs) && IsRun(gs, Init(|gs|, threads), steps)
    ensures Pools(gs, After(gs, Init(|gs|, threads), steps))
  {
    RunPools(gs, Init(|gs|, threads), steps);
  }
}
