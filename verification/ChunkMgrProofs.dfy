/** Properties of every run of a ChunkPool. */
module ChunkMgrProofs {
  import opened Common
  import opened ChunkMgr

  /** chunk_to_id_map and id_to_chunk_map are inverse bijections onto 0..id-1. */
  ghost predicate Bijection(c: Context) {
    && (forall i: nat :: i in c.idToChunk <==> i < c.id)
    && (forall i: nat :: i < c.id ==> c.idToChunk[i] in c.chunkToId && c.chunkToId[c.idToChunk[i]] == i)
    && (forall a :: a in c.chunkToId ==> c.chunkToId[a] < c.id && c.idToChunk[c.chunkToId[a]] == a)
  }

  /** Registered chunks overlap nowhere and each lies in one of the pool's blocks. */
  ghost predicate Disjoint(c: Context, stride: nat, blocks: seq<Block>) {
    && (forall a, b :: a in c.chunkToId && b in c.chunkToId && a != b ==> a + stride <= b || b + stride <= a)
    && (forall a :: a in c.chunkToId ==> InSomeBlock(blocks, a, stride))
  }

  ghost predicate InSomeBlock(blocks: seq<Block>, a: nat, stride: nat) {
    exists k :: 0 <= k < |blocks| && blocks[k].Holds(a, stride)
  }

  ghost predicate NoDuplicates(s: seq<nat>) {
    forall i, j :: 0 <= i < j < |s| ==> s[i] != s[j]
  }

  /** Every registered chunk is either free or handed out, never both, and the counters agree. */
  ghost predicate Conserved(p: Pool) {
    && NoDuplicates(p.store)
    && (forall a :: a in p.ctx.chunkToId <==> a in p.store || a in p.out)
    && (forall a :: a in p.store ==> a !in p.out)
    && p.used == |p.out|
    && p.ctx.id == |p.store| + p.used
  }

  /** The whole invariant of a pool. */
  ghost predicate Ok(g: Geometry, p: Pool) {
    Bijection(p.ctx) && Disjoint(p.ctx, g.stride, p.blocks) && Conserved(p)
  }

  /** malloc's contract for a new block. */
  ghost predicate FreshBlock(p: Pool, b: Block) {
    forall k :: 0 <= k < |p.blocks| ==> p.blocks[k].Apart(b)
  }

  // ---------- carving ----------

  /** The number of registered chunks is the number of partitions, whatever boost keeps behind
      them, as long as it is less than one chunk. */
  lemma BlockCount(n: nat, stride: nat, trailer: nat)
    requires trailer < stride
    ensures (n * stride + trailer) / stride == n
  {
    Quotient(n, stride, trailer);
  }

  lemma SlotsApart(memory: nat, size: nat, i: nat, j: nat)
    requires i < j
    ensures Slot(memory, size, i) + size <= Slot(memory, size, j)
  {
    MulMono(i + 1, j, size);
  }

  lemma PartitionsDistinct(memory: nat, size: nat, n: nat)
    requires 0 < size
    ensures NoDuplicates(Partitions(memory, size, n))
  {
    forall i, j | 0 <= i < j < n ensures Slot(memory, size, i) != Slot(memory, size, j) {
      SlotsApart(memory, size, i, j);
    }
  }

  /** Registering one chunk that overlaps no registered one. */
  lemma RegisterOk(c: Context, stride: nat, blocks: seq<Block>, a: nat)
    requires Bijection(c) && Disjoint(c, stride, blocks) && InSomeBlock(blocks, a, stride) && 0 < stride
    requires forall x :: x in c.chunkToId ==> x + stride <= a || a + stride <= x
    ensures var d := Context(c.id + 1, c.chunkToId[a := c.id], c.idToChunk[c.id := a]);
            Bijection(d) && Disjoint(d, stride, blocks)
  {
  }

  lemma MoreBlocks(c: Context, stride: nat, blocks: seq<Block>, b: Block)
    requires Disjoint(c, stride, blocks)
    ensures Disjoint(c, stride, blocks + [b])
  {
    forall a | a in c.chunkToId ensures InSomeBlock(blocks + [b], a, stride) {
      assert InSomeBlock(blocks, a, stride);
      var k :| 0 <= k < |blocks| && blocks[k].Holds(a, stride);
      assert (blocks + [b])[k].Holds(a, stride);
    }
  }

  /** Every chunk registered so far lies outside the block. */
  ghost predicate Outside(c: Context, stride: nat, b: Block) {
    forall a :: a in c.chunkToId ==> a + stride <= b.base || b.base + b.size <= a
  }

  lemma {:induction false} CarveKeys(c: Context, stride: nat, memory: nat, n: nat)
    ensures forall a :: a in Carve(c, stride, memory, n).chunkToId <==>
              a in c.chunkToId || a in Partitions(memory, stride, n)
  {
    if n > 0 {
      CarveKeys(c, stride, memory, n - 1);
      assert Partitions(memory, stride, n) == Partitions(memory, stride, n - 1) + [Slot(memory, stride, n - 1)];
    }
  }

  /** The k-th chunk of a block gets the k-th id from the counter's old value on. */
  lemma {:induction false} CarveIds(c: Context, stride: nat, memory: nat, n: nat)
    requires 0 < stride
    ensures Carve(c, stride, memory, n).id == c.id + n
    ensures forall k :: 0 <= k < n ==>
              var d := Carve(c, stride, memory, n);
              Slot(memory, stride, k) in d.chunkToId && d.chunkToId[Slot(memory, stride, k)] == c.id + k
  {
    if n > 0 {
      CarveIds(c, stride, memory, n - 1);
      forall k | 0 <= k < n - 1 ensures Slot(memory, stride, k) != Slot(memory, stride, n - 1) {
        SlotsApart(memory, stride, k, n - 1);
      }
    }
  }

  /** The next chunk of a block overlaps none registered before it. */
  lemma NextSlotFresh(c: Context, stride: nat, b: Block, n: nat, x: nat)
    requires 0 < stride && Outside(c, stride, b) && b.Holds(Slot(b.base, stride, n), stride)
    requires x in Carve(c, stride, b.base, n).chunkToId
    ensures var a := Slot(b.base, stride, n); x + stride <= a || a + stride <= x
  {
    CarveKeys(c, stride, b.base, n);
    if x !in c.chunkToId {
      var k :| 0 <= k < n && Partitions(b.base, stride, n)[k] == x;
      SlotsApart(b.base, stride, k, n);
    }
  }

  lemma {:induction false} CarveOk(c: Context, stride: nat, blocks: seq<Block>, b: Block, n: nat)
    requires 0 < stride && Bijection(c) && Disjoint(c, stride, blocks) && Outside(c, stride, b)
    requires b in blocks && Slot(b.base, stride, n) <= b.base + b.size
    ensures Bijection(Carve(c, stride, b.base, n)) && Disjoint(Carve(c, stride, b.base, n), stride, blocks)
  {
    if n > 0 {
      var d, a := Carve(c, stride, b.base, n - 1), Slot(b.base, stride, n - 1);
      assert a + stride == Slot(b.base, stride, n);
      CarveOk(c, stride, blocks, b, n - 1);
      var k :| 0 <= k < |blocks| && blocks[k] == b;
      assert blocks[k].Holds(a, stride);
      forall x | x in d.chunkToId ensures x + stride <= a || a + stride <= x {
        NextSlotFresh(c, stride, b, n - 1, x);
      }
      RegisterOk(d, stride, blocks, a);
    }
  }

  lemma FreshIsOutside(g: Geometry, p: Pool, b: Block)
    requires Disjoint(p.ctx, g.stride, p.blocks) && FreshBlock(p, b)
    ensures Outside(p.ctx, g.stride, b)
  {
    forall a | a in p.ctx.chunkToId ensures a + g.stride <= b.base || b.base + b.size <= a {
      assert InSomeBlock(p.blocks, a, g.stride);
    }
  }

  lemma OutsideSlot(g: Geometry, p: Pool, memory: nat, n: nat, k: nat)
    requires Outside(p.ctx, g.stride, Block(memory, g.Bytes(n))) && g.stride == g.partition && 0 < g.stride && k < n
    ensures Slot(memory, g.stride, k) !in p.ctx.chunkToId
  {
    SlotsApart(memory, g.stride, k, n);
  }

  lemma GrowMaps(g: Geometry, p: Pool, memory: nat, n: nat)
    requires g.Valid() && g.stride == g.partition && Bijection(p.ctx) && Disjoint(p.ctx, g.stride, p.blocks)
    requires FreshBlock(p, Block(memory, g.Bytes(n)))
    ensures var q := Grow(g, p, memory, n);
            Bijection(q.ctx) && Disjoint(q.ctx, g.stride, q.blocks) && Outside(p.ctx, g.stride, Block(memory, g.Bytes(n)))
  {
    var b := Block(memory, g.Bytes(n));
    BlockCount(n, g.stride, g.trailer);
    FreshIsOutside(g, p, b);
    MoreBlocks(p.ctx, g.stride, p.blocks, b);
    CarveOk(p.ctx, g.stride, p.blocks + [b], b, n);
  }

  lemma GrowConserved(g: Geometry, p: Pool, memory: nat, n: nat)
    requires g.Valid() && g.stride == g.partition && Conserved(p) && p.store == []
    requires Outside(p.ctx, g.stride, Block(memory, g.Bytes(n)))
    ensures Conserved(Grow(g, p, memory, n))
  {
    BlockCount(n, g.stride, g.trailer);
    CarveKeys(p.ctx, g.stride, memory, n);
    CarveIds(p.ctx, g.stride, memory, n);
    PartitionsDistinct(memory, g.stride, n);
    forall k | 0 <= k < n ensures Slot(memory, g.stride, k) !in p.ctx.chunkToId {
      OutsideSlot(g, p, memory, n, k);
    }
  }

  lemma GrowOk(g: Geometry, p: Pool, memory: nat, n: nat)
    requires g.Valid() && g.stride == g.partition && Ok(g, p) && p.store == []
    requires FreshBlock(p, Block(memory, g.Bytes(n)))
    ensures Ok(g, Grow(g, p, memory, n))
  {
    GrowMaps(g, p, memory, n);
    GrowConserved(g, p, memory, n);
  }

  // ---------- one operation ----------

  /** A get keeps the invariant and returns a chunk that was not outstanding, under its own id. */
  lemma GetOk(g: Geometry, p: Pool, memory: nat, n: nat)
    requires g.Valid() && g.stride == g.partition && Ok(g, p) && 0 < n
    requires p.store == [] ==> FreshBlock(p, Block(memory, g.Bytes(n)))
    ensures var (q, ck, id) := GetSpec(g, p, memory, n);
            && Ok(g, q) && ck !in p.out && q.out == p.out + {ck}
            && id < q.ctx.id && q.ctx.idToChunk[id] == ck && q.ctx.chunkToId[ck] == id
  {
    if p.store == [] {
      GrowOk(g, p, memory, n);
    }
    var q := if p.store == [] then Grow(g, p, memory, n) else p;
    TakeOk(g, q);
  }

  /** Handing out the head of the free list. */
  lemma TakeOk(g: Geometry, q: Pool)
    requires Ok(g, q) && q.store != []
    ensures q.store[0] in q.ctx.chunkToId && q.store[0] !in q.out
    ensures Ok(g, q.(store := q.store[1..], used := q.used + 1, out := q.out + {q.store[0]}))
  {
    assert q.store == [q.store[0]] + q.store[1..];
  }

  lemma ReclaimOk(g: Geometry, p: Pool, ck: nat)
    requires Ok(g, p) && ck in p.out
    ensures 0 < p.used && Ok(g, ReclaimSpec(p, ck))
  {
  }

  // ---------- every run ----------

  /** A request of the application, with the choices malloc and boost would make. */
  datatype Op = OpGet(memory: nat, n: nat) | OpReclaim(ck: nat)

  ghost predicate CanDo(g: Geometry, p: Pool, op: Op) {
    match op
    case OpGet(memory, n) => 0 < n && (p.store == [] ==> FreshBlock(p, Block(memory, g.Bytes(n))))
    case OpReclaim(ck) => ck in p.out && 0 < p.used
  }

  function Do(g: Geometry, p: Pool, op: Op): Pool
    requires 0 < g.stride && (op.OpGet? ==> 0 < op.n) && (op.OpReclaim? ==> 0 < p.used)
  {
    match op
    case OpGet(memory, n) => GetSpec(g, p, memory, n).0
    case OpReclaim(ck) => ReclaimSpec(p, ck)
  }

  ghost predicate IsRun(g: Geometry, p: Pool, ops: seq<Op>)
    requires g.Valid()
    decreases |ops|
  {
    ops == [] || (CanDo(g, p, ops[0]) && IsRun(g, Do(g, p, ops[0]), ops[1..]))
  }

  ghost function After(g: Geometry, p: Pool, ops: seq<Op>): Pool
    requires g.Valid() && IsRun(g, p, ops)
    decreases |ops|
  {
    if ops == [] then p else After(g, Do(g, p, ops[0]), ops[1..])
  }

  lemma {:induction false} RunOk(g: Geometry, p: Pool, ops: seq<Op>)
    requires g.Valid() && g.stride == g.partition && Ok(g, p) && IsRun(g, p, ops)
    ensures Ok(g, After(g, p, ops))
    decreases |ops|
  {
    if ops != [] {
      match ops[0]
      case OpGet(memory, n) =>
        GetOk(g, p, memory, n);
        RunOk(g, Do(g, p, ops[0]), ops[1..]);
      case OpReclaim(ck) =>
        ReclaimOk(g, p, ck);
        RunOk(g, Do(g, p, ops[0]), ops[1..]);
    }
  }

  /** After any gets and reclaims of outstanding chunks: the maps are inverse bijections onto
      0..id-1, the chunks overlap nowhere and lie in their blocks, and
      id = free count + used_buffers with every chunk free or handed out. */
  lemma {:induction false} PoolRuns(g: Geometry, ops: seq<Op>)
    requires g.Valid() && g.stride == g.partition && IsRun(g, EMPTY, ops)
    ensures Ok(g, After(g, EMPTY, ops))
  {
    RunOk(g, EMPTY, ops);
  }

  // ---------- ids in order ----------

  /** The chunk given back last is the one the next get returns, under the same id and without growing, and
      the pool is then what it was before the two. */
  lemma ReclaimThenGet(g: Geometry, p: Pool, ck: nat, memory: nat, n: nat)
    requires 0 < g.stride && Ok(g, p) && ck in p.out && 0 < n
    ensures 0 < p.used && ck in p.ctx.chunkToId
    ensures GetSpec(g, ReclaimSpec(p, ck), memory, n) == (p, ck, p.ctx.chunkToId[ck])
  {
    ReclaimOk(g, p, ck);
    assert p.out - {ck} + {ck} == p.out;
    assert ([ck] + p.store)[1..] == p.store;
  }

  /** The free list is the tail of the id order: nothing was ever reclaimed. */
  ghost predicate Fresh(p: Pool) {
    forall k :: 0 <= k < |p.store| ==>
      p.store[k] in p.ctx.chunkToId && p.ctx.chunkToId[p.store[k]] == p.used + k
  }

  lemma GrowFresh(g: Geometry, p: Pool, memory: nat, n: nat)
    requires g.Valid() && g.stride == g.partition && p.ctx.id == p.used
    ensures Fresh(Grow(g, p, memory, n))
  {
    BlockCount(n, g.stride, g.trailer);
    CarveIds(p.ctx, g.stride, memory, n);
  }

  predicate OnlyGets(ops: seq<Op>) {
    forall i :: 0 <= i < |ops| ==> ops[i].OpGet?
  }

  lemma GetFresh(g: Geometry, p: Pool, memory: nat, n: nat)
    requires g.Valid() && g.stride == g.partition && Ok(g, p) && Fresh(p) && 0 < n
    requires p.store == [] ==> FreshBlock(p, Block(memory, g.Bytes(n)))
    ensures var (q, ck, id) := GetSpec(g, p, memory, n);
            && id == p.used && Fresh(q) && q.used == p.used + 1
            && id in q.ctx.idToChunk && q.ctx.idToChunk[id] == ck
  {
    GetOk(g, p, memory, n);
    if p.store == [] {
      GrowFresh(g, p, memory, n);
    }
  }

  lemma StepFresh(g: Geometry, p: Pool, op: Op)
    requires g.Valid() && g.stride == g.partition && Ok(g, p) && Fresh(p) && op.OpGet? && CanDo(g, p, op)
    ensures var q := Do(g, p, op); Ok(g, q) && Fresh(q) && q.used == p.used + 1
  {
    GetOk(g, p, op.memory, op.n);
    GetFresh(g, p, op.memory, op.n);
  }

  lemma {:induction false} RunFresh(g: Geometry, p: Pool, ops: seq<Op>)
    requires g.Valid() && g.stride == g.partition && Ok(g, p) && Fresh(p) && IsRun(g, p, ops) && OnlyGets(ops)
    ensures var q := After(g, p, ops); Ok(g, q) && Fresh(q) && q.used == p.used + |ops|
    decreases |ops|
  {
    if ops != [] {
      StepFresh(g, p, ops[0]);
      RunFresh(g, Do(g, p, ops[0]), ops[1..]);
    }
  }

  /** With no reclaims the get after k others returns id k, and get(k) then returns that chunk,
      across any number of block growths. */
  lemma {:induction false} FreshOrderIds(g: Geometry, ops: seq<Op>, memory: nat, n: nat)
    requires g.Valid() && g.stride == g.partition && IsRun(g, EMPTY, ops) && OnlyGets(ops)
    requires CanDo(g, After(g, EMPTY, ops), OpGet(memory, n))
    ensures var (q, ck, id) := GetSpec(g, After(g, EMPTY, ops), memory, n);
            id == |ops| && id in q.ctx.idToChunk && q.ctx.idToChunk[id] == ck
  {
    RunFresh(g, EMPTY, ops);
    GetFresh(g, After(g, EMPTY, ops), memory, n);
  }

  // ---------- what the stride must satisfy ----------

  /** The geometry of a pool of chunks of `stride` bytes: boost rounds the partition up to a multiple
      of its alignment, the allocator's stride stays as requested. */
  function Rounded(stride: nat, align: nat, trailer: nat): (g: Geometry)
    requires 0 < align <= stride && trailer < stride
    ensures g.Valid() && (g.partition == stride <==> stride % align == 0)
  {
    var r := stride % align;
    Geometry(stride, if r == 0 then stride else stride + align - r, trailer)
  }

  /** It is the least multiple of the alignment that holds a chunk. */
  lemma RoundedIsLeast(stride: nat, align: nat, trailer: nat, m: nat)
    requires 0 < align <= stride && trailer < stride
    ensures var g := Rounded(stride, align, trailer);
            g.partition % align == 0 && (stride <= m * align ==> g.partition <= m * align)
  {
    var q, r := stride / align, stride % align;
    assert stride == q * align + r;
    if r != 0 {
      Quotient(q + 1, align, 0);
      assert Rounded(stride, align, trailer).partition == (q + 1) * align;
      if m <= q {
        MulMono(m, q, align);
      } else {
        MulMono(q + 1, m, align);
      }
    }
  }

  /** The address of boost's second chunk is registered exactly when the requested size is boost's partition size. */
  lemma SecondSlot(g: Geometry, memory: nat, n: nat)
    requires g.Valid() && 2 <= n
    ensures var m := g.Bytes(n) / g.stride;
            Slot(memory, g.partition, 1) in Carve(EMPTY.ctx, g.stride, memory, m).chunkToId <==> g.stride == g.partition
  {
    var m := g.Bytes(n) / g.stride;
    AtLeastTwo(g, n);
    CarveKeys(EMPTY.ctx, g.stride, memory, m);
    var c := Carve(EMPTY.ctx, g.stride, memory, m);
    var second := memory + g.partition;
    assert Slot(memory, g.stride, 1) == memory + g.stride && Slot(memory, g.partition, 1) == second;
    if g.stride == g.partition {
      assert Partitions(memory, g.stride, m)[1] == second;
    } else if second in c.chunkToId {
      var k :| 0 <= k < m && Partitions(memory, g.stride, m)[k] == second;
      if 2 <= k {
        MulMono(2, k, g.stride);
      }
      assert false;
    }
  }

  /** The second chunk boost hands out is registered exactly when the requested size is boost's
      partition size; otherwise it is given id 0, the id of the first. */
  lemma SecondIdExactly(g: Geometry, memory: nat, n: nat)
    requires g.Valid() && 2 <= n
    ensures var (p, first, id0) := GetSpec(g, EMPTY, memory, n);
            var (q, second, id1) := GetSpec(g, p, memory, n);
            && id0 == 0 && first != second
            && (id1 == 1 <==> g.stride == g.partition) && (id1 == 0 <==> g.stride != g.partition)
  {
    AtLeastTwo(g, n);
    CarveIds(EMPTY.ctx, g.stride, memory, g.Bytes(n) / g.stride);
    SecondSlot(g, memory, n);
    assert Slot(memory, g.stride, 0) == memory && Slot(memory, g.stride, 1) == memory + g.stride;
    assert Slot(memory, g.partition, 0) == memory && Slot(memory, g.partition, 1) == memory + g.partition;
  }

  lemma AtLeastTwo(g: Geometry, n: nat)
    requires g.Valid() && 2 <= n
    ensures 2 <= g.Bytes(n) / g.stride
  {
    MulMono(2, n, g.partition);
    assert 2 * g.stride <= g.Bytes(n);
  }

  /** A pool keeps its invariant over all its runs exactly when the chunk size it asks for, buffer
      and header, is a multiple of boost's alignment. */
  lemma PoolSoundExactly(stride: nat, align: nat, trailer: nat)
    requires 0 < align <= stride && trailer < stride
    ensures var g := Rounded(stride, align, trailer);
            (forall ops :: IsRun(g, EMPTY, ops) ==> Ok(g, After(g, EMPTY, ops))) <==> stride % align == 0
  {
    var g := Rounded(stride, align, trailer);
    if stride % align == 0 {
      forall ops | IsRun(g, EMPTY, ops) ensures Ok(g, After(g, EMPTY, ops)) {
        PoolRuns(g, ops);
      }
    } else {
      MisalignedPool(g);
    }
  }

  /** Otherwise two gets suffice to break it. */
  lemma MisalignedPool(g: Geometry)
    requires g.Valid() && g.stride != g.partition
    ensures var ops := [OpGet(0, 2), OpGet(0, 2)]; IsRun(g, EMPTY, ops) && !Ok(g, After(g, EMPTY, ops))
  {
    var ops := [OpGet(0, 2), OpGet(0, 2)];
    var (p, first, id0) := GetSpec(g, EMPTY, 0, 2);
    var (q, second, id1) := GetSpec(g, p, 0, 2);
    SecondIdExactly(g, 0, 2);
    assert ops[1..] == [OpGet(0, 2)] && ops[1..][1..] == [];
    assert Do(g, EMPTY, ops[0]) == p && Do(g, p, ops[1]) == q;
    assert first in q.ctx.chunkToId && second in q.ctx.chunkToId;
    assert q.ctx.chunkToId[first] == 0 && q.ctx.chunkToId[second] == 0;
  }
}
