/**
 ChunkPool and its boost allocator.  Addresses are natural numbers.  std::malloc and boost::pool
 are foreign: a caller of `Get` supplies what they would choose, the address `memory` of a new
 block and the number `n` of partitions boost asks for, under malloc's own contract that the
 block overlaps no live block.
 */
module ChunkMgr {
  import opened Common

  /** `stride` is buffer_size + sizeof(Chunk); `partition` is the size boost rounds it up to and
      `trailer` the bytes boost keeps behind the partitions of a block. */
  datatype Geometry = Geometry(stride: nat, partition: nat, trailer: nat)
  {
    predicate Valid() {
      0 < stride <= partition < 2 * stride && trailer < stride
    }

    /** The size boost asks the allocator for. */
    function Bytes(n: nat): nat {
      n * partition + trailer
    }
  }

  /** The two maps and the counter of a ChunkPoolContext. */
  datatype Context = Context(id: nat, chunkToId: map<nat, nat>, idToChunk: map<nat, nat>)

  datatype Block = Block(base: nat, size: nat)
  {
    predicate Holds(a: nat, len: nat) {
      base <= a && a + len <= base + size
    }

    predicate Apart(b: Block) {
      base + size <= b.base || b.base + b.size <= base
    }
  }

  /** A pool: its context, boost's free list and blocks, `used_buffers`, and the chunks handed out. */
  datatype Pool = Pool(ctx: Context, store: seq<nat>, blocks: seq<Block>, used: nat, out: set<nat>)

  const EMPTY := Pool(Context(0, map[], map[]), [], [], 0, {})

  // ---------- the operations on values ----------

  /** The address of the k-th piece of a block. */
  function Slot(memory: nat, size: nat, k: nat): nat {
    memory + k * size
  }

  /** PoolAllocator::malloc registers `n` consecutive chunks from `memory` on. */
  function Carve(c: Context, stride: nat, memory: nat, n: nat): Context {
    if n == 0 then c else
      var d := Carve(c, stride, memory, n - 1);
      var a := Slot(memory, stride, n - 1);
      Context(d.id + 1, d.chunkToId[a := d.id], d.idToChunk[d.id := a])
  }

  /** boost segregates a block into `n` partitions in ascending order. */
  function Partitions(memory: nat, partition: nat, n: nat): seq<nat> {
    seq(n, k requires 0 <= k < n => Slot(memory, partition, k))
  }

  function Grow(g: Geometry, p: Pool, memory: nat, n: nat): Pool
    requires 0 < g.stride
  {
    p.(ctx := Carve(p.ctx, g.stride, memory, g.Bytes(n) / g.stride),
       store := Partitions(memory, g.partition, n),
       blocks := p.blocks + [Block(memory, g.Bytes(n))])
  }

  /** std::map::operator[]: a missing key is inserted with id 0. */
  function Touch(c: Context, a: nat): Context {
    if a in c.chunkToId then c else c.(chunkToId := c.chunkToId[a := 0])
  }

  /** ChunkPool::get(Connection*): the new pool, the chunk and its buffer id. */
  function GetSpec(g: Geometry, p: Pool, memory: nat, n: nat): (Pool, nat, nat)
    requires 0 < g.stride && 0 < n
  {
    var q := if p.store == [] then Grow(g, p, memory, n) else p;
    var ck := q.store[0];
    var c := Touch(q.ctx, ck);
    (q.(ctx := c, store := q.store[1..], used := q.used + 1, out := q.out + {ck}), ck, c.chunkToId[ck])
  }

  /** ChunkPool::reclaim of an outstanding chunk. */
  function ReclaimSpec(p: Pool, ck: nat): Pool
    requires 0 < p.used
  {
    p.(store := [ck] + p.store, used := p.used - 1, out := p.out - {ck})
  }

  // ---------- the classes ----------

  class ChunkPoolContext {
    const stride: nat
    var id: nat
    var chunkToId: map<nat, nat>
    var idToChunk: map<nat, nat>

    constructor (stride: nat)
      ensures this.stride == stride && Value() == EMPTY.ctx
    {
      this.stride := stride;
      id, chunkToId, idToChunk := 0, map[], map[];
    }

    function Value(): Context
      reads this
    {
      Context(id, chunkToId, idToChunk)
    }
  }

  /** The allocator's static members: one context pointer for all pools. */
  class PoolAllocator {
    var context: ChunkPoolContext?

    method UpdateContext(c: ChunkPoolContext)
      modifies this
      ensures context == c
    {
      context := c;
    }

    /** The carving loop; it writes into whatever context the static pointer designates. */
    method Malloc(bytes: nat, memory: nat) returns (block: nat)
      requires context != null && 0 < context.stride
      modifies context
      ensures block == memory
      ensures context.Value() == Carve(old(context.Value()), context.stride, memory, bytes / context.stride)
    {
      var c := context;
      var bufferNum := bytes / c.stride;
      var ptr := memory;
      var i := 0;
      while i < bufferNum
        invariant 0 <= i <= bufferNum && ptr == Slot(memory, c.stride, i)
        invariant c.Value() == Carve(old(context.Value()), c.stride, memory, i)
      {
        c.chunkToId := c.chunkToId[ptr := c.id];
        c.idToChunk := c.idToChunk[c.id := ptr];
        c.id := c.id + 1;
        ptr := ptr + c.stride;
        i := i + 1;
        assert i * c.stride == (i - 1) * c.stride + c.stride;
      }
      block := memory;
    }
  }

  class ChunkPool {
    const allocator: PoolAllocator
    const ctx: ChunkPoolContext
    const g: Geometry
    var store: seq<nat>
    var used: nat
    ghost var blocks: seq<Block>
    ghost var out: set<nat>

    constructor (allocator: PoolAllocator, g: Geometry)
      requires g.Valid()
      ensures this.allocator == allocator && this.g == g && ctx.stride == g.stride && fresh(ctx)
      ensures Value() == EMPTY
    {
      this.allocator, this.g := allocator, g;
      ctx := new ChunkPoolContext(g.stride);
      store, used, blocks, out := [], 0, [], {};
    }

    ghost function Value(): Pool
      reads this, ctx
    {
      Pool(ctx.Value(), store, blocks, used, out)
    }

    /** boost::pool::malloc with an empty free list, behind update_context. */
    method SystemMalloc(memory: nat, n: nat)
      requires g.Valid() && ctx.stride == g.stride && 0 < n
      modifies this, ctx, allocator
      ensures Value() == Grow(g, old(Value()), memory, n) && allocator.context == ctx
    {
      allocator.UpdateContext(ctx);
      var block := allocator.Malloc(g.Bytes(n), memory);
      store := Partitions(block, g.partition, n);
      blocks := blocks + [Block(memory, g.Bytes(n))];
    }

    /** Whatever the static pointer designated before, only this pool's context changes. */
    method Get(memory: nat, n: nat) returns (ck: nat, id: nat)
      requires g.Valid() && ctx.stride == g.stride && 0 < n
      modifies this, ctx, allocator
      ensures (Value(), ck, id) == GetSpec(g, old(Value()), memory, n)
    {
      if store == [] {
        SystemMalloc(memory, n);
      }
      ck := store[0];
      store := store[1..];
      used := used + 1;
      out := out + {ck};
      if ck !in ctx.chunkToId {
        ctx.chunkToId := ctx.chunkToId[ck := 0];
      }
      id := ctx.chunkToId[ck];
    }

    method GetById(id: nat) returns (ck: Option<nat>)
      ensures ck == if id in ctx.idToChunk then Some(ctx.idToChunk[id]) else None
    {
      if id !in ctx.idToChunk {
        return None;
      }
      ck := Some(ctx.idToChunk[id]);
    }

    method Reclaim(ck: nat)
      requires 0 < used
      modifies this
      ensures Value() == ReclaimSpec(old(Value()), ck)
    {
      store := [ck] + store;
      used := used - 1;
      out := out - {ck};
    }
  }
}
