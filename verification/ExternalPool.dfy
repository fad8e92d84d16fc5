/**
 Buffer provisioning of the Java binding: MemPool allocates direct buffers under consecutive ids
 and registers each with the native ExternalChunkMgr; a connect or an accept reallocates until
 enough chunks are free and MsgConnection::init then takes two per window slot.
 */
module ExternalPool {
  import opened Common

  datatype Chunk = Chunk(buffer: nat, capacity: nat, id: nat)

  /** ExternalChunkMgr: the free vector and the id map, whose operator[] can hold nulls. */
  datatype Mgr = Mgr(bufs: seq<Chunk>, bufMap: map<nat, Option<Chunk>>)

  /** MemPool: the Java map from id to the buffer's address, and the id counter. */
  datatype Java = Java(bufferMap: map<nat, nat>, seqId: nat)

  datatype Sides = Sides(mgr: Mgr, java: Java)

  const NOTHING := Sides(Mgr([], map[]), Java(map[], 0))

  // ---------- the operations on values ----------

  function Put(m: Mgr, ck: Chunk): Mgr {
    Mgr(m.bufs + [ck], if ck.id in m.bufMap then m.bufMap else m.bufMap[ck.id := Some(ck)])
  }

  function Take(m: Mgr): (Mgr, Option<Chunk>) {
    if m.bufs == [] then (m, None)
    else (m.(bufs := m.bufs[..|m.bufs| - 1]), Some(m.bufs[|m.bufs| - 1]))
  }

  function Find(m: Mgr, id: nat): (Mgr, Option<Chunk>) {
    if id in m.bufMap then (m, m.bufMap[id]) else (m.(bufMap := m.bufMap[id := None]), None)
  }

  /** `direct(k)` is the address of the k-th buffer ByteBuffer.allocateDirect returns. */
  function Alloc(s: Sides, size: nat, direct: nat -> nat): Sides {
    var id := s.java.seqId;
    Sides(Put(s.mgr, Chunk(direct(id), size, id)), Java(s.java.bufferMap[id := direct(id)], id + 1))
  }

  function AllocMany(s: Sides, size: nat, direct: nat -> nat, n: nat): Sides {
    if n == 0 then s else Alloc(AllocMany(s, size, direct, n - 1), size, direct)
  }

  // ---------- the classes ----------

  class ExternalChunkMgr {
    var bufs: seq<Chunk>
    var bufMap: map<nat, Option<Chunk>>

    constructor ()
      ensures Value() == NOTHING.mgr
    {
      bufs, bufMap := [], map[];
    }

    function Value(): Mgr
      reads this
    {
      Mgr(bufs, bufMap)
    }

    method Reclaim(ck: Chunk)
      modifies this
      ensures Value() == Put(old(Value()), ck)
    {
      if ck.id !in bufMap {
        bufMap := bufMap[ck.id := Some(ck)];
      }
      bufs := bufs + [ck];
    }

    method Get() returns (ck: Option<Chunk>)
      modifies this
      ensures (Value(), ck) == Take(old(Value()))
    {
      if bufs == [] {
        return None;
      }
      ck := Some(bufs[|bufs| - 1]);
      bufs := bufs[..|bufs| - 1];
    }

    method GetById(id: nat) returns (ck: Option<Chunk>)
      modifies this
      ensures (Value(), ck) == Find(old(Value()), id)
    {
      if id !in bufMap {
        bufMap := bufMap[id := None];
      }
      ck := bufMap[id];
    }

    method FreeSize() returns (n: nat)
      ensures n == |bufs|
    {
      n := |bufs|;
    }
  }

  class MemPool {
    const mgr: ExternalChunkMgr
    const bufferSize: nat
    const nextBufferNum: nat
    const direct: nat -> nat
    var bufferMap: map<nat, nat>
    var seqId: nat

    constructor (mgr: ExternalChunkMgr, initBufferNum: nat, bufferSize: nat, nextBufferNum: nat, direct: nat -> nat)
      modifies mgr
      ensures this.mgr == mgr && this.bufferSize == bufferSize && this.nextBufferNum == nextBufferNum && this.direct == direct
      ensures Value() == AllocMany(Sides(old(mgr.Value()), NOTHING.java), bufferSize, direct, initBufferNum)
    {
      this.mgr, this.bufferSize, this.nextBufferNum, this.direct := mgr, bufferSize, nextBufferNum, direct;
      bufferMap, seqId := map[], 0;
      new;
      var i := 0;
      while i < initBufferNum
        invariant 0 <= i <= initBufferNum
        invariant Value() == AllocMany(Sides(old(mgr.Value()), NOTHING.java), bufferSize, direct, i)
      {
        AllocOne();
        i := i + 1;
      }
    }

    function Value(): Sides
      reads this, mgr
    {
      Sides(mgr.Value(), Java(bufferMap, seqId))
    }

    method AllocOne()
      modifies this, mgr
      ensures Value() == Alloc(old(Value()), bufferSize, direct)
    {
      var byteBuffer, bufferId := direct(seqId), seqId;
      seqId := seqId + 1;
      bufferMap := bufferMap[bufferId := byteBuffer];
      mgr.Reclaim(Chunk(byteBuffer, bufferSize, bufferId));
    }

    method Realloc()
      modifies this, mgr
      ensures Value() == AllocMany(old(Value()), bufferSize, direct, nextBufferNum)
    {
      var i := 0;
      while i < nextBufferNum
        invariant 0 <= i <= nextBufferNum
        invariant Value() == AllocMany(old(Value()), bufferSize, direct, i)
      {
        AllocOne();
        i := i + 1;
      }
    }

    method GetBuffer(id: nat) returns (buffer: Option<nat>)
      ensures buffer == if id in bufferMap then Some(bufferMap[id]) else None
    {
      buffer := if id in bufferMap then Some(bufferMap[id]) else None;
    }
  }

  /** The guard of native_connect and of the accept branch: reallocate until enough is free. */
  method Provision(pool: MemPool, bufferNum: nat)
    requires 0 < pool.nextBufferNum
    modifies pool, pool.mgr
    ensures pool.Value() == Provisioned(old(pool.Value()), bufferNum, pool.nextBufferNum, pool.bufferSize, pool.direct)
  {
    while |pool.mgr.bufs| < 2 * bufferNum
      invariant Provisioned(pool.Value(), bufferNum, pool.nextBufferNum, pool.bufferSize, pool.direct) ==
                Provisioned(old(pool.Value()), bufferNum, pool.nextBufferNum, pool.bufferSize, pool.direct)
      decreases 2 * bufferNum - |pool.mgr.bufs|
    {
      AllocManyFree(pool.Value(), pool.bufferSize, pool.direct, pool.nextBufferNum);
      pool.Realloc();
    }
  }

  function Provisioned(s: Sides, bufferNum: nat, next: nat, size: nat, direct: nat -> nat): Sides
    requires 0 < next
    decreases 2 * bufferNum - |s.mgr.bufs|
  {
    if 2 * bufferNum <= |s.mgr.bufs| then s
    else
      AllocManyFree(s, size, direct, next);
      Provisioned(AllocMany(s, size, direct, next), bufferNum, next, size, direct)
  }

  lemma {:induction false} AllocManyFree(s: Sides, size: nat, direct: nat -> nat, n: nat)
    ensures |AllocMany(s, size, direct, n).mgr.bufs| == |s.mgr.bufs| + n
    ensures AllocMany(s, size, direct, n).java.seqId == s.java.seqId + n
  {
    if n > 0 {
      AllocManyFree(s, size, direct, n - 1);
    }
  }

  /** A connection of the Java binding after its endpoint is enabled. */
  class ExternalConnection {
    const mgr: ExternalChunkMgr
    const bufferNum: nat
    var posted: seq<Chunk>
    var sendChunks: seq<Chunk>

    constructor (mgr: ExternalChunkMgr, bufferNum: nat)
      ensures this.mgr == mgr && this.bufferNum == bufferNum && posted == [] && sendChunks == []
    {
      this.mgr, this.bufferNum := mgr, bufferNum;
      posted, sendChunks := [], [];
    }

    /** The posting loop of MsgConnection::init with external_service set: it fails exactly when
        fewer than 2 * bufferNum chunks are free, and then it has taken them all. */
    method Init() returns (ok: bool)
      requires posted == [] && sendChunks == []
      modifies this, mgr
      ensures ok <==> 2 * bufferNum <= |old(mgr.bufs)|
      ensures mgr.bufMap == old(mgr.bufMap)
      ensures ok ==> mgr.bufs == old(mgr.bufs)[..|old(mgr.bufs)| - 2 * bufferNum]
      ensures ok ==> posted == Every(old(mgr.bufs), 1, bufferNum) && sendChunks == Every(old(mgr.bufs), 2, bufferNum)
      ensures !ok ==> mgr.bufs == []
    {
      var size := 0;
      var n := |mgr.bufs|;
      while size < bufferNum
        invariant 0 <= size <= bufferNum && 2 * size <= n == |old(mgr.bufs)|
        invariant mgr.bufMap == old(mgr.bufMap) && mgr.bufs == old(mgr.bufs)[..n - 2 * size]
        invariant posted == Every(old(mgr.bufs), 1, size) && sendChunks == Every(old(mgr.bufs), 2, size)
      {
        var ck := mgr.Get();
        if ck.None? {
          return false;
        }
        posted := posted + [ck.value];
        ck := mgr.Get();
        if ck.None? {
          return false;
        }
        sendChunks := sendChunks + [ck.value];
        size := size + 1;
      }
      ok := true;
    }
  }

  /** Every second chunk from the end of the free vector: 1st, 3rd, ... or 2nd, 4th, ... */
  function Every(bufs: seq<Chunk>, first: nat, n: nat): (r: seq<Chunk>)
    requires 1 <= first <= 2 && 2 * n <= |bufs|
    ensures |r| == n
  {
    seq(n, k requires 0 <= k < n => bufs[|bufs| - first - 2 * k])
  }

  // ---------- what both sides agree on ----------

  /** Both id maps cover exactly 0..seqId-1, and each id denotes the same memory on both sides. */
  ghost predicate Agree(s: Sides, size: nat, direct: nat -> nat) {
    && (forall i: nat :: i in s.java.bufferMap <==> i < s.java.seqId)
    && (forall i: nat :: i in s.mgr.bufMap <==> i < s.java.seqId)
    && (forall i: nat :: i < s.java.seqId ==>
          s.mgr.bufMap[i] == Some(Chunk(direct(i), size, i)) && s.java.bufferMap[i] == direct(i))
  }

  /** The free vector holds known chunks, none twice. */
  ghost predicate Stocked(s: Sides, size: nat, direct: nat -> nat) {
    && (forall k :: 0 <= k < |s.mgr.bufs| ==>
          s.mgr.bufs[k].id < s.java.seqId && s.mgr.bufs[k] == Chunk(direct(s.mgr.bufs[k].id), size, s.mgr.bufs[k].id))
    && (forall j, k :: 0 <= j < k < |s.mgr.bufs| ==> s.mgr.bufs[j].id != s.mgr.bufs[k].id)
  }

  ghost predicate Ok(s: Sides, size: nat, direct: nat -> nat) {
    Agree(s, size, direct) && Stocked(s, size, direct)
  }

  lemma {:induction false} AllocManyOk(s: Sides, size: nat, direct: nat -> nat, n: nat)
    requires Ok(s, size, direct)
    ensures Ok(AllocMany(s, size, direct, n), size, direct)
  {
    if n > 0 {
      AllocManyOk(s, size, direct, n - 1);
      AllocOk(AllocMany(s, size, direct, n - 1), size, direct);
    }
  }

  lemma AllocOk(s: Sides, size: nat, direct: nat -> nat)
    requires Ok(s, size, direct)
    ensures Ok(Alloc(s, size, direct), size, direct)
  {
    AllocAgrees(s, size, direct);
  }

  lemma AllocAgrees(s: Sides, size: nat, direct: nat -> nat)
    requires Agree(s, size, direct)
    ensures Agree(Alloc(s, size, direct), size, direct)
  {
  }

  /** Provisioning keeps both sides in agreement and leaves enough free chunks; what is free and
      what was allocated grow alike. */
  lemma {:induction false} ProvisionedOk(s: Sides, bufferNum: nat, next: nat, size: nat, direct: nat -> nat)
    requires 0 < next && Ok(s, size, direct)
    ensures var t := Provisioned(s, bufferNum, next, size, direct);
            && Ok(t, size, direct) && 2 * bufferNum <= |t.mgr.bufs|
            && t.java.seqId - |t.mgr.bufs| == s.java.seqId - |s.mgr.bufs|
            && (2 * bufferNum <= |s.mgr.bufs| ==> t == s)
            && (|s.mgr.bufs| < 2 * bufferNum ==> |t.mgr.bufs| < 2 * bufferNum + next)
    decreases 2 * bufferNum - |s.mgr.bufs|
  {
    if |s.mgr.bufs| < 2 * bufferNum {
      AllocManyFree(s, size, direct, next);
      AllocManyOk(s, size, direct, next);
      ProvisionedOk(AllocMany(s, size, direct, next), bufferNum, next, size, direct);
    }
  }

  function Reallocs(s: Sides, size: nat, direct: nat -> nat, next: nat, k: nat): Sides {
    if k == 0 then s else AllocMany(Reallocs(s, size, direct, next, k - 1), size, direct, next)
  }

  lemma {:induction false} ReallocsFree(s: Sides, size: nat, direct: nat -> nat, next: nat, k: nat)
    ensures |Reallocs(s, size, direct, next, k).mgr.bufs| == |s.mgr.bufs| + k * next
  {
    if k > 0 {
      ReallocsFree(s, size, direct, next, k - 1);
      AllocManyFree(Reallocs(s, size, direct, next, k - 1), size, direct, next);
    }
  }

  /** The guard loop terminates exactly when enough is free already or nextBufferNum is positive. */
  lemma ProvisionTerminatesExactly(s: Sides, bufferNum: nat, size: nat, direct: nat -> nat, next: nat)
    ensures (exists k :: Enough(s, bufferNum, size, direct, next, k)) <==> (2 * bufferNum <= |s.mgr.bufs| || 0 < next)
  {
    if 0 < next {
      EnoughAfter(s, bufferNum, size, direct, next);
    } else if 2 * bufferNum <= |s.mgr.bufs| {
      assert Enough(s, bufferNum, size, direct, next, 0);
    } else {
      forall k: nat ensures !Enough(s, bufferNum, size, direct, next, k) {
        ReallocsFree(s, size, direct, next, k);
      }
    }
  }

  /** The guard is met after `k` reallocations. */
  ghost predicate Enough(s: Sides, bufferNum: nat, size: nat, direct: nat -> nat, next: nat, k: nat) {
    2 * bufferNum <= |Reallocs(s, size, direct, next, k).mgr.bufs|
  }

  lemma EnoughAfter(s: Sides, bufferNum: nat, size: nat, direct: nat -> nat, next: nat)
    requires 0 < next
    ensures Enough(s, bufferNum, size, direct, next, 2 * bufferNum)
  {
    ReallocsFree(s, size, direct, next, 2 * bufferNum);
    assert 2 * bufferNum * 1 <= 2 * bufferNum * next;
  }

  // ---------- a run of connects ----------

  /** What one connection took, and the state after it. */
  datatype Connected = Connected(sides: Sides, posted: seq<Chunk>, sendChunks: seq<Chunk>)

  /** A connect or an accept: the guard, then init. */
  function ConnectOne(s: Sides, bufferNum: nat, next: nat, size: nat, direct: nat -> nat): Connected
    requires 0 < next
  {
    var t := Provisioned(s, bufferNum, next, size, direct);
    var bufs := t.mgr.bufs;
    if |bufs| < 2 * bufferNum then Connected(t.(mgr := t.mgr.(bufs := [])), [], [])
    else Connected(t.(mgr := t.mgr.(bufs := bufs[..|bufs| - 2 * bufferNum])), Every(bufs, 1, bufferNum), Every(bufs, 2, bufferNum))
  }

  function ConnectMany(s: Sides, bufferNum: nat, next: nat, size: nat, direct: nat -> nat, n: nat): (Sides, seq<Chunk>)
    requires 0 < next
  {
    if n == 0 then (s, [])
    else
      var (t, taken) := ConnectMany(s, bufferNum, next, size, direct, n - 1);
      var c := ConnectOne(t, bufferNum, next, size, direct);
      (c.sides, taken + c.posted + c.sendChunks)
  }

  ghost predicate DistinctIds(cks: seq<Chunk>) {
    forall j, k :: 0 <= j < k < |cks| ==> cks[j].id != cks[k].id
  }

  /** Taken chunks are known, none is free, and none was taken twice. */
  ghost predicate Apart(s: Sides, taken: seq<Chunk>) {
    && DistinctIds(taken)
    && (forall j :: 0 <= j < |taken| ==> taken[j].id < s.java.seqId)
    && (forall j, k :: 0 <= j < |taken| && 0 <= k < |s.mgr.bufs| ==> taken[j].id != s.mgr.bufs[k].id)
  }

  /** Newly allocated chunks have new ids. */
  lemma {:induction false} AllocManyApart(s: Sides, size: nat, direct: nat -> nat, n: nat, taken: seq<Chunk>)
    requires Apart(s, taken)
    ensures Apart(AllocMany(s, size, direct, n), taken)
  {
    if n > 0 {
      AllocManyApart(s, size, direct, n - 1, taken);
    }
  }

  lemma {:induction false} ProvisionedApart(s: Sides, bufferNum: nat, next: nat, size: nat, direct: nat -> nat, taken: seq<Chunk>)
    requires 0 < next && Apart(s, taken)
    ensures Apart(Provisioned(s, bufferNum, next, size, direct), taken)
    decreases 2 * bufferNum - |s.mgr.bufs|
  {
    if |s.mgr.bufs| < 2 * bufferNum {
      AllocManyFree(s, size, direct, next);
      AllocManyApart(s, size, direct, next, taken);
      ProvisionedApart(AllocMany(s, size, direct, next), bufferNum, next, size, direct, taken);
    }
  }

  lemma TakeApart(t: Sides, size: nat, direct: nat -> nat, bufferNum: nat, taken: seq<Chunk>)
    requires Ok(t, size, direct) && Apart(t, taken) && 2 * bufferNum <= |t.mgr.bufs|
    ensures var bufs := t.mgr.bufs;
            var rest := t.(mgr := t.mgr.(bufs := bufs[..|bufs| - 2 * bufferNum]));
            Ok(rest, size, direct) && Apart(rest, taken + Every(bufs, 1, bufferNum) + Every(bufs, 2, bufferNum))
  {
    var bufs := t.mgr.bufs;
    var p, q := Every(bufs, 1, bufferNum), Every(bufs, 2, bufferNum);
    forall j, k | 0 <= j < bufferNum && 0 <= k < bufferNum ensures p[j].id != q[k].id {
      assert |bufs| - 1 - 2 * j != |bufs| - 2 - 2 * k;
    }
    assert forall j, k :: 0 <= j < k < bufferNum ==> p[j].id != p[k].id && q[j].id != q[k].id;
  }

  lemma ConnectOneOk(s: Sides, bufferNum: nat, next: nat, size: nat, direct: nat -> nat, taken: seq<Chunk>)
    requires 0 < next && Ok(s, size, direct) && Apart(s, taken)
    ensures var c := ConnectOne(s, bufferNum, next, size, direct);
            && Ok(c.sides, size, direct) && Apart(c.sides, taken + c.posted + c.sendChunks)
            && |c.posted| == |c.sendChunks| == bufferNum
            && c.sides.java.seqId - |c.sides.mgr.bufs| == s.java.seqId - |s.mgr.bufs| + 2 * bufferNum
  {
    ProvisionedOk(s, bufferNum, next, size, direct);
    ProvisionedApart(s, bufferNum, next, size, direct, taken);
    TakeApart(Provisioned(s, bufferNum, next, size, direct), size, direct, bufferNum, taken);
  }

  /** Over any number of connects with nothing else consuming chunks: every connect succeeds with
      2 * bufferNum chunks, no chunk is ever given to two connections, both id maps keep agreeing,
      and free = allocated - 2 * bufferNum * connects. */
  lemma {:induction false} ConnectsConserve(bufferNum: nat, next: nat, size: nat, direct: nat -> nat, init: nat, n: nat)
    requires 0 < next
    ensures var (t, taken) := ConnectMany(AllocMany(NOTHING, size, direct, init), bufferNum, next, size, direct, n);
            && Ok(t, size, direct) && Apart(t, taken)
            && |taken| == n * (2 * bufferNum) && |t.mgr.bufs| + |taken| == t.java.seqId
  {
    var s := AllocMany(NOTHING, size, direct, init);
    if n == 0 {
      AllocManyFree(NOTHING, size, direct, init);
      AllocManyOk(NOTHING, size, direct, init);
    } else {
      ConnectsConserve(bufferNum, next, size, direct, init, n - 1);
      var (t, taken) := ConnectMany(s, bufferNum, next, size, direct, n - 1);
      ConnectOneOk(t, bufferNum, next, size, direct, taken);
      assert n * (2 * bufferNum) == (n - 1) * (2 * bufferNum) + 2 * bufferNum;
    }
  }

  // ---------- a lookup that comes too early ----------

  /** The native map after a lookup of `id` and then n allocations: a null left by the lookup stays. */
  lemma {:induction false} EarlyLookup(s: Sides, size: nat, direct: nat -> nat, id: nat, n: nat)
    requires Agree(s, size, direct)
    ensures LookupLeft(s, AllocMany(s.(mgr := Find(s.mgr, id).0), size, direct, n), size, direct, id, n)
  {
    if n > 0 {
      EarlyLookup(s, size, direct, id, n - 1);
      LookupStep(s, AllocMany(s.(mgr := Find(s.mgr, id).0), size, direct, n - 1), size, direct, id, n - 1);
    }
  }

  lemma LookupStep(s: Sides, p: Sides, size: nat, direct: nat -> nat, id: nat, n: nat)
    requires LookupLeft(s, p, size, direct, id, n)
    ensures LookupLeft(s, Alloc(p, size, direct), size, direct, id, n + 1)
  {
    var t := Alloc(p, size, direct);
    forall i: nat ensures i in t.mgr.bufMap <==> i < t.java.seqId || i == id {
      assert i in p.mgr.bufMap <==> i < p.java.seqId || i == id;
    }
  }

  /** `t` is `s` after the lookup and the allocations. */
  ghost predicate LookupLeft(s: Sides, t: Sides, size: nat, direct: nat -> nat, id: nat, n: nat) {
    && t.java.seqId == s.java.seqId + n
    && (forall i: nat :: i in t.mgr.bufMap <==> i < t.java.seqId || i == id)
    && (forall i: nat :: i in t.mgr.bufMap ==>
          t.mgr.bufMap[i] == if i == id && s.java.seqId <= id then None else Some(Chunk(direct(i), size, i)))
  }

  /** The native side knows every buffer the Java side has allocated. */
  ghost predicate Known(s: Sides, size: nat, direct: nat -> nat) {
    forall i: nat :: i < s.java.seqId ==> i in s.mgr.bufMap && s.mgr.bufMap[i] == Some(Chunk(direct(i), size, i))
  }

  /** So looking an id up loses it for the native side exactly when it is allocated only later. */
  lemma EarlyLookupExactly(s: Sides, size: nat, direct: nat -> nat, id: nat, n: nat)
    requires Agree(s, size, direct)
    ensures Known(AllocMany(s.(mgr := Find(s.mgr, id).0), size, direct, n), size, direct) <==>
            !(s.java.seqId <= id < s.java.seqId + n)
  {
    EarlyLookup(s, size, direct, id, n);
    assert id in AllocMany(s.(mgr := Find(s.mgr, id).0), size, direct, n).mgr.bufMap;
  }

  /** Looking the first id up before anything is allocated loses the first buffer for the native side. */
  lemma EarlyLookupFails(size: nat, direct: nat -> nat, n: nat)
    requires 0 < n
    ensures !Known(AllocMany(NOTHING.(mgr := Find(NOTHING.mgr, 0).0), size, direct, n), size, direct)
  {
    EarlyLookupExactly(NOTHING, size, direct, 0, n);
  }

  // ---------- what a lookup returns ----------

  /** Once both sides have a buffer, a lookup returns the chunk of its memory and changes nothing. */
  lemma LookupFinds(s: Sides, size: nat, direct: nat -> nat, id: nat)
    requires Ok(s, size, direct) && id < s.java.seqId
    ensures Find(s.mgr, id) == (s.mgr, Some(Chunk(direct(id), size, id)))
    ensures s.java.bufferMap[id] == Find(s.mgr, id).1.value.buffer
  {
  }

  datatype Op = AllocateOp | ConnectOp | LookupOp(id: nat)

  /** What sizes the pool, and where the memory comes from. */
  datatype Setup = Setup(bufferNum: nat, next: nat, size: nat, direct: nat -> nat)

  function Do(u: Setup, s: Sides, op: Op): Sides
    requires 0 < u.next
  {
    match op
    case AllocateOp => Alloc(s, u.size, u.direct)
    case ConnectOp => ConnectOne(s, u.bufferNum, u.next, u.size, u.direct).sides
    case LookupOp(id) => s.(mgr := Find(s.mgr, id).0)
  }

  function After(u: Setup, ops: seq<Op>): Sides
    requires 0 < u.next
  {
    if ops == [] then NOTHING else Do(u, After(u, ops[..|ops| - 1]), ops[|ops| - 1])
  }

  /** The i-th operation looks the id up before its buffer is allocated. */
  ghost predicate EarlyAt(u: Setup, ops: seq<Op>, id: nat, i: nat)
    requires 0 < u.next
  {
    i < |ops| && ops[i] == LookupOp(id) && After(u, ops[..i]).java.seqId <= id
  }

  ghost predicate TooEarly(u: Setup, ops: seq<Op>, id: nat)
    requires 0 < u.next
  {
    exists i :: EarlyAt(u, ops, id, i)
  }

  /** The native map: nulls under the ids in `early`, every other allocated id's own chunk. */
  ghost predicate Seen(u: Setup, s: Sides, early: iset<nat>) {
    forall i: nat ::
      (i in s.mgr.bufMap <==> i < s.java.seqId || i in early) &&
      (i in s.mgr.bufMap ==> s.mgr.bufMap[i] == if i in early then None else Some(Chunk(u.direct(i), u.size, i)))
  }

  lemma AllocSeen(u: Setup, s: Sides, early: iset<nat>)
    requires Seen(u, s, early)
    ensures Seen(u, Alloc(s, u.size, u.direct), early)
  {
  }

  lemma {:induction false} AllocManySeen(u: Setup, s: Sides, early: iset<nat>, n: nat)
    requires Seen(u, s, early)
    ensures Seen(u, AllocMany(s, u.size, u.direct, n), early)
  {
    if n > 0 {
      AllocManySeen(u, s, early, n - 1);
      AllocSeen(u, AllocMany(s, u.size, u.direct, n - 1), early);
    }
  }

  lemma {:induction false} ProvisionedSeen(u: Setup, s: Sides, early: iset<nat>)
    requires 0 < u.next && Seen(u, s, early)
    ensures Seen(u, Provisioned(s, u.bufferNum, u.next, u.size, u.direct), early)
    decreases 2 * u.bufferNum - |s.mgr.bufs|
  {
    if |s.mgr.bufs| < 2 * u.bufferNum {
      AllocManyFree(s, u.size, u.direct, u.next);
      AllocManySeen(u, s, early, u.next);
      ProvisionedSeen(u, AllocMany(s, u.size, u.direct, u.next), early);
    }
  }

  lemma ConnectSeen(u: Setup, s: Sides, early: iset<nat>)
    requires 0 < u.next && Seen(u, s, early)
    ensures Seen(u, Do(u, s, ConnectOp), early)
  {
    ProvisionedSeen(u, s, early);
  }

  lemma LookupSeen(u: Setup, s: Sides, early: iset<nat>, id: nat)
    requires 0 < u.next && Seen(u, s, early)
    ensures Seen(u, Do(u, s, LookupOp(id)), if s.java.seqId <= id then early + iset{id} else early)
  {
  }

  lemma EarlyStep(u: Setup, ops: seq<Op>, id: nat)
    requires 0 < u.next && ops != []
    ensures var n := |ops| - 1; TooEarly(u, ops, id) <==> TooEarly(u, ops[..n], id) || EarlyAt(u, ops, id, n)
  {
    var n := |ops| - 1;
    assert forall i | 0 <= i < n :: ops[..n][..i] == ops[..i];
    if TooEarly(u, ops[..n], id) {
      var i :| EarlyAt(u, ops[..n], id, i);
      assert EarlyAt(u, ops, id, i);
    } else if TooEarly(u, ops, id) {
      var i: nat :| EarlyAt(u, ops, id, i);
      assert i < n ==> EarlyAt(u, ops[..n], id, i);
    }
  }

  lemma {:induction false} RunSeen(u: Setup, ops: seq<Op>)
    requires 0 < u.next
    ensures Seen(u, After(u, ops), iset id: nat | TooEarly(u, ops, id))
  {
    var early := iset id: nat | TooEarly(u, ops, id);
    if ops != [] {
      var n := |ops| - 1;
      var s, before := After(u, ops[..n]), iset id: nat | TooEarly(u, ops[..n], id);
      RunSeen(u, ops[..n]);
      forall id: nat ensures id in early <==> id in before || EarlyAt(u, ops, id, n) {
        EarlyStep(u, ops, id);
      }
      match ops[n]
      case AllocateOp => AllocSeen(u, s, before); assert early == before;
      case ConnectOp => ConnectSeen(u, s, before); assert early == before;
      case LookupOp(id) =>
        LookupSeen(u, s, before, id);
        assert early == if s.java.seqId <= id then before + iset{id} else before;
    }
  }

  /** After any allocations, connects and lookups, a lookup returns the buffer's own chunk exactly when the
      buffer is allocated and no lookup has come before its allocation; one that has makes it null for ever. */
  lemma LookupExactly(u: Setup, ops: seq<Op>, id: nat)
    requires 0 < u.next
    ensures Find(After(u, ops).mgr, id).1 ==
            if id < After(u, ops).java.seqId && !TooEarly(u, ops, id) then Some(Chunk(u.direct(id), u.size, id)) else None
  {
    RunSeen(u, ops);
  }

  /** So whatever follows, a lookup that has found its chunk finds it again. */
  lemma {:induction false} FoundForEver(u: Setup, ops: seq<Op>, more: seq<Op>, id: nat)
    requires 0 < u.next && Find(After(u, ops).mgr, id).1.Some?
    ensures Find(After(u, ops + more).mgr, id).1 == Find(After(u, ops).mgr, id).1
    decreases |more|
  {
    var all := ops + more;
    if more == [] {
      assert all == ops;
    } else {
      var n := |all| - 1;
      FoundForEver(u, ops, more[..|more| - 1], id);
      assert all[..n] == ops + more[..|more| - 1];
      LookupExactly(u, all[..n], id);
      LookupExactly(u, all, id);
      EarlyStep(u, all, id);
      SeqIdGrows(u, After(u, all[..n]), all[n]);
    }
  }

  lemma SeqIdGrows(u: Setup, s: Sides, op: Op)
    requires 0 < u.next
    ensures s.java.seqId <= Do(u, s, op).java.seqId
  {
    ProvisionedGrows(u, s);
  }

  lemma {:induction false} ProvisionedGrows(u: Setup, s: Sides)
    requires 0 < u.next
    ensures s.java.seqId <= Provisioned(s, u.bufferNum, u.next, u.size, u.direct).java.seqId
    decreases 2 * u.bufferNum - |s.mgr.bufs|
  {
    if |s.mgr.bufs| < 2 * u.bufferNum {
      AllocManyFree(s, u.size, u.direct, u.next);
      ProvisionedGrows(u, AllocMany(s, u.size, u.direct, u.next));
    }
  }
}
