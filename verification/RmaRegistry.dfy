/** The stack's registry of RMA buffers and its round-robin choice of completion queues. */
module RmaRegistry {
  import opened Common

  /** A registered buffer; an address of 0 is the null pointer. */
  datatype RmaChunk = RmaChunk(buffer: nat, capacity: nat, bufferId: int, mr: int)

  /** A map from ids to chunk pointers, in which operator[] leaves null pointers. */
  type RmaMap = map<int, Option<RmaChunk>>

  // ---------- the class ----------

  class MsgStack {
    const initialized: bool
    const workerNum: nat
    var rmaChunkMap: RmaMap
    var seqNum: nat

    constructor (initialized: bool, workerNum: nat)
      requires workerNum > 0
      ensures this.initialized == initialized && this.workerNum == workerNum
      ensures rmaChunkMap == map[] && seqNum == 0
    {
      this.initialized, this.workerNum := initialized, workerNum;
      rmaChunkMap, seqNum := map[], 0;
    }

    /** `mr` is what fi_mr_reg yields; std::map::insert keeps an entry that is there already. */
    method RegRmaBuffer(buffer: nat, bufferSize: nat, bufferId: int, mr: Option<int>) returns (ck: Option<RmaChunk>)
      modifies this`rmaChunkMap
      ensures (rmaChunkMap, ck) == Register(initialized, old(rmaChunkMap), buffer, bufferSize, bufferId, mr)
    {
      if !initialized || buffer == 0 || bufferSize <= 0 {
        return None;
      }
      if mr.None? {
        return None;
      }
      ck := Some(RmaChunk(buffer, bufferSize, bufferId, mr.value));
      if bufferId !in rmaChunkMap {
        rmaChunkMap := rmaChunkMap[bufferId := ck];
      }
    }

    method UnregRmaBuffer(bufferId: int)
      modifies this`rmaChunkMap
      ensures rmaChunkMap == Unregister(old(rmaChunkMap), bufferId)
    {
      var ck := GetRmaChunk(bufferId);
      if ck.None? {
        return;
      }
      rmaChunkMap := rmaChunkMap - {bufferId};
    }

    method GetRmaChunk(bufferId: int) returns (ck: Option<RmaChunk>)
      modifies this`rmaChunkMap
      ensures (rmaChunkMap, ck) == Lookup(old(rmaChunkMap), bufferId)
    {
      if bufferId !in rmaChunkMap {
        rmaChunkMap := rmaChunkMap[bufferId := None];
      }
      ck := rmaChunkMap[bufferId];
    }

    /** The completion queue connect and accept bind a connection to; a failed init does not count. */
    method ChooseCq(created: bool) returns (cqIndex: nat)
      requires workerNum > 0
      modifies this`seqNum
      ensures cqIndex == old(seqNum) % workerNum
      ensures seqNum == old(seqNum) + if created then 1 else 0
    {
      cqIndex := seqNum % workerNum;
      if created {
        seqNum := seqNum + 1;
      }
    }
  }

  // ---------- specification of one operation ----------

  function Register(initialized: bool, m: RmaMap, buffer: nat, bufferSize: nat, bufferId: int, mr: Option<int>): (r: (RmaMap, Option<RmaChunk>)) {
    if !initialized || buffer == 0 || bufferSize == 0 || mr.None? then (m, None)
    else
      var ck := Some(RmaChunk(buffer, bufferSize, bufferId, mr.value));
      (if bufferId in m then m else m[bufferId := ck], ck)
  }

  function Lookup(m: RmaMap, bufferId: int): (r: (RmaMap, Option<RmaChunk>)) {
    var m' := if bufferId in m then m else m[bufferId := None];
    (m', m'[bufferId])
  }

  function Unregister(m: RmaMap, bufferId: int): RmaMap {
    var (m', ck) := Lookup(m, bufferId);
    if ck.None? then m' else m' - {bufferId}
  }

  // ---------- runs ----------

  datatype Call =
    | Reg(buffer: nat, size: nat, id: int, mr: Option<int>)
    | Unreg(id: int)
    | Get(id: int)

  function After(initialized: bool, calls: seq<Call>): RmaMap {
    if calls == [] then map[]
    else
      var m := After(initialized, calls[..|calls| - 1]);
      match calls[|calls| - 1]
      case Reg(buffer, size, id, mr) => Register(initialized, m, buffer, size, id, mr).0
      case Unreg(id) => Unregister(m, id)
      case Get(id) => Lookup(m, id).0
  }

  // ---------- what the history of calls says about an id ----------

  /** The chunk a call registers under id, if it does. */
  function Registers(initialized: bool, c: Call, id: int): Option<RmaChunk> {
    if c.Reg? && c.id == id && initialized && c.buffer != 0 && c.size != 0 && c.mr.Some?
    then Some(RmaChunk(c.buffer, c.size, id, c.mr.value))
    else None
  }

  /** The i-th call registers id and nothing has unregistered it since. */
  ghost predicate HoldsAt(initialized: bool, calls: seq<Call>, id: int, i: nat) {
    i < |calls| && Registers(initialized, calls[i], id).Some? && forall j | i < j < |calls| :: calls[j] != Unreg(id)
  }

  ghost predicate Registered(initialized: bool, calls: seq<Call>, id: int) {
    exists i :: HoldsAt(initialized, calls, id, i)
  }

  /** The i-th call is a lookup or an unregistration of an id that is not registered then. */
  ghost predicate PinsAt(initialized: bool, calls: seq<Call>, id: int, i: nat) {
    i < |calls| && (calls[i] == Get(id) || calls[i] == Unreg(id)) && !Registered(initialized, calls[..i], id)
  }

  ghost predicate EverPinned(initialized: bool, calls: seq<Call>, id: int) {
    exists i :: PinsAt(initialized, calls, id, i)
  }

  /** ck is the first chunk registered under id since the id was last unregistered. */
  ghost predicate FirstSince(initialized: bool, calls: seq<Call>, id: int, ck: RmaChunk, i: nat) {
    HoldsAt(initialized, calls, id, i) && Registers(initialized, calls[i], id) == Some(ck) &&
    !Registered(initialized, calls[..i], id)
  }

  ghost predicate Holder(initialized: bool, calls: seq<Call>, id: int, ck: RmaChunk) {
    exists i :: FirstSince(initialized, calls, id, ck, i)
  }

  // ---------- how one more call changes the history ----------

  lemma RegisteredStep(initialized: bool, calls: seq<Call>, id: int)
    requires calls != []
    ensures var n := |calls| - 1;
            Registered(initialized, calls, id) <==>
            (Registers(initialized, calls[n], id).Some? ||
             (Registered(initialized, calls[..n], id) && calls[n] != Unreg(id)))
  {
    var n := |calls| - 1;
    if Registers(initialized, calls[n], id).Some? {
      assert HoldsAt(initialized, calls, id, n);
    } else if Registered(initialized, calls[..n], id) && calls[n] != Unreg(id) {
      var i :| HoldsAt(initialized, calls[..n], id, i);
      assert HoldsAt(initialized, calls, id, i);
    } else if Registered(initialized, calls, id) {
      var i :| HoldsAt(initialized, calls, id, i);
      assert HoldsAt(initialized, calls[..n], id, i);
    }
  }

  lemma PinnedStep(initialized: bool, calls: seq<Call>, id: int)
    requires calls != []
    ensures var n := |calls| - 1;
            EverPinned(initialized, calls, id) <==>
            (EverPinned(initialized, calls[..n], id) || PinsAt(initialized, calls, id, n))
  {
    var n := |calls| - 1;
    assert forall i | 0 <= i < n :: calls[..n][..i] == calls[..i];
    if EverPinned(initialized, calls[..n], id) {
      var i :| PinsAt(initialized, calls[..n], id, i);
      assert PinsAt(initialized, calls, id, i);
    } else if EverPinned(initialized, calls, id) {
      var i: nat :| PinsAt(initialized, calls, id, i);
      assert i < n ==> PinsAt(initialized, calls[..n], id, i);
    }
  }

  lemma HolderStep(initialized: bool, calls: seq<Call>, id: int, ck: RmaChunk)
    requires calls != []
    ensures var n := |calls| - 1;
            Holder(initialized, calls, id, ck) <==>
            if Registered(initialized, calls[..n], id)
            then Holder(initialized, calls[..n], id, ck) && calls[n] != Unreg(id)
            else Registers(initialized, calls[n], id) == Some(ck)
  {
    var n := |calls| - 1;
    assert forall i | 0 <= i < n :: calls[..n][..i] == calls[..i];
    if Holder(initialized, calls, id, ck) {
      var i: nat :| FirstSince(initialized, calls, id, ck, i);
      if i < n {
        assert FirstSince(initialized, calls[..n], id, ck, i);
      }
    }
    if Holder(initialized, calls[..n], id, ck) && calls[n] != Unreg(id) {
      var i :| FirstSince(initialized, calls[..n], id, ck, i);
      assert FirstSince(initialized, calls, id, ck, i);
    }
    if !Registered(initialized, calls[..n], id) && Registers(initialized, calls[n], id) == Some(ck) {
      assert FirstSince(initialized, calls, id, ck, n);
    }
    if Holder(initialized, calls[..n], id, ck) {
      var i :| FirstSince(initialized, calls[..n], id, ck, i);
      assert Registered(initialized, calls[..n], id);
    }
  }

  // ---------- theorems ----------

  /**
   * The map against the history, for every sequence of calls and every id: a null is pinned under
   * the id exactly when it was ever looked up or unregistered while not registered; otherwise a
   * lookup finds the first chunk registered since the last unregistration.
   */
  lemma {:induction false} MapRefinesHistory(initialized: bool, calls: seq<Call>, id: int)
    ensures var m := After(initialized, calls);
            (id in m && m[id].None? <==> EverPinned(initialized, calls, id)) &&
            (id !in m <==> !EverPinned(initialized, calls, id) && !Registered(initialized, calls, id)) &&
            (forall ck :: id in m && m[id] == Some(ck) <==>
                          !EverPinned(initialized, calls, id) && Holder(initialized, calls, id, ck))
    decreases |calls|
  {
    if calls != [] {
      var n := |calls| - 1;
      MapRefinesHistory(initialized, calls[..n], id);
      RegisteredStep(initialized, calls, id);
      PinnedStep(initialized, calls, id);
      forall ck {
        HolderStep(initialized, calls, id, ck);
      }
    }
  }

  /** A lookup returns ck exactly when ck holds the id and the id was never touched while absent. */
  lemma FoundExactly(initialized: bool, calls: seq<Call>, id: int, ck: RmaChunk)
    ensures Lookup(After(initialized, calls), id).1 == Some(ck) <==>
            Holder(initialized, calls, id, ck) && !EverPinned(initialized, calls, id)
  {
    MapRefinesHistory(initialized, calls, id);
  }

  /** A registration returns a chunk exactly when the stack is initialised, there is a buffer of some size
      and the fabric takes it; the chunk is the caller's, also when the id is taken.  The entry of an id that
      is taken stays. */
  lemma RegisterExactly(initialized: bool, m: RmaMap, buffer: nat, size: nat, id: int, mr: Option<int>)
    ensures var (m', ck) := Register(initialized, m, buffer, size, id, mr);
            (ck.Some? <==> initialized && buffer != 0 && 0 < size && mr.Some?) &&
            (ck.Some? ==> ck.value.buffer == buffer && ck.value.capacity == size && ck.value.bufferId == id &&
                          mr == Some(ck.value.mr)) &&
            (forall k :: k in m' <==> k in m || (k == id && ck.Some?)) &&
            (forall k <- m' :: m'[k] == if k in m then m[k] else ck)
  {
  }

  /** After a registration a lookup returns the very chunk it returned exactly when the id was never touched
      while absent and, if it was registered already, such a chunk is what it holds. */
  lemma RegisterThenLookup(initialized: bool, calls: seq<Call>, buffer: nat, size: nat, id: int, mr: Option<int>)
    requires Register(initialized, After(initialized, calls), buffer, size, id, mr).1.Some?
    ensures var (m, ck) := Register(initialized, After(initialized, calls), buffer, size, id, mr);
            Lookup(m, id).1 == ck <==>
            !EverPinned(initialized, calls, id) &&
            (Registered(initialized, calls, id) ==> Holder(initialized, calls, id, ck.value))
  {
    MapRefinesHistory(initialized, calls, id);
  }

  /** And every later lookup does, until the id is unregistered, whatever else is registered in between. */
  lemma {:induction false} RegisteredStays(initialized: bool, calls: seq<Call>, reg: Call, id: int, more: seq<Call>)
    requires Registers(initialized, reg, id).Some? && Unreg(id) !in more
    requires !EverPinned(initialized, calls, id) && !Registered(initialized, calls, id)
    ensures var m := After(initialized, calls + [reg] + more);
            Lookup(m, id) == (m, Register(initialized, After(initialized, calls), reg.buffer, reg.size, id, reg.mr).1)
    decreases |more|
  {
    var all := calls + [reg] + more;
    if more == [] {
      MapRefinesHistory(initialized, calls, id);
      assert all[..|all| - 1] == calls;
    } else {
      RegisteredStays(initialized, calls, reg, id, more[..|more| - 1]);
      assert all[..|all| - 1] == calls + [reg] + more[..|more| - 1];
      assert all[|all| - 1] == more[|more| - 1];
    }
  }

  /** A lookup that finds nothing makes it so for ever, whatever is registered under the id later. */
  lemma {:induction false} PinnedForEver(initialized: bool, calls: seq<Call>, more: seq<Call>, id: int)
    requires Lookup(After(initialized, calls), id).1.None?
    ensures var m := After(initialized, calls + [Get(id)] + more); id in m && m[id].None?
    decreases |more|
  {
    var all := calls + [Get(id)] + more;
    if more == [] {
      assert all[..|all| - 1] == calls;
    } else {
      PinnedForEver(initialized, calls, more[..|more| - 1], id);
      assert all[..|all| - 1] == calls + [Get(id)] + more[..|more| - 1];
    }
  }

  // ---------- round robin ----------

  /** The completion queues of the connections created, one per call of connect or accept that got that far. */
  function Assigned(workerNum: nat, created: seq<bool>): (r: (seq<nat>, nat))
    requires workerNum > 0
  {
    if created == [] then ([], 0)
    else
      var (cqs, seqNum) := Assigned(workerNum, created[..|created| - 1]);
      if created[|created| - 1] then (cqs + [seqNum % workerNum], seqNum + 1) else (cqs, seqNum)
  }

  function Count(s: seq<nat>, x: nat): nat {
    if s == [] then 0 else Count(s[..|s| - 1], x) + if s[|s| - 1] == x then 1 else 0
  }

  lemma DivStep(n: nat, w: nat)
    requires w > 0
    ensures n % w == w - 1 ==> (n + 1) / w == n / w + 1 && (n + 1) % w == 0
    ensures n % w < w - 1 ==> (n + 1) / w == n / w && (n + 1) % w == n % w + 1
  {
    var q, r := n / w, n % w;
    assert n == q * w + r;
    if r == w - 1 {
      assert n + 1 == (q + 1) * w + 0;
      Quotient(q + 1, w, 0);
    } else {
      Quotient(q, w, r + 1);
    }
  }

  /** The load is as even as it can be: with n connections created, queue i has n/w, plus one if i < n%w. */
  lemma {:induction false} RoundRobinBalanced(workerNum: nat, created: seq<bool>, i: nat)
    requires i < workerNum
    ensures var (cqs, n) := Assigned(workerNum, created);
            n == |cqs| && Count(cqs, i) == n / workerNum + if i < n % workerNum then 1 else 0
    decreases |created|
  {
    if created != [] {
      RoundRobinBalanced(workerNum, created[..|created| - 1], i);
      var (before, n) := Assigned(workerNum, created[..|created| - 1]);
      var (cqs, _) := Assigned(workerNum, created);
      DivStep(n, workerNum);
      if created[|created| - 1] {
        assert cqs[..|cqs| - 1] == before;
      }
    }
  }
}
