/** A connectionless endpoint: its message framing and its cache over the address vector. */
module RdmConnections {
  import opened Common

  type Name = seq<char>
  type Addr = int

  /** The 32-byte buffer a printed address is cut to, with its terminator. */
  const KEY_SIZE := 32

  /** Key of the cache: the printed address, as much of it as the buffer takes. */
  function Key(straddr: Name -> string, peer: Name): string {
    var s := straddr(peer);
    if |s| < KEY_SIZE then s else s[..KEY_SIZE - 1]
  }

  predicate AgreeAt(s: string, t: string, i: nat) {
    (i < |s| <==> i < |t|) && (i < |s| && i < |t| ==> s[i] == t[i])
  }

  /** Two peers share a key exactly when their printed addresses agree in each of the first 31 places. */
  lemma KeyExactly(straddr: Name -> string, p: Name, q: Name)
    ensures Key(straddr, p) == Key(straddr, q) <==> forall i | 0 <= i < 31 :: AgreeAt(straddr(p), straddr(q), i)
  {
    var s, t := straddr(p), straddr(q);
    var a, b := Key(straddr, p), Key(straddr, q);
    if a == b {
      forall i | 0 <= i < 31
        ensures AgreeAt(s, t, i)
      {
        assert i < |a| <==> i < |s|;
        assert i < |b| <==> i < |t|;
        assert i < |a| ==> a[i] == s[i] && b[i] == t[i];
      }
    }
    if forall i | 0 <= i < 31 :: AgreeAt(s, t, i) {
      assert |s| < 31 ==> AgreeAt(s, t, |s|);
      assert |t| < 31 ==> AgreeAt(s, t, |t|);
      assert |a| == |b|;
      forall i | 0 <= i < |a|
        ensures a[i] == b[i]
      {
        assert AgreeAt(s, t, i);
      }
    }
  }

  // ---------- address cache ----------

  /** The cache, and every insertion into the address vector with what it returned. */
  datatype Cache = Cache(addressMap: map<string, Addr>, inserted: seq<(Name, Addr)>)

  /** find, and on a miss fi_av_insert, which returns `newAddr`. */
  function Resolve(straddr: Name -> string, c: Cache, peer: Name, newAddr: Addr): (r: (Cache, Addr)) {
    var key := Key(straddr, peer);
    if key in c.addressMap then (c, c.addressMap[key])
    else (Cache(c.addressMap[key := newAddr], c.inserted + [(peer, newAddr)]), newAddr)
  }

  // ---------- framing ----------

  datatype Ck = Ck(buffer: seq<char>, size: int, peer: Addr)

  /** Whether encode_ gets past its two early returns. */
  predicate EncodeFits(nameLength: nat, capacity: nat, bufferSize: int) {
    nameLength <= capacity && 0 <= bufferSize <= capacity - nameLength
  }

  /** memcpy to offset `at` of a buffer. */
  function Copied(buffer: seq<char>, at: nat, src: seq<char>): (r: seq<char>)
    requires at + |src| <= |buffer|
    ensures |r| == |buffer|
  {
    buffer[..at] + src + buffer[at + |src|..]
  }

  function EncodeSpec(straddr: Name -> string, localName: Name, c: Cache, ck: Ck,
                      payload: seq<char>, bufferSize: int, peer: Name, newAddr: Addr): (r: (Cache, Ck))
    requires bufferSize <= |payload|
  {
    if |localName| > |ck.buffer| then (c, ck)
    else
      var named := ck.(buffer := Copied(ck.buffer, 0, localName));
      if !EncodeFits(|localName|, |ck.buffer|, bufferSize) then (c, named)
      else
        var (c', addr) := Resolve(straddr, c, peer, newAddr);
        (c', Ck(Copied(named.buffer, |localName|, payload[..bufferSize]), bufferSize + |localName|, addr))
  }

  /** The peer name and the payload decode_ copies out; None when it would copy a negative length. */
  function DecodeSpec(localNameLength: nat, ck: Ck): Option<(Name, seq<char>)>
    requires localNameLength <= |ck.buffer| && ck.size <= |ck.buffer|
  {
    if ck.size < localNameLength then None
    else Some((ck.buffer[..localNameLength], ck.buffer[localNameLength..ck.size]))
  }

  /** The receiver's chunk after it has received the bytes of the sender's. */
  function Received(target: Ck, ck: Ck): (r: Ck)
    requires 0 <= ck.size <= |ck.buffer| && ck.size <= |target.buffer|
    ensures r.size <= |r.buffer| == |target.buffer|
  {
    target.(buffer := Copied(target.buffer, 0, ck.buffer[..ck.size]), size := ck.size)
  }

  // ---------- the classes ----------

  class Chunk {
    const buffer: array<char>
    var size: int
    var peerAddr: Addr

    constructor (capacity: nat)
      ensures fresh(buffer) && buffer.Length == capacity && size == 0
    {
      buffer := new char[capacity];
      size := 0;
    }

    function Value(): Ck
      reads this, buffer
    {
      Ck(buffer[..], size, peerAddr)
    }
  }

  class RdmConnection {
    const straddr: Name -> string
    const localName: Name
    const destAddr: Option<Name>
    var addressMap: map<string, Addr>
    ghost var inserted: seq<(Name, Addr)>

    ghost function Value(): Cache
      reads this
    {
      Cache(addressMap, inserted)
    }

    /** init: a client (one with a destination) inserts its peer; `newAddr` is what that returns. */
    constructor (straddr: Name -> string, localName: Name, destAddr: Option<Name>, newAddr: Addr)
      ensures this.straddr == straddr && this.localName == localName && this.destAddr == destAddr
      ensures Value() == Initial(straddr, destAddr, newAddr)
    {
      this.straddr, this.localName, this.destAddr := straddr, localName, destAddr;
      addressMap, inserted := map[], [];
      if destAddr.Some? {
        addressMap := map[Key(straddr, destAddr.value) := newAddr];
        inserted := [(destAddr.value, newAddr)];
      }
    }

    /** The lookup that sendTo, sendBufTo and encode_ each spell out. */
    method PeerAddr(peer: Name, newAddr: Addr) returns (addr: Addr)
      modifies this
      ensures (Value(), addr) == Resolve(straddr, old(Value()), peer, newAddr)
    {
      var tmp := Key(straddr, peer);
      if tmp in addressMap {
        addr := addressMap[tmp];
      } else {
        addr := newAddr;
        addressMap := addressMap[tmp := addr];
        inserted := inserted + [(peer, addr)];
      }
    }

    method SendTo(ck: Chunk, peer: Name, newAddr: Addr)
      modifies this, ck`peerAddr
      ensures (Value(), ck.peerAddr) == Resolve(straddr, old(Value()), peer, newAddr)
    {
      ck.peerAddr := PeerAddr(peer, newAddr);
    }

    method SendBufTo(peer: Name, newAddr: Addr) returns (addr: Addr)
      modifies this
      ensures (Value(), addr) == Resolve(straddr, old(Value()), peer, newAddr)
    {
      addr := PeerAddr(peer, newAddr);
    }

    /** send and sendBuf of a client: operator[], which would insert a zero for a missing key. */
    method SendToDest() returns (addr: Addr)
      requires destAddr.Some?
      modifies this
      ensures (Value(), addr) == SendToDestSpec(straddr, old(Value()), destAddr.value)
    {
      var tmp := Key(straddr, destAddr.value);
      if tmp !in addressMap {
        addressMap := addressMap[tmp := 0];
      }
      addr := addressMap[tmp];
    }

    method Encode(ck: Chunk, buffer: seq<char>, bufferSize: int, peer: Name, newAddr: Addr)
      requires bufferSize <= |buffer|
      modifies this, ck, ck.buffer
      ensures (Value(), ck.Value()) ==
              EncodeSpec(straddr, localName, old(Value()), old(ck.Value()), buffer, bufferSize, peer, newAddr)
    {
      if |localName| > ck.buffer.Length {
        return;
      }
      ghost var before := ck.buffer[..];
      forall i | 0 <= i < |localName| {
        ck.buffer[i] := localName[i];
      }
      assert ck.buffer[..] == Copied(before, 0, localName);
      if bufferSize < 0 || bufferSize > ck.buffer.Length - |localName| {
        return;
      }
      ghost var named := ck.buffer[..];
      forall i | 0 <= i < bufferSize {
        ck.buffer[|localName| + i] := buffer[i];
      }
      assert ck.buffer[..] == Copied(named, |localName|, buffer[..bufferSize]);
      ck.size := bufferSize + |localName|;
      ck.peerAddr := PeerAddr(peer, newAddr);
    }

    /** decode_ with both destinations given; false where it would copy a negative length. */
    method Decode(ck: Chunk) returns (ok: bool, buffer: seq<char>, peer: Name)
      requires |localName| <= ck.buffer.Length && ck.size <= ck.buffer.Length
      ensures DecodeSpec(|localName|, ck.Value()) == if ok then Some((peer, buffer)) else None
    {
      peer := ck.buffer[..|localName|];
      var bufferSize := ck.size - |localName|;
      if bufferSize < 0 {
        return false, [], peer;
      }
      return true, ck.buffer[|localName|..|localName| + bufferSize], peer;
    }
  }

  // ---------- runs ----------

  function Initial(straddr: Name -> string, destAddr: Option<Name>, newAddr: Addr): Cache {
    if destAddr.None? then Cache(map[], [])
    else Cache(map[Key(straddr, destAddr.value) := newAddr], [(destAddr.value, newAddr)])
  }

  function SendToDestSpec(straddr: Name -> string, c: Cache, dest: Name): (r: (Cache, Addr)) {
    var key := Key(straddr, dest);
    var m := if key in c.addressMap then c.addressMap else c.addressMap[key := 0];
    (c.(addressMap := m), m[key])
  }

  /** The calls that pick an address; encode_ does so only when the message fits. */
  datatype AnyCall =
    | EncodeCall(ck: Ck, payload: seq<char>, bufferSize: int, peer: Name, newAddr: Addr)
    | SendToCall(peer: Name, newAddr: Addr)
    | SendBufToCall(peer: Name, newAddr: Addr)
    | SendCall

  /** The caller of encode_ has as many bytes as it says. */
  type Call = call: AnyCall | call.EncodeCall? ==> call.bufferSize <= |call.payload| witness SendCall

  /** An endpoint: the printing of addresses, its own name, and the peer a client was created for. */
  datatype Endpoint = Endpoint(straddr: Name -> string, localName: Name, destAddr: Option<Name>)

  /** The peer a call picks an address for, if it does. */
  function Target(e: Endpoint, call: Call): Option<Name> {
    match call
    case EncodeCall(ck, _, size, peer, _) => if EncodeFits(|e.localName|, |ck.buffer|, size) then Some(peer) else None
    case SendToCall(peer, _) => Some(peer)
    case SendBufToCall(peer, _) => Some(peer)
    case SendCall => e.destAddr
  }

  /** One call: the new cache and the address the message goes to, which encode_ and sendTo leave in the chunk. */
  function Step(e: Endpoint, c: Cache, call: Call): (r: (Cache, Addr)) {
    match call
    case EncodeCall(ck, payload, size, peer, newAddr) =>
      var (c', ck') := EncodeSpec(e.straddr, e.localName, c, ck, payload, size, peer, newAddr);
      (c', ck'.peer)
    case SendToCall(peer, newAddr) => Resolve(e.straddr, c, peer, newAddr)
    case SendBufToCall(peer, newAddr) => Resolve(e.straddr, c, peer, newAddr)
    case SendCall => if e.destAddr.Some? then SendToDestSpec(e.straddr, c, e.destAddr.value) else (c, 0)
  }

  /** The run of a list of calls: the final cache and the addresses picked, with the peers meant. */
  function Run(e: Endpoint, newAddr: Addr, calls: seq<Call>): (r: (Cache, seq<(Name, Addr)>)) {
    if calls == [] then (Initial(e.straddr, e.destAddr, newAddr), [])
    else
      var (c, chosen) := Run(e, newAddr, calls[..|calls| - 1]);
      var call := calls[|calls| - 1];
      var (c', addr) := Step(e, c, call);
      (c', if Target(e, call).None? then chosen else chosen + [(Target(e, call).value, addr)])
  }

  // ---------- theorems ----------

  predicate KeysDistinct(e: Endpoint, log: seq<(Name, Addr)>) {
    forall i, j | 0 <= i < j < |log| :: Key(e.straddr, log[i].0) != Key(e.straddr, log[j].0)
  }

  /** The cache holds exactly the insertions, and every address picked is what its key maps to. */
  ghost predicate Coherent(e: Endpoint, c: Cache, chosen: seq<(Name, Addr)>) {
    KeysDistinct(e, c.inserted) &&
    (forall x <- c.inserted :: Key(e.straddr, x.0) in c.addressMap && c.addressMap[Key(e.straddr, x.0)] == x.1) &&
    (forall k <- c.addressMap :: exists x :: x in c.inserted && Key(e.straddr, x.0) == k) &&
    (forall x <- chosen :: Key(e.straddr, x.0) in c.addressMap && c.addressMap[Key(e.straddr, x.0)] == x.1) &&
    (e.destAddr.Some? ==> c.inserted != [] && c.inserted[0].0 == e.destAddr.value) &&
    (forall x <- c.inserted :: x in chosen || Some(x.0) == e.destAddr)
  }

  /** However a message to a named peer is sent, the peer is looked up in the cache. */
  lemma StepResolves(e: Endpoint, c: Cache, call: Call)
    requires Target(e, call).Some? && !call.SendCall?
    ensures Step(e, c, call) == Resolve(e.straddr, c, call.peer, call.newAddr)
  {
  }

  lemma ResolveCoherent(e: Endpoint, c: Cache, chosen: seq<(Name, Addr)>, peer: Name, newAddr: Addr)
    requires Coherent(e, c, chosen)
    ensures var (c', addr) := Resolve(e.straddr, c, peer, newAddr);
            Coherent(e, c', chosen + [(peer, addr)])
  {
    var (c', addr) := Resolve(e.straddr, c, peer, newAddr);
    if c' != c {
      assert c'.inserted[|c.inserted|] == (peer, newAddr);
      forall k <- c'.addressMap
        ensures exists x :: x in c'.inserted && Key(e.straddr, x.0) == k
      {
        if k in c.addressMap {
          var x :| x in c.inserted && Key(e.straddr, x.0) == k;
          assert x in c'.inserted;
        } else {
          assert (peer, newAddr) in c'.inserted;
        }
      }
    }
  }

  lemma {:induction false} RunCoherent(e: Endpoint, newAddr: Addr, calls: seq<Call>)
    ensures var (c, chosen) := Run(e, newAddr, calls); Coherent(e, c, chosen)
    decreases |calls|
  {
    if calls == [] {
      if e.destAddr.Some? {
        var c := Initial(e.straddr, e.destAddr, newAddr);
        assert (e.destAddr.value, newAddr) in c.inserted;
      }
    } else {
      RunCoherent(e, newAddr, calls[..|calls| - 1]);
      var (c, chosen) := Run(e, newAddr, calls[..|calls| - 1]);
      var call := calls[|calls| - 1];
      if Target(e, call).Some? {
        if call.SendCall? {
          assert c.inserted[0] in c.inserted;
        } else {
          ResolveCoherent(e, c, chosen, call.peer, call.newAddr);
          StepResolves(e, c, call);
        }
      }
    }
  }

  /** Over any mix of calls every peer is inserted into the address vector at most once. */
  lemma InsertedOnce(e: Endpoint, newAddr: Addr, calls: seq<Call>, i: nat, j: nat)
    requires i < j < |Run(e, newAddr, calls).0.inserted|
    ensures Run(e, newAddr, calls).0.inserted[i].0 != Run(e, newAddr, calls).0.inserted[j].0
  {
    RunCoherent(e, newAddr, calls);
  }

  /** The peers a run involves: those it picks addresses for and the client's own. */
  ghost predicate Involved(e: Endpoint, calls: seq<Call>, p: Name) {
    e.destAddr == Some(p) || exists call :: call in calls && Target(e, call) == Some(p)
  }

  lemma {:induction false} ChosenAreTargets(e: Endpoint, newAddr: Addr, calls: seq<Call>, p: Name)
    ensures (exists x :: x in Run(e, newAddr, calls).1 && x.0 == p)
       <==> (exists call :: call in calls && Target(e, call) == Some(p))
    decreases |calls|
  {
    if calls != [] {
      var n := |calls| - 1;
      var before, chosen := Run(e, newAddr, calls[..n]).1, Run(e, newAddr, calls).1;
      ChosenAreTargets(e, newAddr, calls[..n], p);
      assert calls == calls[..n] + [calls[n]];
      if Target(e, calls[n]).Some? {
        assert chosen[..|chosen| - 1] == before;
        assert chosen[|chosen| - 1].0 == Target(e, calls[n]).value;
        assert chosen[|chosen| - 1] in chosen;
      }
    }
  }

  /** Every address picked is the result of inserting the very peer it was picked for. */
  ghost predicate AllOwn(r: (Cache, seq<(Name, Addr)>)) {
    forall x <- r.1 :: x in r.0.inserted
  }

  /**
   * Every message goes to the peer it is meant for exactly when no two peers of the run print to
   * the same cache key.
   */
  lemma AddressesExactly(e: Endpoint, newAddr: Addr, calls: seq<Call>)
    ensures AllOwn(Run(e, newAddr, calls))
       <==> forall p, q | Involved(e, calls, p) && Involved(e, calls, q) && Key(e.straddr, p) == Key(e.straddr, q) :: p == q
  {
    var (c, chosen) := Run(e, newAddr, calls);
    RunCoherent(e, newAddr, calls);
    if AllOwn((c, chosen)) {
      forall p, q | Involved(e, calls, p) && Involved(e, calls, q) && Key(e.straddr, p) == Key(e.straddr, q)
        ensures p == q
      {
        var i := InsertionOf(e, newAddr, calls, p);
        var j := InsertionOf(e, newAddr, calls, q);
        assert i == j;
      }
    } else {
      var x :| x in chosen && x !in c.inserted;
      var y :| y in c.inserted && Key(e.straddr, y.0) == Key(e.straddr, x.0);
      ChosenAreTargets(e, newAddr, calls, x.0);
      ChosenAreTargets(e, newAddr, calls, y.0);
      assert y.1 == x.1;
      assert Involved(e, calls, x.0) && Involved(e, calls, y.0);
    }
  }

  /** What encode_ leaves, byte by byte: the name in front of the payload, the peer's address from the cache,
      and on its early returns everything but the name as it was. */
  lemma EncodeExactly(straddr: Name -> string, localName: Name, c: Cache, ck: Ck,
                      payload: seq<char>, bufferSize: int, peer: Name, newAddr: Addr)
    requires bufferSize <= |payload|
    ensures var (c', ck') := EncodeSpec(straddr, localName, c, ck, payload, bufferSize, peer, newAddr);
            var n, key, fits := |localName|, Key(straddr, peer), EncodeFits(|localName|, |ck.buffer|, bufferSize);
            |ck'.buffer| == |ck.buffer| &&
            (forall i | 0 <= i < |ck.buffer| :: ck'.buffer[i] ==
               if i < n && n <= |ck.buffer| then localName[i]
               else if fits && n <= i < n + bufferSize then payload[i - n] else ck.buffer[i]) &&
            (!fits ==> c' == c && ck'.size == ck.size && ck'.peer == ck.peer) &&
            (fits ==> ck'.size == n + bufferSize && key in c'.addressMap && ck'.peer == c'.addressMap[key]) &&
            (fits && key in c.addressMap ==> c' == c) &&
            (fits && key !in c.addressMap ==>
               ck'.peer == newAddr && c'.inserted == c.inserted + [(peer, newAddr)] &&
               c'.addressMap.Keys == c.addressMap.Keys + {key} && forall k <- c.addressMap :: c'.addressMap[k] == c.addressMap[k])
  {
    var ck' := EncodeSpec(straddr, localName, c, ck, payload, bufferSize, peer, newAddr).1;
    if |localName| <= |ck.buffer| {
      var named := Copied(ck.buffer, 0, localName);
      assert forall i | 0 <= i < |named| :: named[i] == if i < |localName| then localName[i] else ck.buffer[i];
    }
  }

  const ADDRESS := "fi_sockaddr_in://192.168.100.10:"

  /** A fabric whose names are printed addresses. */
  function Verbatim(p: Name): string {
    p
  }

  /** Two ports of one host, printed alike up to the port: the second message goes to the first port's
      process, and the second is never inserted. */
  lemma MisdirectedRun()
    ensures var e := Endpoint(Verbatim, "", None);
            var calls := [SendToCall(ADDRESS + "1", 5), SendToCall(ADDRESS + "2", 6)];
            Run(e, 0, calls).1 == [(ADDRESS + "1", 5), (ADDRESS + "2", 5)] && !AllOwn(Run(e, 0, calls))
  {
    var e, key := Endpoint(Verbatim, "", None), ADDRESS[..31];
    var a, b := ADDRESS + "1", ADDRESS + "2";
    var first, second := SendToCall(a, 5), SendToCall(b, 6);
    assert |ADDRESS| == 32 && a[32] != b[32];
    assert a[..31] == key && b[..31] == key;
    var none := Initial(Verbatim, None, 0);
    var one := Cache(map[key := 5], [(a, 5)]);
    assert Key(Verbatim, a) == key && Key(Verbatim, b) == key;
    assert none.inserted + [(a, 5)] == [(a, 5)] && [] + [(a, 5)] == [(a, 5)];
    assert Step(e, none, first) == (one, 5);
    assert [first][..0] == [];
    assert Run(e, 0, [first]) == (one, [(a, 5)]);
    assert Step(e, one, second) == (one, 5);
    assert [first, second][..1] == [first];
    assert [(a, 5)] + [(b, 5)] == [(a, 5), (b, 5)];
    assert Run(e, 0, [first, second]) == (one, [(a, 5), (b, 5)]);
    assert [(a, 5), (b, 5)][1] == (b, 5) && (b, 5) !in [(a, 5)];
  }

  lemma InsertionOf(e: Endpoint, newAddr: Addr, calls: seq<Call>, p: Name) returns (i: nat)
    requires AllOwn(Run(e, newAddr, calls)) && Involved(e, calls, p)
    ensures i < |Run(e, newAddr, calls).0.inserted| && Run(e, newAddr, calls).0.inserted[i].0 == p
  {
    var (c, chosen) := Run(e, newAddr, calls);
    RunCoherent(e, newAddr, calls);
    ChosenAreTargets(e, newAddr, calls, p);
    if e.destAddr == Some(p) {
      i := 0;
    } else {
      var x :| x in chosen && x.0 == p;
      i :| 0 <= i < |c.inserted| && c.inserted[i] == x;
    }
  }

  /** A client's plain send never makes operator[] insert a zero: init has put the key there. */
  lemma SendNeverInsertsZero(e: Endpoint, newAddr: Addr, calls: seq<Call>)
    requires e.destAddr.Some?
    ensures var c := Run(e, newAddr, calls).0; SendToDestSpec(e.straddr, c, e.destAddr.value).0 == c
    ensures var c := Run(e, newAddr, calls).0; SendToDestSpec(e.straddr, c, e.destAddr.value).1 == newAddr
    decreases |calls|
  {
    RunCoherent(e, newAddr, calls);
    FirstInsertion(e, newAddr, calls);
    var c := Run(e, newAddr, calls).0;
    assert c.inserted[0] in c.inserted;
  }

  lemma {:induction false} FirstInsertion(e: Endpoint, newAddr: Addr, calls: seq<Call>)
    requires e.destAddr.Some?
    ensures var c := Run(e, newAddr, calls).0; c.inserted != [] && c.inserted[0] == (e.destAddr.value, newAddr)
    decreases |calls|
  {
    if calls != [] {
      FirstInsertion(e, newAddr, calls[..|calls| - 1]);
    }
  }

  /**
   * encode_, delivery and decode_ return the payload and the sender's name exactly when both ends
   * have names of one length and the message fits the sender's chunk and the receiver's.
   */
  lemma RoundTripExactly(straddr: Name -> string, localName: Name, c: Cache, ck: Ck, payload: seq<char>,
                         peer: Name, newAddr: Addr, remoteNameLength: nat, target: Ck)
    requires 0 <= ck.size <= |ck.buffer|
    ensures var sent := EncodeSpec(straddr, localName, c, ck, payload, |payload|, peer, newAddr).1;
            (sent.size <= |target.buffer| && remoteNameLength <= |target.buffer| &&
             DecodeSpec(remoteNameLength, Received(target, sent)) == Some((localName, payload))) <==>
            (remoteNameLength == |localName| && |localName| + |payload| <= |ck.buffer| &&
             |localName| + |payload| <= |target.buffer|)
  {
    var sent := EncodeSpec(straddr, localName, c, ck, payload, |payload|, peer, newAddr).1;
    var n := |localName|;
    if remoteNameLength == n && n + |payload| <= |ck.buffer| && n + |payload| <= |target.buffer| {
      var got := Received(target, sent);
      assert sent.buffer[..sent.size] == localName + payload;
      assert got.buffer[..sent.size] == localName + payload;
      assert got.buffer[..n] == got.buffer[..sent.size][..n];
      assert got.buffer[n..sent.size] == got.buffer[..sent.size][n..];
    }
  }
}
