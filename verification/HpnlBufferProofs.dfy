/** What HpnlBuffer promises: both framings round trip, also over runs that reuse the buffers. */
module HpnlBufferProofs {
  import opened Common
  import opened ByteBuffers
  import opened HpnlBuffers

  /** Exactly when put leaves the whole frame in the buffer (with whatever name length it claims). */
  predicate Accepts(limit: nat, m: Message) {
    if m.Msg? then 10 + |m.src| <= limit
    else |m.name| <= m.nameLength && 14 + |m.src| + m.nameLength <= limit
  }

  lemma Concat4(a: seq<byte>, b: seq<byte>, c: seq<byte>, d: seq<byte>)
    ensures Concat([a, b, c, d]) == a + b + c + d
  {
    assert [a, b, c, d][1..] == [b, c, d] && [b, c, d][1..] == [c, d] && [c, d][1..] == [d] && [d][1..] == [];
    assert Concat([d]) == d;
    assert Concat([b, c, d]) == b + Concat([c, d]);
  }

  lemma Concat6(a: seq<byte>, b: seq<byte>, c: seq<byte>, d: seq<byte>, e: seq<byte>, f: seq<byte>)
    ensures Concat([a, b, c, d, e, f]) == a + b + c + d + e + f
  {
    assert [a, b, c, d, e, f][1..] == [b, c, d, e, f] && [b, c, d, e, f][1..] == [c, d, e, f];
    Concat4(c, d, e, f);
    assert Concat([b, c, d, e, f]) == b + (c + d + e + f);
  }

  lemma FrameIsPuts(m: Message)
    requires m.Valid()
    ensures Concat(m.Header() + [m.src]) == m.Frame()
    ensures |m.Frame()| == m.FrameLength()
  {
    var l := LongOctets(m.seqNo);
    if m.Msg? {
      Concat4([MSG], [m.ty], l, m.src);
      assert m.Header() + [m.src] == [[MSG], [m.ty], l, m.src];
      assert [MSG, m.ty] == [MSG] + [m.ty];
    } else {
      Concat6([RDM], IntOctets(m.nameLength), m.name, [m.ty], l, m.src);
      assert m.Header() + [m.src] == [[RDM], IntOctets(m.nameLength), m.name, [m.ty], l, m.src];
    }
  }

  /** A number's byte i of n, the most significant first: (byte) (x >> 8 * (n - 1 - i)). */
  ghost predicate BigEndian(bs: seq<byte>, x: int) {
    forall i | 0 <= i < |bs| :: 0 < Pow256(|bs| - 1 - i) && bs[i] as int == (x / Pow256(|bs| - 1 - i)) % 256
  }

  lemma IntBytes(x: int)
    requires IsInt(x)
    ensures BigEndian(IntOctets(x), x)
  {
    Powers();
    forall i | 0 <= i < 4
      ensures 0 < Pow256(3 - i) && IntOctets(x)[i] as int == (x / Pow256(3 - i)) % 256
    {
      SignedBigEndian(x, 4, i);
    }
  }

  lemma LongBytes(x: int)
    requires IsLong(x)
    ensures BigEndian(LongOctets(x), x)
  {
    Powers();
    forall i | 0 <= i < 8
      ensures 0 < Pow256(7 - i) && LongOctets(x)[i] as int == (x / Pow256(7 - i)) % 256
    {
      SignedBigEndian(x, 8, i);
    }
  }

  /** Byte by byte, what is on the wire: the kind, the name's length and the name, the type, the sequence
      number and the payload, both numbers in two's complement with the most significant byte first. */
  lemma FrameBytes(m: Message)
    requires m.Valid()
    ensures var f, k := m.Frame(), |m.src|;
            if m.Msg? then
              |f| == 10 + k && f[0] == 0 && f[1] == m.ty && BigEndian(f[2..10], m.seqNo) && f[10..] == m.src
            else
              var n := |m.name|;
              |f| == 14 + n + k && f[0] == 1 && BigEndian(f[1..5], m.nameLength) && f[5..5 + n] == m.name &&
              f[5 + n] == m.ty && BigEndian(f[6 + n..14 + n], m.seqNo) && f[14 + n..] == m.src
  {
    FrameIsPuts(m);
    LongBytes(m.seqNo);
    if m.Msg? {
      assert m.Frame()[2..10] == LongOctets(m.seqNo);
    } else {
      IntBytes(m.nameLength);
      var f, n := m.Frame(), |m.name|;
      Sections([RDM], IntOctets(m.nameLength), m.name, [m.ty], LongOctets(m.seqNo), m.src);
      assert f[..1][0] == f[0] && f[5 + n..6 + n][0] == f[5 + n];
    }
  }

  /** An accepted put leaves the frame as the content and its length as the new limit. */
  lemma PutAccepted(b: Buf, m: Message)
    requires b.Valid() && m.Valid() && Accepts(b.lim, m)
    ensures PutSpec(b, m) == Done(Buf(m.Frame() + b.bytes[|m.Frame()|..], 0, |m.Frame()|), ())
    ensures PutSpec(b, m).b.Content() == m.Frame()
  {
    FrameIsPuts(m);
    var c := b.Rewind().(lim := m.Need());
    PutAllIsOneWrite(c, m.Header() + [m.src]);
    assert Write(c, m.Frame()).bytes == m.Frame() + b.bytes[|m.Frame()|..];
  }

  /** Where the size check passes, a put that is not accepted overflows. */
  lemma PutOverflows(b: Buf, m: Message)
    requires b.Valid() && m.Valid() && !Accepts(b.lim, m) && 0 <= m.Need() <= b.lim
    ensures PutSpec(b, m).Threw?
  {
    FrameIsPuts(m);
    PutAllIsOneWrite(b.Rewind().(lim := m.Need()), m.Header() + [m.src]);
  }

  /** Any other put throws, or leaves the bare payload. */
  lemma PutRefused(b: Buf, m: Message)
    requires b.Valid() && m.Valid() && !Accepts(b.lim, m)
    ensures PutSpec(b, m).Done? ==> PutSpec(b, m).b.Content() == m.src && PutSpec(b, m).b.lim == |m.src|
  {
    if m.Need() > b.lim {
      PutAllIsOneWrite(b.Rewind(), [m.src]);
      assert Concat([m.src]) == m.src by { assert [m.src][1..] == []; }
    } else if m.Need() >= 0 {
      PutOverflows(b, m);
    }
  }

  /** put writes an intact frame exactly when it accepts the message. */
  lemma PutExactly(b: Buf, m: Message)
    requires b.Valid() && m.Valid()
    ensures (PutSpec(b, m).Done? && PutSpec(b, m).b.Content() == m.Frame()) <==> Accepts(b.lim, m)
  {
    FrameIsPuts(m);
    if Accepts(b.lim, m) {
      PutAccepted(b, m);
    } else {
      PutRefused(b, m);
    }
  }

  /** Every outcome of a put, from the lengths alone: a size that overflows an int throws
      IllegalArgumentException and leaves the limit; one above the limit leaves the bare payload, or nothing if
      that does not fit either; a frame longer than the size that was checked overflows behind the new limit. */
  lemma PutOutcome(b: Buf, m: Message)
    requires b.Valid() && m.Valid()
    ensures var r := PutSpec(b, m);
            if m.Need() < 0 then r == Threw(b.Rewind(), IllegalArgument)
            else if b.lim < m.Need() && b.lim < |m.src| then r == Threw(b.Rewind(), BufferOverflow)
            else if b.lim < m.Need() then r.Done? && r.b.Content() == m.src && r.b.lim == |m.src|
            else if m.Need() < m.FrameLength() then r.Threw? && r.e == BufferOverflow && r.b.lim == m.Need()
            else r.Done? && r.b.Content() == m.Frame() && r.b.lim == m.FrameLength()
  {
    FrameIsPuts(m);
    if b.lim < m.Need() {
      assert Concat([m.src]) == m.src by { assert [m.src][1..] == []; }
      PutAllIsOneWrite(b.Rewind(), [m.src]);
    } else if 0 <= m.Need() {
      PutAllIsOneWrite(b.Rewind().(lim := m.Need()), m.Header() + [m.src]);
      if m.FrameLength() <= m.Need() {
        PutAccepted(b, m);
      }
    }
  }

  // ---------- round trip ----------

  /** The get has recovered everything the put was given. */
  ghost predicate Decoded(r: Result, m: Message) {
    r.Got? && r.payload == m.src && r.h.ty == m.ty && r.h.seqNo == m.seqNo &&
    (m.Rdm? ==> r.h.nameLength == m.nameLength &&
                r.h.name.Some? && r.h.name.value.Valid() && r.h.name.value.Content() == m.name)
  }

  /** The receiver's name buffer takes a name of length n. */
  predicate NameRoom(name: Option<Buf>, n: nat) {
    name.None? || n <= name.value.lim
  }

  /** A get never returns more than the frame less its fixed header. */
  lemma PayloadIsShorter(h: Hpnl, n: nat)
    requires h.Valid()
    ensures GetSpec(h, n).Got? ==> |GetSpec(h, n).payload| + 10 <= n
  {
  }

  lemma GetMsgFrame(h: Hpnl, m: Message)
    requires h.Valid() && m.Valid() && m.Msg? && |m.Frame()| <= |h.buf.bytes|
    ensures Decoded(GetSpec(Delivered(h, m.Frame()), |m.Frame()|), m)
    ensures GetSpec(Delivered(h, m.Frame()), |m.Frame()|).h.name == h.name
  {
    var bytes := Delivered(h, m.Frame()).buf.bytes;
    assert bytes[2..10] == LongOctets(m.seqNo);
    LongRoundTrip(m.seqNo);
    assert bytes[10..|m.Frame()|] == m.src;
  }

  /** Where the fields of a concatenation are. */
  lemma Sections(a: seq<byte>, b: seq<byte>, c: seq<byte>, d: seq<byte>, e: seq<byte>, f: seq<byte>)
    ensures var s, i := a + b + c + d + e + f, |a|;
            var j := i + |b|; var k := j + |c|; var l := k + |d|; var m := l + |e|;
            s[..i] == a && s[i..j] == b && s[j..k] == c && s[k..l] == d && s[l..m] == e && s[m..] == f
  {
  }

  lemma RdmFrameParts(m: Message, bytes: seq<byte>)
    requires m.Valid() && m.Rdm? && |m.Frame()| <= |bytes| && bytes[..|m.Frame()|] == m.Frame()
    ensures var k := |m.name|;
            |m.Frame()| == 14 + k + |m.src| && bytes[0] == RDM && ToInt(bytes[1..5]) == m.nameLength &&
            bytes[5..5 + k] == m.name && bytes[5 + k] == m.ty &&
            ToLong(bytes[6 + k..14 + k]) == m.seqNo && bytes[14 + k..|m.Frame()|] == m.src
  {
    var f, k := m.Frame(), |m.name|;
    Sections([RDM], IntOctets(m.nameLength), m.name, [m.ty], LongOctets(m.seqNo), m.src);
    IntRoundTrip(m.nameLength);
    LongRoundTrip(m.seqNo);
    assert f[0] == RDM by { assert f[..1][0] == RDM; }
    assert f[5 + k] == m.ty by { assert f[5 + k..6 + k][0] == m.ty; }
    assert bytes[1..5] == bytes[..|f|][1..5];
    assert bytes[5..5 + k] == bytes[..|f|][5..5 + k];
    assert bytes[6 + k..14 + k] == bytes[..|f|][6 + k..14 + k];
    assert bytes[14 + k..|f|] == bytes[..|f|][14 + k..];
  }

  /** The get at the name length of a delivered RDM frame. */
  function AtName(h: Hpnl, m: Message): (r: Hpnl)
    requires h.Valid() && m.Valid() && m.Rdm? && |m.Frame()| <= |h.buf.bytes|
    ensures r.Valid()
  {
    var d := Delivered(h, m.Frame());
    d.(buf := d.buf.(pos := 1, lim := |m.Frame()|))
  }

  lemma GetIsName(h: Hpnl, m: Message)
    requires h.Valid() && m.Valid() && m.Rdm? && |m.Frame()| <= |h.buf.bytes|
    ensures GetSpec(Delivered(h, m.Frame()), |m.Frame()|) ==
            var r := GetName(AtName(h, m)); if r.Failed? then r else GetRest(r.h)
  {
    var d := Delivered(h, m.Frame());
    RdmFrameParts(m, d.buf.bytes);
    assert GetOne(d.buf.(pos := 0, lim := |m.Frame()|), 1).value == d.buf.bytes[0..1];
  }

  /** After the name come the type, the sequence number and the payload. */
  lemma GetAfterName(h: Hpnl, m: Message)
    requires h.Valid() && m.Valid() && m.Rdm? && |m.Frame()| <= |h.buf.bytes|
    requires h.buf.bytes[..|m.Frame()|] == m.Frame() && h.buf.pos == 5 + |m.name| && h.buf.lim == |m.Frame()|
    ensures var r := GetRest(h);
            r.Got? && r.payload == m.src && r.h.ty == m.ty && r.h.seqNo == m.seqNo &&
            r.h.nameLength == h.nameLength && r.h.name == h.name
  {
    var k := |m.name|;
    RdmFrameParts(m, h.buf.bytes);
    assert h.buf.bytes[5 + k..6 + k] == [m.ty];
  }

  lemma PutName(b: Buf, name: seq<byte>)
    requires b.Valid() && b.pos == 0 && |name| <= b.lim
    ensures var w := PutOne(b, name); w.Done? && w.b.Flip().Content() == name && w.b.Flip().lim == |name|
  {
  }

  /** Any name whose length precedes it goes into the name buffer, if that has room. */
  lemma NameAt(a: Hpnl, name: seq<byte>)
    requires a.Valid() && a.buf.pos == 1 && 5 + |name| <= a.buf.lim
    requires ToInt(a.buf.bytes[1..5]) == |name| && a.buf.bytes[5..5 + |name|] == name && NameRoom(a.name, |name|)
    ensures var r := GetName(a);
            r.Got? && r.h.buf == a.buf.(pos := 5 + |name|) && r.h.nameLength == |name| &&
            r.h.name.Some? && r.h.name.value.Content() == name && r.h.name.value.lim == |name|
  {
    var l := GetOne(a.buf, 4);
    assert l == Done(a.buf.(pos := 5), a.buf.bytes[1..5]);
    var h1 := a.(buf := l.b, nameLength := |name|);
    var n := GetOne(h1.buf, |name|);
    assert n == Done(a.buf.(pos := 5 + |name|), name);
    var h2 := h1.(buf := n.b);
    PutName(NameBuffer(h2), name);
    var w := PutOne(NameBuffer(h2), name);
    assert GetName(a) == Got(h2.(name := Some(w.b.Flip())), []);
  }

  lemma NameRead(h: Hpnl, m: Message)
    requires h.Valid() && m.Valid() && m.Rdm? && m.nameLength == |m.name| && NameRoom(h.name, |m.name|)
    requires |m.Frame()| <= |h.buf.bytes|
    ensures var r := GetName(AtName(h, m));
            r.Got? && r.h.buf == AtName(h, m).buf.(pos := 5 + |m.name|) && r.h.nameLength == m.nameLength &&
            r.h.name.Some? && r.h.name.value.Content() == m.name && r.h.name.value.lim == |m.name|
  {
    RdmFrameParts(m, AtName(h, m).buf.bytes);
    NameAt(AtName(h, m), m.name);
  }

  /** A true name length and room for the name: everything is read. */
  lemma GetTrueName(h: Hpnl, m: Message)
    requires h.Valid() && m.Valid() && m.Rdm? && m.nameLength == |m.name| && NameRoom(h.name, |m.name|)
    requires |m.Frame()| <= |h.buf.bytes|
    ensures var r := GetName(AtName(h, m));
            r.Got? && Decoded(GetRest(r.h), m) && GetRest(r.h).h.name.value.lim == |m.name|
  {
    FrameIsPuts(m);
    NameRead(h, m);
    GetAfterName(GetName(AtName(h, m)).h, m);
  }

  /** Otherwise the get fails, or what it takes for the payload is shorter. */
  lemma GetFalseName(h: Hpnl, m: Message)
    requires h.Valid() && m.Valid() && m.Rdm? && |m.name| <= m.nameLength && |m.Frame()| <= |h.buf.bytes|
    requires m.nameLength != |m.name| || !NameRoom(h.name, |m.name|)
    ensures var r := GetName(AtName(h, m)); r.Got? ==> !Decoded(GetRest(r.h), m)
  {
    var a := AtName(h, m);
    RdmFrameParts(m, a.buf.bytes);
    var r := GetName(a);
    if r.Got? {
      assert r.h.buf.pos == 5 + m.nameLength && r.h.buf.lim == |m.Frame()|;
    }
  }

  /** Reading an RDM frame: right exactly when its name length is true and the name buffer has room. */
  lemma GetRdmFrame(h: Hpnl, m: Message)
    requires h.Valid() && m.Valid() && m.Rdm? && |m.name| <= m.nameLength && |m.Frame()| <= |h.buf.bytes|
    ensures var r := GetSpec(Delivered(h, m.Frame()), |m.Frame()|);
            Decoded(r, m) <==> m.nameLength == |m.name| && NameRoom(h.name, |m.name|)
    ensures var r := GetSpec(Delivered(h, m.Frame()), |m.Frame()|);
            Decoded(r, m) ==> r.h.name.value.lim == |m.name|
  {
    GetIsName(h, m);
    if m.nameLength == |m.name| && NameRoom(h.name, |m.name|) {
      GetTrueName(h, m);
    } else {
      GetFalseName(h, m);
    }
  }

  /**
   * A put followed by delivery and a get of the frame's length recovers type, sequence number,
   * payload and name exactly when the frame fits the sender's limit and the receiver's buffer,
   * the name length is the name's, and the receiver's name buffer has room.
   */
  lemma RoundTripExactly(b: Buf, h: Hpnl, m: Message)
    requires b.Valid() && h.Valid() && m.Valid()
    ensures var p := PutSpec(b, m);
            (p.Done? && |p.b.Content()| <= |h.buf.bytes| &&
             Decoded(GetSpec(Delivered(h, p.b.Content()), |p.b.Content()|), m))
            <==>
            (m.Fits(b.lim) && m.FrameLength() <= |h.buf.bytes| &&
             (m.Rdm? ==> NameRoom(h.name, |m.name|)))
  {
    FrameIsPuts(m);
    if !Accepts(b.lim, m) {
      PutRefused(b, m);
      var p := PutSpec(b, m);
      if p.Done? && |m.src| <= |h.buf.bytes| {
        PayloadIsShorter(Delivered(h, m.src), |m.src|);
      }
    } else {
      PutAccepted(b, m);
      if |m.Frame()| <= |h.buf.bytes| {
        if m.Msg? {
          GetMsgFrame(h, m);
        } else {
          GetRdmFrame(h, m);
        }
      }
    }
  }

  // ---------- a get of any bytes ----------

  /** The exception a get of the first n bytes ends with, read off the bytes themselves. */
  function Verdict(h: Hpnl, n: int): Option<Exn>
    requires h.Valid()
  {
    var bytes := h.buf.bytes;
    if n < 0 || |bytes| < n then Some(IllegalArgument)
    else if n == 0 then Some(BufferUnderflow)
    else if bytes[0] == MSG then if n < 10 then Some(BufferUnderflow) else None
    else if n < 5 then Some(BufferUnderflow)
    else
      var k := ToInt(bytes[1..5]);
      if k < 0 then Some(NegativeArraySize)
      else if n < 5 + k then Some(BufferUnderflow)
      else if !NameRoom(h.name, k) then Some(BufferOverflow)
      else if n < 14 + k then Some(BufferUnderflow)
      else None
  }

  lemma RestAt(h: Hpnl)
    requires h.Valid()
    ensures var p, r := h.buf.pos, GetRest(h);
            if h.buf.lim < p + 9 then r.Failed? && r.e == BufferUnderflow
            else r == Got(h.(buf := h.buf.(pos := p + 9), ty := h.buf.bytes[p], seqNo := ToLong(h.buf.bytes[p + 1..p + 9])),
                          h.buf.bytes[p + 9..h.buf.lim])
  {
  }

  /** Whatever bytes have arrived: a get fails with that exception, or takes the fields from their places. */
  lemma GetExactly(h: Hpnl, n: int)
    requires h.Valid()
    ensures var r, bytes := GetSpec(h, n), h.buf.bytes;
            match Verdict(h, n)
            case Some(e) => r.Failed? && r.e == e
            case None =>
              var k := if bytes[0] == MSG then 1 else 5 + ToInt(bytes[1..5]);
              r.Got? && r.payload == bytes[k + 9..n] && r.h.ty == bytes[k] && r.h.seqNo == ToLong(bytes[k + 1..k + 9]) &&
              (bytes[0] == MSG ==> r.h.name == h.name && r.h.nameLength == h.nameLength) &&
              (bytes[0] != MSG ==> r.h.nameLength == k - 5 && r.h.name.Some? && r.h.name.value.Content() == bytes[5..k])
  {
    var bytes := h.buf.bytes;
    if 0 < n <= |bytes| {
      assert GetOne(h.buf.(pos := 0, lim := n), 1) == Done(Named(h, n).buf, bytes[0..1]);
      if bytes[0] == MSG {
        RestAt(Named(h, n));
      } else {
        GetNamed(h, n);
      }
    }
  }

  /** The get at the name length of whatever has arrived. */
  function Named(h: Hpnl, n: int): (r: Hpnl)
    requires h.Valid() && 0 < n <= |h.buf.bytes|
    ensures r.Valid()
  {
    h.(buf := h.buf.(pos := 1, lim := n))
  }

  lemma GetStart(h: Hpnl, n: int)
    requires h.Valid() && 0 < n <= |h.buf.bytes| && h.buf.bytes[0] != MSG
    ensures GetSpec(h, n) == var r := GetName(Named(h, n)); if r.Failed? then r else GetRest(r.h)
  {
    assert GetOne(h.buf.(pos := 0, lim := n), 1) == Done(Named(h, n).buf, h.buf.bytes[0..1]);
  }

  lemma NameFails(h: Hpnl, n: int)
    requires h.Valid() && 0 < n <= |h.buf.bytes| && h.buf.bytes[0] != MSG
    ensures n < 5 ==> GetName(Named(h, n)).Failed? && Verdict(h, n) == Some(GetName(Named(h, n)).e)
    ensures 5 <= n ==>
              var k := ToInt(h.buf.bytes[1..5]);
              k < 0 || n < 5 + k || !NameRoom(h.name, k) ==>
                GetName(Named(h, n)).Failed? && Verdict(h, n) == Some(GetName(Named(h, n)).e)
  {
  }

  lemma GetNamed(h: Hpnl, n: int)
    requires h.Valid() && 0 < n <= |h.buf.bytes| && h.buf.bytes[0] != MSG
    ensures var r, bytes := GetSpec(h, n), h.buf.bytes;
            match Verdict(h, n)
            case Some(e) => r.Failed? && r.e == e
            case None =>
              var k := 5 + ToInt(bytes[1..5]);
              r.Got? && r.payload == bytes[k + 9..n] && r.h.ty == bytes[k] && r.h.seqNo == ToLong(bytes[k + 1..k + 9]) &&
              r.h.nameLength == k - 5 && r.h.name.Some? && r.h.name.value.Content() == bytes[5..k]
  {
    var bytes := h.buf.bytes;
    GetStart(h, n);
    NameFails(h, n);
    if 5 <= n {
      var k := ToInt(bytes[1..5]);
      if 0 <= k && 5 + k <= n && NameRoom(h.name, k) {
        NameAt(Named(h, n), bytes[5..5 + k]);
        RestAt(GetName(Named(h, n)).h);
      }
    }
  }

  // ---------- runs of puts on one buffer ----------

  /** Every put of the run leaves its whole frame in the buffer. */
  ghost predicate AllIntact(b: Buf, ms: seq<Message>)
    requires b.Valid() && forall m <- ms :: m.Valid()
    decreases |ms|
  {
    ms == [] ||
    (var r := PutSpec(b, ms[0]);
     r.Done? && r.b.Content() == ms[0].Frame() && AllIntact(r.b, ms[1..]))
  }

  function PutRun(b: Buf, ms: seq<Message>): (r: Buf)
    requires b.Valid() && forall m <- ms :: m.Valid()
    ensures r.Valid()
    decreases |ms|
  {
    if ms == [] then b else PutRun(PutSpec(b, ms[0]).b, ms[1..])
  }

  /** The room the i-th put of a run finds: the length of the frame before it, not the capacity. */
  function Room(limit: nat, ms: seq<Message>, i: nat): nat
    requires i <= |ms|
  {
    if i == 0 then limit else ms[i - 1].FrameLength()
  }

  /** The room the rest of a run finds behind an intact first frame. */
  lemma RoomsShift(limit: nat, ms: seq<Message>)
    requires ms != [] && Accepts(limit, ms[0])
    ensures var first := ms[0].FrameLength();
            (forall i | 0 <= i < |ms| :: Accepts(Room(limit, ms, i), ms[i])) <==>
            (forall i | 0 <= i < |ms[1..]| :: Accepts(Room(first, ms[1..], i), ms[1..][i]))
    ensures Room(limit, ms, |ms|) == Room(ms[0].FrameLength(), ms[1..], |ms| - 1)
  {
    var first, rest := ms[0].FrameLength(), ms[1..];
    assert forall i | 0 <= i <= |rest| :: Room(first, rest, i) == Room(limit, ms, i + 1);
    if forall i | 0 <= i < |rest| :: Accepts(Room(first, rest, i), rest[i]) {
      forall i | 0 <= i < |ms|
        ensures Accepts(Room(limit, ms, i), ms[i])
      {
        if i > 0 {
          assert Accepts(Room(first, rest, i - 1), rest[i - 1]);
        }
      }
    } else {
      var i :| 0 <= i < |rest| && !Accepts(Room(first, rest, i), rest[i]);
      assert !Accepts(Room(limit, ms, i + 1), ms[i + 1]);
    }
  }

  /**
   * Since rewinding does not restore the limit, a run of puts is written intact exactly when each
   * frame fits the one before it; the limit is then the last frame's length.
   */
  lemma {:induction false} PutRunExactly(b: Buf, ms: seq<Message>)
    requires b.Valid() && forall m <- ms :: m.Valid()
    ensures AllIntact(b, ms) <==> forall i | 0 <= i < |ms| :: Accepts(Room(b.lim, ms, i), ms[i])
    ensures AllIntact(b, ms) ==> PutRun(b, ms).lim == Room(b.lim, ms, |ms|)
    decreases |ms|
  {
    if ms != [] {
      PutExactly(b, ms[0]);
      if Accepts(b.lim, ms[0]) {
        PutAccepted(b, ms[0]);
        FrameIsPuts(ms[0]);
        var c, rest := PutSpec(b, ms[0]).b, ms[1..];
        PutRunExactly(c, rest);
        RoomsShift(b.lim, ms);
      } else {
        assert !Accepts(Room(b.lim, ms, 0), ms[0]);
      }
    }
  }

  /** Whatever is put, and whether it is accepted or not, the limit never grows. */
  lemma {:induction false} LimitNeverGrows(b: Buf, ms: seq<Message>)
    requires b.Valid() && forall m <- ms :: m.Valid()
    ensures PutRun(b, ms).lim <= b.lim
    decreases |ms|
  {
    if ms != [] {
      LimitNeverGrows(PutSpec(b, ms[0]).b, ms[1..]);
      if 0 <= ms[0].Need() <= b.lim {
        PutAllIsOneWrite(b.Rewind().(lim := ms[0].Need()), ms[0].Header() + [ms[0].src]);
      } else {
        PutAllIsOneWrite(b.Rewind(), [ms[0].src]);
      }
    }
  }

  // ---------- runs of gets on one buffer ----------

  /** Frames are delivered and read one after the other, and each is recovered right after it came. */
  ghost predicate AllDecoded(h: Hpnl, ms: seq<Message>)
    requires h.Valid() && forall m <- ms :: m.Valid() && |m.Frame()| <= |h.buf.bytes|
    decreases |ms|
  {
    ms == [] ||
    (var r := GetSpec(Delivered(h, ms[0].Frame()), |ms[0].Frame()|);
     Decoded(r, ms[0]) && AllDecoded(r.h, ms[1..]))
  }

  /** Each name fits the name buffer's limit, which the name before it has set. */
  predicate NamesFit(room: Option<nat>, ms: seq<Message>)
    decreases |ms|
  {
    ms == [] ||
    (if ms[0].Msg? then NamesFit(room, ms[1..])
     else (room.None? || |ms[0].name| <= room.value) && NamesFit(Some(|ms[0].name|), ms[1..]))
  }

  function NameLimit(h: Hpnl): Option<nat> {
    if h.name.None? then None else Some(h.name.value.lim)
  }

  /** A run of gets recovers every frame, latest name included, exactly when names never get longer. */
  lemma {:induction false} GetRunExactly(h: Hpnl, ms: seq<Message>)
    requires h.Valid()
    requires forall m <- ms :: m.Valid() && |m.Frame()| <= |h.buf.bytes| && (m.Rdm? ==> m.nameLength == |m.name|)
    ensures AllDecoded(h, ms) <==> NamesFit(NameLimit(h), ms)
    decreases |ms|
  {
    if ms != [] {
      if ms[0].Msg? {
        GetMsgFrame(h, ms[0]);
      } else {
        GetRdmFrame(h, ms[0]);
      }
      var r := GetSpec(Delivered(h, ms[0].Frame()), |ms[0].Frame()|);
      if Decoded(r, ms[0]) {
        GetRunExactly(r.h, ms[1..]);
      }
    }
  }

  /** In particular any run whose names all have one length, on a buffer that is new or held such names. */
  lemma {:induction false} EqualNamesAlwaysFit(room: Option<nat>, ms: seq<Message>, n: nat)
    requires room.None? || room.value == n
    requires forall m <- ms :: m.Rdm? ==> |m.name| == n
    ensures NamesFit(room, ms)
    decreases |ms|
  {
    if ms != [] {
      EqualNamesAlwaysFit(if ms[0].Msg? then room else Some(n), ms[1..], n);
    }
  }
}
