/** The two message framings of the Java binding, written into and read from a reused buffer. */
module HpnlBuffers {
  import opened Common
  import opened ByteBuffers

  const METADATA_SIZE := 10
  const MSG: byte := 0
  const RDM: byte := 1

  /** The fields of an HpnlBuffer; `name` is the buffer that successive RDM gets reuse. */
  datatype Hpnl = Hpnl(buf: Buf, ty: byte, seqNo: int, nameLength: int, name: Option<Buf>)
  {
    predicate Valid() {
      buf.Valid() && (name.Some? ==> name.value.Valid() && name.value.pos == 0)
    }
  }

  /** A put the application asks for; `src` and `name` are the bytes remaining in its buffers. */
  datatype Message =
    | Msg(src: seq<byte>, ty: byte, seqNo: int)
    | Rdm(src: seq<byte>, ty: byte, seqNo: int, nameLength: int, name: seq<byte>)
  {
    /** The ranges of the Java types. */
    predicate Valid() {
      IsInt(|src|) && IsLong(seqNo) && (Rdm? ==> IsInt(nameLength) && IsInt(|name|))
    }

    /** The header, one element per put. */
    function Header(): seq<seq<byte>>
      requires Valid()
    {
      if Msg? then [[MSG], [ty], LongOctets(seqNo)]
      else [[RDM], IntOctets(nameLength), name, [ty], LongOctets(seqNo)]
    }

    /** The int the size check computes. */
    function Need(): int {
      if Msg? then Wrap(METADATA_SIZE + |src|) else Wrap(METADATA_SIZE + |src| + nameLength + 4)
    }

    /** The frame on the wire and its length, as the formats prescribe them. */
    function Frame(): seq<byte>
      requires Valid()
    {
      if Msg? then [MSG, ty] + LongOctets(seqNo) + src
      else [RDM] + IntOctets(nameLength) + name + [ty] + LongOctets(seqNo) + src
    }

    function FrameLength(): nat {
      if Msg? then 10 + |src| else 14 + |name| + |src|
    }

    /** What the caller of put has to see to: the frame fits the current limit (not the capacity). */
    predicate Fits(limit: nat) {
      FrameLength() <= limit && (Rdm? ==> nameLength == |name|)
    }
  }

  // ---------- specification ----------

  function Flipped(r: Outcome<()>): (q: Outcome<()>)
    requires r.b.Valid()
    ensures q.b.Valid() && |q.b.bytes| == |r.b.bytes|
  {
    if r.Done? then Done(r.b.Flip(), ()) else r
  }

  /** put: a message that is too large is still written, but without its header. */
  function PutSpec(b: Buf, m: Message): (r: Outcome<()>)
    requires b.Valid() && m.Valid()
    ensures r.b.Valid() && |r.b.bytes| == |b.bytes|
  {
    if m.Need() > b.lim then Flipped(PutAll(b.Rewind(), [m.src]))
    else if m.Need() < 0 then Threw(b.Rewind(), IllegalArgument)
    else Flipped(PutAll(b.Rewind().(lim := m.Need()), m.Header() + [m.src]))
  }

  datatype Result = Got(h: Hpnl, payload: seq<byte>) | Failed(h: Hpnl, e: Exn)

  /** The type, the sequence number and the payload, read at the position. */
  function GetRest(h: Hpnl): (r: Result)
    requires h.Valid()
    ensures r.h.Valid() && |r.h.buf.bytes| == |h.buf.bytes|
  {
    var t := GetOne(h.buf, 1);
    if t.Threw? then Failed(h.(buf := t.b), t.e)
    else
      var h1 := h.(buf := t.b, ty := t.value[0]);
      var s := GetOne(h1.buf, 8);
      if s.Threw? then Failed(h1.(buf := s.b), s.e)
      else Got(h1.(buf := s.b, seqNo := ToLong(s.value)), s.b.Content())
  }

  /** The name buffer the get writes to, created with the length of the first name. */
  function NameBuffer(h: Hpnl): (b: Buf)
    requires h.Valid() && 0 <= h.nameLength < 0x8000_0000
    ensures b.Valid() && b.pos == 0
  {
    if h.name.Some? then h.name.value else Buf(Zeros(h.nameLength), 0, h.nameLength)
  }

  /** The name length and the name, read at the position into the reused name buffer. */
  function GetName(h: Hpnl): (r: Result)
    requires h.Valid()
    ensures r.h.Valid() && |r.h.buf.bytes| == |h.buf.bytes|
  {
    var l := GetOne(h.buf, 4);
    if l.Threw? then Failed(h.(buf := l.b), l.e)
    else
      var h1 := h.(buf := l.b, nameLength := ToInt(l.value));
      if h1.nameLength < 0 then Failed(h1, NegativeArraySize)
      else
        var n := GetOne(h1.buf, h1.nameLength);
        if n.Threw? then Failed(h1.(buf := n.b), n.e)
        else
          var h2 := h1.(buf := n.b);
          var w := PutOne(NameBuffer(h2), n.value);
          if w.Threw? then Failed(h2.(name := Some(w.b)), w.e)
          else Got(h2.(name := Some(w.b.Flip())), [])
  }

  function GetSpec(h: Hpnl, n: int): (r: Result)
    requires h.Valid()
    ensures r.h.Valid() && |r.h.buf.bytes| == |h.buf.bytes|
  {
    var h0 := h.(buf := h.buf.Rewind());
    if n < 0 || n > |h.buf.bytes| then Failed(h0, IllegalArgument)
    else
      var t := GetOne(h0.buf.(lim := n), 1);
      if t.Threw? then Failed(h0.(buf := t.b), t.e)
      else if t.value[0] == MSG then GetRest(h0.(buf := t.b))
      else
        var r := GetName(h0.(buf := t.b));
        if r.Failed? then r else GetRest(r.h)
  }

  /** The buffer after the fabric has placed `frame` at its start. */
  function Delivered(h: Hpnl, frame: seq<byte>): (r: Hpnl)
    requires h.Valid() && |frame| <= |h.buf.bytes|
    ensures r.Valid()
  {
    h.(buf := h.buf.(bytes := frame + h.buf.bytes[|frame|..]))
  }

  // ---------- the class ----------

  class HpnlBuffer {
    const byteBuffer: ByteBuffer
    var ty: byte
    var seqNo: int
    var nameLength: int
    var name: ByteBuffer?

    constructor (byteBuffer: ByteBuffer)
      requires byteBuffer.Valid()
      ensures Valid() && this.byteBuffer == byteBuffer
      ensures Value() == Hpnl(byteBuffer.Value(), 0, 0, 0, None)
    {
      this.byteBuffer := byteBuffer;
      ty, seqNo, nameLength, name := 0, 0, 0, null;
    }

    function Footprint(): set<object>
      reads this, name
    {
      {this, byteBuffer, byteBuffer.data} + if name == null then {} else {name, name.data}
    }

    predicate Valid()
      reads this, byteBuffer, name
    {
      byteBuffer.Valid() &&
      (name != null ==> name.Valid() && name.pos == 0 && name != byteBuffer && name.data != byteBuffer.data)
    }

    function Value(): (h: Hpnl)
      requires Valid()
      reads this, byteBuffer, byteBuffer.data, name, if name == null then {} else {name.data}
      ensures h.Valid()
    {
      Hpnl(byteBuffer.Value(), ty, seqNo, nameLength, if name == null then None else Some(name.Value()))
    }

    /** put of either framing; the size check's ArithmeticException is caught here and only printed. */
    method Put(m: Message) returns (e: Option<Exn>)
      requires Valid() && m.Valid()
      modifies byteBuffer`pos, byteBuffer`lim, byteBuffer.data
      ensures Valid()
      ensures var r := PutSpec(old(Value()).buf, m);
              Value() == old(Value()).(buf := r.b) && e == if r.Done? then None else Some(r.e)
    {
      ghost var b := byteBuffer.Value().Rewind();
      ghost var limited := b.(lim := if 0 <= m.Need() <= b.lim then m.Need() else b.lim);
      e := PutMetadata(m);
      PutAllIsOneWrite(limited, m.Header());
      PutAllThenOne(limited, m.Header(), m.src);
      PutAllThenOne(b, [], m.src);
      assert [] + [m.src] == [m.src];
      if e == None || e == Some(Arithmetic) {
        e := byteBuffer.Put(m.src);
        if e == None {
          byteBuffer.Flip();
        }
      }
    }

    method PutMetadata(m: Message) returns (e: Option<Exn>)
      requires Valid() && m.Valid()
      modifies byteBuffer`pos, byteBuffer`lim, byteBuffer.data
      ensures Valid()
      ensures var b := old(byteBuffer.Value()).Rewind();
              if m.Need() > b.lim then e == Some(Arithmetic) && byteBuffer.Value() == b
              else if m.Need() < 0 then e == Some(IllegalArgument) && byteBuffer.Value() == b
              else var r := PutAll(b.(lim := m.Need()), m.Header());
                   byteBuffer.Value() == r.b && e == if r.Done? then None else Some(r.e)
    {
      byteBuffer.Rewind();
      if m.Need() > byteBuffer.lim {
        return Some(Arithmetic);
      }
      e := byteBuffer.Limit(m.Need());
      if e != None {
        return;
      }
      if m.Msg? {
        e := PutMsgHeader(m);
      } else {
        e := PutRdmHeader(m);
      }
    }

    method PutMsgHeader(m: Message) returns (e: Option<Exn>)
      requires Valid() && m.Valid() && m.Msg?
      modifies byteBuffer`pos, byteBuffer.data
      ensures Valid()
      ensures var r := PutAll(old(byteBuffer.Value()), m.Header());
              byteBuffer.Value() == r.b && e == if r.Done? then None else Some(r.e)
    {
      ghost var b, parts := byteBuffer.Value(), m.Header();
      e := PutPart(b, parts, parts, [MSG]);
      if e == None {
        e := PutTypeAndSeq(b, parts, parts[1..], m);
      }
    }

    method PutRdmHeader(m: Message) returns (e: Option<Exn>)
      requires Valid() && m.Valid() && m.Rdm?
      modifies byteBuffer`pos, byteBuffer.data
      ensures Valid()
      ensures var r := PutAll(old(byteBuffer.Value()), m.Header());
              byteBuffer.Value() == r.b && e == if r.Done? then None else Some(r.e)
    {
      ghost var b, parts := byteBuffer.Value(), m.Header();
      e := PutPart(b, parts, parts, [RDM]);
      if e != None {
        return;
      }
      ghost var todo := parts[1..];
      e := PutPart(b, parts, todo, IntOctets(m.nameLength));
      if e != None {
        return;
      }
      todo := todo[1..];
      e := PutPart(b, parts, todo, m.name);
      if e != None {
        return;
      }
      e := PutTypeAndSeq(b, parts, todo[1..], m);
    }

    /** The type and the sequence number, which end both headers. */
    method PutTypeAndSeq(ghost b: Buf, ghost parts: seq<seq<byte>>, ghost todo: seq<seq<byte>>, m: Message) returns (e: Option<Exn>)
      requires Valid() && m.Valid() && b.Valid() && todo == [[m.ty], LongOctets(m.seqNo)]
      requires PutAll(b, parts) == PutAll(byteBuffer.Value(), todo)
      modifies byteBuffer`pos, byteBuffer.data
      ensures Valid()
      ensures var r := PutAll(b, parts);
              byteBuffer.Value() == r.b && e == if r.Done? then None else Some(r.e)
    {
      e := PutPart(b, parts, todo, [m.ty]);
      if e == None {
        e := PutPart(b, parts, todo[1..], LongOctets(m.seqNo));
      }
    }

    /** One put of a sequence of puts; `todo` is what is still to be put. */
    method PutPart(ghost b: Buf, ghost parts: seq<seq<byte>>, ghost todo: seq<seq<byte>>, part: seq<byte>) returns (e: Option<Exn>)
      requires Valid() && b.Valid() && todo != [] && todo[0] == part
      requires PutAll(b, parts) == PutAll(byteBuffer.Value(), todo)
      modifies byteBuffer`pos, byteBuffer.data
      ensures Valid()
      ensures e == None ==> PutAll(b, parts) == PutAll(byteBuffer.Value(), todo[1..])
      ensures e != None ==> PutAll(b, parts) == Threw(byteBuffer.Value(), e.value)
    {
      e := byteBuffer.Put(part);
    }

    method Get(n: int) returns (e: Option<Exn>, payload: seq<byte>)
      requires Valid()
      modifies this, byteBuffer, name, if name == null then {} else {name.data}
      ensures Valid()
      ensures var r := GetSpec(old(Value()), n);
              Value() == r.h && (if r.Got? then e == None && payload == r.payload else e == Some(r.e))
    {
      payload := [];
      byteBuffer.Rewind();
      e := byteBuffer.Limit(n);
      if e != None {
        return;
      }
      var first;
      e, first := byteBuffer.Get(1);
      if e != None {
        return;
      }
      if first[0] != MSG {
        e := ReadName();
        if e != None {
          return;
        }
      }
      e, payload := ReadRest();
    }

    method ReadName() returns (e: Option<Exn>)
      requires Valid()
      modifies this, byteBuffer, name, if name == null then {} else {name.data}
      ensures Valid()
      ensures name == old(name) || (fresh(name) && fresh(name.data))
      ensures var r := GetName(old(Value()));
              Value() == r.h && e == if r.Got? then None else Some(r.e)
    {
      var bytes;
      e, bytes := byteBuffer.Get(4);
      if e != None {
        return;
      }
      nameLength := ToInt(bytes);
      if nameLength < 0 {
        return Some(NegativeArraySize);
      }
      e, bytes := byteBuffer.Get(nameLength);
      if e != None {
        return;
      }
      if name == null {
        name := new ByteBuffer(nameLength);
      }
      e := name.Put(bytes);
      if e == None {
        name.Flip();
      }
    }

    method ReadRest() returns (e: Option<Exn>, payload: seq<byte>)
      requires Valid()
      modifies this`ty, this`seqNo, byteBuffer
      ensures Valid()
      ensures var r := GetRest(old(Value()));
              Value() == r.h && (if r.Got? then e == None && payload == r.payload else e == Some(r.e))
    {
      payload := [];
      var bytes;
      e, bytes := byteBuffer.Get(1);
      if e != None {
        return;
      }
      ty := bytes[0];
      e, bytes := byteBuffer.Get(8);
      if e != None {
        return;
      }
      seqNo := ToLong(bytes);
      payload := byteBuffer.data[byteBuffer.pos..byteBuffer.lim];
    }
  }
}
