/** java.nio.ByteBuffer as HpnlBuffer uses it: big-endian numbers, a position and a limit. */
module ByteBuffers {
  import opened Common

  newtype byte = x: int | 0 <= x < 256

  datatype Exn = Arithmetic | BufferOverflow | BufferUnderflow | IllegalArgument | NegativeArraySize

  /** The state of a ByteBuffer; its capacity is |bytes|. */
  datatype Buf = Buf(bytes: seq<byte>, pos: nat, lim: nat)
  {
    predicate Valid() {
      pos <= lim <= |bytes| < 0x8000_0000
    }

    function Remaining(): nat
      requires Valid()
    {
      lim - pos
    }

    /** What slice() and the fabric see. */
    function Content(): seq<byte>
      requires Valid()
    {
      bytes[pos..lim]
    }

    function Rewind(): Buf {
      this.(pos := 0)
    }

    function Flip(): Buf {
      this.(pos := 0, lim := pos)
    }
  }

  // ---------- numbers ----------

  function Pow256(n: nat): nat {
    if n == 0 then 1 else 256 * Pow256(n - 1)
  }

  /** The n low-order bytes of v, most significant first. */
  function Octets(v: nat, n: nat): (r: seq<byte>)
    ensures |r| == n
  {
    if n == 0 then [] else Octets(v / 256, n - 1) + [(v % 256) as byte]
  }

  function Unsigned(bs: seq<byte>): nat {
    if bs == [] then 0 else Unsigned(bs[..|bs| - 1]) * 256 + bs[|bs| - 1] as nat
  }

  lemma {:induction false} OctetsRoundTrip(v: nat, n: nat)
    requires v < Pow256(n)
    ensures Unsigned(Octets(v, n)) == v
  {
    if n > 0 {
      OctetsRoundTrip(v / 256, n - 1);
      assert Octets(v, n)[..n - 1] == Octets(v / 256, n - 1);
    }
  }

  const INT_MOD := 0x1_0000_0000
  const LONG_MOD := 0x1_0000_0000_0000_0000

  predicate IsInt(x: int) {
    -0x8000_0000 <= x < 0x8000_0000
  }

  predicate IsLong(x: int) {
    -0x8000_0000_0000_0000 <= x < 0x8000_0000_0000_0000
  }

  /** Java int arithmetic wraps around. */
  function Wrap(x: int): (r: int)
    ensures IsInt(r)
    ensures IsInt(x) ==> r == x
  {
    var m := x % INT_MOD;
    if m < 0x8000_0000 then m else m - INT_MOD
  }

  function IntOctets(x: int): (r: seq<byte>)
    requires IsInt(x)
    ensures |r| == 4
  {
    Octets(if x < 0 then x + INT_MOD else x, 4)
  }

  function ToInt(bs: seq<byte>): int {
    var v := Unsigned(bs);
    if v < 0x8000_0000 then v else v - INT_MOD
  }

  function LongOctets(x: int): (r: seq<byte>)
    requires IsLong(x)
    ensures |r| == 8
  {
    Octets(if x < 0 then x + LONG_MOD else x, 8)
  }

  function ToLong(bs: seq<byte>): int {
    var v := Unsigned(bs);
    if v < 0x8000_0000_0000_0000 then v else v - LONG_MOD
  }

  lemma Powers()
    ensures Pow256(4) == INT_MOD && Pow256(8) == LONG_MOD
  {
    assert Pow256(2) == 0x1_0000;
    assert Pow256(4) == 0x1_0000 * 0x1_0000;
    assert Pow256(6) == 0x1_0000 * Pow256(4);
    assert Pow256(8) == 0x1_0000 * Pow256(6);
  }

  /** getInt after putInt, for every 32-bit value. */
  lemma IntRoundTrip(x: int)
    requires IsInt(x)
    ensures ToInt(IntOctets(x)) == x
  {
    Powers();
    OctetsRoundTrip(if x < 0 then x + INT_MOD else x, 4);
  }

  /** getLong after putLong, for every 64-bit value. */
  lemma LongRoundTrip(x: int)
    requires IsLong(x)
    ensures ToLong(LongOctets(x)) == x
  {
    Powers();
    OctetsRoundTrip(if x < 0 then x + LONG_MOD else x, 8);
  }

  lemma {:induction false} PowAdd(a: nat, b: nat)
    ensures Pow256(a + b) == Pow256(a) * Pow256(b)
    ensures 0 < Pow256(a)
  {
    if a > 0 {
      PowAdd(a - 1, b);
    }
  }

  lemma DivTwice(v: nat, p: nat)
    requires 0 < p
    ensures (v / 256) / p == v / (256 * p)
  {
    var q := v / 256;
    var w, r := q / p, q % p;
    assert q == w * p + r && v == q * 256 + v % 256;
    assert v == w * (256 * p) + (r * 256 + v % 256);
    Quotient(w, 256 * p, r * 256 + v % 256);
  }

  /** The first byte is the most significant one. */
  lemma {:induction false} OctetsBigEndian(v: nat, n: nat, i: nat)
    requires i < n
    ensures 0 < Pow256(n - 1 - i) && Octets(v, n)[i] as int == (v / Pow256(n - 1 - i)) % 256
  {
    PowAdd(n - 1 - i, 0);
    if i < n - 1 {
      OctetsBigEndian(v / 256, n - 1, i);
      PowAdd(n - 2 - i, 0);
      DivTwice(v, Pow256(n - 2 - i));
    }
  }

  lemma NonNegative(n: int, p: int, r: int)
    requires 0 <= r < p && 0 <= n * p + r
    ensures 0 <= n
  {
    assert n <= -1 ==> n * p <= -1 * p;
  }

  /** Adding a multiple of 256 * p leaves the digit at p alone. */
  lemma DigitKept(x: int, p: nat, k: nat)
    requires 0 < p && 0 <= x + k * 256 * p
    ensures ((x + k * 256 * p) / p) % 256 == (x / p) % 256
  {
    var q := x / p;
    assert x == q * p + x % p;
    assert x + k * 256 * p == (q + k * 256) * p + x % p;
    var n := q + k * 256;
    NonNegative(n, p, x % p);
    Quotient(n, p, x % p);
    assert (q + k * 256) % 256 == q % 256;
  }

  /** Two's complement: the n bytes of x, negative or not, are x's own digits to the base 256, rounding
      down, as (byte) (x >> 8 * (n - 1 - i)) takes them. */
  lemma SignedBigEndian(x: int, n: nat, i: nat)
    requires i < n && 0 <= x + Pow256(n)
    ensures 0 < Pow256(n - 1 - i)
    ensures Octets(if x < 0 then x + Pow256(n) else x, n)[i] as int == (x / Pow256(n - 1 - i)) % 256
  {
    OctetsBigEndian(if x < 0 then x + Pow256(n) else x, n, i);
    if x < 0 {
      var p, k := Pow256(n - 1 - i), Pow256(i);
      PowAdd(i, n - i);
      assert Pow256(n) == k * Pow256(n - i) && Pow256(n - i) == 256 * p;
      assert k * (256 * p) == k * 256 * p;
      DigitKept(x, p, k);
    }
  }

  // ---------- relative puts and gets ----------

  datatype Outcome<T> = Done(b: Buf, value: T) | Threw(b: Buf, e: Exn)

  /** The bytes of `src` written at the position, which moves behind them. */
  function Write(b: Buf, src: seq<byte>): Buf
    requires b.Valid() && |src| <= b.Remaining()
  {
    b.(bytes := b.bytes[..b.pos] + src + b.bytes[b.pos + |src|..], pos := b.pos + |src|)
  }

  /** put, putInt and putLong all check the space first and then write. */
  function PutOne(b: Buf, src: seq<byte>): (r: Outcome<()>)
    requires b.Valid()
    ensures r.b.Valid() && |r.b.bytes| == |b.bytes| && r.b.lim == b.lim
  {
    if |src| <= b.Remaining() then Done(Write(b, src), ()) else Threw(b, BufferOverflow)
  }

  /** A sequence of puts; an exception leaves what was written before it. */
  function PutAll(b: Buf, parts: seq<seq<byte>>): (r: Outcome<()>)
    requires b.Valid()
    ensures r.b.Valid() && |r.b.bytes| == |b.bytes| && r.b.lim == b.lim
    decreases |parts|
  {
    if parts == [] then Done(b, ())
    else
      var r := PutOne(b, parts[0]);
      if r.Threw? then r else PutAll(r.b, parts[1..])
  }

  function Concat(parts: seq<seq<byte>>): seq<byte> {
    if parts == [] then [] else parts[0] + Concat(parts[1..])
  }

  /** A sequence of puts succeeds exactly when everything fits, and then it is one write. */
  lemma {:induction false} PutAllIsOneWrite(b: Buf, parts: seq<seq<byte>>)
    requires b.Valid()
    ensures PutAll(b, parts).Done? <==> |Concat(parts)| <= b.Remaining()
    ensures |Concat(parts)| <= b.Remaining() ==> PutAll(b, parts).b == Write(b, Concat(parts))
    ensures PutAll(b, parts).Threw? ==> PutAll(b, parts).e == BufferOverflow
    decreases |parts|
  {
    if parts == [] {
      assert b.bytes == b.bytes[..b.pos] + [] + b.bytes[b.pos..];
    } else if |parts[0]| <= b.Remaining() {
      var c := Write(b, parts[0]);
      PutAllIsOneWrite(c, parts[1..]);
      if |Concat(parts)| <= b.Remaining() {
        WriteTwice(b, parts[0], Concat(parts[1..]));
      }
    }
  }

  /** One more put at the end of a sequence of puts. */
  lemma {:induction false} PutAllThenOne(b: Buf, parts: seq<seq<byte>>, src: seq<byte>)
    requires b.Valid()
    ensures PutAll(b, parts + [src]) == var r := PutAll(b, parts); if r.Done? then PutOne(r.b, src) else r
    decreases |parts|
  {
    if parts != [] {
      var r := PutOne(b, parts[0]);
      assert (parts + [src])[1..] == parts[1..] + [src];
      if r.Done? {
        PutAllThenOne(r.b, parts[1..], src);
      }
    }
  }

  lemma WriteTwice(b: Buf, x: seq<byte>, y: seq<byte>)
    requires b.Valid() && |x| + |y| <= b.Remaining()
    ensures Write(Write(b, x), y) == Write(b, x + y)
  {
    assert Write(Write(b, x), y).bytes == Write(b, x + y).bytes;
  }

  /** A relative get of n bytes. */
  function GetOne(b: Buf, n: nat): (r: Outcome<seq<byte>>)
    requires b.Valid()
    ensures r.b.Valid() && |r.b.bytes| == |b.bytes|
  {
    if n <= b.Remaining() then Done(b.(pos := b.pos + n), b.bytes[b.pos..b.pos + n]) else Threw(b, BufferUnderflow)
  }

  function Zeros(n: nat): seq<byte> {
    seq(n, _ => 0 as byte)
  }

  // ---------- the class ----------

  class ByteBuffer {
    const data: array<byte>
    var pos: nat
    var lim: nat

    constructor (capacity: nat)
      requires capacity < 0x8000_0000
      ensures Valid() && fresh(data) && Value() == Buf(Zeros(capacity), 0, capacity)
    {
      data := new byte[capacity](_ => 0);
      pos, lim := 0, capacity;
    }

    predicate Valid()
      reads this
    {
      pos <= lim <= data.Length < 0x8000_0000
    }

    function Value(): (b: Buf)
      requires Valid()
      reads this, data
      ensures b.Valid()
    {
      Buf(data[..], pos, lim)
    }

    method Rewind()
      requires Valid()
      modifies this`pos
      ensures Valid() && Value() == old(Value()).Rewind()
    {
      pos := 0;
    }

    method Flip()
      requires Valid()
      modifies this`pos, this`lim
      ensures Valid() && Value() == old(Value()).Flip()
    {
      lim := pos;
      pos := 0;
    }

    /** limit(int) on a rewound buffer. */
    method Limit(n: int) returns (e: Option<Exn>)
      requires Valid() && pos == 0
      modifies this`lim
      ensures Valid() && e == if 0 <= n <= data.Length then None else Some(IllegalArgument)
      ensures Value() == if e.None? then old(Value()).(lim := n) else old(Value())
    {
      if n < 0 || data.Length < n {
        return Some(IllegalArgument);
      }
      lim := n;
      e := None;
    }

    /** A relative bulk put. */
    method Put(src: seq<byte>) returns (e: Option<Exn>)
      requires Valid()
      modifies this`pos, data
      ensures Valid()
      ensures var r := PutOne(old(Value()), src);
              Value() == r.b && e == if r.Done? then None else Some(r.e)
    {
      if lim - pos < |src| {
        return Some(BufferOverflow);
      }
      ghost var before := data[..];
      for i := 0 to |src|
        invariant pos == old(pos)
        invariant data[..] == before[..pos] + src[..i] + before[pos + i..]
      {
        data[pos + i] := src[i];
      }
      pos := pos + |src|;
      assert src[..|src|] == src;
      e := None;
    }

    /** A relative bulk get. */
    method Get(n: nat) returns (e: Option<Exn>, bytes: seq<byte>)
      requires Valid()
      modifies this`pos
      ensures Valid()
      ensures var r := GetOne(old(Value()), n);
              Value() == r.b && (if r.Done? then e == None && bytes == r.value else e == Some(r.e))
    {
      if lim - pos < n {
        return Some(BufferUnderflow), [];
      }
      bytes := data[pos..pos + n];
      pos := pos + n;
      e := None;
    }
  }
}
