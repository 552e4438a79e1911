/** Bytes, and 32-bit integers in network byte order. */
module Bytes {

  newtype Byte = b: int | 0 <= b < 0x100

  const TWO_TO_THE_31 := 0x8000_0000
  const TWO_TO_THE_32 := 0x1_0000_0000

  predicate IsInt32(v: int) { -TWO_TO_THE_31 <= v < TWO_TO_THE_31 }

  /** The cast from int to uint32_t. */
  function ToUnsigned(v: int): (u: nat)
    requires IsInt32(v)
    ensures u < TWO_TO_THE_32
  {
    if v < 0 then v + TWO_TO_THE_32 else v
  }

  /** The cast from uint32_t to int. */
  function ToSigned(u: nat): (v: int)
    requires u < TWO_TO_THE_32
    ensures IsInt32(v) && ToUnsigned(v) == u
  {
    if u < TWO_TO_THE_31 then u else u - TWO_TO_THE_32
  }

  /** htonl, followed by writing the four bytes out. */
  function BigEndian(u: nat): (bs: seq<Byte>)
    requires u < TWO_TO_THE_32
    ensures |bs| == 4
  {
    var hi := u / 0x100;
    var hi2 := hi / 0x100;
    [(hi2 / 0x100) as Byte, (hi2 % 0x100) as Byte, (hi % 0x100) as Byte, (u % 0x100) as Byte]
  }

  /** Reading four bytes in, followed by ntohl. */
  function FromBigEndian(bs: seq<Byte>): (u: nat)
    requires |bs| == 4
    ensures u < TWO_TO_THE_32
  {
    ((bs[0] as nat * 0x100 + bs[1] as nat) * 0x100 + bs[2] as nat) * 0x100 + bs[3] as nat
  }

  lemma BigEndianRoundTrip(u: nat)
    requires u < TWO_TO_THE_32
    ensures FromBigEndian(BigEndian(u)) == u
  {
  }

  lemma Shifted(q: nat, b: Byte)
    ensures (q * 0x100 + b as nat) / 0x100 == q && (q * 0x100 + b as nat) % 0x100 == b as nat
  {
  }

  lemma FromBigEndianRoundTrip(bs: seq<Byte>)
    requires |bs| == 4
    ensures BigEndian(FromBigEndian(bs)) == bs
  {
    var q1 := bs[0] as nat * 0x100 + bs[1] as nat;
    var q2 := q1 * 0x100 + bs[2] as nat;
    Shifted(bs[0] as nat, bs[1]);
    Shifted(q1, bs[2]);
    Shifted(q2, bs[3]);
  }

  /** Lexicographic order of byte sequences of one length. */
  predicate Below(a: seq<Byte>, b: seq<Byte>)
    requires |a| == |b|
  {
    a != [] && (a[0] < b[0] || (a[0] == b[0] && Below(a[1..], b[1..])))
  }

  lemma BelowByByte(a: seq<Byte>, b: seq<Byte>)
    requires |a| == |b| == 4
    ensures Below(a, b) <==>
      || a[0] < b[0]
      || (a[0] == b[0] && a[1] < b[1])
      || (a[0] == b[0] && a[1] == b[1] && a[2] < b[2])
      || (a[0] == b[0] && a[1] == b[1] && a[2] == b[2] && a[3] < b[3])
  {
    assert a[1..][1..] == a[2..] && b[1..][1..] == b[2..];
    assert a[2..][1..] == a[3..] && b[2..][1..] == b[3..];
    assert Below(a[3..], b[3..]) <==> a[3] < b[3];
    assert Below(a[2..], b[2..]) <==> a[2] < b[2] || (a[2] == b[2] && a[3] < b[3]);
    assert Below(a[1..], b[1..]) <==> a[1] < b[1] || (a[1] == b[1] && Below(a[2..], b[2..]));
  }

  lemma FirstByteDecides(p: nat, q: nat, a: Byte, b: Byte)
    ensures p * 0x100 + a as nat < q * 0x100 + b as nat <==> p < q || (p == q && a < b)
  {
  }

  /** Network order: the most significant byte comes first, so that numbers compare as their bytes do. */
  lemma NetworkOrder(u: nat, v: nat)
    requires u < TWO_TO_THE_32 && v < TWO_TO_THE_32
    ensures u < v <==> Below(BigEndian(u), BigEndian(v))
  {
    var a, b := BigEndian(u), BigEndian(v);
    BelowByByte(a, b);
    BigEndianRoundTrip(u);
    BigEndianRoundTrip(v);
    var p1, q1 := a[0] as nat * 0x100 + a[1] as nat, b[0] as nat * 0x100 + b[1] as nat;
    FirstByteDecides(a[0] as nat, b[0] as nat, a[1], b[1]);
    FirstByteDecides(p1, q1, a[2], b[2]);
    FirstByteDecides(p1 * 0x100 + a[2] as nat, q1 * 0x100 + b[2] as nat, a[3], b[3]);
  }

  /** The casts keep the bits: two's complement. */
  lemma CastsAreModular(v: int, u: nat)
    requires IsInt32(v) && u < TWO_TO_THE_32
    ensures ToUnsigned(v) == u <==> (u - v) % TWO_TO_THE_32 == 0
    ensures ToSigned(u) == v <==> (u - v) % TWO_TO_THE_32 == 0
  {
  }

  function Int32Bytes(v: int): (bs: seq<Byte>)
    requires IsInt32(v)
    ensures |bs| == 4
  {
    BigEndian(ToUnsigned(v))
  }

  function Int32From(bs: seq<Byte>): (v: int)
    requires |bs| == 4
    ensures IsInt32(v)
  {
    ToSigned(FromBigEndian(bs))
  }

  /** A 32-bit integer and its four bytes determine each other. */
  lemma Int32RoundTrip(v: int, bs: seq<Byte>)
    requires IsInt32(v) && |bs| == 4
    ensures Int32From(bs) == v <==> bs == Int32Bytes(v)
  {
    BigEndianRoundTrip(ToUnsigned(v));
    FromBigEndianRoundTrip(bs);
  }
}
