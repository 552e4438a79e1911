/** The wire format of the messages: what is written for a message, and what is read back from bytes. */
module Codec {
  import opened Bytes
  import opened Pieces
  import opened SwarmModel

  const MD5_DIGEST_LENGTH := 16

  predicate IsDigest(f: Data -> seq<Byte>, d: Data) { |f(d)| == MD5_DIGEST_LENGTH }

  /** MD5, of which only the length of the result matters here. */
  type Digest = f: Data -> seq<Byte> | forall d :: IsDigest(f, d)
    ghost witness (d: Data) => seq(MD5_DIGEST_LENGTH, _ => 0)

  // ---------- bitfields ----------

  function StatusByte(s: Status): Byte {
    match s
    case Absent => 0
    case Requested => 1
    case Owned => 2
  }

  /**
   * A byte above 2 makes an enumerator that equals none of the three.  The tests made on a received
   * bitfield compare with OWNED only, so it is read as Requested, which is not that either.
   */
  function ByteStatus(b: Byte): Status {
    if b == 0 then Absent else if b == 2 then Owned else Requested
  }

  function StatusBytes(sv: seq<Status>): (bs: seq<Byte>)
    ensures |bs| == |sv|
  {
    seq(|sv|, i requires 0 <= i < |sv| => StatusByte(sv[i]))
  }

  function BytesStatus(bs: seq<Byte>): (sv: seq<Status>)
    ensures |sv| == |bs|
  {
    seq(|bs|, i requires 0 <= i < |bs| => ByteStatus(bs[i]))
  }

  lemma StatusRoundTrip(sv: seq<Status>)
    ensures BytesStatus(StatusBytes(sv)) == sv
  {
  }

  // ---------- encoding ----------

  function TypeByte(m: Msg): Byte {
    match m
    case Choke => 0
    case Unchoke => 1
    case Interested => 2
    case NotInterested => 3
    case Have(_) => 4
    case Bitfield(_) => 5
    case Request(_) => 6
    case Piece(_, _) => 7
    case TearDown => 99
  }

  function PayloadSize(m: Msg): nat {
    match m
    case Have(_) => 4
    case Request(_) => 4
    case Bitfield(sv) => |sv|
    case Piece(_, data) => 4 + MD5_DIGEST_LENGTH + |data|
    case _ => 0
  }

  /** The messages the sender can frame: indices are ints, and so is the length of the payload. */
  predicate Sendable(m: Msg) {
    PayloadSize(m) + 1 < TWO_TO_THE_31 && ((m.Have? || m.Request? || m.Piece?) ==> IsInt32(m.i))
  }

  function Payload(md5: Digest, m: Msg): (bs: seq<Byte>)
    requires Sendable(m)
    ensures |bs| == PayloadSize(m)
  {
    match m
    case Have(i) => Int32Bytes(i)
    case Request(i) => Int32Bytes(i)
    case Bitfield(sv) => StatusBytes(sv)
    case Piece(i, data) =>
      assert IsDigest(md5, data);
      Int32Bytes(i) + md5(data) + data
    case _ => []
  }

  function Encode(md5: Digest, m: Msg): (bs: seq<Byte>)
    requires Sendable(m)
    ensures |bs| == 5 + PayloadSize(m)
  {
    Int32Bytes(PayloadSize(m) + 1) + [TypeByte(m)] + Payload(md5, m)
  }

  // ---------- decoding ----------

  datatype Error = UnknownType(t: Byte) | NegativeSize(n: int) | DigestMismatch(i: int) | BadPrefix

  /** Reading from bytes: more are needed, or the reader panics, or it takes `used` of them. */
  datatype Parsed<+T> = Short | Bad(e: Error) | Got(value: T, used: nat)

  /** The body of a message of type t with length field n. */
  function DecodeBody(md5: Digest, n: int, t: Byte, bs: seq<Byte>): Parsed<Msg> {
    if t == 0 then Got(Choke, 0)
    else if t == 1 then Got(Unchoke, 0)
    else if t == 2 then Got(Interested, 0)
    else if t == 3 then Got(NotInterested, 0)
    else if t == 99 then Got(TearDown, 0)
    else if t == 4 then if |bs| < 4 then Short else Got(Have(Int32From(bs[..4])), 4)
    else if t == 6 then if |bs| < 4 then Short else Got(Request(Int32From(bs[..4])), 4)
    else if t == 5 then
      if n < 1 then Bad(NegativeSize(n))
      else if |bs| < n - 1 then Short else Got(Bitfield(BytesStatus(bs[..n - 1])), n - 1)
    else if t == 7 then
      if |bs| < 20 then Short
      else if n < 21 then Bad(NegativeSize(n))
      else if |bs| < n - 1 then Short
      else
        var i, data := Int32From(bs[..4]), bs[20..n - 1];
        if bs[4..20] != md5(data) then Bad(DigestMismatch(i)) else Got(Piece(i, data), n - 1)
    else Bad(UnknownType(t))
  }

  function Decode(md5: Digest, bs: seq<Byte>): Parsed<Msg> {
    if |bs| < 5 then Short
    else
      match DecodeBody(md5, Int32From(bs[..4]), bs[4], bs[5..])
      case Short => Short
      case Bad(e) => Bad(e)
      case Got(m, k) => Got(m, k + 5)
  }

  lemma BodyRoundTrip(md5: Digest, m: Msg, tail: seq<Byte>)
    requires Sendable(m)
    ensures DecodeBody(md5, PayloadSize(m) + 1, TypeByte(m), Payload(md5, m) + tail) == Got(m, PayloadSize(m))
  {
    var bs := Payload(md5, m) + tail;
    match m {
      case Have(i) => assert bs[..4] == Int32Bytes(i); Int32RoundTrip(i, bs[..4]);
      case Request(i) => assert bs[..4] == Int32Bytes(i); Int32RoundTrip(i, bs[..4]);
      case Bitfield(sv) => assert bs[..|sv|] == StatusBytes(sv); StatusRoundTrip(sv);
      case Piece(i, data) =>
        assert IsDigest(md5, data);
        assert bs[..4] == Int32Bytes(i);
        Int32RoundTrip(i, bs[..4]);
        assert bs[4..20] == md5(data);
        assert bs[20..20 + |data|] == data;
      case _ =>
    }
  }

  /** A message written is the message read, whatever follows it, and exactly its bytes are taken. */
  lemma RoundTrip(md5: Digest, m: Msg, tail: seq<Byte>)
    requires Sendable(m)
    ensures Decode(md5, Encode(md5, m) + tail) == Got(m, |Encode(md5, m)|)
  {
    hide DecodeBody, Payload, Int32From, Int32Bytes;
    var bs, n := Encode(md5, m) + tail, PayloadSize(m) + 1;
    assert bs[..4] == Int32Bytes(n);
    Int32RoundTrip(n, bs[..4]);
    assert bs[5..] == Payload(md5, m) + tail;
    BodyRoundTrip(md5, m, tail);
  }

  // ---------- what the bytes are ----------

  /** The messages without payload, byte for byte. */
  lemma EmptyFrames(md5: Digest)
    ensures Encode(md5, Choke) == [0, 0, 0, 1, 0]
    ensures Encode(md5, Unchoke) == [0, 0, 0, 1, 1]
    ensures Encode(md5, Interested) == [0, 0, 0, 1, 2]
    ensures Encode(md5, NotInterested) == [0, 0, 0, 1, 3]
    ensures Encode(md5, TearDown) == [0, 0, 0, 1, 99]
  {
    assert Int32Bytes(1) == [0, 0, 0, 1];
  }

  /** The frames with an index: the type, then the index. */
  lemma IndexFrames(md5: Digest, i: int)
    requires IsInt32(i)
    ensures Encode(md5, Have(i)) == [0, 0, 0, 5, 4] + Int32Bytes(i)
    ensures Encode(md5, Request(i)) == [0, 0, 0, 5, 6] + Int32Bytes(i)
  {
    assert Int32Bytes(5) == [0, 0, 0, 5];
  }

  /** The frame of a bitfield: one byte for each piece, 2 for an owned one, 1 for a requested one, 0 for an absent one. */
  lemma BitfieldFrame(md5: Digest, sv: seq<Status>, k: nat)
    requires Sendable(Bitfield(sv)) && k < |sv|
    ensures var bs := Encode(md5, Bitfield(sv));
      && |bs| == 5 + |sv| && bs[..4] == Int32Bytes(|sv| + 1) && bs[4] == 5
      && (bs[5 + k] == 2 <==> sv[k] == Owned) && (bs[5 + k] == 1 <==> sv[k] == Requested)
      && (bs[5 + k] == 0 <==> sv[k] == Absent)
  {
    hide Int32Bytes;
    assert Encode(md5, Bitfield(sv))[5 + k] == StatusBytes(sv)[k];
  }

  /** The frame of a piece: index, digest and data, in this order. */
  lemma PieceFrame(md5: Digest, i: int, data: Data)
    requires Sendable(Piece(i, data))
    ensures var bs := Encode(md5, Piece(i, data));
      && |bs| == 25 + |data| && bs[..4] == Int32Bytes(21 + |data|) && bs[4] == 7
      && bs[5..9] == Int32Bytes(i) && bs[9..25] == md5(data) && bs[25..] == data
  {
    hide Int32Bytes;
    assert IsDigest(md5, data);
    FiveParts(Int32Bytes(21 + |data|), [7], Int32Bytes(i), md5(data), data);
  }

  lemma FiveParts(a: seq<Byte>, b: seq<Byte>, c: seq<Byte>, d: seq<Byte>, e: seq<Byte>)
    requires |a| == |c| == 4 && |b| == 1 && |d| == 16
    ensures var s := a + b + (c + d + e);
      |s| == 25 + |e| && s[..4] == a && s[4] == b[0] && s[5..9] == c && s[9..25] == d && s[25..] == e
  {
  }

  /** The reader takes the fifth byte for the type, with the numbers of the enumeration, and panics on all others. */
  lemma TypeIsRead(md5: Digest, bs: seq<Byte>)
    requires |bs| >= 5
    ensures Decode(md5, bs) == Bad(UnknownType(bs[4])) <==> bs[4] !in {0, 1, 2, 3, 4, 5, 6, 7, 99}
    ensures Decode(md5, bs).Got? ==>
      var m := Decode(md5, bs).value;
      && (m.Choke? <==> bs[4] == 0) && (m.Unchoke? <==> bs[4] == 1)
      && (m.Interested? <==> bs[4] == 2) && (m.NotInterested? <==> bs[4] == 3)
      && (m.Have? <==> bs[4] == 4) && (m.Bitfield? <==> bs[4] == 5)
      && (m.Request? <==> bs[4] == 6) && (m.Piece? <==> bs[4] == 7) && (m.TearDown? <==> bs[4] == 99)
  {
    hide Int32From;
  }

  // ---------- the length field ----------

  /**
   * The reader does not compare the length field with the type.  It takes the frame that the field
   * announces if and only if the field is the right one for the message it returns.
   */
  lemma FramedExactly(md5: Digest, bs: seq<Byte>)
    requires Decode(md5, bs).Got?
    ensures var m, used, n := Decode(md5, bs).value, Decode(md5, bs).used, Int32From(bs[..4]);
      && used <= |bs|
      && used == 5 + PayloadSize(m)
      && (used == 4 + n <==> n == PayloadSize(m) + 1)
      && ((m.Bitfield? || m.Piece?) ==> used == 4 + n)
  {
  }

  /** A bitfield is canonical if each of its bytes stands for a status. */
  predicate Canonical(m: Msg, bs: seq<Byte>) {
    m.Bitfield? ==> forall i :: 5 <= i < 5 + |m.sv| && i < |bs| ==> bs[i] <= 2
  }

  /**
   * What was read is what the sender of that message would have written if and only if the length field is right
   * and no byte of a bitfield is above 2.
   */
  lemma DecodeIsFaithful(md5: Digest, bs: seq<Byte>)
    requires Decode(md5, bs).Got?
    ensures var m, used := Decode(md5, bs).value, Decode(md5, bs).used;
      && used <= |bs|
      && (Int32From(bs[..4]) == PayloadSize(m) + 1 && Canonical(m, bs) <==> Sendable(m) && bs[..used] == Encode(md5, m))
  {
    hide DecodeBody, Payload, Int32From, Int32Bytes;
    FramedExactly(md5, bs);
    var m, used, n := Decode(md5, bs).value, Decode(md5, bs).used, Int32From(bs[..4]);
    Int32RoundTrip(n, bs[..4]);
    if n == PayloadSize(m) + 1 && Canonical(m, bs) {
      BodyIsFaithful(md5, n, bs[4], bs[5..]);
      assert bs[..used] == bs[..4] + [bs[4]] + bs[5..][..used - 5];
    }
    if Sendable(m) && bs[..used] == Encode(md5, m) {
      assert bs[..4] == Int32Bytes(PayloadSize(m) + 1);
      Int32RoundTrip(PayloadSize(m) + 1, bs[..4]);
      EncodedIsCanonical(md5, m, bs, used);
    }
  }

  lemma EncodedIsCanonical(md5: Digest, m: Msg, bs: seq<Byte>, used: nat)
    requires Sendable(m) && used <= |bs| && bs[..used] == Encode(md5, m)
    ensures Canonical(m, bs)
  {
    if m.Bitfield? {
      forall i | 5 <= i < 5 + |m.sv| && i < |bs| ensures bs[i] <= 2 {
        assert bs[i] == bs[..used][i] == StatusBytes(m.sv)[i - 5];
      }
    }
  }

  lemma BodyIsFaithful(md5: Digest, n: int, t: Byte, bs: seq<Byte>)
    requires DecodeBody(md5, n, t, bs).Got? && IsInt32(n)
    requires var m := DecodeBody(md5, n, t, bs).value;
      n == PayloadSize(m) + 1 && (m.Bitfield? ==> forall i :: 0 <= i < |m.sv| && i < |bs| ==> bs[i] <= 2)
    ensures var m, used := DecodeBody(md5, n, t, bs).value, DecodeBody(md5, n, t, bs).used;
      used <= |bs| && Sendable(m) && t == TypeByte(m) && bs[..used] == Payload(md5, m)
  {
    var m, used := DecodeBody(md5, n, t, bs).value, DecodeBody(md5, n, t, bs).used;
    match m {
      case Have(i) => Int32RoundTrip(i, bs[..4]);
      case Request(i) => Int32RoundTrip(i, bs[..4]);
      case Bitfield(sv) =>
        forall i | 0 <= i < |sv| ensures bs[..used][i] == StatusBytes(sv)[i] {}
      case Piece(i, data) =>
        Int32RoundTrip(i, bs[..4]);
        assert bs[..used] == bs[..4] + bs[4..20] + bs[20..n - 1];
      case _ =>
    }
  }

  /** A Choke whose length field is 2 instead of 1: its last byte is taken for the start of the next message. */
  lemma WrongLengthLosesFrame(md5: Digest, m: Msg)
    requires Sendable(m)
    ensures var bs := Int32Bytes(2) + [0, 0] + Encode(md5, m);
      Decode(md5, bs) == Got(Choke, 5) && bs[5..] == [0] + Encode(md5, m)
  {
  }

  // ---------- the handshake ----------

  const PREFIX: seq<Byte> := [
    80, 50, 80, 70, 73, 76, 69, 83, 72, 65, 82, 73, 78, 71, 80, 82, 79, 74,
    48, 48, 48, 48, 48, 48, 48, 48, 48, 48]

  function EncodeHandshake(id: int): (bs: seq<Byte>)
    requires IsInt32(id)
    ensures |bs| == 32
  {
    PREFIX + Int32Bytes(id)
  }

  function DecodeHandshake(bs: seq<Byte>): Parsed<int> {
    if |bs| < 28 then Short
    else if bs[..28] != PREFIX then Bad(BadPrefix)
    else if |bs| < 32 then Short
    else Got(Int32From(bs[28..32]), 32)
  }

  const PREFIX_TEXT := "P2PFILESHARINGPROJ0000000000"

  /** The handshake begins with this text, and ends with the four bytes of the peer id. */
  lemma HandshakeFrame(id: int, k: nat)
    requires IsInt32(id) && k < 28
    ensures |PREFIX_TEXT| == 28 && EncodeHandshake(id)[k] as int == PREFIX_TEXT[k] as int
    ensures EncodeHandshake(id)[28..] == Int32Bytes(id)
  {
    hide Int32Bytes;
    assert EncodeHandshake(id)[k] == PREFIX[k];
  }

  /** A handshake is accepted exactly if it is the handshake of the peer id it yields. */
  lemma HandshakeRoundTrip(id: int, bs: seq<Byte>)
    requires IsInt32(id) && |bs| >= 32
    ensures DecodeHandshake(bs) == Got(id, 32) <==> bs[..32] == EncodeHandshake(id)
  {
    Int32RoundTrip(id, bs[28..32]);
    assert bs[..32] == bs[..28] + bs[28..32];
    if bs[..32] == EncodeHandshake(id) {
      assert bs[..28] == EncodeHandshake(id)[..28] == PREFIX;
      assert bs[28..32] == EncodeHandshake(id)[28..32] == Int32Bytes(id);
    }
  }

  // ---------- whole streams ----------

  predicate AllSendable(ms: seq<Msg>) {
    forall k :: 0 <= k < |ms| ==> Sendable(ms[k])
  }

  function EncodeAll(md5: Digest, ms: seq<Msg>): seq<Byte>
    requires AllSendable(ms)
  {
    if ms == [] then [] else Encode(md5, ms[0]) + EncodeAll(md5, ms[1..])
  }

  lemma {:induction false} EncodeAllAppend(md5: Digest, ms: seq<Msg>, m: Msg)
    requires AllSendable(ms) && Sendable(m)
    ensures EncodeAll(md5, ms + [m]) == EncodeAll(md5, ms) + Encode(md5, m)
  {
    if ms == [] {
      assert [m][1..] == [];
      assert ms + [m] == [m];
    } else {
      EncodeAllAppend(md5, ms[1..], m);
      assert (ms + [m])[1..] == ms[1..] + [m];
      assert EncodeAll(md5, ms + [m])
          == Encode(md5, ms[0]) + (EncodeAll(md5, ms[1..]) + Encode(md5, m))
          == (Encode(md5, ms[0]) + EncodeAll(md5, ms[1..])) + Encode(md5, m);
    }
  }
}
