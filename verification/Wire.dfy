/** Messages over the buffered streams: each is written and read step by step, as the wire format says. */
module Wire {
  import opened Bytes
  import opened Pieces
  import opened SwarmModel
  import opened Codec
  import opened Streams

  datatype Result<+T> = Ok(value: T) | Err(error: Error)

  method WriteHandshake(w: BufferedWriter, id: int)
    requires w.Valid() && IsInt32(id)
    modifies w, w.w
    ensures w.Valid()
    ensures w.Written() == old(w.Written()) + EncodeHandshake(id)
  {
    w.Write(PREFIX);
    w.Write32(id);
    assert old(w.Written()) + PREFIX + Int32Bytes(id) == old(w.Written()) + (PREFIX + Int32Bytes(id));
  }

  method WritePayload(w: BufferedWriter, md5: Digest, m: Msg)
    requires w.Valid() && Sendable(m)
    modifies w, w.w
    ensures w.Valid()
    ensures w.Written() == old(w.Written()) + Payload(md5, m)
  {
    ghost var was := w.Written();
    match m {
      case Have(i) => w.Write32(i);
      case Request(i) => w.Write32(i);
      case Bitfield(sv) => w.Write(StatusBytes(sv));
      case Piece(i, data) => WritePiece(w, md5, i, data);
      case _ => assert was + [] == was;
    }
  }

  method WritePiece(w: BufferedWriter, md5: Digest, i: int, data: Data)
    requires w.Valid() && Sendable(Piece(i, data))
    modifies w, w.w
    ensures w.Valid()
    ensures w.Written() == old(w.Written()) + Payload(md5, Piece(i, data))
  {
    hide Int32Bytes;
    ghost var was := w.Written();
    assert IsDigest(md5, data);
    ghost var whole := Payload(md5, Piece(i, data));
    assert whole == Int32Bytes(i) + (md5(data) + data);
    hide Payload, BufferedWriter.Written;
    w.Write32(i);
    w.Write(md5(data));
    w.Write(data);
    Regroup(was, Int32Bytes(i), md5(data), data);
  }

  lemma Regroup(a: seq<Byte>, b: seq<Byte>, c: seq<Byte>, d: seq<Byte>)
    ensures a + b + c + d == a + (b + (c + d)) == a + (b + c + d)
  {
  }

  /** The frame of a message: its length, its type, its payload. */
  method WriteMsg(w: BufferedWriter, md5: Digest, m: Msg)
    requires w.Valid() && Sendable(m)
    modifies w, w.w
    ensures w.Valid()
    ensures w.Written() == old(w.Written()) + Encode(md5, m)
  {
    hide Int32Bytes, Payload, BufferedWriter.Written;
    ghost var was := w.Written();
    w.Write32(PayloadSize(m) + 1);
    w.WriteByte(TypeByte(m));
    WritePayload(w, md5, m);
    Regroup(was, Int32Bytes(PayloadSize(m) + 1), [TypeByte(m)], Payload(md5, m));
  }

  method ReadHandshake(r: BufferedReader) returns (res: Result<int>)
    requires r.Valid() && !DecodeHandshake(r.Pending()).Short?
    modifies r, r.buffer, r.r
    ensures r.Valid()
    ensures match DecodeHandshake(old(r.Pending()))
            case Got(id, k) => res == Ok(id) && r.Pending() == old(r.Pending())[k..]
            case Bad(e) => res == Err(e)
  {
    ghost var bs := r.Pending();
    var buf := r.Read(28);
    if buf != PREFIX {
      return Err(BadPrefix);
    }
    assert bs[28..][..4] == bs[28..32] && bs[28..][4..] == bs[32..];
    var id := r.Read32();
    res := Ok(id);
  }

  /** Reads one message, or panics, just as Decode says of the bytes that are to come. */
  method ReadMsg(r: BufferedReader, md5: Digest) returns (res: Result<Msg>)
    requires r.Valid() && !Decode(md5, r.Pending()).Short?
    modifies r, r.buffer, r.r
    ensures r.Valid()
    ensures match Decode(md5, old(r.Pending()))
            case Got(m, k) => res == Ok(m) && r.Pending() == old(r.Pending())[k..]
            case Bad(e) => res == Err(e)
  {
    ghost var bs := r.Pending();
    var n := r.Read32();
    var t := r.ReadByte();
    assert bs[4..][1..] == bs[5..] && bs[4..][0] == bs[4];
    res := ReadBody(r, md5, n, t);
    assert forall k: nat :: k <= |bs| - 5 ==> bs[5..][k..] == bs[5 + k..];
  }

  method ReadBody(r: BufferedReader, md5: Digest, n: int, t: Byte) returns (res: Result<Msg>)
    requires r.Valid() && !DecodeBody(md5, n, t, r.Pending()).Short?
    modifies r, r.buffer, r.r
    ensures r.Valid()
    ensures match DecodeBody(md5, n, t, old(r.Pending()))
            case Got(m, k) => k <= |old(r.Pending())| && res == Ok(m) && r.Pending() == old(r.Pending())[k..]
            case Bad(e) => res == Err(e)
  {
    hide BufferedReader.Pending, BufferedReader.Valid, Int32From;
    if t == 0 { res := Ok(Choke); }
    else if t == 1 { res := Ok(Unchoke); }
    else if t == 2 { res := Ok(Interested); }
    else if t == 3 { res := Ok(NotInterested); }
    else if t == 99 { res := Ok(TearDown); }
    else if t == 4 {
      var i := r.Read32();
      res := Ok(Have(i));
    } else if t == 6 {
      var i := r.Read32();
      res := Ok(Request(i));
    } else if t == 5 {
      if n < 1 { return Err(NegativeSize(n)); }
      var tmp := r.Read(n - 1);
      res := Ok(Bitfield(BytesStatus(tmp)));
    } else if t == 7 {
      res := ReadPiece(r, md5, n);
    } else {
      res := Err(UnknownType(t));
    }
  }

  method ReadPiece(r: BufferedReader, md5: Digest, n: int) returns (res: Result<Msg>)
    requires r.Valid() && !DecodeBody(md5, n, 7, r.Pending()).Short?
    modifies r, r.buffer, r.r
    ensures r.Valid()
    ensures match DecodeBody(md5, n, 7, old(r.Pending()))
            case Got(m, k) => k <= |old(r.Pending())| && res == Ok(m) && r.Pending() == old(r.Pending())[k..]
            case Bad(e) => res == Err(e)
  {
    hide BufferedReader.Pending, BufferedReader.Valid, Int32From;
    ghost var bs := r.Pending();
    var i := r.Read32();
    assert bs[4..][..16] == bs[4..20] && bs[4..][16..] == bs[20..];
    var theirs := r.Read(MD5_DIGEST_LENGTH);
    if n < 21 { return Err(NegativeSize(n)); }
    var data := r.Read(n - 21);
    assert bs[20..][..n - 21] == bs[20..n - 1] && bs[20..][n - 21..] == bs[n - 1..];
    if theirs != md5(data) { return Err(DigestMismatch(i)); }
    res := Ok(Piece(i, data));
  }

  /** Messages one after the other, flushed whenever the session pleases. */
  method SendMsgs(w: BufferedWriter, md5: Digest, ms: seq<Msg>)
    requires w.Valid() && AllSendable(ms)
    modifies w, w.w
    ensures w.Valid()
    ensures w.Written() == old(w.Written()) + EncodeAll(md5, ms)
  {
    hide Encode, BufferedWriter.Written, BufferedWriter.Valid, Sendable;
    ghost var start := w.Written();
    for k := 0 to |ms|
      invariant w.Valid() && w.Written() == start + EncodeAll(md5, ms[..k])
    {
      WriteMsg(w, md5, ms[k]);
      LastOfMany(md5, ms, k, start);
      if * { w.Flush(); }
    }
    assert ms[..|ms|] == ms;
  }

  lemma LastOfMany(md5: Digest, ms: seq<Msg>, k: nat, start: seq<Byte>)
    requires AllSendable(ms) && k < |ms|
    ensures start + EncodeAll(md5, ms[..k]) + Encode(md5, ms[k]) == start + EncodeAll(md5, ms[..k + 1])
  {
    hide Encode, Sendable;
    EncodeAllAppend(md5, ms[..k], ms[k]);
    assert ms[..k] + [ms[k]] == ms[..k + 1];
  }

  /** A handshake, then messages; everything has left the buffer in the end. */
  method SendAll(w: BufferedWriter, md5: Digest, id: int, ms: seq<Msg>)
    requires w.Valid() && IsInt32(id) && AllSendable(ms)
    modifies w, w.w
    ensures w.Valid()
    ensures w.w.data == old(w.Written()) + EncodeHandshake(id) + EncodeAll(md5, ms)
  {
    hide EncodeAll, EncodeHandshake, BufferedWriter.Written;
    WriteHandshake(w, id);
    SendMsgs(w, md5, ms);
    w.Flush();
  }

  /** Reads back the messages that were sent, leaving what follows them untouched. */
  method ReceiveMsgs(r: BufferedReader, md5: Digest, ghost ms: seq<Msg>, n: nat, ghost tail: seq<Byte>)
    returns (ms': seq<Msg>)
    requires r.Valid() && AllSendable(ms) && n == |ms|
    requires r.Pending() == EncodeAll(md5, ms) + tail
    modifies r, r.buffer, r.r
    ensures r.Valid() && ms' == ms && r.Pending() == tail
  {
    hide Encode, Decode, BufferedReader.Pending, BufferedReader.Valid;
    ms' := [];
    assert ms[0..] == ms;
    for k := 0 to n
      invariant r.Valid() && ms' == ms[..k]
      invariant r.Pending() == EncodeAll(md5, ms[k..]) + tail
    {
      FirstOfMany(md5, ms[k..], tail);
      assert ms[k..][1..] == ms[k + 1..];
      var m := ReadMsg(r, md5);
      ms' := ms' + [m.value];
    }
    assert ms[n..] == [] && [] + tail == tail;
  }

  lemma FirstOfMany(md5: Digest, ms: seq<Msg>, tail: seq<Byte>)
    requires AllSendable(ms) && ms != []
    ensures var bs := EncodeAll(md5, ms) + tail; var d := Decode(md5, bs);
      d.Got? && d.value == ms[0] && d.used <= |bs| && bs[d.used..] == EncodeAll(md5, ms[1..]) + tail
  {
    hide Encode, Decode;
    var rest := EncodeAll(md5, ms[1..]) + tail;
    assert EncodeAll(md5, ms) + tail == Encode(md5, ms[0]) + rest;
    RoundTrip(md5, ms[0], rest);
  }

  lemma HandshakeFirst(id: int, bs: seq<Byte>, body: seq<Byte>, tail: seq<Byte>)
    requires IsInt32(id) && bs == EncodeHandshake(id) + body + tail
    ensures |bs| >= 32 && DecodeHandshake(bs) == Got(id, 32) && bs[32..] == body + tail
  {
    hide EncodeHandshake, DecodeHandshake;
    assert bs[..32] == EncodeHandshake(id);
    HandshakeRoundTrip(id, bs);
  }

  method ReceiveAll(r: BufferedReader, md5: Digest, ghost id: int, ghost ms: seq<Msg>, n: nat, ghost tail: seq<Byte>)
    returns (id': int, ms': seq<Msg>)
    requires r.Valid() && IsInt32(id) && AllSendable(ms) && n == |ms|
    requires r.Pending() == EncodeHandshake(id) + EncodeAll(md5, ms) + tail
    modifies r, r.buffer, r.r
    ensures r.Valid() && id' == id && ms' == ms && r.Pending() == tail
  {
    hide EncodeHandshake, DecodeHandshake, BufferedReader.Pending, BufferedReader.Valid;
    HandshakeFirst(id, r.Pending(), EncodeAll(md5, ms), tail);
    hide EncodeAll;
    var h := ReadHandshake(r);
    id' := h.value;
    ms' := ReceiveMsgs(r, md5, ms, n, tail);
  }

  /**
   * The whole way: any messages, any capacities of the two buffers, any flushes and any chunking by the
   * connection, and the receiver gets the handshake and the messages that were sent.
   */
  method Transfer(md5: Digest, id: int, ms: seq<Msg>, wcap: nat, rcap: nat)
    returns (id': int, ms': seq<Msg>)
    requires IsInt32(id) && AllSendable(ms) && 4 <= rcap
    ensures id' == id && ms' == ms
  {
    var sink := new Sink();
    var w := new BufferedWriter(sink, wcap);
    SendAll(w, md5, id, ms);
    assert sink.data == EncodeHandshake(id) + EncodeAll(md5, ms) + [];
    var source := new Source(sink.data);
    var r := new BufferedReader(source, rcap);
    id', ms' := ReceiveAll(r, md5, id, ms, |ms|, []);
  }
}
