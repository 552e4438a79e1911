/** The buffered reader and writer of a session, over a connection that delivers bytes in chunks of its own. */
module Streams {
  import opened Bytes

  /** The receiving side of a connection: `rest` are the bytes it has yet to deliver. */
  class Source {
    var rest: seq<Byte>

    constructor (bytes: seq<Byte>)
      ensures rest == bytes
    {
      rest := bytes;
    }

    /** Delivers at most max bytes, as many as it pleases, but at least one. */
    method Read(max: nat) returns (bs: seq<Byte>)
      requires 0 < max && rest != []
      modifies this
      ensures 1 <= |bs| <= max
      ensures old(rest) == bs + rest
    {
      var k: nat :| 1 <= k <= max && k <= |rest|;
      bs := rest[..k];
      rest := rest[k..];
    }
  }

  class BufferedReader {
    const r: Source
    const buffer: array<Byte>
    var head: nat
    var tail: nat

    ghost predicate Valid()
      reads this
    {
      4 <= buffer.Length && head <= tail <= buffer.Length
    }

    /** What is still to come: the window of the buffer, then what the source holds. */
    ghost function Pending(): seq<Byte>
      reads this, buffer, r
      requires Valid()
    {
      buffer[head..tail] + r.rest
    }

    constructor (r: Source, capacity: nat)
      requires 4 <= capacity
      ensures Valid() && fresh(buffer) && this.r == r && buffer.Length == capacity
      ensures Pending() == r.rest
    {
      this.r := r;
      buffer := new Byte[capacity](_ => 0);
      head, tail := 0, 0;
    }

    /** Shifts the window to the front and refills behind it. */
    method Flush()
      requires Valid() && r.rest != [] && tail - head < buffer.Length
      modifies this, buffer, r
      ensures Valid() && Pending() == old(Pending())
      ensures tail - head > old(tail - head)
    {
      ghost var window := buffer[head..tail];
      if head != 0 {
        var len := tail - head;
        forall i | 0 <= i < len {
          buffer[i] := buffer[head + i];
        }
        head, tail := 0, len;
      }
      assert buffer[head..tail] == window;
      var bs := r.Read(buffer.Length - tail);
      assert buffer[head..tail] == window;
      forall i | 0 <= i < |bs| {
        buffer[tail + i] := bs[i];
      }
      tail := tail + |bs|;
      assert buffer[head..tail] == window + bs;
      assert window + bs + r.rest == window + (bs + r.rest);
    }

    method Ensure(n: nat)
      requires Valid() && n <= buffer.Length && n <= |Pending()|
      modifies this, buffer, r
      ensures Valid() && Pending() == old(Pending())
      ensures tail - head >= n
      ensures n <= old(tail - head) ==> tail - head == old(tail - head)
    {
      while tail - head < n
        invariant n <= old(tail - head) ==> tail - head == old(tail - head)
        invariant Valid() && Pending() == old(Pending())
        decreases n - (tail - head)
      {
        Flush();
      }
    }

    /** The short path of read: the bytes are in the window, or fit in it. */
    method ReadShort(n: nat) returns (bs: seq<Byte>)
      requires Valid() && n <= buffer.Length && n <= |Pending()|
      modifies this, buffer, r
      ensures Valid()
      ensures bs == old(Pending())[..n] && Pending() == old(Pending())[n..]
      ensures n <= old(tail - head) ==> tail - head == old(tail - head) - n
    {
      Ensure(n);
      bs := buffer[head..head + n];
      assert buffer[head..tail] == bs + buffer[head + n..tail];
      head := head + n;
      assert bs + Pending() == old(Pending());
    }

    /** Delivers exactly the next n bytes, whether or not they fit in the buffer. */
    method Read(n: nat) returns (bs: seq<Byte>)
      requires Valid() && n <= |Pending()|
      modifies this, buffer, r
      ensures Valid()
      ensures bs == old(Pending())[..n] && Pending() == old(Pending())[n..]
    {
      if n > buffer.Length {
        bs := ReadShort(tail - head);
        assert bs + r.rest == old(Pending());
        while |bs| < n
          invariant Valid() && tail == head && |bs| <= n
          invariant bs + r.rest == old(Pending())
        {
          var more := r.Read(n - |bs|);
          assert bs + (more + r.rest) == (bs + more) + r.rest;
          bs := bs + more;
        }
      } else {
        bs := ReadShort(n);
      }
    }

    method ReadByte() returns (b: Byte)
      requires Valid() && 1 <= |Pending()|
      modifies this, buffer, r
      ensures Valid()
      ensures b == old(Pending())[0] && Pending() == old(Pending())[1..]
    {
      var bs := ReadShort(1);
      b := bs[0];
    }

    /** read32 and the byte swap: the next four bytes as an int in network order. */
    method Read32() returns (v: int)
      requires Valid() && 4 <= |Pending()|
      modifies this, buffer, r
      ensures Valid()
      ensures v == Int32From(old(Pending())[..4]) && Pending() == old(Pending())[4..]
    {
      var bs := ReadShort(4);
      v := Int32From(bs);
    }

    method Discard(n: nat)
      requires Valid() && n <= buffer.Length && n <= |Pending()|
      modifies this, buffer, r
      ensures Valid() && Pending() == old(Pending())[n..]
    {
      Ensure(n);
      head := head + n;
      assert old(Pending())[n..] == Pending();
    }
  }

  /** The sending side of a connection: `data` is all it has been given. */
  class Sink {
    var data: seq<Byte>

    constructor ()
      ensures data == []
    {
      data := [];
    }

    method Write(bs: seq<Byte>)
      modifies this
      ensures data == old(data) + bs
    {
      data := data + bs;
    }
  }

  class BufferedWriter {
    const w: Sink
    var buffer: seq<Byte>
    var capacity: nat

    /** The buffer never holds more than it has been given room for. */
    ghost predicate Valid()
      reads this
    {
      |buffer| <= capacity
    }

    /** Everything written so far, whether or not it has left the buffer. */
    ghost function Written(): seq<Byte>
      reads this, w
    {
      w.data + buffer
    }

    constructor (w: Sink, capacity: nat)
      ensures Valid() && this.w == w && Written() == w.data && buffer == [] && this.capacity == capacity
    {
      this.w := w;
      this.buffer := [];
      this.capacity := capacity;
    }

    method Flush()
      requires Valid()
      modifies this, w
      ensures Valid() && capacity == old(capacity)
      ensures Written() == old(Written()) && buffer == [] && w.data == old(Written())
    {
      w.Write(buffer);
      buffer := [];
    }

    /** What does not fit goes straight to the connection, after what the buffer holds. */
    method Write(bs: seq<Byte>)
      requires Valid()
      modifies this, w
      ensures Valid() && capacity == old(capacity)
      ensures Written() == old(Written()) + bs
      ensures if |old(buffer)| + |bs| <= capacity then w.data == old(w.data) else buffer == []
    {
      if |buffer| + |bs| <= capacity {
        buffer := buffer + bs;
      } else {
        Flush();
        w.Write(bs);
      }
    }

    /** A single byte is pushed even onto a full buffer; then, and only then, the capacity changes. */
    method WriteByte(b: Byte)
      requires Valid()
      modifies this, w
      ensures Valid() && old(capacity) <= capacity
      ensures capacity == old(capacity) <==> |old(buffer)| < old(capacity)
      ensures w.data == old(w.data)
      ensures Written() == old(Written()) + [b]
    {
      if |buffer| == capacity {
        var grown: nat :| grown > capacity;
        capacity := grown;
      }
      buffer := buffer + [b];
    }

    method Write32(v: int)
      requires Valid() && IsInt32(v)
      modifies this, w
      ensures Valid() && capacity == old(capacity)
      ensures Written() == old(Written()) + Int32Bytes(v)
    {
      Write(Int32Bytes(v));
    }
  }
}
