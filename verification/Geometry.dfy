/** How a file is cut into pieces, and how pieces make up a file again. */
module Geometry {
  import opened Bytes
  import opened Utils

  /** ceilingDiv of the sizes in bytes of the file and of a piece. */
  function NumPieces(size: nat, ps: nat): nat
    requires ps > 0
  {
    (size + ps - 1) / ps
  }

  /** Where piece i begins. */
  function Lo(ps: nat, i: nat): nat { i * ps }

  /** The size of piece i, by the formula of the repository. */
  function Len(size: nat, ps: nat, i: nat): int { Min(ps, size - Lo(ps, i)) }

  lemma MulLe(a: nat, b: nat, c: nat)
    requires a <= b
    ensures a * c <= b * c
  {
  }

  /** The number of pieces is the number of starts that lie within the file. */
  lemma PieceInFile(size: nat, ps: nat, i: nat)
    requires ps > 0
    ensures i < NumPieces(size, ps) <==> Lo(ps, i) < size
  {
    var n := NumPieces(size, ps);
    assert n * ps <= size + ps - 1 < n * ps + ps;
    if i < n { MulLe(i + 1, n, ps); }
    if n <= i { MulLe(n, i, ps); }
  }

  /** A piece is never empty, never longer than the piece size, and lies within the file. */
  lemma PieceBounds(size: nat, ps: nat, i: nat)
    requires ps > 0 && i < NumPieces(size, ps)
    ensures 0 < Len(size, ps, i) <= ps && Lo(ps, i) + Len(size, ps, i) <= size
  {
    PieceInFile(size, ps, i);
  }

  predicate InPiece(size: nat, ps: nat, b: nat, i: nat) {
    Lo(ps, i) <= b < Lo(ps, i) + Len(size, ps, i)
  }

  lemma Quotient(b: nat, ps: nat, i: nat)
    requires ps > 0
    ensures i * ps <= b < i * ps + ps <==> i == b / ps
  {
    var q := b / ps;
    assert q * ps <= b < q * ps + ps;
    if i < q {
      MulLe(i + 1, q, ps);
      assert (i + 1) * ps == i * ps + ps;
    }
    if q < i {
      MulLe(q + 1, i, ps);
      assert (q + 1) * ps == q * ps + ps;
    }
  }

  /** Every byte of the file lies in exactly one piece, and no byte beyond it in any: the pieces cut up the file. */
  lemma BytesInOnePiece(size: nat, ps: nat, b: nat, i: nat)
    requires ps > 0
    ensures InPiece(size, ps, b, i) <==> b < size && i == b / ps
    ensures b < size ==> b / ps < NumPieces(size, ps)
  {
    hide NumPieces;
    Quotient(b, ps, b / ps);
    Quotient(b, ps, i);
    if b < size { PieceInFile(size, ps, b / ps); }
  }

  // ---------- reading and writing ----------

  function Slice(f: seq<Byte>, ps: nat, i: nat): (d: seq<Byte>)
    requires ps > 0 && i < NumPieces(|f|, ps)
    ensures |d| == Len(|f|, ps, i)
  {
    PieceBounds(|f|, ps, i);
    f[Lo(ps, i)..Lo(ps, i) + Len(|f|, ps, i)]
  }

  /** Which byte of which piece a byte of the file is. */
  lemma ByteOfPiece(f: seq<Byte>, ps: nat, b: nat)
    requires ps > 0 && b < |f|
    ensures b / ps < NumPieces(|f|, ps) && b % ps < |Slice(f, ps, b / ps)|
    ensures Slice(f, ps, b / ps)[b % ps] == f[b]
  {
    hide NumPieces;
    BytesInOnePiece(|f|, ps, b, b / ps);
    assert b == b / ps * ps + b % ps;
  }

  /** The file after data has been written at position pos. */
  function WriteAt(f: seq<Byte>, pos: nat, data: seq<Byte>): (g: seq<Byte>)
    requires pos + |data| <= |f|
    ensures |g| == |f|
  {
    f[..pos] + data + f[pos + |data|..]
  }

  function Save(f: seq<Byte>, ps: nat, i: nat, data: seq<Byte>): (g: seq<Byte>)
    requires ps > 0 && i < NumPieces(|f|, ps) && |data| == Len(|f|, ps, i)
    ensures |g| == |f|
  {
    PieceBounds(|f|, ps, i);
    WriteAt(f, Lo(ps, i), data)
  }

  /** The slices of the file in order: the form in which the swarm sees a disk. */
  function Cut(f: seq<Byte>, ps: nat): (c: seq<seq<Byte>>)
    requires ps > 0
    ensures |c| == NumPieces(|f|, ps)
  {
    seq(NumPieces(|f|, ps), i requires 0 <= i < NumPieces(|f|, ps) => Slice(f, ps, i))
  }

  lemma CutAt(f: seq<Byte>, ps: nat, i: nat)
    requires ps > 0 && i < NumPieces(|f|, ps)
    ensures Cut(f, ps)[i] == Slice(f, ps, i)
  {
  }

  lemma SaveSlice(f: seq<Byte>, ps: nat, i: nat, data: seq<Byte>, j: nat)
    requires ps > 0 && i < NumPieces(|f|, ps) && |data| == Len(|f|, ps, i) && j < NumPieces(|f|, ps)
    ensures Slice(Save(f, ps, i, data), ps, j) == if j == i then data else Slice(f, ps, j)
  {
    var g := Save(f, ps, i, data);
    PieceBounds(|f|, ps, i);
    PieceBounds(|f|, ps, j);
    var want := if j == i then data else Slice(f, ps, j);
    forall k | 0 <= k < Len(|f|, ps, j)
      ensures Slice(g, ps, j)[k] == want[k]
    {
      var b := Lo(ps, j) + k;
      BytesInOnePiece(|f|, ps, b, i);
      BytesInOnePiece(|f|, ps, b, j);
    }
  }

  /** Saving a piece replaces one slice and leaves the others alone: on the cut file it is one update. */
  lemma SaveCut(f: seq<Byte>, ps: nat, i: nat, data: seq<Byte>)
    requires ps > 0 && i < NumPieces(|f|, ps) && |data| == Len(|f|, ps, i)
    ensures Cut(Save(f, ps, i, data), ps) == Cut(f, ps)[i := data]
  {
    forall j | 0 <= j < NumPieces(|f|, ps)
      ensures Cut(Save(f, ps, i, data), ps)[j] == Cut(f, ps)[i := data][j]
    {
      SaveSlice(f, ps, i, data, j);
    }
  }

  /** Two files of one size are equal, byte for byte, exactly if all their slices are. */
  lemma CutDetermines(f: seq<Byte>, g: seq<Byte>, ps: nat)
    requires ps > 0 && |f| == |g|
    ensures Cut(f, ps) == Cut(g, ps) <==> f == g
  {
    if Cut(f, ps) == Cut(g, ps) {
      forall b | 0 <= b < |f| ensures f[b] == g[b] {
        var i := b / ps;
        BytesInOnePiece(|f|, ps, b, i);
        assert Slice(f, ps, i) == Cut(f, ps)[i] == Cut(g, ps)[i] == Slice(g, ps, i);
        assert Slice(f, ps, i)[b - Lo(ps, i)] == f[b] && Slice(g, ps, i)[b - Lo(ps, i)] == g[b];
      }
    }
  }

  // ---------- saving a whole file ----------

  /** The slices of file are saved into f in the given order. */
  function SaveAll(f: seq<Byte>, file: seq<Byte>, ps: nat, order: seq<nat>): (g: seq<Byte>)
    requires ps > 0 && |f| == |file| && forall k :: 0 <= k < |order| ==> order[k] < NumPieces(|file|, ps)
    ensures |g| == |f|
    decreases |order|
  {
    if order == [] then f
    else SaveAll(Save(f, ps, order[0], Slice(file, ps, order[0])), file, ps, order[1..])
  }

  lemma {:induction false} SavedSlices(f: seq<Byte>, file: seq<Byte>, ps: nat, order: seq<nat>, j: nat)
    requires ps > 0 && |f| == |file| && forall k :: 0 <= k < |order| ==> order[k] < NumPieces(|file|, ps)
    requires j < NumPieces(|file|, ps)
    ensures Slice(SaveAll(f, file, ps, order), ps, j)
         == if j in order then Slice(file, ps, j) else Slice(f, ps, j)
    decreases |order|
  {
    if order != [] {
      var f' := Save(f, ps, order[0], Slice(file, ps, order[0]));
      SavedSlices(f', file, ps, order[1..], j);
      SaveSlice(f, ps, order[0], Slice(file, ps, order[0]), j);
      assert j in order <==> j == order[0] || j in order[1..];
    }
  }

  /** Whatever the order, the whole file is there once every piece is, and not before unless it was. */
  lemma AnyOrderCompletes(f: seq<Byte>, file: seq<Byte>, ps: nat, order: seq<nat>)
    requires ps > 0 && |f| == |file| && forall k :: 0 <= k < |order| ==> order[k] < NumPieces(|file|, ps)
    ensures SaveAll(f, file, ps, order) == file <==>
            forall j: nat :: j < NumPieces(|file|, ps) ==> j in order || Slice(f, ps, j) == Slice(file, ps, j)
  {
    var g := SaveAll(f, file, ps, order);
    CutDetermines(g, file, ps);
    forall j: nat | j < NumPieces(|file|, ps)
      ensures Cut(g, ps)[j] == if j in order then Slice(file, ps, j) else Slice(f, ps, j)
    {
      SavedSlices(f, file, ps, order, j);
    }
  }
}
