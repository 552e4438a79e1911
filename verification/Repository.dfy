/**
 * The piece repository: a file in slices behind a write-through cache of bounded size.
 *
 * The class runs one call at a time.  `leaked` accounts for what the byte counter says and the cache
 * does not hold: inserting a piece that is cached already changes nothing but is counted.
 */
module Repository {
  import opened Bytes
  import opened Geometry

  type Cache = map<nat, seq<Byte>>

  /** The bytes that a cache holds. */
  ghost function Held(c: Cache): nat {
    if c == map[] then 0
    else
      var k :| k in c;
      |c[k]| + Held(c - {k})
  }

  lemma HeldNone()
    ensures Held(map[]) == 0
  {
  }

  lemma {:induction false} HeldRemove(c: Cache, k: nat)
    requires k in c
    ensures Held(c) == |c[k]| + Held(c - {k})
    decreases |c|
  {
    var j :| j in c && Held(c) == |c[j]| + Held(c - {j});
    if j != k {
      HeldRemove(c - {j}, k);
      HeldRemove(c - {k}, j);
      assert c - {j} - {k} == c - {k} - {j};
    }
  }

  lemma HeldInsert(c: Cache, k: nat, piece: seq<Byte>)
    requires k !in c
    ensures Held(c[k := piece]) == Held(c) + |piece|
  {
    assert c[k := piece] - {k} == c;
    HeldRemove(c[k := piece], k);
  }

  /** A cached piece is the slice of the file, byte for byte. */
  ghost predicate Coherent(c: Cache, f: seq<Byte>, ps: nat)
    requires ps > 0
  {
    forall i :: i in c ==> i < NumPieces(|f|, ps) && c[i] == Slice(f, ps, i)
  }

  lemma InsertCoherent(c: Cache, f: seq<Byte>, ps: nat, i: nat, piece: seq<Byte>)
    requires ps > 0 && Coherent(c, f, ps) && i < NumPieces(|f|, ps) && piece == Slice(f, ps, i)
    ensures Coherent(c[i := piece], f, ps)
  {
  }

  lemma EvictCoherent(c: Cache, f: seq<Byte>, ps: nat, k: nat)
    requires ps > 0 && Coherent(c, f, ps)
    ensures Coherent(c - {k}, f, ps)
  {
  }

  class PieceRepository {
    var f: seq<Byte>
    const pieceSize: nat
    const limit: nat
    var cache: Cache
    var nCached: int
    ghost var leaked: nat

    ghost predicate Valid()
      reads this
    {
      && pieceSize > 0
      && Coherent(cache, f, pieceSize)
      && nCached == Held(cache) + leaked
      && nCached <= limit
    }

    /**
     * Entries were evicted one at a time, each because there was no room with it: with the last one back in
     * place, total bytes are too many.
     */
    ghost predicate Needed(was: Cache, now: Cache, total: int) {
      was == now || exists k :: k in was && k !in now && total + |was[k]| > limit
    }

    constructor (f: seq<Byte>, pieceSize: nat, limit: nat)
      requires pieceSize > 0
      ensures Valid() && this.f == f && this.pieceSize == pieceSize && this.limit == limit
      ensures cache == map[] && leaked == 0
    {
      this.f, this.pieceSize, this.limit := f, pieceSize, limit;
      cache, nCached, leaked := map[], 0, 0;
    }

    /**
     * Evicts until size bytes fit.  False stands for reaching into an empty cache: it happens
     * exactly if not even an empty cache has room, given what has leaked from the counter.
     */
    method EnsureSpace(size: nat) returns (ok: bool)
      requires Valid()
      modifies `cache, `nCached
      ensures Valid()
      ensures ok <==> leaked + size <= limit
      ensures ok ==> nCached + size <= limit
      ensures cache.Keys <= old(cache.Keys) && forall i :: i in cache ==> cache[i] == old(cache)[i]
      ensures old(nCached) + size <= limit ==> cache == old(cache)
      ensures Needed(old(cache), cache, nCached + size)
    {
      hide Slice, NumPieces, Held, Coherent;
      while nCached + size > limit
        invariant Valid()
        invariant cache.Keys <= old(cache.Keys) && forall i :: i in cache ==> cache[i] == old(cache)[i]
        invariant old(nCached) + size <= limit ==> cache == old(cache)
        invariant Needed(old(cache), cache, nCached + size)
        decreases |cache|
      {
        if cache == map[] {
          HeldNone();
          return false;
        }
        var k :| k in cache;
        HeldRemove(cache, k);
        EvictCoherent(cache, f, pieceSize, k);
        nCached := nCached - |cache[k]|;
        cache := cache - {k};
      }
      ok := true;
    }

    /** The part of get and of save that runs under the writer lock. */
    method Insert(i: nat, piece: seq<Byte>) returns (ok: bool)
      requires Valid() && i < NumPieces(|f|, pieceSize) && piece == Slice(f, pieceSize, i)
      modifies `cache, `nCached, `leaked
      ensures Valid()
      ensures ok <==> old(leaked) + |piece| <= limit
      ensures ok ==> i in cache
      ensures leaked == old(leaked) || (leaked == old(leaked) + |piece| && i in old(cache))
      ensures cache.Keys <= old(cache.Keys) + {i}
      // nothing is evicted while there is room, and no entry unless there is none with it
      ensures old(nCached) + |piece| <= limit ==>
                cache == if i in old(cache) then old(cache) else old(cache)[i := piece]
      ensures i !in old(cache) ==> Needed(old(cache), cache - {i}, if ok then nCached else nCached + |piece|)
    {
      hide Slice, NumPieces, Held, Coherent;
      ok := EnsureSpace(|piece|);
      assert i !in cache ==> cache - {i} == cache;
      if ok {
        if i !in cache {
          HeldInsert(cache, i, piece);
          InsertCoherent(cache, f, pieceSize, i, piece);
          assert cache[i := piece] - {i} == cache;
          cache := cache[i := piece];
        } else {
          leaked := leaked + |piece|;
        }
        nCached := nCached + |piece|;
      }
    }

    /** Serves an owned piece, from the cache or from the file. */
    method Get(i: nat) returns (ok: bool, piece: seq<Byte>)
      requires Valid() && i < NumPieces(|f|, pieceSize)
      modifies `cache, `nCached, `leaked
      ensures Valid() && leaked == old(leaked)
      ensures cache.Keys <= old(cache.Keys) + {i}
      ensures ok <==> i in old(cache) || leaked + Len(|f|, pieceSize, i) <= limit
      ensures ok ==> piece == Slice(f, pieceSize, i) && i in cache
      ensures i in old(cache) ==> cache == old(cache) && nCached == old(nCached)
      ensures i !in old(cache) ==>
        && (old(nCached) + |piece| <= limit ==> cache == old(cache)[i := piece])
        && Needed(old(cache), cache - {i}, if ok then nCached else nCached + |piece|)
    {
      if i in cache {
        return true, cache[i];
      }
      piece := Slice(f, pieceSize, i);
      ok := Insert(i, piece);
    }

    /** Outcomes of save: done, the panic on a wrong size, the reach into an empty cache. */
    method SavePiece(i: nat, piece: seq<Byte>) returns (sized: bool, ok: bool)
      requires Valid() && i < NumPieces(|f|, pieceSize)
      // the piece is requested, so it has never been read or saved
      requires i !in cache
      modifies this
      ensures Valid() && leaked == old(leaked)
      ensures cache.Keys <= old(cache.Keys) + {i}
      ensures sized <==> |piece| == Len(|old(f)|, pieceSize, i)
      ensures !sized ==> f == old(f) && cache == old(cache)
      ensures sized ==> f == Save(old(f), pieceSize, i, piece) && Slice(f, pieceSize, i) == piece
      ensures sized ==> (ok <==> leaked + |piece| <= limit)
      ensures sized && ok ==> i in cache
      ensures sized ==>
        && (old(nCached) + |piece| <= limit ==> cache == old(cache)[i := piece])
        && Needed(old(cache), cache - {i}, if ok then nCached else nCached + |piece|)
    {
      ok := false;
      sized := |piece| == Len(|f|, pieceSize, i);
      if sized {
        SaveCoherent(cache, f, pieceSize, i, piece);
        SaveSlice(f, pieceSize, i, piece, i);
        f := Save(f, pieceSize, i, piece);
        ok := Insert(i, piece);
      }
    }
  }

  /** Saving a piece that is not cached leaves the cache right. */
  lemma SaveCoherent(c: Cache, f: seq<Byte>, ps: nat, i: nat, piece: seq<Byte>)
    requires ps > 0 && Coherent(c, f, ps) && i !in c
    requires i < NumPieces(|f|, ps) && |piece| == Len(|f|, ps, i)
    ensures Coherent(c, Save(f, ps, i, piece), ps)
  {
    forall j | j in c ensures c[j] == Slice(Save(f, ps, i, piece), ps, j) {
      SaveSlice(f, ps, i, piece, j);
    }
  }
}
