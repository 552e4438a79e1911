/** The two bitfields of a session: the shared one of the peer itself and the private view of the other. */
module Bitfields {
  import opened Pieces
  import opened Utils

  // ---------- eligible pieces ----------

  /** s lists, in order and without repetition, the pieces wanted of view. */
  ghost predicate ListsWanted(s: seq<int>, view: seq<Status>, own: seq<Status>) {
    Sorted(s) && forall i :: i in s <==> Wanted(view, own, i)
  }

  /** operator- of the bitfields; it panics when the sizes differ. */
  method Difference(view: seq<Status>, own: seq<Status>) returns (ok: bool, ret: seq<int>)
    ensures ok <==> |view| == |own|
    ensures ok ==> ListsWanted(ret, view, own)
    ensures ok ==> (ret == [] <==> NothingWanted(view, own))
  {
    ret := [];
    if |view| != |own| {
      return false, ret;
    }
    ok := true;
    for i := 0 to |view|
      invariant Sorted(ret) && forall k :: 0 <= k < |ret| ==> ret[k] < i
      invariant forall j :: j in ret <==> j < i && Wanted(view, own, j)
    {
      if view[i] == Owned && own[i] == Absent {
        ret := ret + [i];
      }
    }
    if ret == [] {
      forall i | 0 <= i < |view| ensures !Wanted(view, own, i) { assert i !in ret; }
    } else {
      assert Wanted(view, own, ret[0]) by { assert ret[0] in ret; }
    }
  }

  // ---------- the shared bitfield ----------

  /**
   * `completions` counts the fileDownloaded entries written to the log.  Each method is one critical
   * section of the lock; the steps inside setOwned are told apart in the module Claim.
   */
  class SyncPieceBitfield {
    var sv: seq<Status>
    var nOwned: int
    var completions: nat

    ghost predicate Valid()
      reads this
    {
      nOwned == OwnedCount(sv)
    }

    constructor (size: nat, owningAllPieces: bool)
      ensures Valid()
      ensures sv == seq(size, _ => if owningAllPieces then Owned else Absent)
      ensures completions == if owningAllPieces then 1 else 0
    {
      sv := seq(size, _ => if owningAllPieces then Owned else Absent);
      nOwned := if owningAllPieces then size else 0;
      completions := if owningAllPieces then 1 else 0;
      new;
      CountUniform(sv, if owningAllPieces then Owned else Absent);
    }

    /** Requested pieces are sent as absent. */
    method TakeSnapshot() returns (tmp: seq<Status>)
      requires Valid()
      ensures tmp == Snapshot(sv) && Shows(tmp, sv)
    {
      tmp := [];
      for i := 0 to |sv|
        invariant |tmp| == i
        invariant forall j :: 0 <= j < i ==> tmp[j] == Filtered(sv[j])
      {
        tmp := tmp + [Filtered(sv[i])];
      }
    }

    /** False stands for the panic on an index out of range. */
    method SetOwned(i: int) returns (ok: bool)
      requires Valid()
      modifies this
      ensures Valid()
      ensures ok <==> 0 <= i < |old(sv)|
      ensures sv == if ok then old(sv)[i := Owned] else old(sv)
      ensures completions == old(completions) + (if ok && All(sv) then 1 else 0)
    {
      if !(0 <= i < |sv|) {
        return false;
      }
      ok := true;
      CountUpdate(sv, i, Owned);
      CountAll(sv[i := Owned]);
      if sv[i] != Owned {
        nOwned := nOwned + 1;
      }
      if nOwned == |sv| {
        completions := completions + 1;
      }
      sv := sv[i := Owned];
    }

    /** Unguarded: the counter stays right exactly if the piece was not owned already. */
    method SetRequested(i: int) returns (ok: bool)
      requires Valid()
      modifies this
      ensures ok <==> 0 <= i < |old(sv)|
      ensures Valid() <==> (ok ==> old(sv)[i] != Owned)
      ensures sv == if ok then old(sv)[i := Requested] else old(sv)
      ensures nOwned == old(nOwned) && completions == old(completions)
    {
      if !(0 <= i < |sv|) {
        return false;
      }
      ok := true;
      CountUpdate(sv, i, Requested);
      sv := sv[i := Requested];
    }

    method OwningAll() returns (all: bool)
      requires Valid()
      ensures all <==> All(sv)
    {
      CountAll(sv);
      all := nOwned == |sv|;
    }
  }

  lemma {:induction false} CountUniform(b: seq<Status>, v: Status)
    requires forall i :: 0 <= i < |b| ==> b[i] == v
    ensures OwnedCount(b) == if v == Owned then |b| else 0
  {
    if b != [] {
      CountUniform(b[1..], v);
    }
  }

  // ---------- the view of the peer ----------

  class PieceBitfield {
    var sv: seq<Status>
    var nOwned: int

    ghost predicate Valid()
      reads this
    {
      nOwned == OwnedCount(sv)
    }

    /** Recounts what a received snapshot holds. */
    constructor (snapshot: seq<Status>)
      ensures Valid() && sv == snapshot
    {
      sv := snapshot;
      new;
      nOwned := 0;
      for i := 0 to |sv|
        invariant sv == snapshot && nOwned == OwnedCount(sv[..i])
      {
        CountAppend(sv[..i], sv[i]);
        assert sv[..i] + [sv[i]] == sv[..i + 1];
        if sv[i] == Owned {
          nOwned := nOwned + 1;
        }
      }
      assert sv[..|sv|] == sv;
    }

    /** Hearing of a piece again changes nothing: the counter moves once for each slot. */
    method SetOwned(i: int) returns (ok: bool)
      requires Valid()
      modifies this
      ensures Valid()
      ensures ok <==> 0 <= i < |old(sv)|
      ensures sv == if ok then old(sv)[i := Owned] else old(sv)
    {
      if !(0 <= i < |sv|) {
        return false;
      }
      ok := true;
      CountUpdate(sv, i, Owned);
      if sv[i] != Owned {
        nOwned := nOwned + 1;
      }
      sv := sv[i := Owned];
    }

    method OwningAll() returns (all: bool)
      requires Valid()
      ensures all <==> All(sv)
    {
      CountAll(sv);
      all := nOwned == |sv|;
    }
  }
}
