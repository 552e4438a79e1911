/** Piece status vectors and the comparisons the sessions make on them. */
module Pieces {

  datatype Status = Absent | Requested | Owned

  /** Slot i exists and holds an owned piece. */
  predicate Has(b: seq<Status>, i: int) {
    0 <= i < |b| && b[i] == Owned
  }

  predicate All(b: seq<Status>) {
    forall i :: 0 <= i < |b| ==> b[i] == Owned
  }

  /** The peer owns piece i and self has neither asked for it nor got it. */
  predicate Wanted(view: seq<Status>, own: seq<Status>, i: int) {
    Has(view, i) && i < |own| && own[i] == Absent
  }

  predicate NothingWanted(view: seq<Status>, own: seq<Status>) {
    forall i :: 0 <= i < |view| ==> !Wanted(view, own, i)
  }

  /** What is sent to a peer: a piece that is only requested counts as absent. */
  function Filtered(s: Status): Status {
    if s == Requested then Absent else s
  }

  function Snapshot(b: seq<Status>): seq<Status> {
    seq(|b|, i requires 0 <= i < |b| => Filtered(b[i]))
  }

  /** sv shows every piece as owned that is owned in b, and every other one as absent. */
  predicate Shows(sv: seq<Status>, b: seq<Status>) {
    |sv| == |b| && forall i :: 0 <= i < |b| ==> sv[i] == if b[i] == Owned then Owned else Absent
  }

  /** Statuses only ever move forward: absent, requested, owned. */
  function Rank(s: Status): nat {
    match s
    case Absent => 2
    case Requested => 1
    case Owned => 0
  }

  /** The bitfield has moved forward: owned pieces stay owned and none becomes absent again. */
  predicate Forward(b: seq<Status>, b': seq<Status>) {
    && |b'| == |b|
    && (forall i :: 0 <= i < |b| && Has(b, i) ==> Has(b', i))
    && (forall i :: 0 <= i < |b| && b'[i] == Absent ==> b[i] == Absent)
  }

  /** The number of owned pieces, which the bitfields keep in a counter. */
  function OwnedCount(b: seq<Status>): nat {
    if b == [] then 0 else (if b[0] == Owned then 1 else 0) + OwnedCount(b[1..])
  }

  lemma {:induction false} CountUpdate(b: seq<Status>, i: nat, v: Status)
    requires i < |b|
    ensures OwnedCount(b[i := v])
         == OwnedCount(b) - (if b[i] == Owned then 1 else 0) + (if v == Owned then 1 else 0)
  {
    if i > 0 {
      CountUpdate(b[1..], i - 1, v);
      assert b[i := v][1..] == b[1..][i - 1 := v];
    } else {
      assert b[i := v][1..] == b[1..];
    }
  }

  lemma {:induction false} CountAppend(b: seq<Status>, v: Status)
    ensures OwnedCount(b + [v]) == OwnedCount(b) + (if v == Owned then 1 else 0)
  {
    if b == [] {
      assert b + [v] == [v];
    } else {
      CountAppend(b[1..], v);
      assert (b + [v])[1..] == b[1..] + [v];
    }
  }

  /** The counter reaches the number of slots exactly when every piece is owned. */
  lemma {:induction false} CountAll(b: seq<Status>)
    ensures OwnedCount(b) <= |b|
    ensures OwnedCount(b) == |b| <==> All(b)
  {
    if b != [] {
      CountAll(b[1..]);
      if All(b[1..]) && b[0] == Owned {
        forall i | 0 <= i < |b| ensures b[i] == Owned {
          assert i > 0 ==> b[i] == b[1..][i - 1];
        }
      }
      if All(b) {
        forall i | 0 <= i < |b[1..]| ensures b[1..][i] == Owned {
          assert b[1..][i] == b[i + 1];
        }
      }
    }
  }
}
