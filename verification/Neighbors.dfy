/** The choice of the preferred neighbours: the order of the candidates, the sorted set, the tick. */
module Neighbors {
  import opened SwarmModel
  import opened Utils

  // ---------- the order ----------

  /** A session as the collection sees it; `addr` is its address, which is its identity. */
  datatype Sn = Sn(addr: int, prev: int, neo: int, interest: InterestStatus, active: bool)

  /** The comparator of the selection. */
  predicate Precedes(a: Sn, b: Sn) {
    if !a.active then false
    else if !b.active then true
    else if a.interest == InterestUnknown || a.interest == IsNotInterested then false
    else if a.interest == IsInterested && (b.interest == IsNotInterested || b.interest == InterestUnknown) then true
    else a.neo - a.prev > b.neo - b.prev
  }

  /** 0 active and interested, 1 active, 2 inactive. */
  function Class(a: Sn): nat {
    if !a.active then 2 else if a.interest == IsInterested then 0 else 1
  }

  /** The comparator ranks by class, and within the first class by the bytes received since the last tick. */
  lemma PrecedesIsByClass(a: Sn, b: Sn)
    ensures Precedes(a, b) <==>
      Class(a) < Class(b) || (Class(a) == Class(b) == 0 && a.neo - a.prev > b.neo - b.prev)
    // whom an active session that is interested comes before, and whom any other one does
    ensures a.active && a.interest == IsInterested ==>
      (Precedes(a, b) <==> b.active && b.interest == IsInterested ==> a.neo - a.prev > b.neo - b.prev)
    ensures a.active && a.interest != IsInterested ==> (Precedes(a, b) <==> !b.active)
    ensures !a.active ==> !Precedes(a, b)
  {
  }

  predicate Tied(a: Sn, b: Sn) { !Precedes(a, b) && !Precedes(b, a) }

  /** It is a strict weak order, as the selection algorithm demands. */
  lemma StrictWeakOrder(a: Sn, b: Sn, c: Sn)
    ensures !Precedes(a, a)
    ensures Precedes(a, b) ==> !Precedes(b, a)
    ensures Precedes(a, b) && Precedes(b, c) ==> Precedes(a, c)
    ensures Tied(a, b) && Tied(b, c) ==> Tied(a, c)
  {
  }

  // ---------- partial selection ----------

  /** nth_element: r is ss reordered so that nothing from position n on precedes anything before it. */
  ghost predicate Selected(ss: seq<Sn>, r: seq<Sn>, n: nat) {
    multiset(r) == multiset(ss)
    && forall i, j :: 0 <= i < n <= j < |r| ==> !Precedes(r[j], r[i])
  }

  function Swap(s: seq<Sn>, i: nat, j: nat): (r: seq<Sn>)
    requires i < |s| && j < |s|
    ensures |r| == |s|
  {
    s[i := s[j]][j := s[i]]
  }

  lemma SwapPermutes(s: seq<Sn>, i: nat, j: nat)
    requires i < |s| && j < |s|
    ensures multiset(Swap(s, i, j)) == multiset(s)
    ensures Distinct(s) ==> Distinct(Swap(s, i, j))
  {
  }

  predicate Distinct(s: seq<Sn>) {
    forall i, j :: 0 <= i < j < |s| ==> s[i].addr != s[j].addr
  }

  method NthElement(ss: seq<Sn>, n: nat) returns (r: seq<Sn>)
    requires n <= |ss|
    ensures |r| == |ss| && Selected(ss, r, n)
    ensures Distinct(ss) ==> Distinct(r)
  {
    hide Precedes, Distinct;
    r := ss;
    for k := 0 to n
      invariant |r| == |ss| && Selected(ss, r, k)
      invariant Distinct(ss) ==> Distinct(r)
    {
      var m := k;
      StrictWeakOrder(r[k], r[k], r[k]);
      for j := k + 1 to |r|
        invariant k <= m < j
        invariant forall i :: k <= i < j ==> !Precedes(r[i], r[m])
      {
        if Precedes(r[j], r[m]) {
          forall i | k <= i < j ensures !Precedes(r[i], r[j]) {
            StrictWeakOrder(r[i], r[j], r[m]);
          }
          m := j;
        }
        StrictWeakOrder(r[j], r[j], r[j]);
      }
      SwapPermutes(r, k, m);
      r := Swap(r, k, m);
    }
  }

  // ---------- the sorted set of references ----------

  function Elems(s: seq<int>): set<int> { set x | x in s }

  /** A strictly sorted vector has as many elements as the set it stands for. */
  lemma {:induction false} SortedSize(s: seq<int>)
    requires Sorted(s)
    ensures |Elems(s)| == |s|
  {
    if s != [] {
      var front, last := s[..|s| - 1], s[|s| - 1];
      SortedSize(front);
      assert s == front + [last];
      assert Elems(s) == Elems(front) + {last};
    }
  }

  lemma InsertedOrder(s: seq<int>, k: nat, x: int, i: nat, j: nat)
    requires Sorted(s) && k <= |s| && x !in s && i < j <= |s|
    requires (forall i :: 0 <= i < k ==> s[i] < x) && forall i :: k <= i < |s| ==> x <= s[i]
    ensures var t := s[..k] + [x] + s[k..]; t[i] < t[j]
  {
    if j > k {
      assert s[j - 1] in s;
    }
  }

  lemma Inserted(s: seq<int>, k: nat, x: int)
    requires Sorted(s) && k <= |s|
    requires (forall i :: 0 <= i < k ==> s[i] < x) && forall i :: k <= i < |s| ==> x <= s[i]
    ensures var t := s[..k] + [x] + s[k..];
      Elems(t) == Elems(s) + {x} && |t| == |s| + 1 && (Sorted(t) <==> x !in Elems(s))
  {
    var t := s[..k] + [x] + s[k..];
    assert Elems(t) == Elems(s) + {x} by {
      assert s == s[..k] + s[k..];
    }
    if x in s {
      assert k < |s| && s[k] == x;
      assert t[k] == t[k + 1];
    } else {
      forall i, j | 0 <= i < j < |t| ensures t[i] < t[j] {
        InsertedOrder(s, k, x, i, j);
      }
    }
  }

  class SnRefSet {
    var pns: seq<int>

    ghost predicate Valid()
      reads this
    {
      Sorted(pns)
    }

    ghost function Members(): set<int>
      reads this
    {
      Elems(pns)
    }

    constructor ()
      ensures Valid() && pns == []
    {
      pns := [];
    }

    /** std::lower_bound by address. */
    method LowerBound(x: int) returns (k: nat)
      requires Valid()
      ensures k <= |pns|
      ensures forall i :: 0 <= i < k ==> pns[i] < x
      ensures forall i :: k <= i < |pns| ==> x <= pns[i]
    {
      var lo, hi := 0, |pns|;
      while lo < hi
        invariant 0 <= lo <= hi <= |pns|
        invariant forall i :: 0 <= i < lo ==> pns[i] < x
        invariant forall i :: hi <= i < |pns| ==> x <= pns[i]
      {
        var mid := (lo + hi) / 2;
        if pns[mid] < x { lo := mid + 1; } else { hi := mid; }
      }
      k := lo;
    }

    method Contains(x: int) returns (b: bool)
      requires Valid()
      ensures b <==> x in Members()
    {
      var k := LowerBound(x);
      b := k < |pns| && pns[k] == x;
    }

    /** The source demands that the set contain x. */
    method Remove(x: int)
      requires Valid() && x in Members()
      modifies this
      ensures Valid() && Members() == old(Members()) - {x}
    {
      var k := LowerBound(x);
      ghost var was := pns;
      pns := pns[..k] + pns[k + 1..];
      assert was == was[..k] + [was[k]] + was[k + 1..];
    }

    /** Adding keeps the vector strictly sorted exactly if x was not a member. */
    method Add(x: int)
      requires Valid()
      modifies this
      ensures Members() == old(Members()) + {x} && |pns| == |old(pns)| + 1
      ensures Valid() <==> x !in old(Members())
    {
      var k := LowerBound(x);
      Inserted(pns, k, x);
      pns := pns[..k] + [x] + pns[k..];
    }

    /** The merge of set_difference. */
    method Minus(rhs: SnRefSet) returns (ret: seq<int>)
      requires Valid() && rhs.Valid()
      ensures Sorted(ret) && Elems(ret) == Members() - rhs.Members()
    {
      ret := [];
      var i, j := 0, 0;
      while i < |pns|
        invariant 0 <= i <= |pns| && 0 <= j <= |rhs.pns|
        invariant Sorted(ret) && forall k, l :: 0 <= k < |ret| && i <= l < |pns| ==> ret[k] < pns[l]
        invariant forall k, l :: 0 <= k < j && i <= l < |pns| ==> rhs.pns[k] < pns[l]
        invariant forall x :: x in ret <==> x in pns[..i] && x !in rhs.Members()
        decreases |pns| - i + |rhs.pns| - j
      {
        if j == |rhs.pns| || pns[i] < rhs.pns[j] {
          assert pns[i] !in rhs.pns;
          assert pns[..i + 1] == pns[..i] + [pns[i]];
          ret := ret + [pns[i]];
          i := i + 1;
        } else if rhs.pns[j] < pns[i] {
          j := j + 1;
        } else {
          assert pns[..i + 1] == pns[..i] + [pns[i]];
          i, j := i + 1, j + 1;
        }
      }
      assert pns[..|pns|] == pns;
      forall x ensures x in Elems(ret) <==> x in Members() - rhs.Members() {
        assert x in ret <==> x in pns && x !in rhs.Members();
      }
    }
  }

  // ---------- the collection ----------

  /** What a session tells the collection about itself. */
  datatype Live = Live(bytes: int, choke: ChokeStatus, interest: InterestStatus, active: bool)

  /** The calls of choke() and unchoke() on sessions. */
  datatype Call = ChokeIt(addr: int) | UnchokeIt(addr: int)

  function ChokeAll(s: seq<int>): seq<Call> { seq(|s|, i requires 0 <= i < |s| => ChokeIt(s[i])) }

  function UnchokeAll(s: seq<int>): seq<Call> { seq(|s|, i requires 0 <= i < |s| => UnchokeIt(s[i])) }

  /**
   * The calls made between was and now: exactly the old members that are not members any more are choked, and
   * exactly the new members are unchoked, each once, all choking before any unchoking.
   */
  ghost predicate Rotates(was: seq<Call>, now: seq<Call>, before: set<int>, after: set<int>) {
    && was <= now
    && var added := now[|was|..];
    && (forall a :: ChokeIt(a) in added <==> a in before && a !in after)
    && (forall a :: UnchokeIt(a) in added <==> a in after)
    && (forall i, j :: 0 <= i < j < |added| ==> added[i] != added[j])
    && (forall i, j :: 0 <= i < j < |added| && added[j].ChokeIt? ==> added[i].ChokeIt?)
  }

  lemma CallsRotate(was: seq<Call>, choked: seq<int>, chosen: seq<int>, before: set<int>)
    requires Sorted(choked) && Sorted(chosen) && Elems(choked) == before - Elems(chosen)
    ensures Rotates(was, was + ChokeAll(choked) + UnchokeAll(chosen), before, Elems(chosen))
  {
    var c, u := ChokeAll(choked), UnchokeAll(chosen);
    var now := was + c + u;
    assert now == was + (c + u) && now[|was|..] == c + u;
    forall a ensures ChokeIt(a) in c + u <==> a in Elems(choked) {
      if a in choked {
        var k :| 0 <= k < |choked| && choked[k] == a;
        assert c[k] == ChokeIt(a);
      }
    }
    forall a ensures UnchokeIt(a) in c + u <==> a in Elems(chosen) {
      if a in chosen {
        var k :| 0 <= k < |chosen| && chosen[k] == a;
        assert u[k] == UnchokeIt(a);
      }
    }
  }

  predicate Known(ss: seq<Sn>, live: map<int, Live>) {
    forall i :: 0 <= i < |ss| ==> ss[i].addr in live
  }

  /** The byte counts shift by one tick, interest and activity are taken over. */
  function Refreshed(a: Sn, l: Live): Sn { Sn(a.addr, a.neo, l.bytes, l.interest, l.active) }

  function Refresh(ss: seq<Sn>, live: map<int, Live>): (r: seq<Sn>)
    requires Known(ss, live)
    ensures |r| == |ss|
  {
    seq(|ss|, i requires 0 <= i < |ss| => Refreshed(ss[i], live[ss[i].addr]))
  }

  /** Each session is there still, with its byte counts shifted by one tick and the rest as it says now. */
  ghost predicate UpToDate(was: seq<Sn>, now: seq<Sn>, live: map<int, Live>) {
    && |now| == |was|
    && forall a :: a in now ==>
         && a.addr in live && a.neo == live[a.addr].bytes
         && a.interest == live[a.addr].interest && a.active == live[a.addr].active
         && exists b :: b in was && b.addr == a.addr && b.neo == a.prev
  }

  lemma RefreshedIsUpToDate(was: seq<Sn>, now: seq<Sn>, live: map<int, Live>)
    requires Known(was, live) && |now| == |was| && multiset(now) == multiset(Refresh(was, live))
    ensures UpToDate(was, now, live)
  {
    forall a | a in now
      ensures exists i :: 0 <= i < |was| && a == Refreshed(was[i], live[was[i].addr])
    {
      assert a in multiset(now);
      assert a in Refresh(was, live);
    }
    forall a | a in now ensures exists b :: b in was && b.addr == a.addr && b.neo == a.prev {
      var i :| 0 <= i < |was| && a == Refreshed(was[i], live[was[i].addr]);
      assert was[i] in was;
    }
  }

  /** The active sessions among the first n. */
  function ActiveFirst(ss: seq<Sn>, n: nat): set<int>
    requires n <= |ss|
  {
    set i | 0 <= i < n && ss[i].active :: ss[i].addr
  }

  /** No session that is left out strictly precedes an active one that is chosen. */
  ghost predicate BestChosen(ss: seq<Sn>, chosen: set<int>) {
    forall a, b :: a in ss && b in ss && a.active && a.addr in chosen && b.addr !in chosen ==> !Precedes(b, a)
  }

  lemma ChosenAreActive(ss: seq<Sn>, n: nat)
    requires n <= |ss| && Distinct(ss)
    ensures forall a :: a in ActiveFirst(ss, n) ==> exists i :: 0 <= i < |ss| && ss[i].addr == a && ss[i].active
    ensures forall i :: 0 <= i < |ss| && ss[i].addr in ActiveFirst(ss, n) ==> ss[i].active
  {
    forall i | 0 <= i < |ss| && ss[i].addr in ActiveFirst(ss, n) ensures ss[i].active {
      var k :| 0 <= k < n && ss[k].active && ss[k].addr == ss[i].addr;
      assert k == i;
    }
  }

  class SessionCollection {
    var ss: seq<Sn>
    var live: map<int, Live>
    var pnSet: SnRefSet
    var opt: Option<int>
    var calls: seq<Call>
    const nPn: nat

    ghost predicate Valid()
      reads this, pnSet
    {
      pnSet.Valid() && |pnSet.pns| <= nPn && Distinct(ss) && Known(ss, live)
    }

    constructor (nPn: nat)
      ensures Valid() && fresh(pnSet) && this.nPn == nPn && ss == [] && opt == None && pnSet.pns == []
    {
      ss, live, opt, calls := [], map[], None, [];
      pnSet := new SnRefSet();
      this.nPn := nPn;
    }

    /** The set of the active sessions among the first n. */
    method FirstActive(n: nat) returns (chosen: SnRefSet)
      requires Valid() && n <= |ss|
      ensures fresh(chosen) && chosen.Valid() && chosen.Members() == ActiveFirst(ss, n)
      ensures |chosen.pns| <= n
      ensures (forall i :: 0 <= i < n ==> ss[i].active) ==> |chosen.pns| == n
    {
      chosen := new SnRefSet();
      for i := 0 to n
        invariant fresh(chosen) && chosen.Valid() && chosen.Members() == ActiveFirst(ss, i)
        invariant |chosen.pns| <= i
        invariant (forall j :: 0 <= j < i ==> ss[j].active) ==> |chosen.pns| == i
      {
        ghost var before := ActiveFirst(ss, i);
        assert ss[i].addr !in before;
        if ss[i].active {
          chosen.Add(ss[i].addr);
          assert ActiveFirst(ss, i + 1) == before + {ss[i].addr};
        } else {
          assert ActiveFirst(ss, i + 1) == before;
        }
      }
    }

    /** The sessions are brought up to date and reordered, the best nn of them first. */
    method Reorder() returns (nn: nat)
      requires Valid()
      modifies `ss
      ensures Valid() && nn == Min(nPn, |ss|)
      ensures |ss| == |old(ss)| && Selected(Refresh(old(ss), live), ss, nn) && UpToDate(old(ss), ss, live)
    {
      hide UpToDate, Refresh, Precedes;
      ghost var fresh0 := Refresh(ss, live);
      RefreshKeeps(ss, live);
      ss := Refresh(ss, live);
      nn := Min(nPn, |ss|);
      ss := NthElement(ss, nn);
      KnownPermuted(fresh0, ss, live);
      RefreshedIsUpToDate(old(ss), ss, live);
    }

    /** A tick of the preferred-neighbour timer; `choked` are the sessions supplanted by it. */
    method PnAlgorithm() returns (choked: seq<int>)
      requires Valid()
      modifies this
      ensures Valid() && fresh(pnSet) && live == old(live)
      ensures multiset(ss) == multiset(Refresh(old(ss), live)) && UpToDate(old(ss), ss, live)
      // the set is made of the active sessions among the first places
      ensures pnSet.Members() == ActiveFirst(ss, Min(nPn, |ss|))
      ensures forall a :: a in pnSet.Members() ==> exists i :: 0 <= i < |ss| && ss[i].addr == a && ss[i].active
      ensures forall i :: 0 <= i < |ss| && ss[i].addr in pnSet.Members() ==> ss[i].active
      // nobody left out strictly precedes anybody chosen
      ensures BestChosen(ss, pnSet.Members())
      // an active session is left out only when the set is full
      ensures forall j :: 0 <= j < |ss| && ss[j].active && ss[j].addr !in pnSet.Members() ==>
                |pnSet.pns| == nPn
      // exactly those that left the set are choked, then exactly its members are unchoked
      ensures Sorted(choked) && Elems(choked) == old(pnSet.Members()) - pnSet.Members()
      ensures Rotates(old(calls), calls, old(pnSet.Members()), pnSet.Members())
      ensures calls == old(calls) + ChokeAll(choked) + UnchokeAll(pnSet.pns)
      ensures opt == if choked == [] then old(opt) else None
    {
      hide UpToDate, BestChosen, Refresh, Distinct, Known, Precedes;
      ghost var fresh0 := Refresh(ss, live);
      var nn := Reorder();
      var chosen := FirstActive(nn);
      choked := pnSet.Minus(chosen);
      if choked != [] {
        calls := calls + ChokeAll(choked);
        opt := None;
      }
      calls := calls + UnchokeAll(chosen.pns);
      SelectionIsRight(fresh0, ss, nn, chosen.pns);
      ChosenAreActive(ss, nn);
      CallsRotate(old(calls), choked, chosen.pns, pnSet.Members());
      pnSet := chosen;
    }

    /** False stands for the panic on a session that the collection does not hold. */
    method TryPreempt(s: int) returns (ok: bool)
      requires Valid()
      modifies this, pnSet
      ensures Valid() && pnSet == old(pnSet) && ss == old(ss) && live == old(live)
      ensures ok <==> exists i :: 0 <= i < |ss| && ss[i].addr == s
      ensures var seated := s in old(pnSet.Members()) || old(opt) == Some(s);
              var room, free := |old(pnSet.pns)| < nPn, old(opt) == None;
        && pnSet.Members() == old(pnSet.Members()) + (if ok && !seated && room then {s} else {})
        && opt == (if ok && !seated && !room && free then Some(s) else old(opt))
        && calls == old(calls) + (if ok && !seated && (room || free) then [UnchokeIt(s)] else [])
    {
      ok := exists i :: 0 <= i < |ss| && ss[i].addr == s;
      if !ok { return; }
      var already := pnSet.Contains(s);
      if already || opt == Some(s) { return; }
      if |pnSet.pns| < nPn {
        pnSet.Add(s);
        calls := calls + [UnchokeIt(s)];
        return;
      }
      if opt == None {
        opt := Some(s);
        calls := calls + [UnchokeIt(s)];
      }
    }

    /** The first session that could take over the seat. */
    predicate Waiting(a: Sn)
      reads this
      requires a.addr in live
    {
      var l := live[a.addr];
      l.active && l.choke == Choked && l.interest == IsInterested
    }

    method Relinquish(s: int) returns (ok: bool, next: Option<int>)
      requires Valid()
      modifies this, pnSet
      ensures Valid() && pnSet == old(pnSet) && ss == old(ss) && live == old(live)
      ensures ok <==> exists i :: 0 <= i < |ss| && ss[i].addr == s
      ensures var inPn := s in old(pnSet.Members());
              var seated := inPn || old(opt) == Some(s);
        && pnSet.Members() == old(pnSet.Members()) - (if ok then {s} else {})
        && opt == (if ok && !inPn && old(opt) == Some(s) then None else old(opt))
        && calls == old(calls) + (if ok && seated then [ChokeIt(s)] else [])
                    + (if next.Some? then [UnchokeIt(next.value)] else [])
        && (next.Some? ==> ok && seated)
        && (ok && seated && next == None ==> forall k :: 0 <= k < |ss| ==>
              var l := live[ss[k].addr]; !(l.active && l.choke == Choked && l.interest == IsInterested))
      // the seat goes to the first session of the collection that is active, choked and interested
      ensures next.Some? ==>
                exists i :: (0 <= i < |ss| && ss[i].addr == next.value
                             && live[ss[i].addr].active && live[ss[i].addr].choke == Choked
                             && live[ss[i].addr].interest == IsInterested
                             && forall j :: 0 <= j < i ==>
                                  var l := live[ss[j].addr];
                                  !(l.active && l.choke == Choked && l.interest == IsInterested))
    {
      next := None;
      ok := exists i :: 0 <= i < |ss| && ss[i].addr == s;
      if !ok { return; }
      var inPn := pnSet.Contains(s);
      if inPn {
        calls := calls + [ChokeIt(s)];
        pnSet.Remove(s);
        SortedSizeDrop(old(pnSet.pns), pnSet.pns, s);
      } else if opt == Some(s) {
        calls := calls + [ChokeIt(s)];
        opt := None;
      } else {
        return;
      }
      for k := 0 to |ss|
        invariant next == None
        invariant forall j :: 0 <= j < k ==> !Waiting(ss[j])
      {
        if Waiting(ss[k]) {
          next := Some(ss[k].addr);
          calls := calls + [UnchokeIt(ss[k].addr)];
          return;
        }
      }
    }
  }

  lemma SortedSizeDrop(s: seq<int>, t: seq<int>, x: int)
    requires Sorted(s) && Sorted(t) && Elems(t) == Elems(s) - {x}
    ensures |t| <= |s|
  {
    SortedSize(s);
    SortedSize(t);
    if x in Elems(s) { assert Elems(s) == Elems(t) + {x}; } else { assert Elems(s) == Elems(t); }
  }

  lemma RefreshKeeps(ss: seq<Sn>, live: map<int, Live>)
    requires Known(ss, live) && Distinct(ss)
    ensures Known(Refresh(ss, live), live) && Distinct(Refresh(ss, live))
  {
  }

  lemma KnownPermuted(ss: seq<Sn>, r: seq<Sn>, live: map<int, Live>)
    requires Known(ss, live) && multiset(r) == multiset(ss)
    ensures Known(r, live)
  {
    forall i | 0 <= i < |r| ensures r[i].addr in live {
      assert r[i] in multiset(r);
      assert r[i] in ss;
    }
  }

  /** The order makes the choice right: nobody left out precedes anybody chosen, and active ones come first. */
  lemma SelectionIsRight(ss: seq<Sn>, r: seq<Sn>, n: nat, pns: seq<int>)
    requires n <= |r| && Selected(ss, r, n) && Distinct(r) && Elems(pns) == ActiveFirst(r, n)
    requires (forall i :: 0 <= i < n ==> r[i].active) ==> |pns| == n
    ensures BestChosen(r, Elems(pns))
    ensures forall j :: 0 <= j < |r| && r[j].active && r[j].addr !in Elems(pns) ==> |pns| == n && n < |r|
  {
    forall i, j | 0 <= i < |r| && 0 <= j < |r| && r[i].active && r[i].addr in Elems(pns) && r[j].addr !in Elems(pns)
      ensures !Precedes(r[j], r[i])
    {
      assert i < n by {
        var k :| 0 <= k < n && r[k].active && r[k].addr == r[i].addr;
        assert k == i;
      }
    }
    assert forall a :: a in r ==> exists i :: 0 <= i < |r| && r[i] == a;
    forall j | 0 <= j < |r| && r[j].active && r[j].addr !in Elems(pns)
      ensures |pns| == n && n < |r|
    {
      assert n <= j;
      forall i | 0 <= i < n ensures r[i].active {
        assert !Precedes(r[j], r[i]);
      }
    }
  }
}
