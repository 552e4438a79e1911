/**
 * A TearDown sent too early.  Whatever the swarm does afterwards, the end it is sent to is never done,
 * so it can only meet the TearDown in its event loop, where it panics.
 */
module SwarmTearDown {
  import opened Pieces
  import opened SwarmModel
  import opened SwarmSteps
  import opened SwarmLink
  import opened SwarmMoves
  import opened SwarmInvariant
  import opened SwarmRuns
  import opened SwarmSleep

  /** y does not know of piece i, nor will it from what x has sent. */
  ghost predicate Unheard(n: nat, x: Session, y: Session, i: int) {
    && 0 <= i < n == |y.view| && !Knows(y, x, i)
    && (forall k :: 0 < k < |x.out| ==> !x.out[k].Bitfield?)
    && (x.out != [] && x.out[0].Bitfield? ==> y.AwaitsBitfield())
  }

  /** x has sent its TearDown, and y does not know of piece i and never will. */
  ghost predicate Doomed(n: nat, x: Session, y: Session, i: int) {
    && x.Closed() && !y.Done() && Unheard(n, x, y, i)
    && (TearDown in x.out || Net(TearDown) in y.eq)
  }

  /** The other end is told of everything, or it has noticed itself that both peers are complete. */
  ghost predicate SafelyClosed(n: nat, x: Session, y: Session) {
    x.Closed() ==> KnowsAll(n, y, x)
  }

  lemma DoomedSender(c: Config, x: Session, y: Session, own: seq<Status>, disk: seq<Data>, all: set<Sid>, l: Step, i: int)
    requires |own| == |disk| == |x.view| == c.N() && CanMove(c, x, y, own, l)
    requires Doomed(c.N(), x, y, i)
    ensures Doomed(c.N(), Moved(c, x, y, own, disk, all, l), Read(y, l), i)
  {
  }

  lemma StaysUndone(c: Config, x: Session, y: Session, own: seq<Status>, disk: seq<Data>, all: set<Sid>, l: Step, i: int)
    requires |own| == |disk| == |y.view| == c.N() && CanMove(c, y, x, own, l)
    requires Doomed(c.N(), x, y, i)
    ensures !Moved(c, y, x, own, disk, all, l).Done()
  {
    assert y.view[i] != Owned;
    match l
    case RecvBitfield(_) => assert x.out[0].sv[i] != Owned;
    case Dispatch(_) =>
      if y.eq[0].Net? && y.eq[0].m.Have? {
        assert y.eq[0] in y.eq;
        assert y.view[y.eq[0].m.i := Owned][i] != Owned;
      }
    case _ =>
  }

  lemma StaysUnheard(c: Config, x: Session, y: Session, own: seq<Status>, disk: seq<Data>, all: set<Sid>, l: Step, i: int)
    requires |own| == |disk| == |y.view| == c.N() && CanMove(c, y, x, own, l)
    requires Unheard(c.N(), x, y, i)
    ensures Unheard(c.N(), Read(x, l), Moved(c, y, x, own, disk, all, l), i)
  {
    if y.eq != [] { assert y.eq == [y.eq[0]] + y.eq[1..]; }
    if x.out != [] { assert x.out == [x.out[0]] + x.out[1..]; }
  }

  lemma DoomedReceiver(c: Config, x: Session, y: Session, own: seq<Status>, disk: seq<Data>, all: set<Sid>, l: Step, i: int)
    requires |own| == |disk| == |y.view| == c.N() && CanMove(c, y, x, own, l)
    requires Doomed(c.N(), x, y, i)
    ensures Doomed(c.N(), Read(x, l), Moved(c, y, x, own, disk, all, l), i)
  {
    hide Unheard, Wanted, NothingWanted, All;
    if y.eq != [] { assert y.eq == [y.eq[0]] + y.eq[1..]; }
    if x.out != [] { assert x.out == [x.out[0]] + x.out[1..]; }
    StaysUndone(c, x, y, own, disk, all, l, i);
    StaysUnheard(c, x, y, own, disk, all, l, i);
  }

  lemma DoomedAcked(n: nat, x: Session, y: Session, i: int, j: int)
    requires Doomed(n, x, y, i)
    ensures Doomed(n, Acked(x, j), y, i) && Doomed(n, x, Acked(y, j), i)
  {
  }

  ghost predicate DoomedAt(c: Config, st: State, s: Sid, i: int) {
    s in st.ses && Rev(s) in st.ses && Doomed(c.N(), st.ses[s], st.ses[Rev(s)], i)
  }

  /** Whatever step the swarm takes. */
  lemma DoomedStep(c: Config, st: State, l: Step, s: Sid, i: int)
    requires WellFormed(c, st) && Enabled(c, st, l) && DoomedAt(c, st, s, i)
    ensures DoomedAt(c, Apply(c, st, l), s, i)
  {
    hide CanMove, Moved, Doomed, Acked, Read;
    var st0, st', p := AckedState(st, l), Apply(c, st, l), l.s.me;
    var r := Rev(s);
    assert s.me != s.other && Rev(r) == s;
    if l.AckHave? && st.ses[l.s].pc.Telling? {
      DoomedAcked(c.N(), st.ses[s], st.ses[r], i, st.ses[l.s].pc.i);
    }
    assert Doomed(c.N(), st0.ses[s], st0.ses[r], i);
    AckedFirst(c, st, l);
    if l.s == s {
      DoomedSender(c, st0.ses[s], st0.ses[r], st.own[p], st.disk[p], SessionsOf(st, p), l, i);
    } else if l.s == r {
      DoomedReceiver(c, st0.ses[s], st0.ses[r], st.own[p], st.disk[p], SessionsOf(st, p), l, i);
    } else {
      assert Rev(l.s) != s && Rev(l.s) != r;
    }
  }

  lemma {:induction false} DoomStays(c: Config, sts: seq<State>, ls: seq<Step>, k: nat, n: nat, s: Sid, i: int)
    requires IsFreeRun(c, sts, ls) && k <= n <= |ls| && DoomedAt(c, sts[k], s, i)
    ensures DoomedAt(c, sts[n], s, i)
    decreases n
  {
    hide Enabled, Apply, DoomedAt, Init;
    if k < n {
      DoomStays(c, sts, ls, k, n - 1, s, i);
      DoomedStep(c, sts[n - 1], ls[n - 1], s, i);
    }
  }

  lemma DoomBegins(c: Config, op: seq<Status>, oq: seq<Status>, x: Session, y: Session, i: int)
    requires Both(c, op, oq, x, y) && x.pc.Draining? && 0 <= i < c.N() && !Knows(y, x, i)
    ensures Doomed(c.N(), x.(pc := AwaitTd, out := x.out + [TearDown]), y, i)
  {
    assert !Has(y.view, i);
  }

  /** The sending of an uninformed TearDown, in a swarm in which no TearDown has been premature so far. */
  lemma UninformedStep(c: Config, st: State, s: Sid) returns (i: int)
    requires Inv(c, st) && Enabled(c, st, SendTearDown(s)) && !Informed(c, st, SendTearDown(s))
    ensures DoomedAt(c, Apply(c, st, SendTearDown(s)), s, i)
  {
    hide Links, Complete, Unique, Backed, DiskOk, Both, Doomed, Knows;
    var x, y := st.ses[s], st.ses[Rev(s)];
    i :| 0 <= i < c.N() && !Knows(y, x, i);
    BothOf(c, st, s);
    DoomBegins(c, st.own[s.me], st.own[s.other], x, y, i);
    assert Apply(c, st, SendTearDown(s)).ses[s] == x.(pc := AwaitTd, out := x.out + [TearDown]);
  }

  /**
   * A TearDown that is sent while the other end does not know of some piece is fatal: however the swarm goes on,
   * the other end is never done, the TearDown stays under way to it, and when it comes up it is a panic.
   */
  lemma UninformedIsFatal(c: Config, sts: seq<State>, ls: seq<Step>, k: nat, n: nat, s: Sid)
    requires IsFreeRun(c, sts, ls) && k < n <= |ls| && IsRun(c, sts[..k + 1], ls[..k])
    requires ls[k] == SendTearDown(s) && s in sts[k].ses && WellFormed(c, sts[k]) && !Informed(c, sts[k], ls[k])
    ensures WellFormed(c, sts[n]) && s in sts[n].ses && Rev(s) in sts[n].ses
    ensures var x, y := sts[n].ses[s], sts[n].ses[Rev(s)];
      && x.Closed() && !y.Done() && !KnowsAll(c.N(), y, x)
      && (TearDown in x.out || Net(TearDown) in y.eq)
      && (y.pc.Idle? && y.eq != [] && y.eq[0] == Net(TearDown) ==> Panics(c, sts[n], Rev(s)))
  {
    hide Inv, Enabled, Apply, Init, Informed, Knows;
    RunInv(c, sts[..k + 1], ls[..k], k);
    var i := UninformedStep(c, sts[k], s);
    DoomStays(c, sts, ls, k + 1, n, s, i);
    assert WellFormed(c, sts[n]) by { FreeRunSizes(c, sts, ls, n); }
  }

  lemma {:induction false} FreeRunSizes(c: Config, sts: seq<State>, ls: seq<Step>, n: nat)
    requires IsFreeRun(c, sts, ls) && n <= |ls|
    ensures WellFormed(c, sts[n])
  {
    hide Enabled, Apply, WellFormed;
    if n == 0 {
      StartSizes(c, sts[0]);
    } else {
      StepKeepsSizes(c, sts[n - 1], ls[n - 1]);
    }
  }

  lemma StartSizes(c: Config, st: State)
    requires Init(c, st)
    ensures WellFormed(c, st)
  {
  }

  /** The first step of a free run that is not informed, if there is one. */
  lemma {:induction false} FirstUninformed(c: Config, sts: seq<State>, ls: seq<Step>, n: nat) returns (k: nat)
    requires IsFreeRun(c, sts, ls) && n <= |ls|
    ensures k <= n && IsRun(c, sts[..k + 1], ls[..k])
    ensures k < n ==> WellFormed(c, sts[k]) && ls[k].s in sts[k].ses && !Informed(c, sts[k], ls[k])
  {
    hide Enabled, Apply, Init, Informed;
    if n == 0 {
      k := 0;
    } else {
      k := FirstUninformed(c, sts, ls, n - 1);
      if k == n - 1 {
        assert ls[k].s in sts[k].ses by { EnabledSession(c, sts[k], ls[k]); }
        if Informed(c, sts[k], ls[k]) { k := n; }
      }
    }
  }

  lemma EnabledSession(c: Config, st: State, l: Step)
    requires WellFormed(c, st) && Enabled(c, st, l)
    ensures l.s in st.ses
  {
  }

  lemma ClosedKnows(c: Config, op: seq<Status>, oq: seq<Status>, x: Session, y: Session)
    requires Both(c, op, oq, x, y)
    ensures SafelyClosed(c.N(), x, y)
  {
  }

  /**
   * The exact condition: in a run of whatever sleeps, every TearDown was sent after the other end had been told
   * of every piece if and only if, in the last state, no session is closed whose other end misses a piece.
   */
  lemma InformedExactly(c: Config, sts: seq<State>, ls: seq<Step>)
    requires IsFreeRun(c, sts, ls)
    ensures var st := sts[|ls|];
      IsRun(c, sts, ls) <==>
      forall s :: s in st.ses && Rev(s) in st.ses ==> SafelyClosed(c.N(), st.ses[s], st.ses[Rev(s)])
  {
    hide Inv, Enabled, Apply, Init, Both, Knows, Informed;
    var n, st := |ls|, sts[|ls|];
    if IsRun(c, sts, ls) {
      forall s | s in st.ses && Rev(s) in st.ses ensures SafelyClosed(c.N(), st.ses[s], st.ses[Rev(s)]) {
        LinkOf(c, sts, ls, n, st, s);
        ClosedKnows(c, st.own[s.me], st.own[s.other], st.ses[s], st.ses[Rev(s)]);
      }
    } else {
      var k := FirstUninformed(c, sts, ls, n);
      assert sts[..n + 1] == sts && ls[..n] == ls;
      assert ls[k] == SendTearDown(ls[k].s) by { UninformedIsTearDown(c, sts[k], ls[k]); }
      UninformedIsFatal(c, sts, ls, k, n, ls[k].s);
    }
  }

  lemma UninformedIsTearDown(c: Config, st: State, l: Step)
    requires WellFormed(c, st) && l.s in st.ses && !Informed(c, st, l)
    ensures l == SendTearDown(l.s)
  {
  }
}
