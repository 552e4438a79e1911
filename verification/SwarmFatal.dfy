/**
 * The converse: wherever a TearDown could be sent too early, the swarm can go on so that the other end panics.
 * The other end first catches up, by steps of its own thread alone, until it idles; then the TearDown is sent.
 */
module SwarmFatal {
  import opened Pieces
  import opened SwarmModel
  import opened SwarmSteps
  import opened SwarmLink
  import opened SwarmMoves
  import opened SwarmInvariant
  import opened SwarmShared
  import opened SwarmRuns
  import opened SwarmSleep
  import opened SwarmTearDown
  import opened SwarmProgress

  // ---------- how much a session has to do ----------

  /** The turns that an event takes; k is the number of sessions of the peer, which a piece is broadcast to. */
  function EventWork(k: nat, e: Event): nat {
    if e.Net? && e.m.Piece? then 3 * k + 6 else if e == Net(Unchoke) then 3 else 2
  }

  function QueueWork(k: nat, es: seq<Event>): nat {
    if es == [] then 0 else EventWork(k, es[0]) + QueueWork(k, es[1..])
  }

  function WireWork(k: nat, ms: seq<Msg>): nat {
    if ms == [] then 0 else EventWork(k, Net(ms[0])) + 1 + WireWork(k, ms[1..])
  }

  function PcWork(k: nat, pc: PC): nat {
    match pc
    case Fresh => 3
    case Snapped => 2
    case Asking => 2
    case SetupCheck(_) => 1
    case BcastCheck => 1
    case HaveCheck => 1
    case Claimed(_) => 1
    case Telling(_, todo) => 3 * |todo| + 3
    case Saved(_) => 3 * k + 4
    case Saving(_, _) => 3 * k + 5
    case _ => 0
  }

  /** What is left for session y to do, with what x has sent it. */
  function Left(k: nat, y: Session, x: Session): nat {
    PcWork(k, y.pc) + QueueWork(k, y.eq) + WireWork(k, x.out)
  }

  lemma {:induction false} QueueAppend(k: nat, es: seq<Event>, e: Event)
    ensures QueueWork(k, es + [e]) == QueueWork(k, es) + EventWork(k, e)
  {
    if es == [] {
      assert es + [e] == [e];
    } else {
      QueueAppend(k, es[1..], e);
      assert (es + [e])[1..] == es[1..] + [e];
    }
  }

  /** The session as an ackHave addressed to itself leaves it. */
  function Heard(y: Session, l: Step): Session {
    if l.AckHave? && l.t == l.s && y.pc.Telling? then Acked(y, y.pc.i) else y
  }

  lemma EventDrops(k: nat, y: Session, own: seq<Status>, disk: seq<Data>)
    requires |own| == |disk| == |y.view| && y.pc.Idle? && y.eq != [] && !BadEvent(own, y.eq[0])
    ensures var y' := AfterEvent(y.(eq := y.eq[1..]), own, disk, y.eq[0]);
      y'.eq == y.eq[1..] && PcWork(k, y'.pc) < EventWork(k, y.eq[0])
  {
    hide NothingWanted, All;
  }

  lemma ScanDrops(c: Config, y: Session, x: Session, own: seq<Status>, disk: seq<Data>, all: set<Sid>, l: Step)
    requires |own| == |disk| == |y.view| == c.N() && CanMove(c, y, x, own, l)
    requires l.Scan?
    ensures Left(|all|, Moved(c, y, x, own, disk, all, l), Read(x, l)) < Left(|all|, y, x)
  {
    QueueAppend(|all|, y.eq, Net(x.out[0]));
  }

  lemma AckDrops(c: Config, y: Session, x: Session, own: seq<Status>, disk: seq<Data>, all: set<Sid>, l: Step)
    requires |own| == |disk| == |y.view| == c.N() && CanMove(c, Heard(y, l), x, own, l)
    requires l.AckHave?
    ensures Left(|all|, Moved(c, Heard(y, l), x, own, disk, all, l), Read(x, l)) < Left(|all|, y, x)
  {
    QueueAppend(|all|, y.eq, BcastHave(y.pc.i));
    assert |y.pc.todo - {l.t}| == |y.pc.todo| - 1;
  }

  lemma DispatchDrops(c: Config, y: Session, x: Session, own: seq<Status>, disk: seq<Data>, all: set<Sid>, l: Step)
    requires |own| == |disk| == |y.view| == c.N() && CanMove(c, y, x, own, l)
    requires l.Dispatch?
    ensures Left(|all|, Moved(c, y, x, own, disk, all, l), Read(x, l)) < Left(|all|, y, x)
  {
    hide AfterEvent, BadEvent;
    EventDrops(|all|, y, own, disk);
  }

  lemma OtherDrops(c: Config, y: Session, x: Session, own: seq<Status>, disk: seq<Data>, all: set<Sid>, l: Step)
    requires |own| == |disk| == |y.view| == c.N() && CanMove(c, y, x, own, l)
    requires !y.Done() && !l.Tick? && !l.Scan? && !l.AckHave? && !l.Dispatch?
    ensures Left(|all|, Moved(c, y, x, own, disk, all, l), Read(x, l)) < Left(|all|, y, x)
  {
    hide Wanted, NothingWanted, All, AfterEvent, AfterDrainOne;
  }

  /** A step of a session that is not done brings it nearer to idling. */
  lemma LeftDrops(c: Config, y: Session, x: Session, own: seq<Status>, disk: seq<Data>, all: set<Sid>, l: Step)
    requires |own| == |disk| == |y.view| == c.N() && CanMove(c, Heard(y, l), x, own, l)
    requires !y.Done() && !l.Tick?
    ensures Left(|all|, Moved(c, Heard(y, l), x, own, disk, all, l), Read(x, l)) < Left(|all|, y, x)
  {
    hide CanMove, Moved, Left, Read;
    match l
    case Scan(_) => ScanDrops(c, y, x, own, disk, all, l);
    case AckHave(_, _) => AckDrops(c, y, x, own, disk, all, l);
    case Dispatch(_) => DispatchDrops(c, y, x, own, disk, all, l);
    case _ => OtherDrops(c, y, x, own, disk, all, l);
  }

  // ---------- the other end catches up ----------

  /** Session s could send its TearDown although the other end does not know of piece i. */
  ghost predicate Racing(c: Config, st: State, s: Sid, i: int) {
    && Inv(c, st) && TodoOk(st) && s in st.ses && Rev(s) in st.ses
    && st.ses[s].pc.Draining? && st.ses[s].eq == []
    && Unheard(c.N(), st.ses[s], st.ses[Rev(s)], i)
  }

  lemma UnheardIsUndone(c: Config, op: seq<Status>, oq: seq<Status>, x: Session, y: Session, i: int)
    requires Both(c, op, oq, x, y) && x.pc.Draining? && Unheard(c.N(), x, y, i)
    ensures !y.Done()
    ensures Waits(y, x) ==> y.pc.Idle?
  {
    assert !Has(y.view, i);
  }

  /** What a step of the other end does to the two sessions. */
  lemma ReceiverMoves(c: Config, st: State, s: Sid, l: Step)
    requires WellFormed(c, st) && s in st.ses && l.s == Rev(s) && Enabled(c, st, l)
    ensures Rev(l.s) == s && s != l.s
    ensures var x, y, p := st.ses[s], st.ses[l.s], l.s.me;
      && CanMove(c, Heard(y, l), x, st.own[p], l)
      && Apply(c, st, l).ses[s] == Read(x, l)
      && Apply(c, st, l).ses[l.s] == Moved(c, Heard(y, l), x, st.own[p], st.disk[p], SessionsOf(st, p), l)
  {
    hide CanMove, Moved, Read, Acked;
    assert s.me != s.other;
    ApplyIs(c, st, l);
    AckedFirst(c, st, l);
    StepMoves(c, st, l);
  }

  lemma ReceiverStep(c: Config, st: State, s: Sid, i: int) returns (l: Step)
    requires Racing(c, st, s, i) && !Waits(st.ses[Rev(s)], st.ses[s])
    ensures l.s == Rev(s) && Enabled(c, st, l) && !l.SendTearDown?
    ensures var st' := Apply(c, st, l);
      && Racing(c, st', s, i)
      && SessionsOf(st', l.s.me) == SessionsOf(st, l.s.me)
      && var k := |SessionsOf(st, l.s.me)|;
         Left(k, st'.ses[Rev(s)], st'.ses[s]) < Left(k, st.ses[Rev(s)], st.ses[s])
  {
    hide Links, Complete, Unique, Backed, DiskOk, CanMove, Moved, Both, Waits, Unheard, Apply;
    var r := Rev(s);
    var x, y, op, oq := st.ses[s], st.ses[r], st.own[s.me], st.own[s.other];
    BothOf(c, st, s);
    BothOf(c, st, r);
    UnheardIsUndone(c, op, oq, x, y, i);
    l := NextMove(c, oq, op, y, x, r);
    assert l.AckHave? ==> l.t in SessionsOf(st, r.me);
    assert Enabled(c, st, l);
    assert !l.SendTearDown? by { NotDraining(c, y, x, oq, l); }
    StepInv(c, st, l);
    TodoStep(c, st, l);
    PcElsewhere(c, st, l);
    ReceiverMoves(c, st, s, l);
    HeardUnheard(c.N(), x, y, l, i);
    StaysUnheard(c, x, Heard(y, l), oq, st.disk[r.me], SessionsOf(st, r.me), l, i);
    LeftDrops(c, y, x, oq, st.disk[r.me], SessionsOf(st, r.me), l);
  }

  lemma NotDraining(c: Config, y: Session, x: Session, own: seq<Status>, l: Step)
    requires CanMove(c, y, x, own, l) && !y.Done()
    ensures !l.SendTearDown?
  {
  }

  lemma HeardUnheard(n: nat, x: Session, y: Session, l: Step, i: int)
    requires Unheard(n, x, y, i)
    ensures Unheard(n, x, Heard(y, l), i)
  {
  }

  // ---------- with the TearDown already on the wire ----------

  function Torn(x: Session): Session {
    x.(pc := AwaitTd, out := x.out + [TearDown])
  }

  function TornState(st: State, s: Sid): State
    requires s in st.ses
  {
    st.(ses := st.ses[s := Torn(st.ses[s])])
  }

  lemma TearDownIs(c: Config, st: State, s: Sid)
    requires WellFormed(c, st) && Enabled(c, st, SendTearDown(s))
    ensures Apply(c, st, SendTearDown(s)) == TornState(st, s)
    ensures WellFormed(c, TornState(st, s))
  {
    assert s != Rev(s);
    StepKeepsSizes(c, st, SendTearDown(s));
    var st' := Apply(c, st, SendTearDown(s));
    assert st'.own == st.own && st'.disk == st.disk && st'.ses == TornState(st, s).ses;
  }

  /** What has been appended to a wire makes no difference to who reads its front. */
  lemma MovedUnaware(c: Config, y: Session, x: Session, own: seq<Status>, disk: seq<Data>, all: set<Sid>, l: Step)
    requires |own| == |disk| == |y.view| == c.N() && CanMove(c, y, x, own, l)
    ensures CanMove(c, y, Torn(x), own, l)
    ensures Moved(c, y, Torn(x), own, disk, all, l) == Moved(c, y, x, own, disk, all, l)
    ensures Read(Torn(x), l) == Torn(Read(x, l))
  {
    if x.out != [] { assert (x.out + [TearDown])[1..] == x.out[1..] + [TearDown]; }
  }

  /** The TearDown and a step of the other end commute. */
  lemma Commutes(c: Config, st: State, s: Sid, l: Step)
    requires WellFormed(c, st) && s in st.ses && Rev(s) in st.ses && l.s == Rev(s)
    requires Enabled(c, st, l)
    ensures WellFormed(c, TornState(st, s)) && Enabled(c, TornState(st, s), l)
    ensures s in Apply(c, st, l).ses
    ensures Apply(c, TornState(st, s), l) == TornState(Apply(c, st, l), s)
  {
    hide CanMove, Moved, Read, OwnAfter, DiskAfter, Torn;
    var stT, r, p := TornState(st, s), l.s, l.s.me;
    TornSizes(c, st, s);
    ReceiverMoves(c, st, s, l);
    var x, y := st.ses[s], Heard(st.ses[r], l);
    MovedUnaware(c, st.ses[r], x, st.own[p], st.disk[p], SessionsOf(st, p), l);
    MovedUnaware(c, y, x, st.own[p], st.disk[p], SessionsOf(st, p), l);
    assert Enabled(c, stT, l);
    assert SessionsOf(stT, p) == SessionsOf(st, p);
    assert AckedState(stT, l) == TornState(AckedState(st, l), s) by { AckedTorn(st, s, l); }
    var st' := Apply(c, stT, l);
    assert st'.own == Apply(c, st, l).own && st'.disk == Apply(c, st, l).disk;
    assert st'.ses == TornState(Apply(c, st, l), s).ses;
  }

  lemma TornSizes(c: Config, st: State, s: Sid)
    requires WellFormed(c, st) && s in st.ses
    ensures WellFormed(c, TornState(st, s))
  {
  }

  lemma AckedTorn(st: State, s: Sid, l: Step)
    requires s in st.ses && l.s in st.ses && l.s.me != s.me && (l.AckHave? ==> l.t.me == l.s.me)
    ensures AckedState(TornState(st, s), l) == TornState(AckedState(st, l), s)
  {
  }

  // ---------- the exact condition ----------

  /** The run goes on, whatever its sleeps, and no TearDown among the new steps is sent too early. */
  ghost predicate GoesOn(c: Config, sts: seq<State>, ls: seq<Step>, sts': seq<State>, ls': seq<Step>) {
    && IsFreeRun(c, sts', ls') && sts <= sts' && ls <= ls'
    && forall k :: |ls| <= k < |ls'| ==> WellFormed(c, sts'[k]) && ls'[k].s in sts'[k].ses && Informed(c, sts'[k], ls'[k])
  }

  lemma GoOn(c: Config, sts: seq<State>, ls: seq<Step>, sts1: seq<State>, ls1: seq<Step>, l: Step)
    returns (sts': seq<State>, ls': seq<Step>)
    requires GoesOn(c, sts, ls, sts1, ls1)
    requires WellFormed(c, sts1[|ls1|]) && Enabled(c, sts1[|ls1|], l) && !l.SendTearDown?
    ensures ls' == ls1 + [l] && GoesOn(c, sts, ls, sts', ls') && |sts'| == |sts1| + 1
    ensures sts'[|ls'|] == Apply(c, sts1[|ls1|], l)
  {
    hide Enabled, Apply, Init, WellFormed, KnowsAll;
    assert l.s in sts1[|ls1|].ses by { EnabledSession(c, sts1[|ls1|], l); }
    sts', ls' := sts1 + [Apply(c, sts1[|ls1|], l)], ls1 + [l];
  }

  /** With the TearDown sent, the other end catches up as it would have done without, and panics on it. */
  lemma CatchUp(c: Config, sts: seq<State>, ls: seq<Step>, sts1: seq<State>, ls1: seq<Step>, st: State, s: Sid, i: int)
    returns (sts': seq<State>, ls': seq<Step>)
    requires GoesOn(c, sts, ls, sts1, ls1) && Racing(c, st, s, i) && sts1[|ls1|] == TornState(st, s)
    ensures GoesOn(c, sts, ls, sts', ls')
    ensures WellFormed(c, sts'[|ls'|]) && Rev(s) in sts'[|ls'|].ses && Panics(c, sts'[|ls'|], Rev(s))
    decreases Left(|SessionsOf(st, s.other)|, st.ses[Rev(s)], st.ses[s])
  {
    hide Racing, GoesOn, Apply, Enabled, Waits, Left, SessionsOf, TornState, WellFormed, Panics;
    RacingFacts(c, st, s, i);
    if Waits(st.ses[Rev(s)], st.ses[s]) {
      LastScan(c, st, s, i);
      sts', ls' := GoOn(c, sts, ls, sts1, ls1, Scan(Rev(s)));
    } else {
      var l := ReceiverStep(c, st, s, i);
      Commutes(c, st, s, l);
      var sts2, ls2 := GoOn(c, sts, ls, sts1, ls1, l);
      sts', ls' := CatchUp(c, sts, ls, sts2, ls2, Apply(c, st, l), s, i);
    }
  }

  lemma RacingFacts(c: Config, st: State, s: Sid, i: int)
    requires Racing(c, st, s, i)
    ensures WellFormed(c, st) && s in st.ses && Rev(s) in st.ses
  {
  }

  lemma LastScan(c: Config, st: State, s: Sid, i: int)
    requires Racing(c, st, s, i) && Waits(st.ses[Rev(s)], st.ses[s])
    ensures s in st.ses && WellFormed(c, TornState(st, s)) && Enabled(c, TornState(st, s), Scan(Rev(s)))
    ensures var st' := Apply(c, TornState(st, s), Scan(Rev(s)));
      WellFormed(c, st') && Rev(s) in st'.ses && Panics(c, st', Rev(s))
  {
    hide Links, Complete, Unique, Backed, DiskOk, Both, Apply;
    BothOf(c, st, s);
    UnheardIsUndone(c, st.own[s.me], st.own[s.other], st.ses[s], st.ses[Rev(s)], i);
    TornSizes(c, st, s);
    var stT, l := TornState(st, s), Scan(Rev(s));
    assert stT.ses[Rev(s)].pc.Idle? && stT.ses[s].out == [TearDown];
    StepKeepsSizes(c, stT, l);
    ReceiverMoves(c, stT, s, l);
    PcElsewhere(c, stT, l);
    assert Apply(c, stT, l).ses[Rev(s)].eq == [Net(TearDown)];
  }

  /** Some way on from the run, the other end of session s panics. */
  ghost predicate CanPanic(c: Config, sts: seq<State>, ls: seq<Step>, s: Sid) {
    exists sts': seq<State>, ls': seq<Step> ::
      && GoesOn(c, sts, ls, sts', ls')
      && WellFormed(c, sts'[|ls'|]) && Rev(s) in sts'[|ls'|].ses && Panics(c, sts'[|ls'|], Rev(s))
  }

  lemma InformedCannotPanic(c: Config, sts: seq<State>, ls: seq<Step>, s: Sid)
    requires IsRun(c, sts, ls)
    ensures !CanPanic(c, sts, ls, s)
  {
    hide Enabled, Apply, Init, Informed, Panics, WellFormed;
    if CanPanic(c, sts, ls, s) {
      var sts': seq<State>, ls': seq<Step> :| GoesOn(c, sts, ls, sts', ls') && WellFormed(c, sts'[|ls'|]) && Rev(s) in sts'[|ls'|].ses
                       && Panics(c, sts'[|ls'|], Rev(s));
      assert forall k :: 0 <= k < |ls| ==> sts'[k] == sts[k] && ls'[k] == ls[k];
      assert IsRun(c, sts', ls');
      NeverPanics(c, sts', ls', |ls'|, sts'[|ls'|], Rev(s));
    }
  }

  /**
   * The exact condition on a TearDown.  In a run in which none has been sent too early, session s comes to send
   * its own: the swarm can go on, with no other TearDown sent too early, so that the other end panics, if and
   * only if the other end has not been told of every piece.
   */
  lemma TearDownIsSafeExactly(c: Config, sts: seq<State>, ls: seq<Step>, s: Sid)
    requires IsRun(c, sts, ls) && WellFormed(c, sts[|ls|]) && Enabled(c, sts[|ls|], SendTearDown(s))
    ensures s in sts[|ls|].ses
    ensures CanPanic(c, sts + [Apply(c, sts[|ls|], SendTearDown(s))], ls + [SendTearDown(s)], s)
       <==> !Informed(c, sts[|ls|], SendTearDown(s))
  {
    hide Init, Apply, CanPanic, KnowsAll;
    var st, td := sts[|ls|], SendTearDown(s);
    var sts1, ls1 := sts + [Apply(c, st, td)], ls + [td];
    hide Enabled, WellFormed, IsRun;
    assert s in st.ses by { EnabledSession(c, st, td); }
    if Informed(c, st, td) {
      RunGrows(c, sts, ls, td);
      InformedCannotPanic(c, sts1, ls1, s);
    } else {
      CanPanicNow(c, sts, ls, s);
    }
  }

  lemma RunGrows(c: Config, sts: seq<State>, ls: seq<Step>, l: Step)
    requires IsRun(c, sts, ls) && WellFormed(c, sts[|ls|]) && Enabled(c, sts[|ls|], l)
    requires l.s in sts[|ls|].ses && Informed(c, sts[|ls|], l)
    ensures IsRun(c, sts + [Apply(c, sts[|ls|], l)], ls + [l])
  {
    hide Init, Apply, Enabled, Informed, WellFormed;
  }

  lemma CanPanicNow(c: Config, sts: seq<State>, ls: seq<Step>, s: Sid)
    requires IsRun(c, sts, ls) && WellFormed(c, sts[|ls|]) && Enabled(c, sts[|ls|], SendTearDown(s))
    requires !Informed(c, sts[|ls|], SendTearDown(s))
    ensures CanPanic(c, sts + [Apply(c, sts[|ls|], SendTearDown(s))], ls + [SendTearDown(s)], s)
  {
    hide Init, Apply, Enabled, Informed, Panics, WellFormed, Inv, Racing, GoesOn;
    var st, td := sts[|ls|], SendTearDown(s);
    var sts1, ls1 := sts + [Apply(c, st, td)], ls + [td];
    RunIsFree(c, sts, ls, td);
    RunInv(c, sts, ls, |ls|);
    RunTodo(c, sts, ls, |ls|);
    hide IsRun, IsFreeRun;
    var i := RaceBegins(c, st, s);
    RacingFacts(c, st, s, i);
    TearDownIs(c, st, s);
    var sts', ls' := CatchUp(c, sts1, ls1, sts1, ls1, st, s, i);
  }

  lemma RunIsFree(c: Config, sts: seq<State>, ls: seq<Step>, l: Step)
    requires IsRun(c, sts, ls) && WellFormed(c, sts[|ls|]) && Enabled(c, sts[|ls|], l)
    ensures IsFreeRun(c, sts, ls)
    ensures var sts1, ls1 := sts + [Apply(c, sts[|ls|], l)], ls + [l]; GoesOn(c, sts1, ls1, sts1, ls1)
  {
    hide Init, Apply, Enabled, Informed, WellFormed;
  }

  lemma RaceBegins(c: Config, st: State, s: Sid) returns (i: int)
    requires Inv(c, st) && TodoOk(st) && Enabled(c, st, SendTearDown(s)) && !Informed(c, st, SendTearDown(s))
    ensures Racing(c, st, s, i)
  {
    hide Links, Complete, Unique, Backed, DiskOk, TodoOk, Both, Knows;
    BothOf(c, st, s);
    i :| 0 <= i < c.N() && !Knows(st.ses[Rev(s)], st.ses[s], i);
    UnheardBegins(c, st.own[s.me], st.own[s.other], st.ses[s], st.ses[Rev(s)], i);
  }

  lemma UnheardBegins(c: Config, op: seq<Status>, oq: seq<Status>, x: Session, y: Session, i: int)
    requires Both(c, op, oq, x, y) && 0 <= i < c.N() && !Knows(y, x, i)
    ensures Unheard(c.N(), x, y, i)
  {
  }
}
