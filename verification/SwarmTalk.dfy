/**
 * What the two ends of a link tell each other about interest and choking.  What counts is the last word:
 * the last one on the wire, else the last one in the queue of the other end, else what it has noted.
 */
module SwarmTalk {
  import opened Pieces
  import opened SwarmModel
  import opened SwarmSteps
  import opened SwarmLink
  import opened SwarmMoves
  import opened SwarmInvariant
  import opened SwarmRuns
  import opened SwarmSleep

  /** What a session believes of its peer: whether it is choked by it, and whether it is interesting to it. */
  datatype Belief = Belief(choke: ChokeStatus, interest: InterestStatus)

  /** What a message says, apart from which all messages are silent on both. */
  function Hear(b: Belief, m: Msg): Belief {
    match m
    case Choke => b.(choke := Choked)
    case Unchoke => b.(choke := Unchoked)
    case Interested => b.(interest := IsInterested)
    case NotInterested => b.(interest := IsNotInterested)
    case _ => b
  }

  function HearWire(b: Belief, ms: seq<Msg>): Belief
    decreases |ms|
  {
    if ms == [] then b else HearWire(Hear(b, ms[0]), ms[1..])
  }

  function HearQueue(b: Belief, es: seq<Event>): Belief
    decreases |es|
  {
    if es == [] then b else HearQueue(if es[0].Net? then Hear(b, es[0].m) else b, es[1..])
  }

  /** What y will believe of x once it has heard all that is under way to it. */
  function InTheEnd(x: Session, y: Session): Belief {
    HearWire(HearQueue(Belief(y.selfChoke, y.peerInterest), y.eq), x.out)
  }

  lemma {:induction false} WireAppend(b: Belief, ms: seq<Msg>, more: seq<Msg>)
    ensures HearWire(b, ms + more) == HearWire(HearWire(b, ms), more)
    decreases |ms|
  {
    if ms == [] {
      assert ms + more == more;
    } else {
      WireAppend(Hear(b, ms[0]), ms[1..], more);
      assert (ms + more)[1..] == ms[1..] + more;
    }
  }

  lemma {:induction false} QueueAppend(b: Belief, es: seq<Event>, e: Event)
    ensures HearQueue(b, es + [e]) == if e.Net? then Hear(HearQueue(b, es), e.m) else HearQueue(b, es)
    decreases |es|
  {
    if es == [] {
      assert es + [e] == [e];
    } else {
      QueueAppend(if es[0].Net? then Hear(b, es[0].m) else b, es[1..], e);
      assert (es + [e])[1..] == es[1..] + [e];
    }
  }

  /**
   * While y listens: it will believe what x last said about its interest; it will believe itself choked if x
   * has it choked, and unchoked only if x has it unchoked.
   */
  ghost predicate TalkOk(x: Session, y: Session) {
    && (x.Started() <==> x.lastSaid != InterestUnknown)
    && (!y.Done() ==>
          && InTheEnd(x, y).interest == x.lastSaid
          && (x.peerChoke == Choked ==> InTheEnd(x, y).choke == Choked)
          && (InTheEnd(x, y).choke == Unchoked ==> x.peerChoke == Unchoked))
  }

  lemma HearShort(b: Belief, ms: seq<Msg>)
    requires |ms| <= 2
    ensures HearWire(b, ms) == if ms == [] then b else if |ms| == 1 then Hear(b, ms[0]) else Hear(Hear(b, ms[0]), ms[1])
  {
    if |ms| == 2 {
      assert HearWire(Hear(b, ms[0]), ms[1..]) == Hear(Hear(b, ms[0]), ms[1]);
    }
  }

  /** The speaker takes a step that sends ms. */
  lemma Speaks(x: Session, y: Session, x': Session, ms: seq<Msg>)
    requires x'.out == x.out + ms && |ms| <= 2
    ensures var b := InTheEnd(x, y);
      InTheEnd(x', y) == if ms == [] then b else if |ms| == 1 then Hear(b, ms[0]) else Hear(Hear(b, ms[0]), ms[1])
  {
    HearShort(InTheEnd(x, y), ms);
    WireAppend(HearQueue(Belief(y.selfChoke, y.peerInterest), y.eq), x.out, ms);
  }

  lemma SpeakerEvent(x: Session, y: Session, own: seq<Status>, disk: seq<Data>)
    requires |own| == |x.view| == |disk| && x.pc.Idle? && x.eq != [] && !BadEvent(own, x.eq[0]) && TalkOk(x, y)
    ensures TalkOk(AfterEvent(x.(eq := x.eq[1..]), own, disk, x.eq[0]), y)
  {
    hide NothingWanted, All, InTheEnd;
    var x' := AfterEvent(x.(eq := x.eq[1..]), own, disk, x.eq[0]);
    var ms := x'.out[|x.out|..];
    assert x'.out == x.out + ms;
    Speaks(x, y, x', ms);
  }

  lemma Speaker(c: Config, x: Session, y: Session, own: seq<Status>, disk: seq<Data>, all: set<Sid>, l: Step)
    requires |own| == |disk| == |x.view| == c.N() && CanMove(c, x, y, own, l) && TalkOk(x, y)
    ensures TalkOk(Moved(c, x, y, own, disk, all, l), Read(y, l))
  {
    hide NothingWanted, Wanted, All, InTheEnd, AfterEvent, BadEvent;
    SameEars(x, y, l);
    if l.Dispatch? {
      SpeakerEvent(x, y, own, disk);
    } else {
      var x' := Moved(c, x, y, own, disk, all, l);
      var ms := x'.out[|x.out|..];
      assert x'.out == x.out + ms;
      Speaks(x, y, x', ms);
    }
  }

  lemma SameEars(x: Session, y: Session, l: Step)
    ensures forall z :: InTheEnd(z, Read(y, l)) == InTheEnd(z, y)
    ensures Read(y, l).Done() == y.Done()
  {
  }

  /** The listener scans, dispatches, or goes its way: what it will believe in the end stays what it was. */
  lemma Listener(c: Config, x: Session, y: Session, own: seq<Status>, disk: seq<Data>, all: set<Sid>, l: Step)
    requires |own| == |disk| == |y.view| == c.N() && CanMove(c, y, x, own, l) && TalkOk(x, y)
    ensures TalkOk(Read(x, l), Moved(c, y, x, own, disk, all, l))
  {
    hide NothingWanted, Wanted, All, AfterEvent, BadEvent;
    if l.Dispatch? {
      ListenerEvent(x, y, own, disk);
    } else if l.Scan? {
      QueueAppend(Belief(y.selfChoke, y.peerInterest), y.eq, Net(x.out[0]));
    } else if l.Tick? {
      QueueAppend(Belief(y.selfChoke, y.peerInterest), y.eq, l.e);
    }
  }

  lemma ListenerEvent(x: Session, y: Session, own: seq<Status>, disk: seq<Data>)
    requires |own| == |y.view| == |disk| && y.pc.Idle? && y.eq != [] && !BadEvent(own, y.eq[0]) && TalkOk(x, y)
    ensures TalkOk(x, AfterEvent(y.(eq := y.eq[1..]), own, disk, y.eq[0]))
  {
    hide NothingWanted, All;
  }

  lemma TalkAcked(x: Session, y: Session, i: int)
    requires TalkOk(x, y)
    ensures TalkOk(Acked(x, i), y) && TalkOk(x, Acked(y, i))
  {
    QueueAppend(Belief(y.selfChoke, y.peerInterest), y.eq, BcastHave(i));
  }

  ghost predicate Talk(st: State) {
    forall s :: s in st.ses && Rev(s) in st.ses ==> TalkOk(st.ses[s], st.ses[Rev(s)])
  }

  lemma TalkStep(c: Config, st: State, l: Step)
    requires WellFormed(c, st) && Enabled(c, st, l) && Talk(st)
    ensures Talk(Apply(c, st, l))
  {
    hide CanMove, Moved, Read, TalkOk, Acked;
    var st0, st', p := AckedState(st, l), Apply(c, st, l), l.s.me;
    AckedFirst(c, st, l);
    ApplyIs(c, st, l);
    StepMoves(c, st, l);
    forall s | s in st.ses && Rev(s) in st.ses ensures TalkOk(st0.ses[s], st0.ses[Rev(s)]) {
      if l.AckHave? && st.ses[l.s].pc.Telling? { TalkAcked(st.ses[s], st.ses[Rev(s)], st.ses[l.s].pc.i); }
      assert s.me != s.other;
    }
    forall s | s in st'.ses && Rev(s) in st'.ses ensures TalkOk(st'.ses[s], st'.ses[Rev(s)]) {
      assert s in st.ses && Rev(Rev(s)) == s && s != Rev(s);
      if l.s == s {
        Speaker(c, st0.ses[s], st0.ses[Rev(s)], st.own[p], st.disk[p], SessionsOf(st, p), l);
      } else if l.s == Rev(s) {
        Listener(c, st0.ses[s], st0.ses[Rev(s)], st.own[p], st.disk[p], SessionsOf(st, p), l);
      } else {
        assert Rev(l.s) != s && Rev(l.s) != Rev(s);
      }
    }
  }

  lemma InitTalk(c: Config, st: State)
    requires Init(c, st)
    ensures Talk(st)
  {
  }

  lemma {:induction false} RunTalk(c: Config, sts: seq<State>, ls: seq<Step>, n: nat)
    requires IsFreeRun(c, sts, ls) && n <= |ls|
    ensures Talk(sts[n])
  {
    hide Enabled, Apply, Init, Talk;
    if n == 0 {
      InitTalk(c, sts[0]);
    } else {
      RunTalk(c, sts, ls, n - 1);
      TalkStep(c, sts[n - 1], ls[n - 1]);
    }
  }

  // ---------- where the choke that is noted and the one that is heard differ ----------

  /** Session x has its peer choked exactly if y will believe so. */
  ghost predicate Agrees(x: Session, y: Session) {
    InTheEnd(x, y).choke == Choked <==> x.peerChoke == Choked
  }

  /** Session x is about to answer a NotInterested by a Choke of which it takes no note. */
  predicate ChokesUnnoted(x: Session) {
    x.eq != [] && x.eq[0] == Net(NotInterested) && x.peerChoke != Choked
  }

  /** The tick at the head of the queue is news, so that it is noted and sent. */
  predicate TickIsNews(x: Session) {
    && x.eq != []
    && ((x.eq[0] == TimerChoke && x.peerChoke != Choked) || (x.eq[0] == TimerUnchoke && x.peerChoke != Unchoked))
  }

  /** An unchoked peer that says NotInterested is choked, and the session goes on to hold it unchoked. */
  lemma ChokeGoesUnnoted()
    ensures var x := NewSession(1).(pc := Idle, eq := [Net(NotInterested)], peerChoke := Unchoked);
      var y := NewSession(1).(pc := Idle, selfChoke := Unchoked);
      Agrees(x, y) && !Agrees(AfterEvent(x.(eq := []), [Owned], [[7]], x.eq[0]), y)
  {
    var x := NewSession(1).(pc := Idle, eq := [Net(NotInterested)], peerChoke := Unchoked);
    var y := NewSession(1).(pc := Idle, selfChoke := Unchoked);
    var x' := AfterEvent(x.(eq := []), [Owned], [[7]], x.eq[0]);
    Speaks(x, y, x', [Choke]);
  }

  lemma SpeakerAgrees(c: Config, x: Session, y: Session, own: seq<Status>, disk: seq<Data>, all: set<Sid>, l: Step)
    requires |own| == |disk| == |x.view| == c.N() && CanMove(c, x, y, own, l)
    ensures Agrees(Moved(c, x, y, own, disk, all, l), Read(y, l)) <==>
              (Agrees(x, y) && !(l.Dispatch? && ChokesUnnoted(x))) || (l.Dispatch? && TickIsNews(x))
              || (l.Dispatch? && x.eq[0] == Net(NotInterested) && x.peerChoke == Choked)
  {
    hide NothingWanted, Wanted, All, InTheEnd, BadEvent;
    SameEars(x, y, l);
    var x' := Moved(c, x, y, own, disk, all, l);
    var ms := x'.out[|x.out|..];
    assert x'.out == x.out + ms;
    Speaks(x, y, x', ms);
  }

  lemma ListenerAgrees(c: Config, x: Session, y: Session, own: seq<Status>, disk: seq<Data>, all: set<Sid>, l: Step)
    requires |own| == |disk| == |y.view| == c.N() && CanMove(c, y, x, own, l)
    requires !Moved(c, y, x, own, disk, all, l).Done()
    ensures Agrees(Read(x, l), Moved(c, y, x, own, disk, all, l)) <==> Agrees(x, y)
  {
    hide NothingWanted, Wanted, All, BadEvent;
    if l.Scan? {
      QueueAppend(Belief(y.selfChoke, y.peerInterest), y.eq, Net(x.out[0]));
    } else if l.Tick? {
      QueueAppend(Belief(y.selfChoke, y.peerInterest), y.eq, l.e);
    }
  }

  lemma AckedAgrees(x: Session, y: Session, i: int)
    ensures (Agrees(Acked(x, i), y) <==> Agrees(x, y)) && (Agrees(x, Acked(y, i)) <==> Agrees(x, y))
  {
    QueueAppend(Belief(y.selfChoke, y.peerInterest), y.eq, BcastHave(i));
  }

  ghost predicate UnnotedAt(st: State, l: Step, s: Sid) {
    l == Dispatch(s) && s in st.ses && ChokesUnnoted(st.ses[s])
  }

  ghost predicate NewsAt(st: State, l: Step, s: Sid) {
    l == Dispatch(s) && s in st.ses && TickIsNews(st.ses[s])
  }

  lemma DoneStays(c: Config, st: State, l: Step, s: Sid)
    requires WellFormed(c, st) && Enabled(c, st, l) && s in st.ses && st.ses[s].Done()
    ensures s in Apply(c, st, l).ses && Apply(c, st, l).ses[s].Done()
  {
    hide CanMove, Moved, Apply;
    PcElsewhere(c, st, l);
    if s == l.s {
      StepMoves(c, st, l);
      var st0 := AckedState(st, l);
      MovedDone(c, st0.ses[s], st0.ses[Rev(s)], st.own[s.me], st.disk[s.me], SessionsOf(st, s.me), l);
    }
  }

  lemma MovedDone(c: Config, x: Session, y: Session, own: seq<Status>, disk: seq<Data>, all: set<Sid>, l: Step)
    requires |own| == |disk| == |x.view| == c.N() && CanMove(c, x, y, own, l) && x.Done()
    ensures Moved(c, x, y, own, disk, all, l).Done()
  {
    hide Wanted, NothingWanted, All;
  }

  /** Every Choke sent without taking note, in the first n steps, has been followed by a tick that was news. */
  ghost predicate MadeGood(sts: seq<State>, ls: seq<Step>, n: nat, s: Sid)
    requires n <= |ls| < |sts|
  {
    forall m :: 0 <= m < n && UnnotedAt(sts[m], ls[m], s) ==> exists k :: m < k < n && NewsAt(sts[k], ls[k], s)
  }

  lemma MadeGoodStep(sts: seq<State>, ls: seq<Step>, n: nat, s: Sid)
    requires 0 < n <= |ls| < |sts|
    ensures MadeGood(sts, ls, n, s) <==>
              (MadeGood(sts, ls, n - 1, s) && !UnnotedAt(sts[n - 1], ls[n - 1], s)) || NewsAt(sts[n - 1], ls[n - 1], s)
  {
    assert !(UnnotedAt(sts[n - 1], ls[n - 1], s) && NewsAt(sts[n - 1], ls[n - 1], s));
    hide UnnotedAt, NewsAt;
    if MadeGood(sts, ls, n - 1, s) {
      forall m | 0 <= m < n - 1 && UnnotedAt(sts[m], ls[m], s) ensures exists k :: m < k < n && NewsAt(sts[k], ls[k], s) {
        var k :| m < k < n - 1 && NewsAt(sts[k], ls[k], s);
      }
    }
    if MadeGood(sts, ls, n, s) && !NewsAt(sts[n - 1], ls[n - 1], s) {
      forall m | 0 <= m < n && UnnotedAt(sts[m], ls[m], s) ensures exists k :: m < k < n - 1 && NewsAt(sts[k], ls[k], s) {
        var k :| m < k < n && NewsAt(sts[k], ls[k], s);
      }
    }
  }

  /** Only these two steps change whether the two ends agree. */
  lemma AgreesStep(c: Config, st: State, l: Step, s: Sid)
    requires WellFormed(c, st) && Enabled(c, st, l) && Talk(st) && s in st.ses && Rev(s) in st.ses
    ensures s in Apply(c, st, l).ses && Rev(s) in Apply(c, st, l).ses
    ensures var st' := Apply(c, st, l);
      !st'.ses[Rev(s)].Done() ==>
        (Agrees(st'.ses[s], st'.ses[Rev(s)]) <==>
           (Agrees(st.ses[s], st.ses[Rev(s)]) && !UnnotedAt(st, l, s)) || NewsAt(st, l, s))
  {
    hide CanMove, Moved, Read, Acked, InTheEnd, Agrees, TalkOk, OwnAfter, DiskAfter;
    var st0, st', p := AckedState(st, l), Apply(c, st, l), l.s.me;
    PcElsewhere(c, st, l);
    AckedFirst(c, st, l);
    ApplyIs(c, st, l);
    StepMoves(c, st, l);
    assert Rev(Rev(s)) == s;
    if st.ses[Rev(s)].Done() { DoneStays(c, st, l, Rev(s)); }
    if l.AckHave? && st.ses[l.s].pc.Telling? { AckedAgrees(st.ses[s], st.ses[Rev(s)], st.ses[l.s].pc.i); }
    assert Agrees(st0.ses[s], st0.ses[Rev(s)]) <==> Agrees(st.ses[s], st.ses[Rev(s)]);
    if !st'.ses[Rev(s)].Done() {
      if l.s == s {
        SpeakerAgrees(c, st0.ses[s], st0.ses[Rev(s)], st.own[p], st.disk[p], SessionsOf(st, p), l);
        ChokedAgrees(st.ses[s], st.ses[Rev(s)]);
      } else if l.s == Rev(s) {
        ListenerAgrees(c, st0.ses[s], st0.ses[Rev(s)], st.own[p], st.disk[p], SessionsOf(st, p), l);
      } else {
        assert Rev(l.s) != s && Rev(l.s) != Rev(s);
      }
    }
  }

  lemma ChokedAgrees(x: Session, y: Session)
    requires TalkOk(x, y) && !y.Done()
    ensures x.peerChoke == Choked ==> Agrees(x, y)
  {
  }

  // ---------- interest is retracted ----------

  /** Piece i of the peer is not owned yet, or the session has yet to handle the broadcast that it is. */
  ghost predicate Open(st: State, s: Sid, i: int)
    requires s in st.ses && s.me in st.own
  {
    Has(st.ses[s].view, i) && (!Has(st.own[s.me], i) || Pending(st, s, i) || BcastHave(i) in st.ses[s].eq)
  }

  /** A session that last said Interested still has something to get from its peer, or to hear of having got. */
  ghost predicate Retracts(st: State)
    requires forall s :: s in st.ses ==> s.me in st.own
  {
    forall s :: s in st.ses && !st.ses[s].Closed() && st.ses[s].lastSaid == IsInterested ==> exists i :: Open(st, s, i)
  }

  /** What becomes of an open piece in the move of the session itself. */
  lemma MoverStaysOpen(c: Config, x: Session, y: Session, own: seq<Status>, disk: seq<Data>, all: set<Sid>, l: Step,
                       i: int) returns (j: int)
    requires |own| == |disk| == |x.view| == c.N() && CanMove(c, x, y, own, l)
    requires x.lastSaid == IsInterested ==> Has(x.view, i)
    requires x.pc.SetupCheck? || x.AwaitsBitfield() ==> x.lastSaid != IsInterested
    ensures var x' := Moved(c, x, y, own, disk, all, l);
      x'.lastSaid == IsInterested && !x'.Closed() ==>
        && Has(x'.view, j)
        && (!Has(own, j)
            || (j == i && x.lastSaid == IsInterested && (BcastHave(i) in x.eq ==> BcastHave(i) in x'.eq)))
  {
    hide All;
    if (l.SayInterest? || l.CheckAfterHave? || ((l.Dispatch? || l.DrainOne?) && x.eq[0].BcastHave?))
       && !NothingWanted(x.view, own) {
      j :| 0 <= j < |x.view| && Wanted(x.view, own, j);
    } else {
      j := i;
      if x.eq != [] { assert x.eq == [x.eq[0]] + x.eq[1..]; }
    }
  }

  lemma MovedTeller(c: Config, x: Session, y: Session, own: seq<Status>, disk: seq<Data>, all: set<Sid>, l: Step, s: Sid)
    requires |own| == |disk| == |x.view| == c.N() && CanMove(c, x, y, own, l) && x.pc.Telling? && s in x.pc.todo
    ensures var x' := Moved(c, x, y, own, disk, all, l);
      x'.pc.Telling? && x'.pc.i == x.pc.i && (s in x'.pc.todo || (l.AckHave? && l.t == s))
  {
  }

  /** A broadcast to session s stays under way until it is in its queue. */
  lemma PendingStays(c: Config, st: State, l: Step, s: Sid, i: int)
    requires WellFormed(c, st) && Enabled(c, st, l) && s in st.ses && st.ses[s].Ready() && Pending(st, s, i)
    ensures Pending(Apply(c, st, l), s, i) || BcastHave(i) in AckedState(st, l).ses[s].eq
  {
    hide CanMove, Moved, Apply;
    PcElsewhere(c, st, l);
    StepMoves(c, st, l);
    var t :| Tells(st, t, s, i);
    if t == l.s {
      var st0 := AckedState(st, l);
      MovedTeller(c, st0.ses[t], st0.ses[Rev(t)], st.own[t.me], st.disk[t.me], SessionsOf(st, t.me), l, s);
      if !(l.AckHave? && l.t == s) { assert Tells(Apply(c, st, l), t, s, i); }
    } else {
      assert Tells(Apply(c, st, l), t, s, i);
    }
  }

  /** A piece that becomes owned is broadcast to every session of the peer. */
  lemma OwnedIsPending(c: Config, st: State, l: Step, s: Sid, i: int)
    requires WellFormed(c, st) && Enabled(c, st, l) && s in st.ses
    requires s.me in Apply(c, st, l).own && !Has(st.own[s.me], i) && Has(Apply(c, st, l).own[s.me], i)
    ensures Pending(Apply(c, st, l), s, i)
  {
    hide Moved, Apply;
    PcElsewhere(c, st, l);
    StepMoves(c, st, l);
    var st0 := AckedState(st, l);
    MovedTells(c, st0.ses[l.s], st0.ses[Rev(l.s)], st.own[l.s.me], st.disk[l.s.me], SessionsOf(st, l.s.me), l);
    assert l.SetOwned? && l.s.me == s.me && st.ses[l.s].pc.i == i;
    assert Tells(Apply(c, st, l), l.s, s, i);
  }

  /** A piece that is open stays so, as long as the session keeps it in view and its broadcast in the queue. */
  lemma StaysOpen(c: Config, st: State, l: Step, s: Sid, i: int)
    requires WellFormed(c, st) && Enabled(c, st, l) && WellFormed(c, Apply(c, st, l))
    requires s in st.ses && s in Apply(c, st, l).ses
    requires !Has(st.own[s.me], i) || (st.ses[s].Ready() && Open(st, s, i))
    requires Has(Apply(c, st, l).ses[s].view, i)
    requires BcastHave(i) in AckedState(st, l).ses[s].eq && Has(st.own[s.me], i) ==> BcastHave(i) in Apply(c, st, l).ses[s].eq
    ensures Open(Apply(c, st, l), s, i)
  {
    hide Apply, Enabled, Pending;
    if !Has(st.own[s.me], i) {
      if Has(Apply(c, st, l).own[s.me], i) { OwnedIsPending(c, st, l, s, i); }
    } else if Pending(st, s, i) {
      PendingStays(c, st, l, s, i);
    }
  }

  lemma RetractStep(c: Config, st: State, l: Step)
    requires WellFormed(c, st) && Enabled(c, st, l) && Talk(st) && Retracts(st)
    ensures WellFormed(c, Apply(c, st, l)) && Retracts(Apply(c, st, l))
  {
    hide CanMove, Moved, Read, Open, Apply, InTheEnd, TalkOk;
    var st' := Apply(c, st, l);
    StepKeepsSizes(c, st, l);
    PcElsewhere(c, st, l);
    forall s | s in st'.ses && !st'.ses[s].Closed() && st'.ses[s].lastSaid == IsInterested
      ensures s in st.ses && s.me in st'.own && exists i :: Open(st', s, i)
    {
      var i := RetractOne(c, st, l, s);
    }
  }

  /** The session at work chooses its piece anew when it speaks. */
  lemma OpenHere(c: Config, st: State, l: Step) returns (i: int)
    requires WellFormed(c, st) && Enabled(c, st, l) && Talk(st) && Retracts(st)
    requires l.s in Apply(c, st, l).ses
    requires !Apply(c, st, l).ses[l.s].Closed() && Apply(c, st, l).ses[l.s].lastSaid == IsInterested
    ensures Has(Apply(c, st, l).ses[l.s].view, i)
    ensures Has(st.own[l.s.me], i) ==>
              && st.ses[l.s].Ready() && Open(st, l.s, i)
              && (BcastHave(i) in AckedState(st, l).ses[l.s].eq ==> BcastHave(i) in Apply(c, st, l).ses[l.s].eq)
  {
    hide CanMove, Moved, InTheEnd, Apply, Pending;
    var st0, s, p := AckedState(st, l), l.s, l.s.me;
    SessionElsewhere(c, st, l, s);
    StepMoves(c, st, l);
    AckedFirst(c, st, l);
    assert TalkOk(st.ses[s], st.ses[Rev(s)]);
    MovedClosed(c, st0.ses[s], st0.ses[Rev(s)], st.own[p], st.disk[p], SessionsOf(st, p), l);
    i := 0;
    if st.ses[s].lastSaid == IsInterested { i :| Open(st, s, i); }
    i := MoverStaysOpen(c, st0.ses[s], st0.ses[Rev(s)], st.own[p], st.disk[p], SessionsOf(st, p), l, i);
  }

  lemma RetractOne(c: Config, st: State, l: Step, s: Sid) returns (i: int)
    requires WellFormed(c, st) && Enabled(c, st, l) && Talk(st) && Retracts(st) && WellFormed(c, Apply(c, st, l))
    requires s in Apply(c, st, l).ses
    requires !Apply(c, st, l).ses[s].Closed() && Apply(c, st, l).ses[s].lastSaid == IsInterested
    ensures s in st.ses && Open(Apply(c, st, l), s, i)
  {
    hide CanMove, Moved, InTheEnd, Apply, AckedState, Pending, Enabled;
    SessionElsewhere(c, st, l, s);
    if s == l.s {
      i := OpenHere(c, st, l);
    } else {
      i :| Open(st, s, i);
      assert TalkOk(st.ses[s], st.ses[Rev(s)]);
    }
    StaysOpen(c, st, l, s, i);
  }

  /** What a step leaves of a session that does not take it. */
  lemma SessionElsewhere(c: Config, st: State, l: Step, s: Sid)
    requires WellFormed(c, st) && Enabled(c, st, l) && s in Apply(c, st, l).ses
    ensures s in st.ses && Rev(s) in st.ses && s.me in st.own
    ensures var x, x0, x' := st.ses[s], AckedState(st, l).ses[s], Apply(c, st, l).ses[s];
      && x0.view == x.view && x0.lastSaid == x.lastSaid && x0.pc == x.pc
      && (forall e :: e in x.eq ==> e in x0.eq)
      && (s != l.s ==> x'.view == x.view && x'.lastSaid == x.lastSaid && x'.pc == x.pc && x'.eq == x0.eq)
  {
    hide CanMove, Moved, OwnAfter, DiskAfter;
    ApplyIs(c, st, l);
    AckedFirst(c, st, l);
  }

  lemma MovedClosed(c: Config, x: Session, y: Session, own: seq<Status>, disk: seq<Data>, all: set<Sid>, l: Step)
    requires |own| == |disk| == |x.view| == c.N() && CanMove(c, x, y, own, l)
    ensures x.Closed() ==> Moved(c, x, y, own, disk, all, l).Closed()
  {
  }

  lemma {:induction false} RunRetracts(c: Config, sts: seq<State>, ls: seq<Step>, n: nat)
    requires IsFreeRun(c, sts, ls) && n <= |ls|
    ensures WellFormed(c, sts[n]) && Retracts(sts[n])
  {
    hide Enabled, Apply, WellFormed, Talk;
    if n == 0 {
      NobodyHasSpoken(c, sts[0]);
    } else {
      RunRetracts(c, sts, ls, n - 1);
      RunTalk(c, sts, ls, n - 1);
      hide Retracts;
      RetractStep(c, sts[n - 1], ls[n - 1]);
    }
  }

  lemma NobodyHasSpoken(c: Config, st: State)
    requires Init(c, st)
    ensures WellFormed(c, st) && Retracts(st)
  {
  }

  // ---------- the results ----------

  /**
   * The last word counts: while the other end is not done, it will believe what a session last said about its
   * interest, once it has heard everything under way; it will believe itself choked if the session has it
   * choked, and unchoked only if the session has it unchoked.
   */
  lemma LastWordCounts(c: Config, sts: seq<State>, ls: seq<Step>, n: nat, s: Sid)
    requires IsFreeRun(c, sts, ls) && n <= |ls| && s in sts[n].ses && Rev(s) in sts[n].ses
    requires !sts[n].ses[Rev(s)].Done()
    ensures var x, b := sts[n].ses[s], InTheEnd(sts[n].ses[s], sts[n].ses[Rev(s)]);
      && b.interest == x.lastSaid
      && (x.peerChoke == Choked ==> b.choke == Choked)
      && (b.choke == Unchoked ==> x.peerChoke == Unchoked)
  {
    RunTalk(c, sts, ls, n);
  }

  /**
   * The status that a session keeps of its peer is what the peer will believe, as far as being choked goes, if and
   * only if every Choke sent without taking note has been followed by a tick that was news.
   */
  lemma {:induction false} ChokeIsNotedExactly(c: Config, sts: seq<State>, ls: seq<Step>, n: nat, s: Sid)
    requires IsFreeRun(c, sts, ls) && n <= |ls| && s in sts[n].ses && Rev(s) in sts[n].ses
    requires !sts[n].ses[Rev(s)].Done()
    ensures Agrees(sts[n].ses[s], sts[n].ses[Rev(s)]) <==> MadeGood(sts, ls, n, s)
  {
    hide Enabled, Apply, Init, Talk, WellFormed, Agrees, UnnotedAt, NewsAt;
    if n == 0 {
      NobodySpokeYet(c, sts[0], s);
    } else {
      var st, l := sts[n - 1], ls[n - 1];
      RunTalk(c, sts, ls, n - 1);
      SameKeys(c, st, l);
      if st.ses[Rev(s)].Done() { DoneStays(c, st, l, Rev(s)); }
      AgreesStep(c, st, l, s);
      MadeGoodStep(sts, ls, n, s);
      ChokeIsNotedExactly(c, sts, ls, n - 1, s);
    }
  }

  lemma SameKeys(c: Config, st: State, l: Step)
    requires WellFormed(c, st) && Enabled(c, st, l)
    ensures Apply(c, st, l).ses.Keys == st.ses.Keys
  {
    hide Apply;
    PcElsewhere(c, st, l);
  }

  lemma NobodySpokeYet(c: Config, st: State, s: Sid)
    requires Init(c, st) && s in st.ses && Rev(s) in st.ses
    ensures Agrees(st.ses[s], st.ses[Rev(s)])
  {
  }

  /**
   * Honesty of the messages: if the last word about interest under way to the other end, or heard by it, is
   * NotInterested, then nothing is wanted of it; and a session that wants a piece has Interested for its last word.
   */
  lemma LastWordIsHonest(c: Config, sts: seq<State>, ls: seq<Step>, n: nat, st: State, s: Sid)
    requires Visits(c, sts, ls, n, st) && s in st.ses && Rev(s) in st.ses && !st.ses[Rev(s)].Done()
    requires st.ses[s].Started() && !st.ses[s].pc.HaveCheck?
    ensures WellFormed(c, st)
    ensures var x, b := st.ses[s], InTheEnd(st.ses[s], st.ses[Rev(s)]);
      && b.interest in {IsInterested, IsNotInterested}
      && (b.interest == IsNotInterested ==> NothingWanted(x.view, st.own[s.me]))
      && (x.out == [] && st.ses[Rev(s)].eq == [] && !NothingWanted(x.view, st.own[s.me]) ==>
            st.ses[Rev(s)].peerInterest == IsInterested)
  {
    hide InTheEnd;
    RunIsFree(c, sts, ls);
    RunTalk(c, sts, ls, n);
    assert TalkOk(st.ses[s], st.ses[Rev(s)]);
    LinkOf(c, sts, ls, n, st, s);
    if st.ses[s].lastSaid == IsNotInterested { NotInterestedIsHonest(c, sts, ls, n, st, s); }
    HeardAll(st.ses[s], st.ses[Rev(s)]);
  }

  lemma HeardAll(x: Session, y: Session)
    ensures x.out == [] && y.eq == [] ==> InTheEnd(x, y) == Belief(y.selfChoke, y.peerInterest)
  {
  }

  lemma RunIsFree(c: Config, sts: seq<State>, ls: seq<Step>)
    requires IsRun(c, sts, ls)
    ensures IsFreeRun(c, sts, ls)
  {
    hide Init, Enabled, Apply, Informed, WellFormed;
  }

  /**
   * Interest is retracted: with nothing under way, a session that last said Interested sees at its peer a piece
   * that it does not own itself.
   */
  lemma InterestIsRetracted(c: Config, sts: seq<State>, ls: seq<Step>, n: nat, s: Sid) returns (i: int)
    requires IsFreeRun(c, sts, ls) && n <= |ls| && Silent(sts[n])
    requires s in sts[n].ses && !sts[n].ses[s].Closed() && sts[n].ses[s].lastSaid == IsInterested
    ensures WellFormed(c, sts[n])
    ensures Has(sts[n].ses[s].view, i) && !Has(sts[n].own[s.me], i)
  {
    RunRetracts(c, sts, ls, n);
    i :| Open(sts[n], s, i);
  }
}
