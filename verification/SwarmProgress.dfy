/** The end of a run: a swarm in which nothing but timers can move has finished its teardowns and hangs nowhere. */
module SwarmProgress {
  import opened Pieces
  import opened SwarmModel
  import opened SwarmSteps
  import opened SwarmLink
  import opened SwarmMoves
  import opened SwarmInvariant
  import opened SwarmShared
  import opened SwarmRuns
  import opened SwarmSleep

  /** Session x has nothing to do: it waits for y, or for messages, or is over. */
  predicate Waits(x: Session, y: Session) {
    || (x.pc.Snapped? && y.pc.Fresh?)
    || ((x.pc.Idle? || x.pc.AwaitTd?) && x.eq == [] && y.out == [])
    || (x.pc.Ended? && y.out == [])
  }

  /** A session that does not wait can move, whatever its program counter. */
  lemma NextMove(c: Config, op: seq<Status>, oq: seq<Status>, x: Session, y: Session, s: Sid) returns (l: Step)
    requires Both(c, op, oq, x, y) && !Waits(x, y)
    ensures l.s == s && !l.Tick? && CanMove(c, x, y, op, l)
    ensures l.AckHave? ==> x.pc.Telling? && l.t in x.pc.todo
    ensures x.pc.Sleeping? <==> l.Wake?
  {
    hide Both;
    match x.pc
    case Fresh => l := TakeSnapshot(s);
    case Snapped =>
      l := RecvBitfield(s);
      BitfieldDue(c, op, oq, x, y);
      BitfieldInTurn(c, op, oq, x, y);
    case SetupCheck(_) => l := SayInterest(s);
    case BcastCheck => l := CheckAfterBcast(s);
    case HaveCheck => l := CheckAfterHave(s);
    case Asking =>
      if NothingWanted(x.view, op) {
        l := NoClaim(s);
      } else {
        var i :| 0 <= i < |x.view| && Wanted(x.view, op, i);
        l := Claim(s, i);
      }
    case Claimed(_) => l := SendRequest(s);
    case Saving(_, _) =>
      l := WriteDisk(s);
      GoodSave(c, op, oq, x, y);
    case Saved(_) =>
      l := Step.SetOwned(s);
      SavingInRange(c, op, oq, x, y);
    case Telling(_, todo) =>
      if todo == {} {
        l := EndBroadcast(s);
      } else {
        var t :| t in todo;
        l := AckHave(s, t);
      }
    case Sleeping => l := Wake(s);
    case Draining => l := if x.eq == [] then SendTearDown(s) else DrainOne(s);
    case _ =>
      if x.pc.Idle? && x.eq != [] {
        l := Dispatch(s);
        NoBadEvent(c, op, oq, x, y);
      } else if x.pc.AwaitTd? && x.eq != [] {
        l := AwaitOne(s);
      } else {
        l := Scan(s);
        BitfieldInTurn(c, op, oq, x, y);
      }
  }

  lemma BitfieldDue(c: Config, op: seq<Status>, oq: seq<Status>, x: Session, y: Session)
    requires Both(c, op, oq, x, y) && x.pc.Snapped? && !y.pc.Fresh?
    ensures y.out != []
  {
  }

  /** Broadcasts are addressed to sessions of the own peer. */
  ghost predicate TodoOk(st: State) {
    forall s :: s in st.ses && st.ses[s].pc.Telling? ==> st.ses[s].pc.todo <= SessionsOf(st, s.me)
  }

  lemma TodoStep(c: Config, st: State, l: Step)
    requires WellFormed(c, st) && Enabled(c, st, l) && TodoOk(st)
    ensures TodoOk(Apply(c, st, l))
  {
    hide CanMove, Moved, Apply;
    PcElsewhere(c, st, l);
    StepMoves(c, st, l);
    var st0 := AckedState(st, l);
    MovedTells(c, st0.ses[l.s], st0.ses[Rev(l.s)], st.own[l.s.me], st.disk[l.s.me], SessionsOf(st, l.s.me), l);
    assert forall p :: SessionsOf(Apply(c, st, l), p) == SessionsOf(st, p);
  }

  lemma {:induction false} RunTodo(c: Config, sts: seq<State>, ls: seq<Step>, n: nat)
    requires IsFreeRun(c, sts, ls) && n <= |ls|
    ensures TodoOk(sts[n])
  {
    if n > 0 {
      hide Enabled, Apply, Init, TodoOk;
      RunTodo(c, sts, ls, n - 1);
      TodoStep(c, sts[n - 1], ls[n - 1]);
    }
  }

  /** Nothing can move any more, timers apart. */
  ghost predicate Finished(c: Config, st: State)
    requires WellFormed(c, st)
  {
    forall l: Step :: Enabled(c, st, l) && Rested(st, l) ==> l.Tick?
  }

  /** In a finished state every session waits: a broadcast that keeps a session asleep could go on. */
  lemma AllWait(c: Config, st: State, s: Sid)
    requires Inv(c, st) && TodoOk(st) && Finished(c, st) && s in st.ses && Rev(s) in st.ses
    ensures Waits(st.ses[s], st.ses[Rev(s)])
  {
    hide Links, Complete, Unique, Backed, DiskOk, CanMove, Both, Waits;
    if !Waits(st.ses[s], st.ses[Rev(s)]) {
      BothOf(c, st, s);
      var l := NextMove(c, st.own[s.me], st.own[s.other], st.ses[s], st.ses[Rev(s)], s);
      assert l.AckHave? ==> l.t in SessionsOf(st, s.me);
      assert Enabled(c, st, l) && !Rested(st, l);
      var i :| Pending(st, s, i);
      var t :| Tells(st, t, s, i);
      TellerGoesOn(c, st, t, s);
    }
  }

  lemma TellerGoesOn(c: Config, st: State, t: Sid, r: Sid)
    requires WellFormed(c, st) && TodoOk(st) && t in st.ses && st.ses[t].pc.Telling? && r in st.ses[t].pc.todo
    ensures !Finished(c, st)
  {
    assert r in SessionsOf(st, t.me);
    assert Enabled(c, st, AckHave(t, r)) && Rested(st, AckHave(t, r));
  }

  /** A closed session does not wait for long: its TearDown or that of the other end is still under way. */
  lemma NobodyAwaits(c: Config, op: seq<Status>, oq: seq<Status>, x: Session, y: Session)
    requires Both(c, op, oq, x, y) && Waits(x, y) && Waits(y, x)
    ensures !x.pc.AwaitTd? && !x.pc.Snapped?
    ensures x.pc.Idle? ==> y.pc.Idle?
  {
  }

  /** On a link of which both ends wait, with nothing pending at either peer. */
  lemma WaitingPair(c: Config, op: seq<Status>, oq: seq<Status>, x: Session, y: Session)
    requires Both(c, op, oq, x, y) && Waits(x, y) && Waits(y, x)
    requires forall i :: Has(oq, i) ==> Announced(x, y, i)
    requires forall i :: Has(op, i) ==> Announced(y, x, i)
    ensures x.pc.Ended? || (x.pc.Idle? && x.eq == [] && !(All(op) && All(oq)))
  {
    NobodyAwaits(c, op, oq, x, y);
    if x.pc.Idle? && All(op) && All(oq) {
      forall i | 0 <= i < c.N() ensures x.view[i] == Owned && Knows(y, x, i) {
        assert Has(oq, i) && Has(op, i);
      }
      SettledPair(c, op, oq, x, y);
    }
  }

  lemma NothingPending(c: Config, st: State, s: Sid)
    requires Inv(c, st) && TodoOk(st) && Finished(c, st) && s in st.ses && Rev(s) in st.ses
    ensures forall i :: Has(st.own[s.me], i) ==> Announced(st.ses[Rev(s)], st.ses[s], i)
  {
    AllWait(c, st, s);
    hide Links, Unique, Backed, DiskOk, Announced;
    forall i | Has(st.own[s.me], i) ensures Announced(st.ses[Rev(s)], st.ses[s], i) {
      if Pending(st, s, i) {
        var t :| Tells(st, t, s, i);
        TellerGoesOn(c, st, t, s);
      }
    }
  }

  /**
   * No deadlock: when nothing but a timer can move, each session has ended, or idles with an empty queue on a link
   * whose peers are not both complete.  In particular, once all peers are complete every session has ended.
   */
  lemma FinishedMeansEnded(c: Config, sts: seq<State>, ls: seq<Step>, s: Sid)
    requires IsFreeRun(c, sts, ls) && AllRested(sts, ls) && s in sts[|ls|].ses
    requires WellFormed(c, sts[|ls|]) && Finished(c, sts[|ls|])
    ensures var st := sts[|ls|];
      || st.ses[s].pc.Ended?
      || (st.ses[s].pc.Idle? && st.ses[s].eq == [] && !(All(st.own[s.me]) && All(st.own[s.other])))
  {
    var st, r := sts[|ls|], Rev(s);
    hide IsFreeRun, AllRested, Finished, TodoOk, Waits, Announced, Both, Links, Complete, Unique, Backed, DiskOk;
    RestedInv(c, sts, ls, |ls|);
    RunTodo(c, sts, ls, |ls|);
    BothOf(c, st, s);
    assert Rev(r) == s && r in st.ses && r.me == s.other;
    AllWait(c, st, s);
    AllWait(c, st, r);
    NothingPending(c, st, s);
    NothingPending(c, st, r);
    WaitingPair(c, st.own[s.me], st.own[s.other], st.ses[s], st.ses[r]);
  }
}
