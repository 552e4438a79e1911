/**
 * The sleep before the drain, and what it is for.  A free run is one that the code allows, whatever the
 * length of the sleep.  If every sleep outlasts the broadcasts under way to its session, every TearDown is
 * sent after the other end has been told of every piece; and that is exactly what keeps a swarm safe.
 */
module SwarmSleep {
  import opened Pieces
  import opened SwarmModel
  import opened SwarmSteps
  import opened SwarmLink
  import opened SwarmMoves
  import opened SwarmInvariant
  import opened SwarmShared
  import opened SwarmRuns

  ghost predicate IsFreeRun(c: Config, sts: seq<State>, ls: seq<Step>) {
    && |sts| == |ls| + 1
    && Init(c, sts[0])
    && forall k :: 0 <= k < |ls| ==>
         WellFormed(c, sts[k]) && Enabled(c, sts[k], ls[k]) && sts[k + 1] == Apply(c, sts[k], ls[k])
  }

  /** A session wakes when no broadcast to it is under way. */
  ghost predicate Rested(st: State, l: Step) {
    l.Wake? ==> forall i :: !Pending(st, l.s, i)
  }

  /** Every sleep of the run is long enough. */
  ghost predicate AllRested(sts: seq<State>, ls: seq<Step>)
    requires |sts| == |ls| + 1
  {
    forall k :: 0 <= k < |ls| ==> Rested(sts[k], ls[k])
  }

  // ---------- long sleeps are enough ----------

  predicate Awake(x: Session) { x.pc.Draining? || x.Closed() }

  /** No broadcast is under way to a session that has slept. */
  ghost predicate Quiet(st: State) {
    forall s, i :: s in st.ses && Awake(st.ses[s]) ==> !Pending(st, s, i)
  }

  lemma MovedTells(c: Config, x: Session, y: Session, own: seq<Status>, disk: seq<Data>, all: set<Sid>, l: Step)
    requires |own| == |disk| == |x.view| == c.N() && CanMove(c, x, y, own, l)
    ensures var x' := Moved(c, x, y, own, disk, all, l);
      && (x'.pc.Telling? && !l.SetOwned? ==> x.pc.Telling? && x'.pc.i == x.pc.i && x'.pc.todo <= x.pc.todo)
      && (l.SetOwned? ==> x.pc.Saved? && x'.pc == Telling(x.pc.i, all))
      && (Awake(x') ==> Awake(x) || l.Wake?)
  {
    hide Wanted, NothingWanted, All;
  }

  /** A broadcast becomes due at one kind of step only, and a session awakes at another. */
  lemma PendingStep(c: Config, st: State, l: Step, r: Sid, i: int)
    requires WellFormed(c, st) && Enabled(c, st, l)
    ensures l.SetOwned? ==> st.ses[l.s].pc.Saved?
    ensures var st' := Apply(c, st, l);
      && st'.ses.Keys == st.ses.Keys
      && (Pending(st', r, i) ==> Pending(st, r, i) || (l.SetOwned? && r.me == l.s.me && i == st.ses[l.s].pc.i))
      && (r in st.ses && Awake(st'.ses[r]) ==> Awake(st.ses[r]) || (l.Wake? && r == l.s))
  {
    hide CanMove, Moved, Apply;
    PcElsewhere(c, st, l);
    StepMoves(c, st, l);
    var st0, st' := AckedState(st, l), Apply(c, st, l);
    MovedTells(c, st0.ses[l.s], st0.ses[Rev(l.s)], st.own[l.s.me], st.disk[l.s.me], SessionsOf(st, l.s.me), l);
    if Pending(st', r, i) {
      var t :| Tells(st', t, r, i);
      if !l.SetOwned? || t != l.s { assert Tells(st, t, r, i); }
    }
  }

  /** No session of a peer that lacks a piece is draining. */
  lemma RequestedMeansAsleep(c: Config, st: State, r: Sid, i: int)
    requires Inv(c, st) && r in st.ses && 0 <= i < c.N() && st.own[r.me][i] == Requested
    ensures !Awake(st.ses[r])
  {
    hide Links, Complete, Unique, Backed, DiskOk;
    if Awake(st.ses[r]) { BothOf(c, st, r); }
  }

  lemma QuietStep(c: Config, st: State, l: Step)
    requires Inv(c, st) && Quiet(st) && Enabled(c, st, l) && Rested(st, l)
    ensures Quiet(Apply(c, st, l))
  {
    hide Links, Complete, Unique, Backed, DiskOk, Pending, Awake, CanMove, Apply;
    forall r, i | r in Apply(c, st, l).ses && Awake(Apply(c, st, l).ses[r]) ensures !Pending(Apply(c, st, l), r, i) {
      PendingStep(c, st, l, r, i);
      if l.SetOwned? && r.me == l.s.me && i == st.ses[l.s].pc.i {
        SavedHolds(c, st, l.s);
        TokenMeansRequested(c, st, l.s, i);
        RequestedMeansAsleep(c, st, r, i);
      }
    }
  }

  /** When the queue of a draining session is empty, the peer has been sent news of every piece. */
  lemma DrainedKnowsAll(c: Config, st: State, s: Sid)
    requires Inv(c, st) && Quiet(st) && s in st.ses && st.ses[s].pc.Draining? && st.ses[s].eq == []
    ensures KnowsAll(c.N(), st.ses[Rev(s)], st.ses[s])
  {
    var x, y := st.ses[s], st.ses[Rev(s)];
    assert All(st.own[s.me]) by { BothOf(c, st, s); }
    hide Link;
    forall i | 0 <= i < c.N() ensures Knows(y, x, i) {
      assert Has(st.own[s.me], i);
      assert !Pending(st, s, i);
      assert Announced(y, x, i);
    }
  }

  lemma RestedStep(c: Config, st: State, l: Step)
    requires Inv(c, st) && Quiet(st) && Enabled(c, st, l) && Rested(st, l)
    ensures Informed(c, st, l)
    ensures Inv(c, Apply(c, st, l)) && Quiet(Apply(c, st, l))
  {
    hide Inv, Quiet, Apply, Rested;
    if l.SendTearDown? { DrainedKnowsAll(c, st, l.s); }
    StepInv(c, st, l);
    QuietStep(c, st, l);
  }

  lemma InitQuiet(c: Config, st: State)
    requires Init(c, st)
    ensures Quiet(st)
  {
  }

  lemma {:induction false} RestedInv(c: Config, sts: seq<State>, ls: seq<Step>, n: nat)
    requires IsFreeRun(c, sts, ls) && AllRested(sts, ls) && n <= |ls|
    ensures Inv(c, sts[n]) && Quiet(sts[n])
    ensures n < |ls| ==> Informed(c, sts[n], ls[n])
  {
    hide Inv, Quiet, Init, Enabled, Apply, Informed, Rested;
    if n == 0 {
      InitInv(c, sts[0]);
      InitQuiet(c, sts[0]);
    } else {
      RestedInv(c, sts, ls, n - 1);
      RestedStep(c, sts[n - 1], ls[n - 1]);
    }
    if n < |ls| { RestedStep(c, sts[n], ls[n]); }
  }

  /** If every sleep is long enough, no TearDown is sent before the other end has been told of every piece. */
  lemma SleepInforms(c: Config, sts: seq<State>, ls: seq<Step>)
    requires IsFreeRun(c, sts, ls) && AllRested(sts, ls)
    ensures IsRun(c, sts, ls)
  {
    hide Inv, Quiet, Init, Apply, Informed, AllRested;
    forall k: nat | k < |ls| ensures WellFormed(c, sts[k]) && Informed(c, sts[k], ls[k]) {
      RestedInv(c, sts, ls, k);
    }
  }
}
