/** A path of steps taken by one session thread is a stretch of a run of the swarm. */
module SessionRuns {
  import opened Pieces
  import opened SwarmModel
  import opened SwarmSteps
  import opened SwarmRuns
  import opened SwarmSleep
  import opened SessionThread

  /** The swarm is in a state in which session a.id, its bitfield and its disk are as a says. */
  ghost predicate Fits(c: Config, st: State, a: Whole) {
    && WellFormed(c, st) && a.id in st.ses
    && st.ses[a.id] == a.x && st.own[a.id.me] == a.own && st.disk[a.id.me] == a.disk
    && (a.x.pc.Telling? ==> a.x.pc.todo <= SessionsOf(st, a.id.me))
  }

  lemma SoloCan(c: Config, x: Session, y: Session, own: seq<Status>, disk: seq<Data>, all: set<Sid>, l: Step)
    requires Solo(l) && |own| == |disk| == |x.view| == c.N() && CanMove(c, x, x, own, l)
    ensures CanMove(c, x, y, own, l)
    ensures Moved(c, x, y, own, disk, all, l) == Moved(c, x, x, own, disk, all, l)
    ensures Read(y, l) == y
    ensures var x' := Moved(c, x, x, own, disk, all, l);
      && |x'.view| == |x.view|
      && (x'.pc.Telling? && !l.SetOwned? ==> x.pc.Telling? && x'.pc.todo <= x.pc.todo)
      && (l.SetOwned? ==> x'.pc.Telling? && x'.pc.todo == all)
  {
    hide Wanted, NothingWanted, All;
  }

  /** The session as its own ackHave leaves it. */
  lemma AckedCan(c: Config, x: Session, own: seq<Status>, l: Step)
    requires CanMove(c, x, x, own, l) && Solo(l) && l.AckHave?
    ensures x.pc.Telling? && l.t in x.pc.todo
    ensures var x0 := Acked(x, x.pc.i); CanMove(c, x0, x0, own, l) && x0.pc == x.pc && x0.view == x.view
  {
  }

  lemma StepEnabled(c: Config, st: State, a: Whole, l: Step)
    requires Fits(c, st, a) && Can(c, a, l)
    ensures Enabled(c, st, l)
    ensures var x0, y := AckedState(st, l).ses[l.s], AckedState(st, l).ses[Rev(l.s)];
      && x0 == (if l.AckHave? && l.t == l.s then Acked(a.x, a.x.pc.i) else a.x)
      && CanMove(c, x0, x0, a.own, l) && y == st.ses[Rev(l.s)] && |x0.view| == c.N() && x0.pc == a.x.pc
  {
    hide CanMove;
    SoloCan(c, a.x, st.ses[Rev(l.s)], a.own, a.disk, {}, l);
    if l.AckHave? {
      AckedCan(c, a.x, a.own, l);
    }
  }

  /** Each step of a path is a step of the swarm with the same outcome. */
  lemma StepFits(c: Config, st: State, a: Whole, l: Step)
    requires Fits(c, st, a) && Can(c, a, l)
    ensures Enabled(c, st, l)
    ensures Fits(c, Apply(c, st, l), After(c, a, SessionsOf(st, a.id.me), l))
    ensures SessionsOf(Apply(c, st, l), a.id.me) == SessionsOf(st, a.id.me)
    ensures After(c, a, SessionsOf(st, a.id.me), l).id == a.id
  {
    var s, all := l.s, SessionsOf(st, a.id.me);
    StepEnabled(c, st, a, l);
    StepMoves(c, st, l);
    var x0, y := AckedState(st, l).ses[s], st.ses[Rev(s)];
    SoloCan(c, x0, y, a.own, a.disk, all, l);
    hide CanMove, Moved, Acked, AckedState, Enabled, SessionsOf;
    assert Apply(c, st, l).ses[s] == After(c, a, all, l).x;
    StepKeepsSizes(c, st, l);
    SamePartners(c, st, l);
  }

  lemma SamePartners(c: Config, st: State, l: Step)
    requires WellFormed(c, st) && Enabled(c, st, l)
    ensures SessionsOf(Apply(c, st, l), l.s.me) == SessionsOf(st, l.s.me)
    ensures Apply(c, st, l).disk == st.disk[l.s.me := DiskAfter(st.disk[l.s.me], st.ses[l.s], l)]
  {
    hide CanMove, Moved;
    assert Apply(c, st, l).ses.Keys == st.ses.Keys by { PcElsewhere(c, st, l); }
  }

  /** A run of the swarm whose sleeps are all long enough has come to state st. */
  ghost predicate RunsTo(c: Config, sts: seq<State>, ls: seq<Step>, st: State) {
    IsFreeRun(c, sts, ls) && AllRested(sts, ls) && st == sts[|ls|]
  }

  /** It goes on with one step. */
  lemma RunsOn(c: Config, sts: seq<State>, ls: seq<Step>, st: State, l: Step)
    requires RunsTo(c, sts, ls, st) && WellFormed(c, st) && Enabled(c, st, l) && Rested(st, l)
    ensures RunsTo(c, sts + [Apply(c, st, l)], ls + [l], Apply(c, st, l))
  {
    hide Enabled, Apply, Init, Rested;
  }

  /**
   * A run of the swarm that has come to a state with session a.id as a says goes on with the steps of
   * the path, and comes to a state with that session as b says.  So what holds in every state of every
   * run holds while the program of the class SessionLoop works, and after it.
   */
  lemma {:induction false} PathExtendsRun(c: Config, sts: seq<State>, ls: seq<Step>, st: State,
                                          a: Whole, path: seq<Step>, b: Whole)
    returns (sts': seq<State>, st': State)
    requires RunsTo(c, sts, ls, st) && Fits(c, st, a)
    requires Path(c, a, SessionsOf(st, a.id.me), path, b)
    ensures RunsTo(c, sts', ls + path, st') && sts <= sts' && Fits(c, st', b)
    decreases |path|
  {
    hide Fits, Can, After, Enabled, Apply, RunsTo, SessionsOf;
    if path == [] {
      sts', st' := sts, st;
      assert ls + path == ls;
    } else {
      var l := path[0];
      StepFits(c, st, a, l);
      SoloIsRested(c, st, a, l);
      var st1 := Apply(c, st, l);
      RunsOn(c, sts, ls, st, l);
      sts', st' := PathExtendsRun(c, sts + [st1], ls + [l], st1, After(c, a, SessionsOf(st, a.id.me), l), path[1..], b);
      assert (ls + [l]) + path[1..] == ls + path;
    }
  }

  lemma SoloIsRested(c: Config, st: State, a: Whole, l: Step)
    requires Fits(c, st, a) && Can(c, a, l)
    ensures WellFormed(c, st) && Rested(st, l)
  {
  }

  /** In a swarm, the condition under which a turn of the event loop does not panic is always met. */
  lemma LoopNeverPanics(c: Config, sts: seq<State>, ls: seq<Step>, n: nat, st: State, a: Whole)
    requires Visits(c, sts, ls, n, st) && Fits(c, st, a) && a.x.pc.Idle? && a.x.eq != []
    ensures !Fatal(c, a.own, a.x.eq[0])
  {
    hide IsRun, BadEvent;
    NeverPanics(c, sts, ls, n, st, a.id);
    PiecesCarryTheFile(c, sts, ls, n, st, a.id);
    assert a.x.eq[0] in a.x.eq;
  }

  /** Wherever a path has led the session from a state of a run, the next event is handled. */
  lemma PathNeverPanics(c: Config, sts: seq<State>, ls: seq<Step>, st: State, a: Whole, path: seq<Step>, b: Whole)
    requires RunsTo(c, sts, ls, st) && Fits(c, st, a)
    requires Path(c, a, SessionsOf(st, a.id.me), path, b) && b.x.pc.Idle? && b.x.eq != []
    ensures !Fatal(c, b.own, b.x.eq[0])
  {
    hide Fits, Path, Fatal, IsRun, IsFreeRun, AllRested;
    var sts', st' := PathExtendsRun(c, sts, ls, st, a, path, b);
    SleepInforms(c, sts', ls + path);
    LoopNeverPanics(c, sts', ls + path, |ls + path|, st', b);
  }

  /** The program of a session in a swarm: its event loop does not panic. */
  method RunLoop(loop: SessionLoop, ghost sts: seq<State>, ghost ls: seq<Step>, ghost st: State)
    requires loop.Valid() && (loop.pc.Idle? || loop.pc.Sleeping?)
    requires RunsTo(loop.c, sts, ls, st) && Fits(loop.c, st, loop.W())
    requires loop.Everyone() == SessionsOf(st, loop.id.me)
    modifies loop, loop.peerOwn, loop.repo, loop.selfOwn, Queues(loop.boxes)
    ensures loop.Valid() && (if loop.isDone then loop.pc.Sleeping? else loop.pc.Idle? && loop.eq.q == [])
    ensures exists sts', ls', st' :: RunsTo(loop.c, sts', ls', st') && sts <= sts' && Fits(loop.c, st', loop.W())
  {
    hide RunsTo, Fits, Fatal, SessionLoop.Valid, SessionLoop.W, SessionsOf, Path;
    ghost var a := loop.W();
    loop.WholeIs();
    var ok := loop.EventLoop();
    if !ok {
      ghost var path, b :| StopsAt(loop.c, a, loop.Everyone(), path, b);
      PathNeverPanics(loop.c, sts, ls, st, a, path, b);
      assert false;
    }
    ghost var path :| Path(loop.c, a, loop.Everyone(), path, loop.W());
    ghost var sts', st' := PathExtendsRun(loop.c, sts, ls, st, a, path, loop.W());
  }
}
