/** The life of one piece at one peer, and what it says about the traffic of a whole run. */
module SwarmTraffic {
  import opened Pieces
  import opened SwarmModel
  import opened SwarmSteps
  import opened SwarmLink
  import opened SwarmMoves
  import opened SwarmInvariant
  import opened SwarmSafety
  import opened SwarmShared
  import opened SwarmRuns

  predicate IsClaiming(x: Session, i: int) { x.pc == Claimed(i) }

  predicate IsSaving(x: Session, i: int) { (x.pc.Saving? || x.pc.Saved?) && x.pc.i == i }

  ghost predicate AtClaim(st: State, p: Peer, i: int) {
    exists s :: s in st.ses && s.me == p && IsClaiming(st.ses[s], i)
  }

  ghost predicate AtSave(st: State, p: Peer, i: int) {
    exists s :: s in st.ses && s.me == p && IsSaving(st.ses[s], i)
  }

  /** 0 absent, 1 claimed, 2 asked for, 3 arrived, 4 owned. */
  ghost function Phase(st: State, p: Peer, i: int): nat
    requires p in st.own && 0 <= i < |st.own[p]|
  {
    match st.own[p][i]
    case Absent => 0
    case Owned => 4
    case Requested => if AtClaim(st, p, i) then 1 else if AtSave(st, p, i) then 3 else 2
  }

  /**
   * The phase that step l takes piece i of peer p to: a claim, a Request sent, a Piece received,
   * a piece completed; 0 if the step does none of these.
   */
  function Reaches(st: State, l: Step, p: Peer, i: int): nat
    requires l.s in st.ses
  {
    var x := st.ses[l.s];
    if l.s.me != p then 0
    else if l.Claim? && l.i == i then 1
    else if l.SendRequest? && IsClaiming(x, i) then 2
    else if l.Dispatch? && x.eq != [] && x.eq[0].Net? && x.eq[0].m.Piece? && x.eq[0].m.i == i then 3
    else if l.SetOwned? && x.pc == Saved(i) then 4
    else 0
  }

  // ---------- what a step does to the program counters and the bitfield ----------

  /** Nothing that matters to piece i changes, except at session s. */
  ghost predicate Elsewhere(st: State, st': State, s: Sid, i: int) {
    && st'.ses.Keys == st.ses.Keys
    && forall t :: t in st.ses && t != s ==>
         IsClaiming(st'.ses[t], i) == IsClaiming(st.ses[t], i) && IsSaving(st'.ses[t], i) == IsSaving(st.ses[t], i)
  }

  /** The other sessions stay where they stand: at most their queues and wires change. */
  lemma StepElsewhere(c: Config, st: State, l: Step, i: int)
    requires WellFormed(c, st) && Enabled(c, st, l)
    ensures Elsewhere(st, Apply(c, st, l), l.s, i)
  {
    hide Apply;
    PcElsewhere(c, st, l);
  }

  /** What one session's move does to its own part in the life of piece i. */
  lemma MovedPc(c: Config, x: Session, y: Session, own: seq<Status>, disk: seq<Data>, all: set<Sid>, l: Step, i: int)
    requires |own| == |disk| == |x.view| == c.N() && CanMove(c, x, y, own, l)
    ensures var x' := Moved(c, x, y, own, disk, all, l);
      && IsClaiming(x', i) == (if l.Claim? then l.i == i else !l.SendRequest? && IsClaiming(x, i))
      && IsSaving(x', i) ==
         (if l.Dispatch? && x.eq[0].Net? && x.eq[0].m.Piece? then x.eq[0].m.i == i
          else !l.SetOwned? && IsSaving(x, i))
  {
    hide Wanted, NothingWanted, All;
  }

  /** A piece at the hand of some session has no token at any other session of the peer. */
  lemma OnlyHolder(c: Config, st: State, s: Sid, i: int)
    requires Inv(c, st) && s in st.ses && Tok(c, st, s, i) >= 1
    ensures 0 <= i < c.N() && st.own[s.me][i] == Requested
    ensures forall t :: t in st.ses && t.me == s.me && t != s ==>
              !IsClaiming(st.ses[t], i) && !IsSaving(st.ses[t], i)
  {
    hide Links, Complete, Unique, Backed, DiskOk, Tokens, IsClaiming, IsSaving;
    TokenMeansRequested(c, st, s, i);
    forall t | t in st.ses && t.me == s.me && t != s
      ensures !IsClaiming(st.ses[t], i) && !IsSaving(st.ses[t], i)
    {
      OthersHoldNone(c, st, s, t, i);
      HandHolds(st.ses[t], st.ses[Rev(t)], i);
    }
  }

  lemma HandHolds(x: Session, y: Session, i: int)
    ensures IsClaiming(x, i) || IsSaving(x, i) ==> Tokens(x, y, i) >= 1
  {
  }

  lemma QueuedIsAlone(c: Config, st: State, s: Sid, i: int)
    requires Inv(c, st) && s in st.ses
    requires var x := st.ses[s];
      IsClaiming(x, i) || IsSaving(x, i) || (x.eq != [] && x.eq[0].Net? && x.eq[0].m.Piece? && x.eq[0].m.i == i)
    ensures Tok(c, st, s, i) == 1
    ensures var x := st.ses[s];
      x.eq != [] && x.eq[0].Net? && x.eq[0].m.Piece? && x.eq[0].m.i == i ==> !IsClaiming(x, i) && !IsSaving(x, i)
  {
    TokenMeansRequested(c, st, s, i);
  }

  /** What a step does to the claims and the savings of piece i. */
  lemma PeerPcs(c: Config, st: State, l: Step, i: int)
    requires Inv(c, st) && Enabled(c, st, l)
    ensures var st', x := Apply(c, st, l), st.ses[l.s];
      && Elsewhere(st, st', l.s, i)
      && st'.own == st.own[l.s.me := OwnAfter(st.own[l.s.me], x, l)]
      && IsClaiming(st'.ses[l.s], i) == (if l.Claim? then l.i == i else !l.SendRequest? && IsClaiming(x, i))
      && IsSaving(st'.ses[l.s], i) ==
         (if l.Dispatch? && x.eq != [] && x.eq[0].Net? && x.eq[0].m.Piece? then x.eq[0].m.i == i
          else !l.SetOwned? && IsSaving(x, i))
  {
    hide Link, Links, Complete, Unique, Backed, DiskOk, Moved, Apply;
    StepElsewhere(c, st, l, i);
    StepMoves(c, st, l);
    var s, st0 := l.s, AckedState(st, l);
    MovedPc(c, st0.ses[s], st0.ses[Rev(s)], st.own[s.me], st.disk[s.me], SessionsOf(st, s.me), l, i);
  }

  /** Each piece of each peer goes through the five phases in order, driven by exactly these steps. */
  lemma PhaseStep(c: Config, st: State, l: Step, p: Peer, i: int)
    requires Inv(c, st) && Enabled(c, st, l) && p in st.own && 0 <= i < c.N()
    ensures var st', k := Apply(c, st, l), Reaches(st, l, p, i);
      && p in st'.own && |st'.own[p]| == c.N()
      && if k > 0 then Phase(st, p, i) == k - 1 && Phase(st', p, i) == k
         else Phase(st', p, i) == Phase(st, p, i)
  {
    hide Link, Links, Complete, Unique, Backed, DiskOk, Tok, Apply, NothingWanted, All, BadEvent;
    var s, x := l.s, st.ses[l.s];
    PeerPcs(c, st, l, i);
    if s.me == p && (IsClaiming(x, i) || IsSaving(x, i) || Reaches(st, l, p, i) == 3) {
      QueuedIsAlone(c, st, s, i);
      OnlyHolder(c, st, s, i);
    }
  }

  // ---------- whole runs ----------

  /** How many steps of the run take piece i of peer p to phase k. */
  ghost function Count(c: Config, sts: seq<State>, ls: seq<Step>, n: nat, p: Peer, i: int, k: nat): nat
    requires IsRun(c, sts, ls) && n <= |ls|
  {
    if n == 0 then 0
    else Count(c, sts, ls, n - 1, p, i, k) + (if Reaches(sts[n - 1], ls[n - 1], p, i) == k then 1 else 0)
  }

  predicate Bit(b: bool, n: nat) { n == if b then 1 else 0 }

  /**
   * Over any run, each step in the life of a piece happens at most once for each peer, and exactly if the
   * run takes the piece across it: one claim, one Request sent, one Piece received, one completion.
   */
  lemma {:induction false} TrafficIsBounded(c: Config, sts: seq<State>, ls: seq<Step>, n: nat, p: Peer, i: int, k: nat)
    requires IsRun(c, sts, ls) && n <= |ls| && p in sts[0].own && 0 <= i < c.N() && 1 <= k <= 4
    ensures p in sts[n].own && |sts[n].own[p]| == c.N() && |sts[0].own[p]| == c.N()
    ensures Bit(Phase(sts[0], p, i) < k <= Phase(sts[n], p, i), Count(c, sts, ls, n, p, i, k))
    ensures Phase(sts[0], p, i) <= Phase(sts[n], p, i)
  {
    hide Inv, Enabled, Apply, Phase, Reaches;
    RunInv(c, sts, ls, n);
    InvSizes(c, sts[0], p);
    if n > 0 {
      TrafficIsBounded(c, sts, ls, n - 1, p, i, k);
      RunInv(c, sts, ls, n - 1);
      PhaseStep(c, sts[n - 1], ls[n - 1], p, i);
    }
  }

  lemma InvSizes(c: Config, st: State, p: Peer)
    requires WellFormed(c, st) && p in st.own
    ensures |st.own[p]| == c.N()
  {
  }

  /** A piece that a peer has at the start is never claimed, asked for, received or completed there. */
  lemma SeedsReceiveNothing(c: Config, sts: seq<State>, ls: seq<Step>, p: Peer, i: int, k: nat)
    requires IsRun(c, sts, ls) && p in sts[0].own && 0 <= i < c.N() && 1 <= k <= 4
    requires Has(sts[0].own[p], i)
    ensures Count(c, sts, ls, |ls|, p, i, k) == 0
  {
    TrafficIsBounded(c, sts, ls, |ls|, p, i, k);
  }

  // ---------- the traffic of the whole swarm ----------

  /** Step l is a claim (k is 1), sends a Request (2), receives a Piece (3) or completes a piece (4). */
  ghost predicate Acts(c: Config, st: State, l: Step, k: nat)
    requires l.s in st.ses
  {
    exists p, i :: p in st.own && 0 <= i < c.N() && Reaches(st, l, p, i) == k
  }

  ghost function Actions(c: Config, sts: seq<State>, ls: seq<Step>, n: nat, k: nat): nat
    requires IsRun(c, sts, ls) && n <= |ls|
  {
    if n == 0 then 0
    else Actions(c, sts, ls, n - 1, k) + (if Acts(c, sts[n - 1], ls[n - 1], k) then 1 else 0)
  }

  ghost predicate Passed(st0: State, st: State, k: nat, p: Peer, i: int)
    requires p in st0.own && 0 <= i < |st0.own[p]|
  {
    p in st.own && i < |st.own[p]| && Phase(st0, p, i) < k <= Phase(st, p, i)
  }

  /** The pieces of peers that have come to phase k since the start. */
  ghost function AllPassed(st0: State, st: State, k: nat): set<(Peer, int)> {
    set p, i | p in st0.own && 0 <= i < |st0.own[p]| && Passed(st0, st, k, p, i) :: (p, i)
  }

  /** What the peers lack at the start, piece by piece. */
  ghost function Lacking(st0: State): set<(Peer, int)> {
    set p, i | p in st0.own && 0 <= i < |st0.own[p]| && st0.own[p][i] == Absent :: (p, i)
  }

  /** No piece of any peer has gone back since state st0. */
  ghost predicate Onward(c: Config, st0: State, st: State) {
    && WellFormed(c, st0) && WellFormed(c, st) && st0.own.Keys == st.own.Keys
    && forall p, i :: p in st0.own && 0 <= i < c.N() ==> Phase(st0, p, i) <= Phase(st, p, i)
  }

  lemma OnwardSizes(c: Config, st0: State, st: State, l: Step)
    requires Onward(c, st0, st) && Enabled(c, st, l)
    ensures WellFormed(c, st) && st0.own.Keys == st.own.Keys && l.s in st.ses
    ensures forall p :: p in st0.own ==> |st0.own[p]| == |st.own[p]| == c.N()
  {
  }

  /** A step takes piece i of peer p to phase k, or leaves it on the side of phase k where it is. */
  lemma PassOne(c: Config, st0: State, st: State, l: Step, k: nat, p: Peer, i: int)
    requires Inv(c, st) && Enabled(c, st, l) && Onward(c, st0, st) && 1 <= k <= 4
    requires p in st0.own && 0 <= i < |st0.own[p]| && l.s in st.ses
    ensures Reaches(st, l, p, i) != k ==> (Passed(st0, Apply(c, st, l), k, p, i) <==> Passed(st0, st, k, p, i))
    ensures Reaches(st, l, p, i) == k ==> Passed(st0, Apply(c, st, l), k, p, i) && !Passed(st0, st, k, p, i)
  {
    hide Inv, Enabled, Apply, Phase, Reaches, WellFormed;
    OnwardSizes(c, st0, st, l);
    PhaseStep(c, st, l, p, i);
  }

  lemma OnePiece(st: State, l: Step, p: Peer, i: int, q: Peer, j: int)
    requires l.s in st.ses && Reaches(st, l, p, i) > 0 && Reaches(st, l, q, j) > 0
    ensures p == q && i == j
  {
  }

  lemma OneMore(st0: State, st: State, st': State, k: nat, p: Peer, i: int)
    requires p in st0.own && 0 <= i < |st0.own[p]| && Passed(st0, st', k, p, i) && !Passed(st0, st, k, p, i)
    requires forall q, j :: q in st0.own && 0 <= j < |st0.own[q]| && !(q == p && j == i) ==>
               (Passed(st0, st', k, q, j) <==> Passed(st0, st, k, q, j))
    ensures |AllPassed(st0, st', k)| == |AllPassed(st0, st, k)| + 1
  {
    hide Passed;
    assert AllPassed(st0, st', k) == AllPassed(st0, st, k) + {(p, i)};
  }

  /** A step brings at most one piece of one peer to phase k. */
  lemma PassStep(c: Config, st0: State, st: State, l: Step, k: nat)
    requires Inv(c, st) && Enabled(c, st, l) && Onward(c, st0, st) && 1 <= k <= 4
    ensures |AllPassed(st0, Apply(c, st, l), k)| == |AllPassed(st0, st, k)| + (if Acts(c, st, l, k) then 1 else 0)
  {
    hide Inv, Enabled, Apply, Phase, Reaches, Onward, WellFormed, Passed;
    OnwardSizes(c, st0, st, l);
    var st' := Apply(c, st, l);
    forall q, j | q in st0.own && 0 <= j < |st0.own[q]|
      ensures Reaches(st, l, q, j) != k ==> (Passed(st0, st', k, q, j) <==> Passed(st0, st, k, q, j))
    {
      PassOne(c, st0, st, l, k, q, j);
    }
    if Acts(c, st, l, k) {
      var p, i :| p in st.own && 0 <= i < c.N() && Reaches(st, l, p, i) == k;
      PassOne(c, st0, st, l, k, p, i);
      forall q, j | Reaches(st, l, q, j) == k ensures q == p && j == i {
        OnePiece(st, l, p, i, q, j);
      }
      OneMore(st0, st, st', k, p, i);
    } else {
      assert AllPassed(st0, st', k) == AllPassed(st0, st, k);
    }
  }

  lemma NoneYet(c: Config, st: State, k: nat)
    ensures AllPassed(st, st, k) == {}
  {
  }

  lemma OnlyLacking(c: Config, st0: State, st: State, k: nat)
    requires Init(c, st0) && 1 <= k <= 4
    ensures |AllPassed(st0, st, k)| <= |Lacking(st0)|
  {
    var passed, lacking := AllPassed(st0, st, k), Lacking(st0);
    forall p, i | p in st0.own && 0 <= i < |st0.own[p]| && Passed(st0, st, k, p, i) ensures st0.own[p][i] == Absent {
      assert |st0.own[p]| == c.N();
    }
    assert lacking == passed + (lacking - passed);
  }

  lemma RunIsOnward(c: Config, sts: seq<State>, ls: seq<Step>, n: nat)
    requires IsRun(c, sts, ls) && n <= |ls|
    ensures Onward(c, sts[0], sts[n])
  {
    hide Enabled, Apply, Phase, Links, Complete, Unique, Backed, DiskOk;
    RunInv(c, sts, ls, n);
    SamePeers(c, sts, ls, n);
    forall p, i | p in sts[0].own && 0 <= i < c.N()
      ensures Phase(sts[0], p, i) <= Phase(sts[n], p, i)
    {
      TrafficIsBounded(c, sts, ls, n, p, i, 1);
    }
  }

  lemma {:induction false} SamePeers(c: Config, sts: seq<State>, ls: seq<Step>, n: nat)
    requires IsRun(c, sts, ls) && n <= |ls|
    ensures sts[n].own.Keys == sts[0].own.Keys
  {
    if n > 0 {
      hide Enabled, Apply, Init;
      SamePeers(c, sts, ls, n - 1);
      StepKeepsPeers(c, sts[n - 1], ls[n - 1]);
    }
  }

  lemma StepKeepsPeers(c: Config, st: State, l: Step)
    requires WellFormed(c, st) && Enabled(c, st, l)
    ensures Apply(c, st, l).own.Keys == st.own.Keys
  {
    hide Apply;
    StepMoves(c, st, l);
  }

  /**
   * In the whole swarm there are, over any run, exactly as many claims, Requests, received Pieces and
   * completions as pieces have come that far, and never more than were lacking at the start.
   */
  lemma {:induction false} TransfersAreBounded(c: Config, sts: seq<State>, ls: seq<Step>, n: nat, k: nat)
    requires IsRun(c, sts, ls) && n <= |ls| && 1 <= k <= 4
    ensures Actions(c, sts, ls, n, k) == |AllPassed(sts[0], sts[n], k)| <= |Lacking(sts[0])|
  {
    hide Inv, Init, Enabled, Apply, Acts, Onward, AllPassed, Lacking;
    OnlyLacking(c, sts[0], sts[n], k);
    if n == 0 {
      NoneYet(c, sts[0], k);
    } else {
      TransfersAreBounded(c, sts, ls, n - 1, k);
      RunInv(c, sts, ls, n - 1);
      RunIsOnward(c, sts, ls, n - 1);
      PassStep(c, sts[0], sts[n - 1], ls[n - 1], k);
    }
  }

  // ---------- the completion event ----------

  /** The steps at which peer p logs that it has the complete file. */
  ghost predicate Logs(st: State, l: Step, p: Peer)
    requires l.s in st.ses && l.s.me in st.own
  {
    l.SetOwned? && l.s.me == p && All(OwnAfter(st.own[p], st.ses[l.s], l))
  }

  ghost function LogCount(c: Config, sts: seq<State>, ls: seq<Step>, n: nat, p: Peer): nat
    requires IsRun(c, sts, ls) && n <= |ls|
  {
    if n == 0 then 0
    else LogCount(c, sts, ls, n - 1, p) + (if Logs(sts[n - 1], ls[n - 1], p) then 1 else 0)
  }

  lemma LogStep(c: Config, st: State, l: Step, p: Peer)
    requires Inv(c, st) && Enabled(c, st, l) && p in st.own
    ensures p in Apply(c, st, l).own
    ensures Logs(st, l, p) ==> !All(st.own[p]) && All(Apply(c, st, l).own[p])
    ensures !Logs(st, l, p) ==> (All(Apply(c, st, l).own[p]) <==> All(st.own[p]))
  {
    hide Link, Links, Complete, Unique, Backed, DiskOk, Tok, Moved;
    StepMoves(c, st, l);
    if l.SetOwned? && l.s.me == p {
      SavedHolds(c, st, l.s);
      TokenMeansRequested(c, st, l.s, st.ses[l.s].pc.i);
    }
    if l.Claim? && l.s.me == p {
      assert st.own[p][l.i] == Absent && Apply(c, st, l).own[p][l.i] == Requested;
    }
  }

  /**
   * The completion of the file is logged at most once in a run by a peer that starts without it, and
   * exactly if the peer completes; a peer that has it from the start logs it when it is created.
   */
  lemma {:induction false} CompletionLoggedOnce(c: Config, sts: seq<State>, ls: seq<Step>, n: nat, p: Peer)
    requires IsRun(c, sts, ls) && n <= |ls| && p in sts[0].own
    ensures p in sts[n].own
    ensures Bit(!All(sts[0].own[p]) && All(sts[n].own[p]), LogCount(c, sts, ls, n, p))
    ensures All(sts[0].own[p]) ==> All(sts[n].own[p])
  {
    hide Inv, Enabled, Apply, Logs, All;
    if n > 0 {
      CompletionLoggedOnce(c, sts, ls, n - 1, p);
      RunInv(c, sts, ls, n - 1);
      LogStep(c, sts[n - 1], ls[n - 1], p);
    }
  }

  /** A peer that is complete from the start never saves a piece: its file, opened for reading, is never written. */
  lemma SeedsNeverSave(c: Config, sts: seq<State>, ls: seq<Step>, n: nat, s: Sid)
    requires IsRun(c, sts, ls) && n <= |ls| && s in sts[n].ses && s.me in sts[0].own && All(sts[0].own[s.me])
    ensures !sts[n].ses[s].pc.Saving? && !sts[n].ses[s].pc.Saved?
  {
    hide Init, Enabled, Apply, Links, Complete, Unique, Backed, DiskOk;
    CompletionLoggedOnce(c, sts, ls, n, s.me);
    RunInv(c, sts, ls, n);
    var pc := sts[n].ses[s].pc;
    if pc.Saving? || pc.Saved? {
      QueuedIsAlone(c, sts[n], s, pc.i);
      TokenMeansRequested(c, sts[n], s, pc.i);
    }
  }
}
