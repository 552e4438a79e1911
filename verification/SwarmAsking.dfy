/**
 * Where the tokens of a session come from and go to, and what follows for a session that is not choked: it
 * has a piece under way, or it found nothing to ask for when it asked last.
 */
module SwarmAsking {
  import opened Pieces
  import opened SwarmModel
  import opened SwarmSteps
  import opened SwarmLink
  import opened SwarmMoves
  import opened SwarmArrivals
  import opened SwarmInvariant
  import opened SwarmSafety
  import opened SwarmShared
  import opened SwarmRuns

  /** A claim makes the token of its piece, a completion takes it away, and no other step makes or loses one. */
  lemma TokensStep(c: Config, st: State, l: Step, t: Sid, j: int)
    requires Inv(c, st) && Enabled(c, st, l) && Informed(c, st, l) && t in st.ses
    ensures WellFormed(c, Apply(c, st, l)) && t in Apply(c, st, l).ses
    ensures Tok(c, Apply(c, st, l), t, j) ==
            if t == l.s && l == Claim(t, j) then 1
            else if t == l.s && l.SetOwned? && st.ses[t].pc == Saved(j) then 0
            else Tok(c, st, t, j)
  {
    hide *;
    match l {
      case Claim(_, _) => ClaimTok(c, st, l, t, j);
      case SetOwned(_) => OwnedTok(c, st, l, t, j);
      case WriteDisk(_) => WriteTok(c, st, l, t, j);
      case AckHave(_, _) => AckTok(c, st, l, t, j);
      case _ =>
        MostAreLocal(l);
        LocalTok(c, st, l, t, j);
    }
  }

  lemma ClaimTok(c: Config, st: State, l: Step, t: Sid, j: int)
    requires Inv(c, st) && Enabled(c, st, l) && l.Claim? && t in st.ses
    ensures WellFormed(c, Apply(c, st, l)) && t in Apply(c, st, l).ses
    ensures Tok(c, Apply(c, st, l), t, j) == if t == l.s && j == l.i then 1 else Tok(c, st, t, j)
  {
    hide CanMove, Apply, Link, Links, Complete, Unique, Backed, DiskOk, Both, Tok, Tokens;
    ClaimPair(c, st, l);
    ClaimApply(c, st, l);
    var op', x' := st.own[l.s.me][l.i := Requested], Claimer(st, l);
    SharedWellFormed(c, st, l.s, x', op');
    SharedTokens(c, st, l.s, x', op', l.i, 1);
  }

  lemma OwnedTok(c: Config, st: State, l: Step, t: Sid, j: int)
    requires Inv(c, st) && Enabled(c, st, l) && l.SetOwned? && t in st.ses
    ensures WellFormed(c, Apply(c, st, l)) && t in Apply(c, st, l).ses
    ensures Tok(c, Apply(c, st, l), t, j) == if t == l.s && st.ses[t].pc == Saved(j) then 0 else Tok(c, st, t, j)
  {
    hide CanMove, Apply, Link, Links, Complete, Unique, Backed, DiskOk, Both, Tok, Tokens, SessionsOf;
    OwnedPair(c, st, l);
    OwnedApply(c, st, l);
    var i := st.ses[l.s].pc.i;
    var op', x' := st.own[l.s.me][i := Owned], Teller(st, l.s);
    SharedWellFormed(c, st, l.s, x', op');
    SharedTokens(c, st, l.s, x', op', i, 0);
  }

  lemma WriteTok(c: Config, st: State, l: Step, t: Sid, j: int)
    requires Inv(c, st) && Enabled(c, st, l) && l.WriteDisk? && t in st.ses
    ensures WellFormed(c, Apply(c, st, l)) && t in Apply(c, st, l).ses
    ensures Tok(c, Apply(c, st, l), t, j) == Tok(c, st, t, j)
  {
    hide Links, Complete, Unique, Backed, DiskOk, Both, Keeps, SameTokens, Tokens, BadEvent, Apply;
    WriteDiskPair(c, st, l);
    var x, y, p := st.ses[l.s], st.ses[Rev(l.s)], l.s.me;
    StepKeepsSizes(c, st, l);
    TokensWith(c, st, l.s, x.(pc := Saved(x.pc.i)), y);
    WriteApply(c, st, l);
  }

  lemma WriteApply(c: Config, st: State, l: Step)
    requires WellFormed(c, st) && Enabled(c, st, l) && l.WriteDisk?
    ensures st.ses[l.s].pc.Saving?
    ensures var x, y := st.ses[l.s], st.ses[Rev(l.s)];
      Apply(c, st, l).ses == With(st, l.s, x.(pc := Saved(x.pc.i)), y).ses
  {
  }

  lemma AckTok(c: Config, st: State, l: Step, t: Sid, j: int)
    requires Inv(c, st) && Enabled(c, st, l) && l.AckHave? && t in st.ses
    ensures WellFormed(c, Apply(c, st, l)) && t in Apply(c, st, l).ses
    ensures Tok(c, Apply(c, st, l), t, j) == Tok(c, st, t, j)
  {
    hide Link, Links, Complete, Unique, Backed, DiskOk, Both, Keeps, Tokens;
    var st0 := AckedState(st, l);
    AckedInv(c, st, l);
    AckedTok(c, st, l, t, j);
    StrikePair(c, st0, l.s, l.t);
    TokensWith(c, st0, l.s, Striker(st0.ses[l.s], l.t), st0.ses[Rev(l.s)]);
    assert Apply(c, st, l) == With(st0, l.s, Striker(st0.ses[l.s], l.t), st0.ses[Rev(l.s)]);
  }

  lemma AckedTok(c: Config, st: State, l: Step, t: Sid, j: int)
    requires Inv(c, st) && Enabled(c, st, l) && l.AckHave? && t in st.ses
    ensures WellFormed(c, AckedState(st, l)) && t in AckedState(st, l).ses
    ensures Tok(c, AckedState(st, l), t, j) == Tok(c, st, t, j)
  {
    hide Link, Links, Complete, Unique, Backed, DiskOk, Both, Keeps, Tokens;
    var xt, yt, i := st.ses[l.t], st.ses[Rev(l.t)], st.ses[l.s].pc.i;
    if xt.Ready() {
      BothOf(c, st, l.t);
      TellerOwns(c, st, l.s);
      ArriveLink(c, st.own[l.t.me], st.own[l.t.other], xt, yt, BcastHave(i));
      Lengths(c, st.own[l.t.me], st.own[l.t.other], xt, yt);
      TokensWith(c, st, l.t, Acked(xt, i), yt);
      assert AckedState(st, l) == With(st, l.t, Acked(xt, i), yt);
    } else {
      assert AckedState(st, l) == st;
    }
  }

  lemma LocalTok(c: Config, st: State, l: Step, t: Sid, j: int)
    requires Inv(c, st) && Enabled(c, st, l) && Informed(c, st, l) && IsLocal(l) && t in st.ses
    ensures WellFormed(c, Apply(c, st, l)) && t in Apply(c, st, l).ses
    ensures Tok(c, Apply(c, st, l), t, j) == Tok(c, st, t, j)
  {
    hide Links, Complete, Unique, Backed, DiskOk, SameTokens, CanMove, Moved, Read, Contained, Apply, Tok;
    var x, y, p := st.ses[l.s], st.ses[Rev(l.s)], l.s.me;
    var x', y' := Moved(c, x, y, st.own[p], st.disk[p], SessionsOf(st, p), l), Read(y, l);
    LocalContained(c, st, l);
    ContainedTokens(c, st, l.s, x', y');
    TokensWith(c, st, l.s, x', y');
    LocalApply(c, st, l);
  }

  lemma ContainedTokens(c: Config, st: State, s: Sid, x': Session, y': Session)
    requires WellFormed(c, st) && s in st.ses && Contained(c, st, s, x', y')
    ensures SameTokens(st.ses[s], st.ses[Rev(s)], x', y') && |x'.view| == |y'.view| == c.N()
  {
    hide Link, SameTokens, Keeps, Both;
    Lengths(c, st.own[s.me], st.own[s.other], x', y');
  }

  lemma LocalApply(c: Config, st: State, l: Step)
    requires WellFormed(c, st) && Enabled(c, st, l) && IsLocal(l)
    ensures var x, y, p := st.ses[l.s], st.ses[Rev(l.s)], l.s.me;
      Apply(c, st, l) == With(st, l.s, Moved(c, x, y, st.own[p], st.disk[p], SessionsOf(st, p), l), Read(y, l))
  {
    hide CanMove, Moved, Read;
  }

  lemma MostAreLocal(l: Step)
    ensures !l.Claim? && !l.SetOwned? && !l.WriteDisk? && !l.AckHave? ==> IsLocal(l)
  {
  }

  // ---------- asking ----------

  /** The session is past its set-up and not done, and no claim is due: it is neither about to ask nor broadcasting. */
  predicate Resting(x: Session) {
    x.Started() && !x.Done() && !x.pc.Asking? && !x.pc.Telling?
  }

  /** The precondition of requestNextIfPossible. */
  predicate MayAsk(x: Session) {
    x.pc.Asking? || x.pc.Claimed? ==> x.selfChoke == Unchoked
  }

  /** When session s asked last, in the first n steps, it found nothing to ask for. */
  ghost predicate FoundNothing(ls: seq<Step>, n: nat, s: Sid)
    requires n <= |ls|
  {
    exists m :: AskedInVain(ls, n, s, m)
  }

  ghost predicate AskedInVain(ls: seq<Step>, n: nat, s: Sid, m: nat)
    requires n <= |ls|
  {
    m < n && ls[m] == NoClaim(s) && forall k :: m < k < n ==> !(ls[k].Claim? && ls[k].s == s)
  }

  /** What a move makes of a session that is not choked. */
  lemma MovedAsking(c: Config, x: Session, y: Session, own: seq<Status>, disk: seq<Data>, all: set<Sid>, l: Step)
    requires |own| == |disk| == |x.view| == c.N() && CanMove(c, x, y, own, l)
    requires (!x.Started() ==> x.selfChoke != Unchoked) && MayAsk(x)
    ensures var x' := Moved(c, x, y, own, disk, all, l);
      && (!x'.Started() ==> x'.selfChoke != Unchoked) && MayAsk(x')
      && (Resting(x') && x'.selfChoke == Unchoked ==>
            (Resting(x) && x.selfChoke == Unchoked && !l.SetOwned? && !l.Claim?) || l.Claim? || l.NoClaim?)
  {
    hide Wanted, NothingWanted, All;
  }

  /** A session that others act upon stays as it is, but for its queue and its wire. */
  lemma OthersRest(c: Config, st: State, l: Step, t: Sid)
    requires WellFormed(c, st) && Enabled(c, st, l) && t in Apply(c, st, l).ses && t != l.s
    ensures t in st.ses && Apply(c, st, l).ses[t].pc == st.ses[t].pc
    ensures Apply(c, st, l).ses[t].selfChoke == st.ses[t].selfChoke
  {
    hide CanMove, Moved, OwnAfter, DiskAfter;
    ApplyIs(c, st, l);
    AckedFirst(c, st, l);
  }

  lemma AskingStep(c: Config, st: State, l: Step, s: Sid)
    requires WellFormed(c, st) && Enabled(c, st, l) && s in Apply(c, st, l).ses
    requires s in st.ses && (!st.ses[s].Started() ==> st.ses[s].selfChoke != Unchoked) && MayAsk(st.ses[s])
    ensures var x, x' := st.ses[s], Apply(c, st, l).ses[s];
      && (!x'.Started() ==> x'.selfChoke != Unchoked) && MayAsk(x')
      && (Resting(x') && x'.selfChoke == Unchoked ==>
            || (Resting(x) && x.selfChoke == Unchoked && !(s == l.s && (l.SetOwned? || l.Claim?)))
            || (s == l.s && (l.Claim? || l.NoClaim?)))
  {
    hide CanMove, Moved, Apply;
    PcElsewhere(c, st, l);
    if s == l.s {
      StepMoves(c, st, l);
      AckedFirst(c, st, l);
      AckedChoke(st, l, s);
      var st0 := AckedState(st, l);
      MovedAsking(c, st0.ses[s], st0.ses[Rev(s)], st.own[s.me], st.disk[s.me], SessionsOf(st, s.me), l);
    } else {
      OthersRest(c, st, l, s);
    }
  }

  lemma AckedChoke(st: State, l: Step, s: Sid)
    requires l.s in st.ses && s in st.ses
    ensures s in AckedState(st, l).ses && AckedState(st, l).ses[s].selfChoke == st.ses[s].selfChoke
  {
  }

  /** Session s, unless choked, has a token of some piece, or asked in vain when it asked last. */
  ghost predicate Served(c: Config, ls: seq<Step>, n: nat, st: State, s: Sid)
    requires n <= |ls| && WellFormed(c, st) && s in st.ses
  {
    var x := st.ses[s];
    && (!x.Started() ==> x.selfChoke != Unchoked) && MayAsk(x)
    && (Resting(x) && x.selfChoke == Unchoked ==> (exists i :: Tok(c, st, s, i) >= 1) || FoundNothing(ls, n, s))
  }

  lemma ServedStep(c: Config, ls: seq<Step>, n: nat, st: State, s: Sid)
    requires 0 < n <= |ls| && Inv(c, st) && Enabled(c, st, ls[n - 1]) && Informed(c, st, ls[n - 1])
    requires s in st.ses && Served(c, ls, n - 1, st, s)
    ensures WellFormed(c, Apply(c, st, ls[n - 1])) && s in Apply(c, st, ls[n - 1]).ses
    ensures Served(c, ls, n, Apply(c, st, ls[n - 1]), s)
  {
    hide Links, Complete, Unique, Backed, DiskOk, Enabled, Apply, Informed, Tok, Resting;
    var l := ls[n - 1];
    var st' := Apply(c, st, l);
    StepKeepsSizes(c, st, l);
    PcElsewhere(c, st, l);
    forall i ensures Tok(c, st', s, i) ==
        if s == l.s && l == Claim(s, i) then 1
        else if s == l.s && l.SetOwned? && st.ses[s].pc == Saved(i) then 0
        else Tok(c, st, s, i)
    {
      TokensStep(c, st, l, s, i);
    }
    AskingStep(c, st, l, s);
    if s == l.s && l.Claim? {
      assert Tok(c, st', s, l.i) == 1;
    } else if s == l.s && l.NoClaim? {
      assert AskedInVain(ls, n, s, n - 1);
    } else if FoundNothing(ls, n - 1, s) {
      var m: nat :| AskedInVain(ls, n - 1, s, m);
      assert AskedInVain(ls, n, s, m);
    } else if exists i :: Tok(c, st, s, i) >= 1 {
      var i :| Tok(c, st, s, i) >= 1;
      assert (s == l.s && l.SetOwned?) || Tok(c, st', s, i) >= 1;
    }
  }

  lemma {:induction false} RunServes(c: Config, sts: seq<State>, ls: seq<Step>, n: nat, s: Sid)
    requires IsRun(c, sts, ls) && n <= |ls| && s in sts[n].ses
    ensures WellFormed(c, sts[n]) && Served(c, ls, n, sts[n], s)
  {
    hide Links, Complete, Unique, Backed, DiskOk, Enabled, Apply, Informed, Served;
    RunInv(c, sts, ls, n);
    if n == 0 {
      NobodyIsUnchoked(c, ls, sts[0], s);
    } else {
      RunInv(c, sts, ls, n - 1);
      PcElsewhere(c, sts[n - 1], ls[n - 1]);
      RunServes(c, sts, ls, n - 1, s);
      ServedStep(c, ls, n, sts[n - 1], s);
    }
  }

  lemma NobodyIsUnchoked(c: Config, ls: seq<Step>, st: State, s: Sid)
    requires Init(c, st) && s in st.ses
    ensures Served(c, ls, 0, st, s)
  {
    hide Tok, FoundNothing;
  }

  /** A session claims and asks only while it is not choked. */
  lemma AsksOnlyUnchoked(c: Config, sts: seq<State>, ls: seq<Step>, n: nat, s: Sid)
    requires IsRun(c, sts, ls) && n < |ls| && (ls[n].Claim? || ls[n].SendRequest?) && s == ls[n].s
    ensures s in sts[n].ses && sts[n].ses[s].selfChoke == Unchoked
  {
    hide Inv, Init, Apply, Informed, FoundNothing, Resting, NothingWanted, Wanted;
    assert WellFormed(c, sts[n]) && Enabled(c, sts[n], ls[n]);
    RunServes(c, sts, ls, n, s);
  }

  /**
   * A session that is not choked asks whenever it can: between handlers, either a piece is under way for it,
   * or it found nothing to want of its peer when it asked last.
   */
  lemma UnchokedAsks(c: Config, sts: seq<State>, ls: seq<Step>, n: nat, s: Sid)
    requires IsRun(c, sts, ls) && n <= |ls| && s in sts[n].ses
    requires sts[n].ses[s].pc.Idle? && sts[n].ses[s].selfChoke == Unchoked
    ensures WellFormed(c, sts[n])
    ensures || (exists i :: Tok(c, sts[n], s, i) >= 1)
            || (exists m :: 0 <= m < n && ls[m] == NoClaim(s) && s in sts[m].ses && s.me in sts[m].own
                  && NothingWanted(sts[m].ses[s].view, sts[m].own[s.me])
                  && forall k :: m < k < n ==> !(ls[k].Claim? && ls[k].s == s))
  {
    hide Inv, Init, Apply, Informed, Tok, NothingWanted, FoundNothing;
    RunServes(c, sts, ls, n, s);
    if FoundNothing(ls, n, s) { InVain(c, sts, ls, n, s); }
  }

  lemma InVain(c: Config, sts: seq<State>, ls: seq<Step>, n: nat, s: Sid)
    requires IsRun(c, sts, ls) && n <= |ls| && FoundNothing(ls, n, s)
    ensures exists m :: 0 <= m < n && ls[m] == NoClaim(s) && s in sts[m].ses && s.me in sts[m].own
                  && NothingWanted(sts[m].ses[s].view, sts[m].own[s.me])
                  && forall k :: m < k < n ==> !(ls[k].Claim? && ls[k].s == s)
  {
    hide Inv, Init, Apply, Informed, NothingWanted;
    var m: nat :| AskedInVain(ls, n, s, m);
    assert WellFormed(c, sts[m]) && Enabled(c, sts[m], ls[m]);
  }
}
