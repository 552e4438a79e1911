/** The steps through which the sessions of one peer affect each other. */
module SwarmShared {
  import opened Pieces
  import opened SwarmModel
  import opened SwarmSteps
  import opened SwarmLink
  import opened SwarmMoves
  import opened SwarmArrivals
  import opened SwarmInvariant
  import opened SwarmSafety

  // ---------- ackHave ----------

  /** The told session first: its queue grows by the broadcast, if it is ready. */
  lemma AckedInv(c: Config, st: State, l: Step)
    requires Inv(c, st) && Enabled(c, st, l) && l.AckHave?
    ensures Inv(c, AckedState(st, l))
    ensures var t := l.t; var st0 := AckedState(st, l);
      st0.ses[t].Ready() ==> Announced(st0.ses[Rev(t)], st0.ses[t], st.ses[l.s].pc.i)
  {
    hide Link, Links, Complete, Unique, Backed, DiskOk, Both, Sound;
    var t, i := l.t, st.ses[l.s].pc.i;
    var xt, yt := st.ses[t], st.ses[Rev(t)];
    TellerOwns(c, st, l.s);
    var xt' := Acked(xt, i);
    if xt.Ready() {
      BothOf(c, st, t);
      ArriveLink(c, st.own[t.me], st.own[t.other], xt, yt, BcastHave(i));
      assert Contained(c, st, t, xt', yt) by { SavedOk(c, st, t); }
      ContainedInv(c, st, t, xt', yt);
      assert AckedState(st, l) == With(st, t, xt', yt);
    } else {
      assert AckedState(st, l) == st;
    }
  }

  lemma TellerOwns(c: Config, st: State, s: Sid)
    requires Inv(c, st) && s in st.ses && st.ses[s].pc.Telling?
    ensures Has(st.own[s.me], st.ses[s].pc.i)
  {
    BothOf(c, st, s);
  }

  lemma SavedOk(c: Config, st: State, t: Sid)
    requires Inv(c, st) && t in st.ses
    ensures var x := st.ses[t];
      x.pc.Saved? && 0 <= x.pc.i < c.N() ==> st.disk[t.me][x.pc.i] == c.file[x.pc.i]
  {
  }

  function Striker(x: Session, t: Sid): Session
    requires x.pc.Telling?
  {
    x.(pc := Telling(x.pc.i, x.pc.todo - {t}))
  }

  lemma StrikePair(c: Config, st: State, s: Sid, t: Sid)
    requires Inv(c, st) && s in st.ses && st.ses[s].pc.Telling?
    ensures var x, y := st.ses[s], st.ses[Rev(s)];
      && |x.view| == |y.view| == c.N()
      && Both(c, st.own[s.me], st.own[s.other], Striker(x, t), y)
      && SameTokens(x, y, Striker(x, t), y)
  {
    var x, y := st.ses[s], st.ses[Rev(s)];
    BothOf(c, st, s);
    hide Link, Links, Complete, Unique, Backed, DiskOk, Both, Keeps;
    PcLink(c, st.own[s.me], st.own[s.other], x, y, Striker(x, t).pc);
    Lengths(c, st.own[s.me], st.own[s.other], x, y);
  }

  /** Then the telling session strikes it off its list. */
  lemma StrikeInv(c: Config, st: State, s: Sid, t: Sid)
    requires Inv(c, st) && s in st.ses && t in st.ses && t.me == s.me
    requires st.ses[s].pc.Telling? && t in st.ses[s].pc.todo
    requires st.ses[t].Ready() ==> Announced(st.ses[Rev(t)], st.ses[t], st.ses[s].pc.i)
    ensures Inv(c, With(st, s, Striker(st.ses[s], t), st.ses[Rev(s)]))
  {
    var x', y := Striker(st.ses[s], t), st.ses[Rev(s)];
    hide Link, Links, Complete, Unique, Backed, DiskOk, WellFormed, Both, SameTokens, Pending, Announced;
    StrikePair(c, st, s, t);
    DiskWith(c, st, s, x', y);
    TokensWith(c, st, s, x', y);
    LinksWith(c, st, s, x', y);
    StrikePending(c, st, s, t, x', y);
    WithKeys(c, st, s, x', y);
    TokensAgree(c, st, With(st, s, x', y));
  }

  lemma WithKeys(c: Config, st: State, s: Sid, x': Session, y: Session)
    requires WellFormed(c, st) && s in st.ses
    ensures With(st, s, x', y).own == st.own && With(st, s, x', y).ses.Keys == st.ses.Keys
  {
  }

  lemma DiskWith(c: Config, st: State, s: Sid, x': Session, y: Session)
    requires WellFormed(c, st) && DiskOk(c, st) && s in st.ses && y == st.ses[Rev(s)]
    requires !x'.pc.Saved? && |x'.view| == c.N()
    ensures WellFormed(c, With(st, s, x', y)) && DiskOk(c, With(st, s, x', y))
  {
    SizesStay(c, st, s, x', y);
  }

  lemma StrikePending(c: Config, st: State, s: Sid, t: Sid, x': Session, y: Session)
    requires WellFormed(c, st) && Complete(c, st)
    requires s in st.ses && t in st.ses && t.me == s.me && y == st.ses[Rev(s)]
    requires st.ses[s].pc.Telling? && t in st.ses[s].pc.todo
    requires st.ses[t].Ready() ==> Announced(st.ses[Rev(t)], st.ses[t], st.ses[s].pc.i)
    requires x' == Striker(st.ses[s], t)
    requires WellFormed(c, With(st, s, x', y))
    ensures Complete(c, With(st, s, x', y))
  {
    var st' := With(st, s, x', y);
    forall r, i
      ensures Pending(st', r, i) ==> Pending(st, r, i)
      ensures Pending(st, r, i) ==> Pending(st', r, i) || (r == t && i == x'.pc.i)
    {
      assert forall u :: Tells(st', u, r, i) ==> Tells(st, u, r, i);
      assert forall u :: Tells(st, u, r, i) ==> Tells(st', u, r, i) || (r == t && i == x'.pc.i);
    }
    forall r, i | r in st'.ses && st'.ses[r].Ready() && Has(st'.own[r.me], i)
      ensures Announced(st'.ses[Rev(r)], st'.ses[r], i) || Pending(st', r, i)
    {
      assert Announced(st.ses[Rev(r)], st.ses[r], i) || Pending(st, r, i);
    }
  }

  lemma AckHaveInv(c: Config, st: State, l: Step)
    requires Inv(c, st) && Enabled(c, st, l) && l.AckHave?
    ensures Inv(c, Apply(c, st, l))
  {
    hide Link, Links, Complete, Unique, Backed, DiskOk;
    var st0 := AckedState(st, l);
    AckedInv(c, st, l);
    StrikeInv(c, st0, l.s, l.t);
    var x := st0.ses[l.s];
    assert Apply(c, st, l)
        == With(st0, l.s, x.(pc := Telling(x.pc.i, x.pc.todo - {l.t})), st0.ses[Rev(l.s)]);
  }

  // ---------- claims and completions ----------

  /** The state in which peer p has bitfield own and its session s is x. */
  function Shared(st: State, s: Sid, x: Session, own: seq<Status>): State {
    st.(ses := st.ses[s := x], own := st.own[s.me := own])
  }

  lemma SharedWellFormed(c: Config, st: State, s: Sid, x': Session, op': seq<Status>)
    requires WellFormed(c, st) && s in st.ses && |op'| == |x'.view| == c.N()
    ensures WellFormed(c, Shared(st, s, x', op'))
  {
    var st' := Shared(st, s, x', op');
    forall t | t in st'.ses
      ensures t.me in st'.own && t.other in st'.own && t.me != t.other && Rev(t) in st'.ses
              && |st'.ses[t].view| == c.N()
    {
      assert t in st.ses;
    }
  }

  lemma SharedLinks(c: Config, st: State, s: Sid, x': Session, op': seq<Status>)
    requires Inv(c, st) && s in st.ses && WellFormed(c, Shared(st, s, x', op'))
    requires Forward(st.own[s.me], op')
    requires Both(c, op', st.own[s.other], x', st.ses[Rev(s)])
    requires forall t :: t in st.ses && t.me == s.me && t != s ==>
               TokensOk(op', st.ses[t], st.ses[Rev(t)])
    ensures Links(c, Shared(st, s, x', op'))
  {
    hide Link, TokensOk, Forward, Complete, Unique, Backed, DiskOk;
    var st' := Shared(st, s, x', op');
    forall t | t in st'.ses
      ensures Link(c, st'.own[t.me], st'.own[t.other], st'.ses[t], st'.ses[Rev(t)])
    {
      BothOf(c, st, t);
      if t != s && t != Rev(s) {
        var u := Rev(t);
        assert u != s && u != Rev(s) && Rev(u) == t;
        if t.me == s.me {
          ForwardLink(c, st.own[t.me], st.own[t.other], st.ses[t], st.ses[u], op');
        } else if u.me == s.me {
          BothOf(c, st, u);
          ForwardLink(c, st.own[u.me], st.own[u.other], st.ses[u], st.ses[t], op');
        }
      }
    }
  }

  /** Session s of the new state holds k tokens of piece i; all other tokens are where they were. */
  ghost predicate TokensMove(c: Config, st: State, st': State, s: Sid, i: int, k: nat)
    requires WellFormed(c, st) && WellFormed(c, st') && st'.ses.Keys == st.ses.Keys
  {
    forall t, j :: t in st.ses ==> Tok(c, st', t, j) == if t == s && j == i then k else Tok(c, st, t, j)
  }

  lemma SharedTokens(c: Config, st: State, s: Sid, x': Session, op': seq<Status>, i: int, k: nat)
    requires WellFormed(c, st) && s in st.ses && WellFormed(c, Shared(st, s, x', op'))
    requires var x, y := st.ses[s], st.ses[Rev(s)];
      forall j :: Tokens(x', y, j) == (if j == i then k else Tokens(x, y, j)) && Tokens(y, x', j) == Tokens(y, x, j)
    ensures Shared(st, s, x', op').ses.Keys == st.ses.Keys
    ensures TokensMove(c, st, Shared(st, s, x', op'), s, i, k)
  {
    hide Tokens;
    var st' := Shared(st, s, x', op');
    assert st'.ses.Keys == st.ses.Keys;
    forall t, j | t in st.ses
      ensures Tok(c, st', t, j) == if t == s && j == i then k else Tok(c, st, t, j)
    {
      if t != s && t != Rev(s) {
        assert Rev(t) != s && Rev(t) != Rev(s);
      }
    }
  }

  /** A token exists for requested pieces only. */
  lemma TokenMeansRequested(c: Config, st: State, t: Sid, i: int)
    requires Inv(c, st) && t in st.ses
    ensures Tok(c, st, t, i) <= 1
    ensures Tok(c, st, t, i) == 1 ==> 0 <= i < c.N() && st.own[t.me][i] == Requested
  {
    BothOf(c, st, t);
  }

  /** No other session of the peer holds a token of a piece that session s alone may hold. */
  lemma OthersHoldNone(c: Config, st: State, s: Sid, t: Sid, i: int)
    requires Inv(c, st) && s in st.ses && t in st.ses && t.me == s.me && t != s && 0 <= i < c.N()
    requires st.own[s.me][i] != Requested || Tok(c, st, s, i) == 1
    ensures Tok(c, st, t, i) == 0
  {
    TokenMeansRequested(c, st, t, i);
    if Tok(c, st, t, i) != 0 {
      assert Holds(c, st, s, s.me, i) && Holds(c, st, t, s.me, i);
    }
  }

  lemma OthersTokensOk(c: Config, st: State, s: Sid, i: int, v: Status)
    requires Inv(c, st) && s in st.ses && 0 <= i < c.N()
    requires st.own[s.me][i] != Requested || Tok(c, st, s, i) == 1
    ensures forall t :: t in st.ses && t.me == s.me && t != s ==>
              TokensOk(st.own[s.me][i := v], st.ses[t], st.ses[Rev(t)])
  {
    hide Links, Complete, Unique, Backed, DiskOk, Tokens;
    forall t, j | t in st.ses && t.me == s.me && t != s
      ensures Tokens(st.ses[t], st.ses[Rev(t)], j) <= 1
      ensures Tokens(st.ses[t], st.ses[Rev(t)], j) == 1 ==>
                0 <= j < c.N() && st.own[s.me][i := v][j] == Requested
    {
      TokenMeansRequested(c, st, t, j);
      OthersHoldNone(c, st, s, t, i);
      assert Tok(c, st, t, j) == Tokens(st.ses[t], st.ses[Rev(t)], j);
    }
  }

  // ---------- a claim ----------

  function Claimer(st: State, l: Step): Session
    requires l.Claim? && l.s in st.ses
  {
    st.ses[l.s].(pc := Claimed(l.i))
  }

  lemma ClaimPair(c: Config, st: State, l: Step)
    requires Inv(c, st) && Enabled(c, st, l) && l.Claim?
    ensures var x, y, op := st.ses[l.s], st.ses[Rev(l.s)], st.own[l.s.me];
      var x', i := Claimer(st, l), l.i;
      && x.pc.Asking? && 0 <= i < c.N() && |op| == |x'.view| == c.N() && op[i] == Absent
      && Both(c, op[i := Requested], st.own[l.s.other], x', y)
      && (forall j :: Tokens(x', y, j) == (if j == i then 1 else Tokens(x, y, j)) && Tokens(y, x', j) == Tokens(y, x, j))
  {
    hide Link, Links, Complete, Unique, Backed, DiskOk, Tokens, Both, Keeps;
    var x, y, op := st.ses[l.s], st.ses[Rev(l.s)], st.own[l.s.me];
    BothOf(c, st, l.s);
    ClaimLink(c, op, st.own[l.s.other], x, y, l.i);
    Lengths(c, op, st.own[l.s.other], x, y);
  }

  lemma ClaimApply(c: Config, st: State, l: Step)
    requires WellFormed(c, st) && Enabled(c, st, l) && l.Claim?
    ensures 0 <= l.i < |st.own[l.s.me]|
    ensures Apply(c, st, l) == Shared(st, l.s, Claimer(st, l), st.own[l.s.me][l.i := Requested])
  {
  }

  lemma ClaimInv(c: Config, st: State, l: Step)
    requires Inv(c, st) && Enabled(c, st, l) && l.Claim?
    ensures Inv(c, Apply(c, st, l))
  {
    var s, i := l.s, l.i;
    var op, x' := st.own[s.me], Claimer(st, l);
    hide Enabled, CanMove, Apply, Link, Links, Complete, Unique, Backed, DiskOk, Both, Tokens, TokensOk;
    hide WellFormed, TokensMove, Forward;
    ClaimPair(c, st, l);
    ClaimApply(c, st, l);
    var op' := op[i := Requested];
    var st' := Shared(st, s, x', op');
    SharedWellFormed(c, st, s, x', op');
    SharedTokens(c, st, s, x', op', i, 1);
    OthersTokensOk(c, st, s, i, Requested);
    StepsForward(op, i, Requested);
    SharedLinks(c, st, s, x', op');
    ClaimTokens(c, st, s, i, st');
    ClaimComplete(c, st, s, i, st');
  }

  lemma StepsForward(op: seq<Status>, i: int, v: Status)
    requires 0 <= i < |op| && Rank(v) < Rank(op[i])
    ensures Forward(op, op[i := v])
  {
  }

  lemma ClaimTokens(c: Config, st: State, s: Sid, i: int, st': State)
    requires Inv(c, st) && s in st.ses && 0 <= i < c.N() && st.own[s.me][i] == Absent
    requires st' == Shared(st, s, st.ses[s].(pc := Claimed(i)), st.own[s.me][i := Requested])
    requires WellFormed(c, st') && st'.ses.Keys == st.ses.Keys && TokensMove(c, st, st', s, i, 1)
    ensures Unique(c, st') && Backed(c, st')
  {
    hide Links, Complete, DiskOk, Tokens;
    forall t: Sid, u: Sid, j | Holds(c, st', t, t.me, j) && Holds(c, st', u, t.me, j) ensures t == u {
      if j == i && t.me == s.me {
        if t != s { OthersHoldNone(c, st, s, t, i); }
        if u != s { OthersHoldNone(c, st, s, u, i); }
      } else {
        assert Holds(c, st, t, t.me, j) && Holds(c, st, u, t.me, j);
      }
    }
    forall p, j | p in st'.own && 0 <= j < c.N() && st'.own[p][j] == Requested
      ensures exists t :: Holds(c, st', t, p, j)
    {
      if p == s.me && j == i {
        assert Holds(c, st', s, p, j);
      } else {
        var t :| Holds(c, st, t, p, j);
        assert Holds(c, st', t, p, j);
      }
    }
  }

  /** Moving one program counter that tells nobody leaves all that is announced or pending. */
  lemma ClaimAnnounces(c: Config, st: State, s: Sid, op': seq<Status>, i: int, st': State, r: Sid, j: int)
    requires WellFormed(c, st) && s in st.ses && st.ses[s].pc.Asking? && r in st.ses
    requires st' == Shared(st, s, st.ses[s].(pc := Claimed(i)), op')
    ensures Rev(r) in st'.ses
    ensures Announced(st'.ses[Rev(r)], st'.ses[r], j) <==> Announced(st.ses[Rev(r)], st.ses[r], j)
    ensures Pending(st', r, j) <==> Pending(st, r, j)
    ensures st'.ses[r].Ready() == st.ses[r].Ready()
  {
    hide Announced;
    assert forall t :: Tells(st', t, r, j) <==> Tells(st, t, r, j);
    hide Pending, Tells;
    SameNews(st.ses[Rev(r)], st.ses[r], st'.ses[Rev(r)], st'.ses[r], j);
  }

  lemma SameNews(x: Session, y: Session, x': Session, y': Session, j: int)
    requires x'.view == x.view && x'.eq == x.eq && y'.out == y.out && y'.eq == y.eq
    ensures Announced(x', y', j) == Announced(x, y, j)
  {
  }

  lemma ClaimComplete(c: Config, st: State, s: Sid, i: int, st': State)
    requires WellFormed(c, st) && Complete(c, st) && DiskOk(c, st)
    requires s in st.ses && 0 <= i < c.N() && st.own[s.me][i] == Absent && st.ses[s].pc.Asking?
    requires st' == Shared(st, s, st.ses[s].(pc := Claimed(i)), st.own[s.me][i := Requested])
    requires WellFormed(c, st')
    ensures Complete(c, st') && DiskOk(c, st')
  {
    hide DiskOk, Announced, Pending;
    ClaimDisk(c, st, s, i, st');
    forall r, j | r in st'.ses && st'.ses[r].Ready() && Has(st'.own[r.me], j)
      ensures Announced(st'.ses[Rev(r)], st'.ses[r], j) || Pending(st', r, j)
    {
      ClaimAnnounces(c, st, s, st.own[s.me][i := Requested], i, st', r, j);
    }
  }

  lemma ClaimDisk(c: Config, st: State, s: Sid, i: int, st': State)
    requires WellFormed(c, st) && DiskOk(c, st) && WellFormed(c, st')
    requires s in st.ses && 0 <= i < c.N() && st.own[s.me][i] == Absent
    requires st' == Shared(st, s, st.ses[s].(pc := Claimed(i)), st.own[s.me][i := Requested])
    ensures DiskOk(c, st')
  {
    assert forall p, j :: p in st'.own && Has(st'.own[p], j) ==> Has(st.own[p], j);
  }

  // ---------- a completion ----------

  function Teller(st: State, s: Sid): Session
    requires s in st.ses && st.ses[s].pc.Saved?
  {
    st.ses[s].(pc := Telling(st.ses[s].pc.i, SessionsOf(st, s.me)))
  }

  lemma OwnedPair(c: Config, st: State, l: Step)
    requires Inv(c, st) && Enabled(c, st, l) && l.SetOwned?
    ensures var x, y, op := st.ses[l.s], st.ses[Rev(l.s)], st.own[l.s.me];
      && x.pc.Saved?
      && var x', i := Teller(st, l.s), x.pc.i;
      && 0 <= i < c.N() && |op| == |x'.view| == c.N() && op[i] == Requested
      && Both(c, op[i := Owned], st.own[l.s.other], x', y)
      && (forall j :: Tokens(x', y, j) == (if j == i then 0 else Tokens(x, y, j)) && Tokens(y, x', j) == Tokens(y, x, j))
  {
    hide Link, Links, Complete, Unique, Backed, DiskOk, Tokens, Both, Keeps;
    var x, y, op := st.ses[l.s], st.ses[Rev(l.s)], st.own[l.s.me];
    BothOf(c, st, l.s);
    OwnedLink(c, op, st.own[l.s.other], x, y, SessionsOf(st, l.s.me));
    Lengths(c, op, st.own[l.s.other], x, y);
  }

  lemma OwnedApply(c: Config, st: State, l: Step)
    requires WellFormed(c, st) && Enabled(c, st, l) && l.SetOwned?
    ensures st.ses[l.s].pc.Saved? && 0 <= st.ses[l.s].pc.i < |st.own[l.s.me]|
    ensures Apply(c, st, l)
         == Shared(st, l.s, Teller(st, l.s), st.own[l.s.me][st.ses[l.s].pc.i := Owned])
  {
  }

  lemma SetOwnedInv(c: Config, st: State, l: Step)
    requires Inv(c, st) && Enabled(c, st, l) && l.SetOwned?
    ensures Inv(c, Apply(c, st, l))
  {
    hide SessionsOf, Tok, CanMove, Apply, Link, Links, Complete, Unique, Backed, DiskOk, Both, Tokens, TokensOk;
    hide TokensMove, Forward;
    var s := l.s;
    OwnedPair(c, st, l);
    OwnedApply(c, st, l);
    var i, op, x' := st.ses[s].pc.i, st.own[s.me], Teller(st, s);
    hide WellFormed, Enabled;
    var op' := op[i := Owned];
    var st' := Shared(st, s, x', op');
    SharedWellFormed(c, st, s, x', op');
    SharedTokens(c, st, s, x', op', i, 0);
    SavedHolds(c, st, s);
    OthersTokensOk(c, st, s, i, Owned);
    StepsForward(op, i, Owned);
    SharedLinks(c, st, s, x', op');
    OwnedTokens(c, st, s, i, x', st');
    OwnedComplete(c, st, s, i, st');
    OwnedDisk(c, st, s, i, st');
  }

  lemma SavedHolds(c: Config, st: State, s: Sid)
    requires Inv(c, st) && s in st.ses && st.ses[s].pc.Saved?
    ensures Tok(c, st, s, st.ses[s].pc.i) == 1
  {
    TokenMeansRequested(c, st, s, st.ses[s].pc.i);
  }

  lemma OwnedTokens(c: Config, st: State, s: Sid, i: int, x': Session, st': State)
    requires Inv(c, st) && s in st.ses && 0 <= i < c.N() && Tok(c, st, s, i) == 1
    requires st' == Shared(st, s, x', st.own[s.me][i := Owned])
    requires WellFormed(c, st') && st'.ses.Keys == st.ses.Keys && TokensMove(c, st, st', s, i, 0)
    ensures Unique(c, st') && Backed(c, st')
  {
    hide Links, Complete, DiskOk, Tokens;
    forall t: Sid, u: Sid, j | Holds(c, st', t, t.me, j) && Holds(c, st', u, t.me, j) ensures t == u {
      assert Holds(c, st, t, t.me, j) && Holds(c, st, u, t.me, j);
    }
    forall p, j | p in st'.own && 0 <= j < c.N() && st'.own[p][j] == Requested
      ensures exists t :: Holds(c, st', t, p, j)
    {
      var t :| Holds(c, st, t, p, j);
      assert Holds(c, st', t, p, j);
    }
  }

  lemma OwnedPending(st: State, s: Sid, op': seq<Status>, st': State)
    requires s in st.ses && st.ses[s].pc.Saved?
    requires st' == Shared(st, s, Teller(st, s), op')
    ensures forall r, j :: Pending(st', r, j) <==>
              Pending(st, r, j) || (r in st.ses && r.me == s.me && j == st.ses[s].pc.i)
  {
    forall r, j
      ensures Pending(st', r, j) <==> Pending(st, r, j) || (r in st.ses && r.me == s.me && j == st.ses[s].pc.i)
    {
      if r in st.ses && r.me == s.me && j == st.ses[s].pc.i { assert Tells(st', s, r, j); }
      assert forall t :: t != s ==> (Tells(st', t, r, j) <==> Tells(st, t, r, j));
    }
  }

  lemma OwnedComplete(c: Config, st: State, s: Sid, i: int, st': State)
    requires Inv(c, st) && s in st.ses && 0 <= i < c.N()
    requires st.ses[s].pc == Saved(i) && st.own[s.me][i] == Requested
    requires st' == Shared(st, s, Teller(st, s), st.own[s.me][i := Owned])
    requires WellFormed(c, st')
    ensures Complete(c, st')
  {
    hide Link, Links, Unique, Backed, Pending, DiskOk, SessionsOf;
    OwnedPending(st, s, st.own[s.me][i := Owned], st');
    forall r, j | r in st'.ses && st'.ses[r].Ready() && Has(st'.own[r.me], j)
      ensures Announced(st'.ses[Rev(r)], st'.ses[r], j) || Pending(st', r, j)
    {
      if Has(st.own[r.me], j) {
        assert Announced(st.ses[Rev(r)], st.ses[r], j) || Pending(st, r, j);
      }
    }
  }

  lemma OwnedDisk(c: Config, st: State, s: Sid, i: int, st': State)
    requires WellFormed(c, st) && DiskOk(c, st) && WellFormed(c, st')
    requires s in st.ses && 0 <= i < c.N() && st.ses[s].pc == Saved(i)
    requires st' == Shared(st, s, Teller(st, s), st.own[s.me][i := Owned])
    ensures DiskOk(c, st')
  {
    hide SessionsOf;
    forall p, j | p in st'.own && Has(st'.own[p], j) ensures st'.disk[p][j] == c.file[j] {
      assert (p == s.me && j == i) || Has(st.own[p], j);
    }
    forall t | t in st'.ses && st'.ses[t].pc.Saved? && 0 <= st'.ses[t].pc.i < c.N()
      ensures st'.disk[t.me][st'.ses[t].pc.i] == c.file[st'.ses[t].pc.i]
    {
      assert t in st.ses && st.ses[t].pc == st'.ses[t].pc;
    }
  }

  /** The invariant is inductive. */
  lemma StepInv(c: Config, st: State, l: Step)
    requires Inv(c, st) && Enabled(c, st, l) && Informed(c, st, l)
    ensures Inv(c, Apply(c, st, l))
  {
    hide *;
    match l {
      case Claim(_, _) => ClaimInv(c, st, l);
      case SetOwned(_) => SetOwnedInv(c, st, l);
      case WriteDisk(_) => WriteDiskInv(c, st, l);
      case AckHave(_, _) => AckHaveInv(c, st, l);
      case _ => LocalStepInv(c, st, l);
    }
  }

  lemma LocalStepInv(c: Config, st: State, l: Step)
    requires Inv(c, st) && Enabled(c, st, l) && Informed(c, st, l)
    requires !l.Claim? && !l.SetOwned? && !l.WriteDisk? && !l.AckHave?
    ensures Inv(c, Apply(c, st, l))
  {
    hide Inv, Enabled, Apply, Informed;
    LocalInv(c, st, l);
  }
}
