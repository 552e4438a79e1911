/** The global invariant of the swarm, kept by every step. */
module SwarmInvariant {
  import opened Pieces
  import opened SwarmModel
  import opened SwarmSteps
  import opened SwarmLink
  import opened SwarmMoves
  import opened SwarmArrivals

  ghost predicate Links(c: Config, st: State)
    requires WellFormed(c, st)
  {
    forall s :: s in st.ses ==> Link(c, st.own[s.me], st.own[s.other], st.ses[s], st.ses[Rev(s)])
  }

  /** Every owned piece is announced on every session past its snapshot, or is about to be. */
  ghost predicate Complete(c: Config, st: State)
    requires WellFormed(c, st)
  {
    forall s, i :: s in st.ses && st.ses[s].Ready() && Has(st.own[s.me], i) ==>
      Announced(st.ses[Rev(s)], st.ses[s], i) || Pending(st, s, i)
  }

  /** The tokens of piece i held by session s. */
  ghost function Tok(c: Config, st: State, s: Sid, i: int): nat
    requires WellFormed(c, st) && s in st.ses
  {
    Tokens(st.ses[s], st.ses[Rev(s)], i)
  }

  ghost predicate Holds(c: Config, st: State, s: Sid, p: Peer, i: int)
    requires WellFormed(c, st)
  {
    s in st.ses && s.me == p && Tok(c, st, s, i) >= 1
  }

  /** No two sessions of a peer hold tokens of one piece. */
  ghost predicate Unique(c: Config, st: State)
    requires WellFormed(c, st)
  {
    forall s: Sid, t, i :: Holds(c, st, s, s.me, i) && Holds(c, st, t, s.me, i) ==> s == t
  }

  /** A requested piece has a token somewhere. */
  ghost predicate Backed(c: Config, st: State)
    requires WellFormed(c, st)
  {
    forall p, i :: p in st.own && 0 <= i < c.N() && st.own[p][i] == Requested ==>
      exists s :: Holds(c, st, s, p, i)
  }

  ghost predicate DiskOk(c: Config, st: State)
    requires WellFormed(c, st)
  {
    && (forall p, i :: p in st.own && Has(st.own[p], i) ==> st.disk[p][i] == c.file[i])
    && (forall s :: s in st.ses && st.ses[s].pc.Saved? ==>
          var i := st.ses[s].pc.i; 0 <= i < c.N() ==> st.disk[s.me][i] == c.file[i])
  }

  ghost predicate Inv(c: Config, st: State) {
    && WellFormed(c, st)
    && Links(c, st) && Complete(c, st)
    && Unique(c, st) && Backed(c, st) && DiskOk(c, st)
  }

  lemma BothOf(c: Config, st: State, s: Sid)
    requires Inv(c, st) && s in st.ses
    ensures Both(c, st.own[s.me], st.own[s.other], st.ses[s], st.ses[Rev(s)])
    ensures Rev(Rev(s)) == s && Rev(s) != s
  {
    assert Rev(s) in st.ses;
  }

  lemma Lengths(c: Config, op: seq<Status>, oq: seq<Status>, x: Session, y: Session)
    requires Both(c, op, oq, x, y)
    ensures |op| == |oq| == |x.view| == |y.view| == c.N()
  {
  }

  // ---------- steps that change one link and nothing shared ----------

  /** What such a step must respect besides the link itself. */
  ghost predicate Contained(c: Config, st: State, s: Sid, x': Session, y': Session)
    requires WellFormed(c, st) && s in st.ses
  {
    var x, y := st.ses[s], st.ses[Rev(s)];
    && SafePair(c, st.own[s.me], st.own[s.other], x, y, x', y')
    && y'.pc == y.pc
    && (x'.Ready() ==> x.Ready() || forall i :: Has(st.own[s.me], i) ==> Knows(y', x', i))
    && (x.pc.Telling? && x.pc.todo != {} ==> x'.pc == x.pc)
    && (x'.pc.Telling? ==> x'.pc == x.pc)
    && (x'.pc.Saved? && 0 <= x'.pc.i < c.N() ==> st.disk[s.me][x'.pc.i] == c.file[x'.pc.i])
  }

  lemma ContainedPending(c: Config, st: State, s: Sid, x': Session, y': Session, r: Sid, i: int)
    requires WellFormed(c, st) && s in st.ses && Contained(c, st, s, x', y')
    ensures Pending(With(st, s, x', y'), r, i) <==> Pending(st, r, i)
  {
    var st' := With(st, s, x', y');
    assert forall t :: Tells(st', t, r, i) <==> Tells(st, t, r, i);
  }

  lemma TokensWith(c: Config, st: State, s: Sid, x': Session, y': Session)
    requires WellFormed(c, st) && s in st.ses && |x'.view| == |y'.view| == c.N()
    requires SameTokens(st.ses[s], st.ses[Rev(s)], x', y')
    ensures WellFormed(c, With(st, s, x', y'))
    ensures forall t, i :: t in st.ses ==> Tok(c, With(st, s, x', y'), t, i) == Tok(c, st, t, i)
  {
    var st' := With(st, s, x', y');
    SizesStay(c, st, s, x', y');
    forall t, i | t in st.ses
      ensures Tok(c, st', t, i) == Tok(c, st, t, i)
    {
      if t != s && t != Rev(s) {
        assert Rev(t) != s && Rev(t) != Rev(s);
      }
    }
  }

  lemma LinksWith(c: Config, st: State, s: Sid, x': Session, y': Session)
    requires WellFormed(c, st) && Links(c, st) && s in st.ses && WellFormed(c, With(st, s, x', y'))
    requires Both(c, st.own[s.me], st.own[s.other], x', y')
    ensures Links(c, With(st, s, x', y'))
  {
    hide Link;
    var st' := With(st, s, x', y');
    forall t | t in st'.ses
      ensures Link(c, st'.own[t.me], st'.own[t.other], st'.ses[t], st'.ses[Rev(t)])
    {
      if t != s && t != Rev(s) {
        assert Rev(t) != s && Rev(t) != Rev(s);
        assert Link(c, st.own[t.me], st.own[t.other], st.ses[t], st.ses[Rev(t)]);
      }
    }
  }

  lemma ContainedComplete(c: Config, st: State, s: Sid, x': Session, y': Session)
    requires WellFormed(c, st) && Complete(c, st) && s in st.ses && Contained(c, st, s, x', y')
    requires WellFormed(c, With(st, s, x', y'))
    ensures Complete(c, With(st, s, x', y'))
  {
    hide Both, SameTokens;
    var st' := With(st, s, x', y');
    forall t, i | t in st'.ses && st'.ses[t].Ready() && Has(st'.own[t.me], i)
      ensures Announced(st'.ses[Rev(t)], st'.ses[t], i) || Pending(st', t, i)
    {
      ContainedPending(c, st, s, x', y', t, i);
      if t != s && t != Rev(s) {
        assert Rev(t) != s && Rev(t) != Rev(s);
      }
    }
  }

  /** Two states in which every session holds the same tokens. */
  lemma TokensAgree(c: Config, st: State, st': State)
    requires WellFormed(c, st) && WellFormed(c, st') && Unique(c, st) && Backed(c, st)
    requires st'.own == st.own && st'.ses.Keys == st.ses.Keys
    requires forall t, i :: t in st.ses ==> Tok(c, st', t, i) == Tok(c, st, t, i)
    ensures Unique(c, st') && Backed(c, st')
  {
    forall s: Sid, p, i ensures Holds(c, st', s, p, i) <==> Holds(c, st, s, p, i) {}
    forall p, i | p in st'.own && 0 <= i < c.N() && st'.own[p][i] == Requested
      ensures exists t :: Holds(c, st', t, p, i)
    {
      var t :| Holds(c, st, t, p, i);
      assert Holds(c, st', t, p, i);
    }
  }

  lemma ContainedInv(c: Config, st: State, s: Sid, x': Session, y': Session)
    requires Inv(c, st) && s in st.ses && Contained(c, st, s, x', y')
    ensures Inv(c, With(st, s, x', y'))
  {
    hide Link, Links, Complete, Unique, Backed, DiskOk, Both, Keeps, SameTokens;
    Lengths(c, st.own[s.me], st.own[s.other], x', y');
    var st' := With(st, s, x', y');
    TokensWith(c, st, s, x', y');
    LinksWith(c, st, s, x', y');
    ContainedComplete(c, st, s, x', y');
    assert st'.ses.Keys == st.ses.Keys;
    hide WellFormed;
    TokensAgree(c, st, st');
    ContainedDisk(c, st, s, x', y');
  }

  lemma ContainedDisk(c: Config, st: State, s: Sid, x': Session, y': Session)
    requires WellFormed(c, st) && DiskOk(c, st) && s in st.ses && Contained(c, st, s, x', y')
    requires WellFormed(c, With(st, s, x', y'))
    ensures DiskOk(c, With(st, s, x', y'))
  {
    hide SafePair, Pending;
  }
}
