/** Each step of a session thread keeps the link invariant in both directions. */
module SwarmMoves {
  import opened Pieces
  import opened SwarmModel
  import opened SwarmLink

  /** The outcome of a step that changes x alone. */
  ghost predicate Safe(c: Config, op: seq<Status>, oq: seq<Status>, x: Session, y: Session, x': Session) {
    Both(c, op, oq, x', y) && Keeps(x, y, x', y) && SameTokens(x, y, x', y)
  }

  lemma Conclude(c: Config, op: seq<Status>, oq: seq<Status>, x: Session, y: Session,
                 x': Session, pop: bool, ms: seq<Msg>)
    requires Both(c, op, oq, x, y) && Careful(c.N(), op, x, y, x', pop, ms)
    requires forall m :: m in ms ==> (m.Request? ==> Has(oq, m.i)) && (m.Piece? ==> GoodPiece(c, m.i, m.data))
    requires x'.pc.Claimed? ==> Has(oq, x'.pc.i)
    requires x'.pc.Saving? ==> GoodPiece(c, x'.pc.i, x'.pc.data)
    requires EndsRight(x, x', pop, ms)
    requires SameTokens(x, y, x', y)
    ensures Safe(c, op, oq, x, y, x')
  {
    MoveShape(c, op, oq, x, y, x', pop, ms);
    MoveLore(c.N(), op, oq, x, y, x', pop, ms);
  }

  /** A step that sends, takes and holds no token leaves all tokens where they are. */
  lemma QuietTokens(x: Session, y: Session, x': Session, pop: bool, ms: seq<Msg>)
    requires Moves(x, x', pop, ms)
    requires forall i :: AtHand(x', i) == AtHand(x, i)
    requires forall m :: m in ms ==> !m.Request? && !m.Piece?
    requires pop ==> !(x.eq[0].Net? && (x.eq[0].m.Request? || x.eq[0].m.Piece?))
    ensures SameTokens(x, y, x', y)
  {
    forall i
      ensures Tokens(x', y, i) == Tokens(x, y, i) && Tokens(y, x', i) == Tokens(y, x, i)
    {
      MoveTokens(x, y, x', pop, ms, i);
      NoTokens(ms, false, i);
      NoTokens(ms, true, i);
    }
  }

  lemma NoTokens(ms: seq<Msg>, back: bool, i: int)
    requires forall m :: m in ms ==> !m.Request? && !m.Piece?
    ensures OnWire(ms, back, i) == 0
  {
    if ms != [] {
      NoTokens(ms[1..], back, i);
    }
  }

  lemma SetupLink(c: Config, op: seq<Status>, oq: seq<Status>, x: Session, y: Session)
    requires Both(c, op, oq, x, y) && x.pc.SetupCheck?
    ensures Safe(c, op, oq, x, y, AfterSetup(x, op))
  {
    var x' := AfterSetup(x, op);
    var ms := [if NothingWanted(x.view, op) then NotInterested else Interested];
    QuietTokens(x, y, x', false, ms);
    Conclude(c, op, oq, x, y, x', false, ms);
  }

  lemma BcastCheckLink(c: Config, op: seq<Status>, oq: seq<Status>, x: Session, y: Session)
    requires Both(c, op, oq, x, y) && x.pc.BcastCheck?
    ensures Safe(c, op, oq, x, y, AfterBcastCheck(x, op))
  {
    var x' := AfterBcastCheck(x, op);
    QuietTokens(x, y, x', false, []);
    Conclude(c, op, oq, x, y, x', false, []);
  }

  lemma HaveCheckLink(c: Config, op: seq<Status>, oq: seq<Status>, x: Session, y: Session)
    requires Both(c, op, oq, x, y) && x.pc.HaveCheck?
    ensures Safe(c, op, oq, x, y, AfterHaveCheck(x, op))
  {
    var x' := AfterHaveCheck(x, op);
    var ms := if NothingWanted(x.view, op) then [] else [Interested];
    QuietTokens(x, y, x', false, ms);
    Conclude(c, op, oq, x, y, x', false, ms);
  }

  /** A step that only moves the program counter of a session that is not done. */
  lemma PcLink(c: Config, op: seq<Status>, oq: seq<Status>, x: Session, y: Session, pc: PC)
    requires Both(c, op, oq, x, y)
    requires (x.pc.Asking? && pc.Idle?)
             || (x.pc.Telling? && (pc.Idle? || pc.Asking?))
             || (x.pc.Telling? && pc.Telling? && pc.i == x.pc.i)
             || (x.pc.Sleeping? && pc.Draining?)
             || (x.pc.Saving? && pc.Saved? && pc.i == x.pc.i)
    ensures Safe(c, op, oq, x, y, x.(pc := pc))
  {
    var x' := x.(pc := pc);
    QuietTokens(x, y, x', false, []);
    Conclude(c, op, oq, x, y, x', false, []);
  }

  /** The claim becomes a request on the wire. */
  lemma SendRequestTokens(x: Session, y: Session, x': Session)
    requires x.pc.Claimed? && x' == x.(pc := Idle, out := x.out + [Request(x.pc.i)])
    ensures SameTokens(x, y, x', y)
  {
    forall i
      ensures Tokens(x', y, i) == Tokens(x, y, i) && Tokens(y, x', i) == Tokens(y, x, i)
    {
      MoveTokens(x, y, x', false, [Request(x.pc.i)], i);
    }
  }

  lemma SendRequestLink(c: Config, op: seq<Status>, oq: seq<Status>, x: Session, y: Session)
    requires Both(c, op, oq, x, y) && x.pc.Claimed?
    ensures Safe(c, op, oq, x, y, x.(pc := Idle, out := x.out + [Request(x.pc.i)]))
  {
    var x' := x.(pc := Idle, out := x.out + [Request(x.pc.i)]);
    SendRequestTokens(x, y, x');
    Conclude(c, op, oq, x, y, x', false, [Request(x.pc.i)]);
  }

  // ---------- the event loop ----------

  lemma PlainCareful(n: nat, op: seq<Status>, oq: seq<Status>, x: Session, y: Session, disk: seq<Data>)
    returns (ms: seq<Msg>)
    requires Lore(n, op, oq, x, y) && Lore(n, oq, op, y, x)
    requires x.pc.Idle? && x.eq != [] && Plain(x.eq[0]) && |disk| == |op| == |x.view| == n
    ensures var x' := AfterEvent(x.(eq := x.eq[1..]), op, disk, x.eq[0]);
      Careful(n, op, x, y, x', true, ms)
    ensures ms in {[], [Choke], [Unchoke]}
  {
    match x.eq[0]
    case TimerChoke => ms := if x.peerChoke != Choked then [Choke] else [];
    case TimerUnchoke => ms := if x.peerChoke != Unchoked then [Unchoke] else [];
    case Net(m) => ms := if m == NotInterested then [Choke] else [];
  }

  lemma PlainLink(c: Config, op: seq<Status>, oq: seq<Status>, x: Session, y: Session, disk: seq<Data>)
    requires Both(c, op, oq, x, y) && x.pc.Idle? && x.eq != [] && Plain(x.eq[0]) && |disk| == c.N()
    ensures Safe(c, op, oq, x, y, AfterEvent(x.(eq := x.eq[1..]), op, disk, x.eq[0]))
  {
    var x' := AfterEvent(x.(eq := x.eq[1..]), op, disk, x.eq[0]);
    var ms := PlainCareful(c.N(), op, oq, x, y, disk);
    QuietTokens(x, y, x', true, ms);
    Conclude(c, op, oq, x, y, x', true, ms);
  }

  lemma BcastCareful(n: nat, op: seq<Status>, oq: seq<Status>, x: Session, y: Session, pc: PC)
    requires Lore(n, op, oq, x, y) && Lore(n, oq, op, y, x) && |op| == |x.view| == n
    requires x.eq != [] && x.eq[0].BcastHave?
    requires (x.pc.Idle? && pc.BcastCheck?) || (x.pc.Draining? && pc.Draining?)
    ensures var x' := AfterBcast(x.(eq := x.eq[1..]), op, x.eq[0].i).(pc := pc);
      var ms := if NothingWanted(x.view, op) then [Have(x.eq[0].i), NotInterested] else [Have(x.eq[0].i)];
      Careful(n, op, x, y, x', true, ms)
  {
    assert Announced(y, x, x.eq[0].i);
  }

  lemma BcastLink(c: Config, op: seq<Status>, oq: seq<Status>, x: Session, y: Session, pc: PC)
    requires Both(c, op, oq, x, y) && x.eq != [] && x.eq[0].BcastHave?
    requires (x.pc.Idle? && pc.BcastCheck?) || (x.pc.Draining? && pc.Draining?)
    ensures Safe(c, op, oq, x, y, AfterBcast(x.(eq := x.eq[1..]), op, x.eq[0].i).(pc := pc))
  {
    var i := x.eq[0].i;
    var x' := AfterBcast(x.(eq := x.eq[1..]), op, i).(pc := pc);
    var ms := if NothingWanted(x.view, op) then [Have(i), NotInterested] else [Have(i)];
    BcastCareful(c.N(), op, oq, x, y, pc);
    QuietTokens(x, y, x', true, ms);
    Conclude(c, op, oq, x, y, x', true, ms);
  }

  lemma HaveLink(c: Config, op: seq<Status>, oq: seq<Status>, x: Session, y: Session)
    requires Both(c, op, oq, x, y) && x.pc.Idle? && x.eq != [] && x.eq[0].Net? && x.eq[0].m.Have?
    ensures 0 <= x.eq[0].m.i < c.N()
    ensures Safe(c, op, oq, x, y, AfterHave(x.(eq := x.eq[1..]), op, x.eq[0].m.i))
  {
    var i := x.eq[0].m.i;
    assert Announced(x, y, i);
    var x' := AfterHave(x.(eq := x.eq[1..]), op, i);
    QuietTokens(x, y, x', true, []);
    Conclude(c, op, oq, x, y, x', true, []);
  }

  /** A request taken off the queue becomes a piece on the wire. */
  lemma RequestTokens(x: Session, y: Session, x': Session, data: Data)
    requires x.pc.Idle? && x.eq != [] && x.eq[0].Net? && x.eq[0].m.Request?
    requires x' == x.(eq := x.eq[1..], out := x.out + [Piece(x.eq[0].m.i, data)])
    ensures SameTokens(x, y, x', y)
  {
    forall j
      ensures Tokens(x', y, j) == Tokens(x, y, j) && Tokens(y, x', j) == Tokens(y, x, j)
    {
      MoveTokens(x, y, x', true, [Piece(x.eq[0].m.i, data)], j);
    }
  }

  lemma RequestLink(c: Config, op: seq<Status>, oq: seq<Status>, x: Session, y: Session, data: Data)
    requires Both(c, op, oq, x, y) && x.pc.Idle? && x.eq != [] && x.eq[0].Net? && x.eq[0].m.Request?
    requires Has(op, x.eq[0].m.i) ==> GoodPiece(c, x.eq[0].m.i, data)
    ensures Has(op, x.eq[0].m.i)
    ensures Safe(c, op, oq, x, y, x.(eq := x.eq[1..], out := x.out + [Piece(x.eq[0].m.i, data)]))
  {
    var i := x.eq[0].m.i;
    assert Net(Request(i)) in x.eq;
    var x' := x.(eq := x.eq[1..], out := x.out + [Piece(i, data)]);
    RequestTokens(x, y, x', data);
    Conclude(c, op, oq, x, y, x', true, [Piece(i, data)]);
  }

  /** A piece taken off the queue is in the hand of the session. */
  lemma PieceTokens(x: Session, y: Session, x': Session)
    requires x.pc.Idle? && x.eq != [] && x.eq[0].Net? && x.eq[0].m.Piece?
    requires x' == x.(eq := x.eq[1..], pc := Saving(x.eq[0].m.i, x.eq[0].m.data))
    ensures SameTokens(x, y, x', y)
    ensures Tokens(x, y, x.eq[0].m.i) >= 1
  {
    forall j
      ensures Tokens(x', y, j) == Tokens(x, y, j) && Tokens(y, x', j) == Tokens(y, x, j)
    {
      MoveTokens(x, y, x', true, [], j);
    }
  }

  lemma PieceLink(c: Config, op: seq<Status>, oq: seq<Status>, x: Session, y: Session)
    requires Both(c, op, oq, x, y) && x.pc.Idle? && x.eq != [] && x.eq[0].Net? && x.eq[0].m.Piece?
    ensures !BadEvent(op, x.eq[0])
    ensures Safe(c, op, oq, x, y, x.(eq := x.eq[1..], pc := Saving(x.eq[0].m.i, x.eq[0].m.data)))
  {
    hide SameTokens, Tokens;
    var x' := x.(eq := x.eq[1..], pc := Saving(x.eq[0].m.i, x.eq[0].m.data));
    PieceTokens(x, y, x');
    assert x.eq[0] in x.eq;
    Conclude(c, op, oq, x, y, x', true, []);
  }

  /** "premature teardown received" cannot happen. */
  lemma NoPrematureTearDown(c: Config, op: seq<Status>, oq: seq<Status>, x: Session, y: Session)
    requires Both(c, op, oq, x, y) && x.pc.Idle? && x.eq != []
    ensures x.eq[0] != Net(TearDown)
  {
    if x.eq[0] == Net(TearDown) {
      assert y.Closed() && y.out == [];
      assert forall k :: 0 < k < |x.eq| ==> !x.eq[k].Net?;
      assert forall i :: Net(Have(i)) !in x.eq;
      forall i | 0 <= i < c.N() ensures x.view[i] == Owned && Knows(y, x, i) {
        assert Knows(x, y, i);
        assert Has(y.view, i);
      }
      assert false;
    }
  }

  // ---------- draining ----------

  /** On a link with a done end both peers own everything, so no token is left. */
  lemma DoneLinkHasNoTokens(c: Config, op: seq<Status>, oq: seq<Status>, x: Session, y: Session)
    requires Both(c, op, oq, x, y) && x.Done()
    ensures All(op) && All(oq)
    ensures forall i :: Tokens(x, y, i) == 0 && Tokens(y, x, i) == 0
  {
    forall i | 0 <= i < c.N() ensures oq[i] == Owned {
      assert Announced(x, y, i);
    }
  }

  lemma DropTokens(c: Config, op: seq<Status>, oq: seq<Status>, x: Session, y: Session,
                   x': Session, pop: bool, ms: seq<Msg>)
    requires Both(c, op, oq, x, y) && x.Done() && Moves(x, x', pop, ms)
    requires forall i :: AtHand(x', i) == 0
    requires forall m :: m in ms ==> !m.Request? && !m.Piece?
    ensures SameTokens(x, y, x', y)
  {
    DoneLinkHasNoTokens(c, op, oq, x, y);
    forall i
      ensures Tokens(x', y, i) == Tokens(x, y, i) && Tokens(y, x', i) == Tokens(y, x, i)
    {
      MoveTokens(x, y, x', pop, ms, i);
      NoTokens(ms, false, i);
      NoTokens(ms, true, i);
    }
  }

  /** A message thrown away, or the TearDown taken, by a session that is draining. */
  lemma DropLink(c: Config, op: seq<Status>, oq: seq<Status>, x: Session, y: Session)
    requires Both(c, op, oq, x, y) && x.pc.Draining? && x.eq != [] && !x.eq[0].BcastHave?
    ensures Safe(c, op, oq, x, y, AfterDrainOne(x.(eq := x.eq[1..]), op, x.eq[0]))
  {
    hide Tokens, SameTokens, QueueOk, BitfieldOk, AskOk, ContentOk, AfterBcast;
    var x' := AfterDrainOne(x.(eq := x.eq[1..]), op, x.eq[0]);
    var ms := if x.eq[0] == Net(TearDown) then [TearDown] else [];
    if x.eq[0] == Net(TearDown) {
      assert y.Closed();
      assert KnowsAll(c.N(), y, x);
    }
    if x.eq[0].Net? && x.eq[0].m.Have? { assert Announced(x, y, x.eq[0].m.i); }
    DropTokens(c, op, oq, x, y, x', true, ms);
    Conclude(c, op, oq, x, y, x', true, ms);
  }

  lemma SendTearDownLink(c: Config, op: seq<Status>, oq: seq<Status>, x: Session, y: Session)
    requires Both(c, op, oq, x, y) && x.pc.Draining? && x.eq == []
    requires KnowsAll(c.N(), y, x)
    ensures Safe(c, op, oq, x, y, x.(pc := AwaitTd, out := x.out + [TearDown]))
  {
    var x' := x.(pc := AwaitTd, out := x.out + [TearDown]);
    DropTokens(c, op, oq, x, y, x', false, [TearDown]);
    Conclude(c, op, oq, x, y, x', false, [TearDown]);
  }

  lemma AwaitLink(c: Config, op: seq<Status>, oq: seq<Status>, x: Session, y: Session)
    requires Both(c, op, oq, x, y) && x.pc.AwaitTd? && x.eq != []
    ensures Safe(c, op, oq, x, y,
                 x.(eq := x.eq[1..], pc := if x.eq[0] == Net(TearDown) then Ended else AwaitTd))
  {
    var x' := x.(eq := x.eq[1..], pc := if x.eq[0] == Net(TearDown) then Ended else AwaitTd);
    if x.eq[0].BcastHave? { assert Announced(y, x, x.eq[0].i); }
    if x.eq[0].Net? && x.eq[0].m.Have? { assert Announced(x, y, x.eq[0].m.i); }
    DropTokens(c, op, oq, x, y, x', true, []);
    Conclude(c, op, oq, x, y, x', true, []);
  }
}
