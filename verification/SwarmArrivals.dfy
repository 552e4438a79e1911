/** The other steps: set-up, arrivals in the event queue, and changes to the shared bitfield. */
module SwarmArrivals {
  import opened Pieces
  import opened SwarmModel
  import opened SwarmLink
  import opened SwarmMoves

  // ---------- set-up ----------

  lemma SnapshotShape(c: Config, op: seq<Status>, oq: seq<Status>, x: Session, y: Session)
    requires Shape(c, oq, x, y) && Shape(c, op, y, x) && x.pc.Fresh? && |op| == c.N()
    ensures var x' := AfterSnapshot(x, op); Shape(c, oq, x', y) && Shape(c, op, y, x')
  {
  }

  lemma SnapshotLore(n: nat, op: seq<Status>, oq: seq<Status>, x: Session, y: Session)
    requires Lore(n, op, oq, x, y) && Lore(n, oq, op, y, x)
    requires x.pc.Fresh? && x.out == [] && y.AwaitsBitfield()
    ensures var x' := AfterSnapshot(x, op);
      && Lore(n, op, oq, x', y) && Lore(n, oq, op, y, x') && Keeps(x, y, x', y)
      && forall i :: Has(op, i) ==> Knows(y, x', i)
  {
    var x' := AfterSnapshot(x, op);
    forall i
      ensures Knows(y, x', i) <==> Knows(y, x, i) || Has(op, i)
      ensures Knows(x', y, i) <==> Knows(x, y, i)
    {
    }
  }

  lemma SnapshotLink(c: Config, op: seq<Status>, oq: seq<Status>, x: Session, y: Session)
    requires Both(c, op, oq, x, y) && x.pc.Fresh?
    ensures var x' := AfterSnapshot(x, op);
      Safe(c, op, oq, x, y, x') && forall i :: Has(op, i) ==> Knows(y, x', i)
  {
    SnapshotShape(c, op, oq, x, y);
    SnapshotLore(c.N(), op, oq, x, y);
    NoTokensIn(op, x, y, AfterSnapshot(x, op));
  }

  lemma NoTokensIn(op: seq<Status>, x: Session, y: Session, x': Session)
    requires x' == AfterSnapshot(x, op) && x.pc.Fresh?
    ensures SameTokens(x, y, x', y)
  {
    forall i
      ensures Tokens(x', y, i) == Tokens(x, y, i) && Tokens(y, x', i) == Tokens(y, x, i)
    {
      OnWireAppend(x.out, [Bitfield(Snapshot(op))], false, i);
      OnWireAppend(x.out, [Bitfield(Snapshot(op))], true, i);
    }
  }

  /** The outcome of a step that also takes a message off the wire. */
  ghost predicate SafePair(c: Config, op: seq<Status>, oq: seq<Status>, x: Session, y: Session,
                           x': Session, y': Session) {
    Both(c, op, oq, x', y') && Keeps(x, y, x', y') && SameTokens(x, y, x', y')
  }

  lemma BitfieldShape(c: Config, op: seq<Status>, oq: seq<Status>, x: Session, y: Session)
    requires Shape(c, oq, x, y) && Shape(c, op, y, x) && x.pc.Snapped? && y.out != []
    ensures y.out[0].Bitfield? && |y.out[0].sv| == c.N()
    ensures var x', y' := AfterBitfield(x, op, y.out[0].sv), y.(out := y.out[1..]);
      Shape(c, oq, x', y') && Shape(c, op, y', x')
  {
    assert y.out == [y.out[0]] + y.out[1..];
    assert y.Ready();
  }

  lemma BitfieldLore(n: nat, op: seq<Status>, oq: seq<Status>, x: Session, y: Session)
    requires Lore(n, op, oq, x, y) && Lore(n, oq, op, y, x) && |op| == |x.view| == n
    requires x.pc.Snapped? && y.out != [] && y.out[0].Bitfield? && |y.out[0].sv| == n
    requires forall i :: !Has(x.view, i)
    requires |y.out| > 1 ==> !y.out[1].Bitfield?
    ensures var x', y' := AfterBitfield(x, op, y.out[0].sv), y.(out := y.out[1..]);
      Lore(n, op, oq, x', y') && Lore(n, oq, op, y', x') && Keeps(x, y, x', y')
  {
    var x', y' := AfterBitfield(x, op, y.out[0].sv), y.(out := y.out[1..]);
    assert y.out == [y.out[0]] + y.out[1..];
    forall i
      ensures Knows(x', y', i) <==> Knows(x, y, i)
      ensures Knows(y', x', i) <==> Knows(y, x, i)
    {
    }
    assert forall i :: Announced(x', y', i) <==> Announced(x, y, i);
    assert forall i :: Announced(y', x', i) <==> Announced(y, x, i);
    if x'.Settled() && All(x'.view) && KnowsAll(n, y', x') {
      var i :| 0 <= i < n && op[i] != Owned;
      assert Announced(y', x', i);
      assert false;
    }
  }

  lemma BitfieldLink(c: Config, op: seq<Status>, oq: seq<Status>, x: Session, y: Session)
    requires Both(c, op, oq, x, y) && x.pc.Snapped? && y.out != []
    ensures y.out[0].Bitfield? && |y.out[0].sv| == c.N()
    ensures SafePair(c, op, oq, x, y, AfterBitfield(x, op, y.out[0].sv), y.(out := y.out[1..]))
  {
    BitfieldShape(c, op, oq, x, y);
    BitfieldLore(c.N(), op, oq, x, y);
    BitfieldTokens(op, x, y);
  }

  lemma BitfieldTokens(op: seq<Status>, x: Session, y: Session)
    requires x.pc.Snapped? && y.out != [] && y.out[0].Bitfield?
    ensures SameTokens(x, y, AfterBitfield(x, op, y.out[0].sv), y.(out := y.out[1..]))
  {
  }

  // ---------- arrivals in the queue ----------

  lemma ScanShape(c: Config, op: seq<Status>, oq: seq<Status>, x: Session, y: Session)
    requires Shape(c, oq, x, y) && Shape(c, op, y, x) && x.Started() && y.out != []
    ensures var x', y' := x.(eq := x.eq + [Net(y.out[0])]), y.(out := y.out[1..]);
      Shape(c, oq, x', y') && Shape(c, op, y', x')
  {
    assert y.out == [y.out[0]] + y.out[1..];
    var x', y' := x.(eq := x.eq + [Net(y.out[0])]), y.(out := y.out[1..]);
    assert forall e :: e in x'.eq ==> e in x.eq || e == Net(y.out[0]);
    assert forall m :: m in y'.out ==> m in y.out;
  }

  lemma ScanLore(n: nat, op: seq<Status>, oq: seq<Status>, x: Session, y: Session)
    requires Lore(n, op, oq, x, y) && Lore(n, oq, op, y, x)
    requires x.Started() && y.out != [] && !y.out[0].Bitfield?
    requires |y.out| > 1 ==> !y.out[1].Bitfield?
    ensures var x', y' := x.(eq := x.eq + [Net(y.out[0])]), y.(out := y.out[1..]);
      Lore(n, op, oq, x', y') && Lore(n, oq, op, y', x') && Keeps(x, y, x', y')
  {
    var x', y' := x.(eq := x.eq + [Net(y.out[0])]), y.(out := y.out[1..]);
    assert y.out == [y.out[0]] + y.out[1..];
    forall i
      ensures Knows(x', y', i) <==> Knows(x, y, i)
      ensures Knows(y', x', i) <==> Knows(y, x, i)
    {
    }
    assert forall i :: Announced(x', y', i) <==> Announced(x, y, i);
    assert forall i :: Announced(y', x', i) <==> Announced(y, x, i);
  }

  lemma ScanTokens(x: Session, y: Session, x': Session, y': Session)
    requires y.out != []
    requires x' == x.(eq := x.eq + [Net(y.out[0])]) && y' == y.(out := y.out[1..])
    ensures SameTokens(x, y, x', y')
  {
    forall i
      ensures Tokens(x', y', i) == Tokens(x, y, i) && Tokens(y', x', i) == Tokens(y, x, i)
    {
      InQueueAppend(x.eq, Net(y.out[0]), false, i);
      InQueueAppend(x.eq, Net(y.out[0]), true, i);
    }
  }

  lemma ScanLink(c: Config, op: seq<Status>, oq: seq<Status>, x: Session, y: Session)
    requires Both(c, op, oq, x, y) && x.Started() && y.out != []
    ensures !y.out[0].Bitfield?
    ensures SafePair(c, op, oq, x, y, x.(eq := x.eq + [Net(y.out[0])]), y.(out := y.out[1..]))
  {
    var x', y' := x.(eq := x.eq + [Net(y.out[0])]), y.(out := y.out[1..]);
    ScanShape(c, op, oq, x, y);
    ScanLore(c.N(), op, oq, x, y);
    ScanTokens(x, y, x', y');
  }

  /** A timer tick or a broadcast enters the queue. */
  lemma ArriveLink(c: Config, op: seq<Status>, oq: seq<Status>, x: Session, y: Session, e: Event)
    requires Both(c, op, oq, x, y) && !e.Net?
    requires if e.BcastHave? then x.Ready() && Has(op, e.i) else x.Started()
    ensures Safe(c, op, oq, x, y, x.(eq := x.eq + [e]))
  {
    var x' := x.(eq := x.eq + [e]);
    assert Shape(c, oq, x', y) && Shape(c, op, y, x') by {
      assert forall e0 :: e0 in x'.eq ==> e0 in x.eq || e0 == e;
    }
    ArriveLore(c.N(), op, oq, x, y, e);
    ArriveTokens(x, y, e);
  }

  lemma ArriveLore(n: nat, op: seq<Status>, oq: seq<Status>, x: Session, y: Session, e: Event)
    requires Lore(n, op, oq, x, y) && Lore(n, oq, op, y, x) && !e.Net?
    requires e.BcastHave? ==> Has(op, e.i)
    ensures var x' := x.(eq := x.eq + [e]);
      Lore(n, op, oq, x', y) && Lore(n, oq, op, y, x') && Keeps(x, y, x', y)
  {
    var x' := x.(eq := x.eq + [e]);
    forall i
      ensures Knows(x', y, i) <==> Knows(x, y, i)
      ensures Knows(y, x', i) <==> Knows(y, x, i)
    {
    }
    assert forall i :: Announced(x', y, i) <==> Announced(x, y, i);
    assert forall i :: Announced(y, x', i) <==> Announced(y, x, i) || e == BcastHave(i);
  }

  lemma ArriveTokens(x: Session, y: Session, e: Event)
    requires !e.Net?
    ensures SameTokens(x, y, x.(eq := x.eq + [e]), y)
  {
    var x' := x.(eq := x.eq + [e]);
    forall i
      ensures Tokens(x', y, i) == Tokens(x, y, i) && Tokens(y, x', i) == Tokens(y, x, i)
    {
      InQueueAppend(x.eq, e, false, i);
      InQueueAppend(x.eq, e, true, i);
    }
  }

  // ---------- the shared bitfield moves forward ----------

  /** What is wanted of a given view only shrinks while the bitfield moves forward. */
  lemma WantedShrinks(view: seq<Status>, op: seq<Status>, op': seq<Status>)
    requires Forward(op, op') && NothingWanted(view, op)
    ensures NothingWanted(view, op')
  {
    forall i | 0 <= i < |view| ensures !Wanted(view, op', i) {
      assert !Wanted(view, op, i);
    }
  }

  /** A link of the peer that takes no part in the change. */
  lemma ForwardLink(c: Config, op: seq<Status>, oq: seq<Status>, x: Session, y: Session, op': seq<Status>)
    requires Both(c, op, oq, x, y) && Forward(op, op') && TokensOk(op', x, y)
    ensures Both(c, op', oq, x, y)
  {
    if NothingWanted(x.view, op) { WantedShrinks(x.view, op, op'); }
    if All(op) {
      forall i | 0 <= i < |op| ensures op'[i] == Owned { assert Has(op, i); }
    }
  }

  /** The tokens of the link on which piece i has just been claimed. */
  lemma ClaimLink(c: Config, op: seq<Status>, oq: seq<Status>, x: Session, y: Session, i: int)
    requires Both(c, op, oq, x, y) && x.pc.Asking? && Wanted(x.view, op, i)
    ensures var x' := x.(pc := Claimed(i));
      && Both(c, op[i := Requested], oq, x', y) && Keeps(x, y, x', y)
      && (forall j :: Tokens(x', y, j) == if j == i then 1 else Tokens(x, y, j))
      && (forall j :: Tokens(y, x', j) == Tokens(y, x, j))
  {
    var x', op' := x.(pc := Claimed(i)), op[i := Requested];
    forall j
      ensures Tokens(x', y, j) == (if j == i then 1 else Tokens(x, y, j)) && Tokens(y, x', j) == Tokens(y, x, j)
    {
      assert Tokens(x, y, i) == 0;
      MoveTokens(x, y, x', false, [], j);
    }
    assert Announced(x, y, i);
    MoveShape(c, op, oq, x, y, x', false, []);
    MoveLore(c.N(), op, oq, x, y, x', false, []);
    ClaimLore(c, op, oq, x', y, i);
  }

  lemma ClaimLore(c: Config, op: seq<Status>, oq: seq<Status>, x: Session, y: Session, i: int)
    requires Lore(c.N(), op, oq, x, y) && Lore(c.N(), oq, op, y, x) && Shape(c, op, y, x)
    requires 0 <= i < |op| && op[i] == Absent
    ensures Lore(c.N(), op[i := Requested], oq, x, y) && Lore(c.N(), oq, op[i := Requested], y, x)
    ensures Shape(c, op[i := Requested], y, x)
  {
    assert forall j :: Has(op, j) ==> Has(op[i := Requested], j);
    if NothingWanted(x.view, op) { WantedShrinks(x.view, op, op[i := Requested]); }
  }

  /** The tokens of the link on which piece i has just arrived: its own is gone. */
  lemma OwnedLink(c: Config, op: seq<Status>, oq: seq<Status>, x: Session, y: Session, todo: set<Sid>)
    requires Both(c, op, oq, x, y) && x.pc.Saved?
    ensures var i := x.pc.i; var x' := x.(pc := Telling(i, todo));
      && 0 <= i < c.N() && op[i] == Requested
      && Both(c, op[i := Owned], oq, x', y) && Keeps(x, y, x', y)
      && (forall j :: Tokens(x', y, j) == if j == i then 0 else Tokens(x, y, j))
      && (forall j :: Tokens(y, x', j) == Tokens(y, x, j))
  {
    var i := x.pc.i;
    var x' := x.(pc := Telling(i, todo));
    assert Tokens(x, y, i) == 1;
    var op' := op[i := Owned];
    forall j
      ensures Tokens(x', y, j) == (if j == i then 0 else Tokens(x, y, j)) && Tokens(y, x', j) == Tokens(y, x, j)
    {
      MoveTokens(x, y, x', false, [], j);
    }
    hide Tokens, Lore;
    OwnedShape(c, op, oq, x, y, x', i);
    OwnedLore(c, op, oq, x, y, i);
    OwnedMove(c, op', oq, x, y, x', i);
  }

  lemma OwnedShape(c: Config, op: seq<Status>, oq: seq<Status>, x: Session, y: Session, x': Session, i: int)
    requires Shape(c, oq, x, y) && Shape(c, op, y, x) && 0 <= i < |op|
    requires x.pc.Saved? && x'.pc.Telling? && x' == x.(pc := x'.pc)
    ensures Shape(c, oq, x', y) && Shape(c, op[i := Owned], y, x')
  {
    MoveShape(c, op, oq, x, y, x', false, []);
    assert forall j :: Has(op, j) ==> Has(op[i := Owned], j);
  }

  lemma OwnedMove(c: Config, op: seq<Status>, oq: seq<Status>, x: Session, y: Session, x': Session, i: int)
    requires |op| == |x.view| == c.N() && Has(op, i)
    requires Lore(c.N(), op, oq, x, y) && Lore(c.N(), oq, op, y, x)
    requires x.pc.Saved? && x'.pc.Telling? && x'.pc.i == i && x' == x.(pc := x'.pc)
    ensures Lore(c.N(), op, oq, x', y) && Lore(c.N(), oq, op, y, x') && Keeps(x, y, x', y)
  {
    MoveLore(c.N(), op, oq, x, y, x', false, []);
  }

  lemma OwnedLore(c: Config, op: seq<Status>, oq: seq<Status>, x: Session, y: Session, i: int)
    requires Lore(c.N(), op, oq, x, y) && Lore(c.N(), oq, op, y, x) && 0 <= i < |op|
    ensures Lore(c.N(), op[i := Owned], oq, x, y) && Lore(c.N(), oq, op[i := Owned], y, x)
  {
    assert forall j :: Has(op, j) ==> Has(op[i := Owned], j);
    if NothingWanted(x.view, op) { WantedShrinks(x.view, op, op[i := Owned]); }
  }
}
