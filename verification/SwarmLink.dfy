/**
 * What holds on one link: session x (of a peer with bitfield op) receiving from
 * session y at the other end (of a peer with bitfield oq).  Each kind of step is shown to
 * keep it, in both directions.
 */
module SwarmLink {
  import opened Pieces
  import opened SwarmModel

  // ---------- knowledge ----------

  /** x knows that its peer has piece i, or will once it has read what y has sent. */
  ghost predicate Knows(x: Session, y: Session, i: int) {
    || Has(x.view, i)
    || Net(Have(i)) in x.eq
    || Have(i) in y.out
    || (y.out != [] && y.out[0].Bitfield? && Has(y.out[0].sv, i))
  }

  /** y has announced piece i to x or holds the event that will make it do so. */
  ghost predicate Announced(x: Session, y: Session, i: int) {
    Knows(x, y, i) || BcastHave(i) in y.eq
  }

  ghost predicate KnowsAll(n: nat, x: Session, y: Session) {
    forall i :: 0 <= i < n ==> Knows(x, y, i)
  }

  /** A TearDown is sent only once the other end knows of every piece or is about to read of it. */
  ghost predicate Informed(c: Config, st: State, l: Step)
    requires WellFormed(c, st) && l.s in st.ses
  {
    l.SendTearDown? ==> KnowsAll(c.N(), st.ses[Rev(l.s)], st.ses[l.s])
  }

  // ---------- request tokens ----------

  /** Tokens of piece i travelling out (requests) or back (pieces). */
  predicate IsToken(m: Msg, back: bool, i: int) {
    if back then m.Piece? && m.i == i else m == Request(i)
  }

  function OnWire(ms: seq<Msg>, back: bool, i: int): nat {
    if ms == [] then 0 else (if IsToken(ms[0], back, i) then 1 else 0) + OnWire(ms[1..], back, i)
  }

  function InQueue(es: seq<Event>, back: bool, i: int): nat {
    if es == [] then 0
    else (if es[0].Net? && IsToken(es[0].m, back, i) then 1 else 0) + InQueue(es[1..], back, i)
  }

  function AtHand(x: Session, i: int): nat {
    if (x.pc.Claimed? || x.pc.Saving? || x.pc.Saved?) && x.pc.i == i then 1 else 0
  }

  /** The tokens of piece i held for x on its link with y. */
  function Tokens(x: Session, y: Session, i: int): nat {
    AtHand(x, i)
    + OnWire(x.out, false, i) + InQueue(y.eq, false, i)
    + OnWire(y.out, true, i) + InQueue(x.eq, true, i)
  }

  lemma OnWireAppend(ms: seq<Msg>, more: seq<Msg>, back: bool, i: int)
    ensures OnWire(ms + more, back, i) == OnWire(ms, back, i) + OnWire(more, back, i)
  {
    if ms == [] {
      assert ms + more == more;
    } else {
      OnWireAppend(ms[1..], more, back, i);
      assert (ms + more)[1..] == ms[1..] + more;
    }
  }

  lemma InQueueAppend(es: seq<Event>, e: Event, back: bool, i: int)
    ensures InQueue(es + [e], back, i) == InQueue(es, back, i) + InQueue([e], back, i)
  {
    if es == [] {
      assert es + [e] == [e];
    } else {
      InQueueAppend(es[1..], e, back, i);
      assert (es + [e])[1..] == es[1..] + [e];
    }
  }

  // ---------- the link invariant ----------

  /** Before the scanner of x starts, its queue holds broadcasts only; before the snapshot, nothing. */
  ghost predicate QueueOk(x: Session) {
    && (x.pc.Fresh? ==> x.eq == [] && x.out == [])
    && (!x.Started() ==> forall e :: e in x.eq ==> e.BcastHave?)
    && (forall e :: e in x.eq && e.Net? ==> !e.m.Bitfield?)
  }

  /** The bitfield is the first message on the wire and the only one of its kind. */
  ghost predicate BitfieldOk(n: nat, x: Session, y: Session) {
    && (forall k :: 0 < k < |y.out| ==> !y.out[k].Bitfield?)
    && (x.AwaitsBitfield() ==>
          && (forall i :: !Has(x.view, i))
          && (y.Ready() ==> y.out != [] && y.out[0].Bitfield? && |y.out[0].sv| == n))
    && (!x.AwaitsBitfield() ==> y.Ready() && (y.out != [] ==> !y.out[0].Bitfield?))
  }

  /** TearDown is the last message ever sent: by a closed session, under way until it ends the other. */
  ghost predicate TearDownOk(x: Session, y: Session) {
    && (TearDown in y.out || Net(TearDown) in x.eq ==> y.Closed())
    && (y.Closed() && !x.pc.Ended? ==> TearDown in y.out || Net(TearDown) in x.eq)
    && (forall k :: 0 <= k < |y.out| - 1 ==> y.out[k] != TearDown)
    && (forall k :: 0 <= k < |x.eq| && x.eq[k] == Net(TearDown) ==>
          y.out == [] && forall j :: k < j < |x.eq| ==> !x.eq[j].Net?)
  }

  /** Whatever is known or about to be announced is true. */
  ghost predicate Sound(oq: seq<Status>, x: Session, y: Session) {
    && (forall i :: Announced(x, y, i) ==> Has(oq, i))
    && (y.pc.Telling? ==> Has(oq, y.pc.i))
  }

  /** A done session and its peer own everything; a closed one has said so. */
  ghost predicate DoneOk(n: nat, op: seq<Status>, x: Session, y: Session) {
    && (x.Done() ==> All(x.view) && All(op))
    && (y.Closed() ==> KnowsAll(n, x, y))
  }

  /** A session that should be done is. */
  ghost predicate SettledOk(n: nat, x: Session, y: Session) {
    x.Settled() ==> !(All(x.view) && KnowsAll(n, y, x))
  }

  /** What x asks of y, y's peer owns. */
  ghost predicate AskOk(oq: seq<Status>, x: Session, y: Session) {
    && (x.pc.Claimed? ==> Has(oq, x.pc.i))
    && (forall i :: Request(i) in x.out || Net(Request(i)) in y.eq ==> Has(oq, i))
  }

  predicate GoodPiece(c: Config, i: int, data: Data) {
    0 <= i < c.N() && data == c.file[i]
  }

  /** Every piece that travels carries the content of the file. */
  ghost predicate ContentOk(c: Config, x: Session, y: Session) {
    && (x.pc.Saving? ==> GoodPiece(c, x.pc.i, x.pc.data))
    && (forall m :: m in y.out && m.Piece? ==> GoodPiece(c, m.i, m.data))
    && (forall e :: e in x.eq && e.Net? && e.m.Piece? ==> GoodPiece(c, e.m.i, e.m.data))
  }

  /** At most one token for a piece, and only while it is requested. */
  ghost predicate TokensOk(op: seq<Status>, x: Session, y: Session) {
    forall i :: Tokens(x, y, i) <= 1
             && (Tokens(x, y, i) == 1 ==> 0 <= i < |op| && op[i] == Requested)
  }

  /** NotInterested is honest, except between learning of pieces and speaking about them. */
  ghost predicate HonestOk(op: seq<Status>, x: Session) {
    x.lastSaid == IsNotInterested && !x.pc.HaveCheck? && !x.pc.SetupCheck? ==> NothingWanted(x.view, op)
  }

  ghost predicate Shape(c: Config, oq: seq<Status>, x: Session, y: Session) {
    && QueueOk(x)
    && BitfieldOk(c.N(), x, y)
    && TearDownOk(x, y)
    && AskOk(oq, x, y)
    && ContentOk(c, x, y)
  }

  ghost predicate Lore(n: nat, op: seq<Status>, oq: seq<Status>, x: Session, y: Session) {
    && Sound(oq, x, y)
    && DoneOk(n, op, x, y)
    && SettledOk(n, x, y)
    && HonestOk(op, x)
  }

  ghost predicate Link(c: Config, op: seq<Status>, oq: seq<Status>, x: Session, y: Session) {
    && |op| == |oq| == |x.view| == |y.view| == c.N()
    && Shape(c, oq, x, y)
    && Lore(c.N(), op, oq, x, y)
    && TokensOk(op, x, y)
  }

  ghost predicate Both(c: Config, op: seq<Status>, oq: seq<Status>, x: Session, y: Session) {
    Link(c, op, oq, x, y) && Link(c, oq, op, y, x)
  }

  /** Nothing that was announced is lost. */
  ghost predicate Keeps(x: Session, y: Session, x': Session, y': Session) {
    forall i :: (Announced(x, y, i) ==> Announced(x', y', i)) && (Announced(y, x, i) ==> Announced(y', x', i))
  }

  ghost predicate SameTokens(x: Session, y: Session, x': Session, y': Session) {
    forall i :: Tokens(x', y', i) == Tokens(x, y, i) && Tokens(y', x', i) == Tokens(y, x, i)
  }

  // ---------- a session thread at work: it may take one event and send some messages ----------

  ghost predicate Moves(x: Session, x': Session, pop: bool, ms: seq<Msg>) {
    && (pop ==> x.eq != [])
    && x'.eq == (if pop then x.eq[1..] else x.eq)
    && x'.out == x.out + ms
    && !x.AwaitsBitfield() && !x'.AwaitsBitfield()
    && (x.Started() ==> x'.Started())
    && (x.Closed() ==> x'.Closed() && ms == [])
    && (forall m :: m in ms ==> !m.Bitfield? && (m == TearDown ==> ms == [TearDown] && x'.Closed()))
  }

  /** A TearDown taken off the queue ends the session, and a session that closes sends one. */
  ghost predicate EndsRight(x: Session, x': Session, pop: bool, ms: seq<Msg>) {
    && (pop && x.eq != [] && x.eq[0] == Net(TearDown) ==> x'.pc.Ended?)
    && (x.pc.Ended? ==> x'.pc.Ended?)
    && (x'.Closed() ==> x.Closed() || ms == [TearDown])
  }

  lemma MoveShape(c: Config, op: seq<Status>, oq: seq<Status>, x: Session, y: Session,
                  x': Session, pop: bool, ms: seq<Msg>)
    requires Shape(c, oq, x, y) && Shape(c, op, y, x)
    requires Moves(x, x', pop, ms)
    requires forall m :: m in ms ==> (m.Request? ==> Has(oq, m.i)) && (m.Piece? ==> GoodPiece(c, m.i, m.data))
    requires x'.pc.Claimed? ==> Has(oq, x'.pc.i)
    requires x'.pc.Saving? ==> GoodPiece(c, x'.pc.i, x'.pc.data)
    requires EndsRight(x, x', pop, ms)
    ensures Shape(c, oq, x', y) && Shape(c, op, y, x')
  {
    hide TearDownOk;
    MoveTearDown(x, y, x', pop, ms);
    assert forall e :: e in x'.eq ==> e in x.eq;
  }

  lemma MoveTearDown(x: Session, y: Session, x': Session, pop: bool, ms: seq<Msg>)
    requires TearDownOk(x, y) && TearDownOk(y, x)
    requires Moves(x, x', pop, ms) && EndsRight(x, x', pop, ms)
    ensures TearDownOk(x', y) && TearDownOk(y, x')
  {
    if pop { assert x.eq == [x.eq[0]] + x.eq[1..]; }
    assert forall k :: 0 <= k < |x'.eq| ==> x'.eq[k] == x.eq[if pop then k + 1 else k];
  }

  lemma MoveKnows(x: Session, y: Session, x': Session, pop: bool, ms: seq<Msg>, i: int)
    requires Moves(x, x', pop, ms)
    requires x.out == [] ==> ms == [] || !ms[0].Bitfield?
    requires Has(x.view, i) ==> Has(x'.view, i)
    requires Has(x'.view, i) ==> Has(x.view, i) || (pop && x.eq[0] == Net(Have(i)))
    ensures Knows(y, x', i) <==> Knows(y, x, i) || Have(i) in ms
    ensures Knows(x', y, i) ==> Knows(x, y, i)
    ensures Knows(x, y, i) ==> Knows(x', y, i) || (pop && x.eq[0] == Net(Have(i)) && !Has(x'.view, i))
  {
    if pop { assert x.eq == [x.eq[0]] + x.eq[1..]; }
  }

  lemma MoveTokens(x: Session, y: Session, x': Session, pop: bool, ms: seq<Msg>, i: int)
    requires Moves(x, x', pop, ms)
    ensures Tokens(x', y, i) == Tokens(x, y, i) - AtHand(x, i) + AtHand(x', i)
            + OnWire(ms, false, i) - (if pop then InQueue([x.eq[0]], true, i) else 0)
    ensures Tokens(y, x', i) == Tokens(y, x, i)
            + OnWire(ms, true, i) - (if pop then InQueue([x.eq[0]], false, i) else 0)
  {
    OnWireAppend(x.out, ms, false, i);
    OnWireAppend(x.out, ms, true, i);
  }

  /** What the thread must respect for the knowledge on its link to stay right. */
  ghost predicate Careful(n: nat, op: seq<Status>, x: Session, y: Session, x': Session, pop: bool, ms: seq<Msg>) {
    && Moves(x, x', pop, ms)
    && (x.out == [] && ms != [] ==> !ms[0].Bitfield?)
    // an event is taken off the queue only to be acted upon, or when it is news to nobody
    && (pop && x.eq[0].BcastHave? ==> Have(x.eq[0].i) in ms || Knows(y, x, x.eq[0].i))
    && (pop && x.eq[0].Net? && x.eq[0].m.Have? ==> Has(x'.view, x.eq[0].m.i))
    // the view changes by received HAVEs only
    && |x'.view| == |x.view|
    && (forall i :: Has(x.view, i) ==> Has(x'.view, i))
    && (forall i :: Has(x'.view, i) ==> Has(x.view, i) || (pop && x.eq[0] == Net(Have(i))))
    // only owned pieces are announced
    && (forall m :: m in ms && m.Have? ==> Has(op, m.i))
    && (x'.pc.Telling? ==> Has(op, x'.pc.i))
    // the program counter agrees with what is known
    && (x'.Done() ==> All(x'.view) && All(op))
    && (x'.Closed() ==> KnowsAll(n, y, x))
    && (x'.Settled() ==>
          || (x.Settled() && x'.view == x.view && forall m :: m in ms ==> !m.Have?)
          || !(All(op) && All(x'.view)))
    && HonestOk(op, x')
  }

  lemma MoveLore(n: nat, op: seq<Status>, oq: seq<Status>, x: Session, y: Session,
                 x': Session, pop: bool, ms: seq<Msg>)
    requires |op| == |x.view| == n
    requires Lore(n, op, oq, x, y) && Lore(n, oq, op, y, x) && Careful(n, op, x, y, x', pop, ms)
    ensures Lore(n, op, oq, x', y) && Lore(n, oq, op, y, x')
    ensures Keeps(x, y, x', y)
  {
    forall i
      ensures Knows(y, x', i) <==> Knows(y, x, i) || Have(i) in ms
      ensures Knows(x', y, i) <==> Knows(x, y, i)
    {
      MoveKnows(x, y, x', pop, ms, i);
    }
    if pop { assert x.eq == [x.eq[0]] + x.eq[1..]; }
    forall i
      ensures Announced(y, x', i) <==> Announced(y, x, i) || Have(i) in ms
      ensures Announced(x', y, i) <==> Announced(x, y, i)
    {
      assert BcastHave(i) in x'.eq ==> BcastHave(i) in x.eq;
      assert BcastHave(i) in x.eq ==> BcastHave(i) in x'.eq || (pop && x.eq[0] == BcastHave(i));
    }
    if x'.Settled() && All(x'.view) && KnowsAll(n, y, x') {
      if !All(op) {
        var i :| 0 <= i < n && op[i] != Owned;
        assert Announced(y, x', i);
        assert false;
      }
    }
    if y.Settled() && KnowsAll(n, x', y) {
      assert forall i :: 0 <= i < n ==> Knows(x, y, i);
    }
  }
}
