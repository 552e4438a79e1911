/** The main results: what holds in every state of every run of the swarm. */
module SwarmRuns {
  import opened Bytes
  import opened Codec
  import opened Geometry
  import opened Pieces
  import opened SwarmModel
  import opened SwarmLink
  import opened SwarmMoves
  import opened SwarmInvariant
  import opened SwarmShared

  /**
   * The states and the steps of a run, from an initial state on, in which no TearDown is sent before
   * the other end has been told of every piece.  The module SwarmSleep relates this to the sleep.
   */
  ghost predicate IsRun(c: Config, sts: seq<State>, ls: seq<Step>) {
    && |sts| == |ls| + 1
    && Init(c, sts[0])
    && forall k :: 0 <= k < |ls| ==>
         && WellFormed(c, sts[k]) && Enabled(c, sts[k], ls[k]) && Informed(c, sts[k], ls[k])
         && sts[k + 1] == Apply(c, sts[k], ls[k])
  }

  /** The run passes through state st after n steps. */
  ghost predicate Visits(c: Config, sts: seq<State>, ls: seq<Step>, n: nat, st: State) {
    IsRun(c, sts, ls) && n <= |ls| && st == sts[n]
  }

  lemma InitInv(c: Config, st: State)
    requires Init(c, st)
    ensures Inv(c, st)
  {
    forall s | s in st.ses
      ensures Link(c, st.own[s.me], st.own[s.other], st.ses[s], st.ses[Rev(s)])
    {
      assert Rev(s) in st.ses;
    }
    forall s | s in st.ses ensures forall i :: Tok(c, st, s, i) == 0 {
      assert Rev(s) in st.ses;
    }
  }

  lemma RunInv(c: Config, sts: seq<State>, ls: seq<Step>, k: nat)
    requires IsRun(c, sts, ls) && k <= |ls|
    ensures Inv(c, sts[k])
  {
    hide Inv, Init, Enabled, Apply, Informed;
    if k == 0 {
      InitInv(c, sts[0]);
    } else {
      RunInv(c, sts, ls, k - 1);
      StepInv(c, sts[k - 1], ls[k - 1]);
    }
  }

  lemma LinkOf(c: Config, sts: seq<State>, ls: seq<Step>, n: nat, st: State, s: Sid)
    requires Visits(c, sts, ls, n, st) && s in st.ses
    ensures WellFormed(c, st) && Rev(s) in st.ses
    ensures Both(c, st.own[s.me], st.own[s.other], st.ses[s], st.ses[Rev(s)])
  {
    hide Both, Links, Complete, Unique, Backed, DiskOk, IsRun;
    RunInv(c, sts, ls, n);
    BothOf(c, st, s);
  }

  // ---------- no panic ----------

  lemma NoBadEvent(c: Config, op: seq<Status>, oq: seq<Status>, x: Session, y: Session)
    requires Both(c, op, oq, x, y) && x.pc.Idle? && x.eq != []
    ensures !BadEvent(op, x.eq[0])
  {
    var e := x.eq[0];
    if e.Net? {
      assert e in x.eq;
      if e.m.Have? { HaveLink(c, op, oq, x, y); }
      if e.m.Piece? { PieceLink(c, op, oq, x, y); }
      if e.m.TearDown? { NoPrematureTearDown(c, op, oq, x, y); }
    }
  }

  lemma SavingInRange(c: Config, op: seq<Status>, oq: seq<Status>, x: Session, y: Session)
    requires Both(c, op, oq, x, y) && x.pc.Saved?
    ensures 0 <= x.pc.i < c.N()
  {
    assert Tokens(x, y, x.pc.i) == 1;
  }

  lemma BitfieldInTurn(c: Config, op: seq<Status>, oq: seq<Status>, x: Session, y: Session)
    requires Both(c, op, oq, x, y) && y.out != []
    ensures x.Started() ==> !y.out[0].Bitfield?
    ensures x.pc.Snapped? ==> y.out[0].Bitfield? && |y.out[0].sv| == c.N()
  {
  }

  lemma GoodSave(c: Config, op: seq<Status>, oq: seq<Status>, x: Session, y: Session)
    requires Both(c, op, oq, x, y) && x.pc.Saving?
    ensures 0 <= x.pc.i < c.N() && |x.pc.data| == |c.file[x.pc.i]|
  {
  }

  /**
   * None of the panics of the event loop, the scanner, the set-up and the repository is reachable:
   * no request for a piece not owned, no piece that was not requested, no premature TearDown,
   * no index out of range, no bitfield out of turn, no piece of the wrong size.
   */
  lemma NeverPanics(c: Config, sts: seq<State>, ls: seq<Step>, n: nat, st: State, s: Sid)
    requires Visits(c, sts, ls, n, st) && s in st.ses
    ensures WellFormed(c, st) && !Panics(c, st, s)
  {
    hide IsRun, Both, BadEvent;
    LinkOf(c, sts, ls, n, st, s);
    var x, y, op, oq := st.ses[s], st.ses[Rev(s)], st.own[s.me], st.own[s.other];
    if x.pc.Idle? && x.eq != [] { NoBadEvent(c, op, oq, x, y); }
    if x.pc.Saving? { GoodSave(c, op, oq, x, y); }
    if x.pc.Saved? { SavingInRange(c, op, oq, x, y); }
    if y.out != [] { BitfieldInTurn(c, op, oq, x, y); }
  }

  // ---------- tokens ----------

  /**
   * Request tokens are conserved: a piece is requested exactly while one token for it exists
   * among all the sessions of the peer, and then it is one only.
   */
  lemma TokensConserved(c: Config, sts: seq<State>, ls: seq<Step>, n: nat, st: State, p: Peer, i: int)
    requires Visits(c, sts, ls, n, st) && p in st.own && 0 <= i < c.N()
    ensures WellFormed(c, st)
    ensures st.own[p][i] == Requested <==> exists s :: Holds(c, st, s, p, i)
    ensures forall s, t :: Holds(c, st, s, p, i) && Holds(c, st, t, p, i) ==> s == t
    ensures forall s :: Holds(c, st, s, p, i) ==> Tok(c, st, s, i) == 1
  {
    hide IsRun, Link, Links, Complete, DiskOk, Tokens;
    RunInv(c, sts, ls, n);
    forall s | Holds(c, st, s, p, i) ensures Tok(c, st, s, i) == 1 && st.own[p][i] == Requested {
      TokenMeansRequested(c, st, s, i);
    }
  }

  // ---------- knowledge ----------

  lemma AnnouncedIsOwned(c: Config, op: seq<Status>, oq: seq<Status>, x: Session, y: Session, i: int)
    requires Both(c, op, oq, x, y) && Announced(y, x, i)
    ensures Has(op, i)
  {
  }

  /**
   * Knowledge is accounted for: what a peer owns is exactly what the other end knows, or is on its
   * way to it, or waits in a queue of the peer, or is in a broadcast under way.
   */
  lemma ViewsAccount(c: Config, sts: seq<State>, ls: seq<Step>, n: nat, st: State, s: Sid, i: int)
    requires Visits(c, sts, ls, n, st) && s in st.ses && st.ses[s].Ready()
    ensures WellFormed(c, st)
    ensures Has(st.own[s.me], i) <==> Announced(st.ses[Rev(s)], st.ses[s], i) || Pending(st, s, i)
  {
    hide IsRun, Links, Unique, Backed, DiskOk, Both, Announced;
    RunInv(c, sts, ls, n);
    LinkOf(c, sts, ls, n, st, s);
    if Announced(st.ses[Rev(s)], st.ses[s], i) {
      AnnouncedIsOwned(c, st.own[s.me], st.own[s.other], st.ses[s], st.ses[Rev(s)], i);
    }
    if Pending(st, s, i) {
      var t :| Tells(st, t, s, i);
      TellerOwns(c, st, t);
    }
  }

  ghost predicate Silent(st: State) {
    forall s :: s in st.ses ==> st.ses[s].eq == [] && st.ses[s].out == [] && !st.ses[s].pc.Telling?
  }

  lemma ReadyPair(c: Config, op: seq<Status>, oq: seq<Status>, x: Session, y: Session)
    requires Both(c, op, oq, x, y) && !x.AwaitsBitfield()
    ensures y.Ready()
  {
  }

  /** When nothing is under way, what each session knows of its peer is exactly what the peer owns. */
  lemma ViewsExact(c: Config, sts: seq<State>, ls: seq<Step>, n: nat, st: State, s: Sid, i: int)
    requires Visits(c, sts, ls, n, st) && Silent(st) && s in st.ses && !st.ses[s].AwaitsBitfield()
    ensures WellFormed(c, st)
    ensures Has(st.ses[s].view, i) <==> Has(st.own[s.other], i)
  {
    hide IsRun, Both;
    LinkOf(c, sts, ls, n, st, s);
    var r := Rev(s);
    ReadyPair(c, st.own[s.me], st.own[s.other], st.ses[s], st.ses[r]);
    ViewsAccount(c, sts, ls, n, st, r, i);
    assert !Pending(st, r, i);
    assert Rev(r) == s;
  }

  lemma SettledPair(c: Config, op: seq<Status>, oq: seq<Status>, x: Session, y: Session)
    requires Both(c, op, oq, x, y) && x.Settled()
    ensures !(All(x.view) && KnowsAll(c.N(), y, x))
  {
  }

  /**
   * No session is left undone: when nothing is under way, a session that has no check due is done
   * exactly if both peers own everything.
   */
  lemma NoSessionIsStuck(c: Config, sts: seq<State>, ls: seq<Step>, n: nat, st: State, s: Sid)
    requires Visits(c, sts, ls, n, st) && Silent(st) && s in st.ses && Rev(s) in st.ses
    requires st.ses[s].Settled() || st.ses[s].Done()
    requires !st.ses[s].AwaitsBitfield() && !st.ses[Rev(s)].AwaitsBitfield()
    ensures WellFormed(c, st)
    ensures st.ses[s].Done() <==> All(st.own[s.me]) && All(st.own[s.other])
  {
    hide IsRun, Both;
    LinkOf(c, sts, ls, n, st, s);
    var x, y, op, oq := st.ses[s], st.ses[Rev(s)], st.own[s.me], st.own[s.other];
    if x.Done() {
      DoneLinkHasNoTokens(c, op, oq, x, y);
    } else if All(op) && All(oq) {
      forall i | 0 <= i < c.N() ensures x.view[i] == Owned && Knows(y, x, i) {
        assert Has(oq, i) && Has(op, i);
        ViewsExact(c, sts, ls, n, st, s, i);
        ViewsExact(c, sts, ls, n, st, Rev(s), i);
      }
      SettledPair(c, op, oq, x, y);
    }
  }

  lemma HonestPair(c: Config, op: seq<Status>, oq: seq<Status>, x: Session, y: Session)
    requires Both(c, op, oq, x, y) && x.Started() && !x.pc.HaveCheck? && x.lastSaid == IsNotInterested
    ensures NothingWanted(x.view, op)
  {
  }

  /** NotInterested is honest: between handlers nothing is wanted of a peer that was told so. */
  lemma NotInterestedIsHonest(c: Config, sts: seq<State>, ls: seq<Step>, n: nat, st: State, s: Sid)
    requires Visits(c, sts, ls, n, st) && s in st.ses && st.ses[s].Started() && !st.ses[s].pc.HaveCheck?
    requires st.ses[s].lastSaid == IsNotInterested
    ensures WellFormed(c, st)
    ensures NothingWanted(st.ses[s].view, st.own[s.me])
  {
    hide IsRun, Both;
    LinkOf(c, sts, ls, n, st, s);
    HonestPair(c, st.own[s.me], st.own[s.other], st.ses[s], st.ses[Rev(s)]);
  }

  // ---------- teardown ----------

  lemma ClosedPair(c: Config, op: seq<Status>, oq: seq<Status>, x: Session, y: Session)
    requires Both(c, op, oq, x, y) && y.Closed()
    ensures KnowsAll(c.N(), x, y)
    ensures Net(TearDown) in x.eq || TearDown in y.out || x.pc.Ended?
    ensures forall k :: 0 <= k < |y.out| - 1 ==> y.out[k] != TearDown
    ensures Net(TearDown) in x.eq ==> y.out == []
  {
  }

  /**
   * What a done session throws away does not matter: both peers own everything, neither has a
   * request or a piece on the link in either direction, and once the TearDown is sent the other
   * end knows of every piece or is about to read of it.
   */
  lemma DrainingLosesNothing(c: Config, sts: seq<State>, ls: seq<Step>, n: nat, st: State, s: Sid)
    requires Visits(c, sts, ls, n, st) && s in st.ses && st.ses[s].Done()
    ensures WellFormed(c, st)
    ensures All(st.own[s.me]) && All(st.own[s.other])
    ensures forall i :: Tok(c, st, s, i) == 0 && Tok(c, st, Rev(s), i) == 0
    ensures st.ses[s].Closed() ==> KnowsAll(c.N(), st.ses[Rev(s)], st.ses[s])
  {
    hide IsRun, Link;
    LinkOf(c, sts, ls, n, st, s);
    var x, y, op, oq := st.ses[s], st.ses[Rev(s)], st.own[s.me], st.own[s.other];
    DoneLinkHasNoTokens(c, op, oq, x, y);
    if x.Closed() { ClosedPair(c, oq, op, y, x); }
  }

  /**
   * The teardown handshake closes: a closed end's TearDown is its last message and stays under way
   * until it has ended the other end, so with both closed and nothing under way both have ended.
   */
  lemma HandshakeCloses(c: Config, sts: seq<State>, ls: seq<Step>, n: nat, st: State, s: Sid)
    requires Visits(c, sts, ls, n, st) && s in st.ses && Rev(s) in st.ses && st.ses[Rev(s)].Closed()
    ensures var x, y := st.ses[s], st.ses[Rev(s)];
      && (x.pc.Ended? || Net(TearDown) in x.eq || TearDown in y.out)
      && (forall k :: 0 <= k < |y.out| - 1 ==> y.out[k] != TearDown)
      && (Net(TearDown) in x.eq ==> y.out == [])
      && (x.Closed() && Silent(st) ==> x.pc.Ended? && y.pc.Ended?)
  {
    hide IsRun, Link;
    LinkOf(c, sts, ls, n, st, s);
    var x, y, op, oq := st.ses[s], st.ses[Rev(s)], st.own[s.me], st.own[s.other];
    ClosedPair(c, op, oq, x, y);
    if x.Closed() { ClosedPair(c, oq, op, y, x); }
  }

  // ---------- content ----------

  /** Every owned piece of every peer has the content of the file; a complete peer holds the file. */
  lemma ContentAgrees(c: Config, sts: seq<State>, ls: seq<Step>, n: nat, st: State, p: Peer)
    requires Visits(c, sts, ls, n, st) && p in st.own
    ensures WellFormed(c, st)
    ensures forall i :: Has(st.own[p], i) ==> st.disk[p][i] == c.file[i]
    ensures All(st.own[p]) ==> st.disk[p] == c.file
  {
    hide IsRun, Link, Links, Complete, Unique, Backed;
    RunInv(c, sts, ls, n);
    if All(st.own[p]) {
      forall i | 0 <= i < c.N() ensures st.disk[p][i] == c.file[i] {
        assert Has(st.own[p], i);
      }
    }
  }

  lemma ContentPair(c: Config, op: seq<Status>, oq: seq<Status>, x: Session, y: Session)
    requires Both(c, op, oq, x, y)
    ensures ContentOk(c, x, y)
  {
  }

  /** Every piece on a wire, in a queue or about to be saved carries the content of the file. */
  lemma PiecesCarryTheFile(c: Config, sts: seq<State>, ls: seq<Step>, n: nat, st: State, s: Sid)
    requires Visits(c, sts, ls, n, st) && s in st.ses && Rev(s) in st.ses
    ensures forall m :: m in st.ses[Rev(s)].out && m.Piece? ==> GoodPiece(c, m.i, m.data)
    ensures forall m: Msg :: Net(m) in st.ses[s].eq && m.Piece? ==> GoodPiece(c, m.i, m.data)
    ensures st.ses[s].pc.Saving? ==> GoodPiece(c, st.ses[s].pc.i, st.ses[s].pc.data)
  {
    hide IsRun, Both;
    LinkOf(c, sts, ls, n, st, s);
    ContentPair(c, st.own[s.me], st.own[s.other], st.ses[s], st.ses[Rev(s)]);
  }

  // ---------- what goes over the wire ----------

  /** Piece indices and payloads fit in the integers of the message format. */
  ghost predicate SmallEnough(c: Config) {
    && c.N() + 1 < TWO_TO_THE_31
    && forall i :: 0 <= i < c.N() ==> 4 + MD5_DIGEST_LENGTH + |c.file[i]| + 1 < TWO_TO_THE_31
  }

  lemma SendablePair(c: Config, op: seq<Status>, oq: seq<Status>, x: Session, y: Session)
    requires Both(c, op, oq, x, y) && SmallEnough(c)
    ensures AllSendable(x.out)
  {
    forall k | 0 <= k < |x.out| ensures Sendable(x.out[k]) {
      var m := x.out[k];
      assert m in x.out;
      match m
      case Have(i) => assert Announced(y, x, i);
      case Request(i) => assert Has(oq, i);
      case Piece(i, data) => assert GoodPiece(c, i, data);
      case Bitfield(sv) => assert k == 0 && y.AwaitsBitfield();
      case _ =>
    }
  }

  /** Every message that a session has sent can be framed, so the wire format carries what the swarm sends. */
  lemma WiresAreSendable(c: Config, sts: seq<State>, ls: seq<Step>, n: nat, st: State, s: Sid)
    requires Visits(c, sts, ls, n, st) && s in st.ses && SmallEnough(c)
    ensures AllSendable(st.ses[s].out)
  {
    hide IsRun, Both;
    LinkOf(c, sts, ls, n, st, s);
    SendablePair(c, st.own[s.me], st.own[s.other], st.ses[s], st.ses[Rev(s)]);
  }

  // ---------- bytes ----------

  /**
   * In bytes: a peer whose file g is what its disk says, cut into pieces, owns all pieces only
   * if g is the file that the complete peers started from, byte for byte.
   */
  lemma CompletePeerHasFile(c: Config, sts: seq<State>, ls: seq<Step>, n: nat, st: State, p: Peer,
                            file: seq<Byte>, g: seq<Byte>, ps: nat)
    requires Visits(c, sts, ls, n, st) && p in st.own && p in st.disk
    requires ps > 0 && c.file == Cut(file, ps) && |g| == |file| && st.disk[p] == Cut(g, ps)
    ensures All(st.own[p]) ==> g == file
    ensures forall i :: 0 <= i < NumPieces(|file|, ps) && Has(st.own[p], i) ==> Slice(g, ps, i) == Slice(file, ps, i)
  {
    hide IsRun, Cut, Slice;
    ContentAgrees(c, sts, ls, n, st, p);
    CutDetermines(g, file, ps);
    forall i | 0 <= i < NumPieces(|file|, ps) && Has(st.own[p], i)
      ensures Slice(g, ps, i) == Slice(file, ps, i)
    {
      CutAt(g, ps, i);
      CutAt(file, ps, i);
    }
  }
}
