/** The steps that stay on one link, and the writing of a piece, keep the global invariant. */
module SwarmSafety {
  import opened Pieces
  import opened SwarmModel
  import opened SwarmLink
  import opened SwarmMoves
  import opened SwarmArrivals
  import opened SwarmInvariant

  // ---------- one link ----------

  ghost predicate GoodDisk(c: Config, op: seq<Status>, disk: seq<Data>) {
    |disk| == |op| == c.N() && forall i :: Has(op, i) ==> disk[i] == c.file[i]
  }

  lemma DispatchPair(c: Config, op: seq<Status>, oq: seq<Status>, disk: seq<Data>, x: Session, y: Session)
    requires Both(c, op, oq, x, y) && GoodDisk(c, op, disk)
    requires x.pc.Idle? && x.eq != [] && !BadEvent(op, x.eq[0])
    ensures Safe(c, op, oq, x, y, AfterEvent(x.(eq := x.eq[1..]), op, disk, x.eq[0]))
  {
    hide Link;
    var e := x.eq[0];
    if Plain(e) {
      PlainLink(c, op, oq, x, y, disk);
    } else if e.BcastHave? {
      BcastLink(c, op, oq, x, y, BcastCheck);
    } else if e.m.Have? {
      HaveLink(c, op, oq, x, y);
    } else if e.m.Request? {
      RequestLink(c, op, oq, x, y, disk[e.m.i]);
    } else {
      PieceLink(c, op, oq, x, y);
    }
  }

  lemma DrainPair(c: Config, op: seq<Status>, oq: seq<Status>, x: Session, y: Session)
    requires Both(c, op, oq, x, y) && x.pc.Draining? && x.eq != []
    ensures Safe(c, op, oq, x, y, AfterDrainOne(x.(eq := x.eq[1..]), op, x.eq[0]))
  {
    hide Link;
    if x.eq[0].BcastHave? {
      BcastLink(c, op, oq, x, y, Draining);
    } else {
      DropLink(c, op, oq, x, y);
    }
  }

  /** Steps that leave the shared bitfield alone. */
  predicate OwnStays(l: Step) {
    !l.Claim? && !l.SetOwned?
  }

  lemma PairStep(c: Config, op: seq<Status>, oq: seq<Status>, disk: seq<Data>, all: set<Sid>,
                 x: Session, y: Session, l: Step)
    requires Both(c, op, oq, x, y) && GoodDisk(c, op, disk) && |x.view| == c.N()
    requires CanMove(c, x, y, op, l) && OwnStays(l)
    requires l.SendTearDown? ==> KnowsAll(c.N(), y, x)
    ensures SafePair(c, op, oq, x, y, Moved(c, x, y, op, disk, all, l), Read(y, l))
  {
    hide Link;
    match l
    case TakeSnapshot(_) => SnapshotLink(c, op, oq, x, y);
    case SayInterest(_) => SetupLink(c, op, oq, x, y);
    case RecvBitfield(_) => BitfieldLink(c, op, oq, x, y);
    case Scan(_) => ScanLink(c, op, oq, x, y);
    case Tick(_, e) => ArriveLink(c, op, oq, x, y, e);
    case Dispatch(_) => DispatchPair(c, op, oq, disk, x, y);
    case CheckAfterBcast(_) => BcastCheckLink(c, op, oq, x, y);
    case CheckAfterHave(_) => HaveCheckLink(c, op, oq, x, y);
    case NoClaim(_) => PcLink(c, op, oq, x, y, Idle);
    case SendRequest(_) => SendRequestLink(c, op, oq, x, y);
    case WriteDisk(_) => PcLink(c, op, oq, x, y, Saved(x.pc.i));
    case AckHave(_, t) => PcLink(c, op, oq, x, y, Telling(x.pc.i, x.pc.todo - {t}));
    case EndBroadcast(_) => PcLink(c, op, oq, x, y, if x.selfChoke == Unchoked then Asking else Idle);
    case Wake(_) => PcLink(c, op, oq, x, y, Draining);
    case DrainOne(_) => DrainPair(c, op, oq, x, y);
    case SendTearDown(_) => SendTearDownLink(c, op, oq, x, y);
    case AwaitOne(_) => AwaitLink(c, op, oq, x, y);
  }

  // ---------- the swarm ----------

  /** Steps that change the sessions of one link and nothing else. */
  predicate IsLocal(l: Step) {
    OwnStays(l) && !l.WriteDisk? && !l.AckHave?
  }

  /** How such a step moves the program counter. */
  lemma MovedLocally(c: Config, x: Session, y: Session, own: seq<Status>, disk: seq<Data>, all: set<Sid>, l: Step)
    requires |own| == |disk| == |x.view| == c.N() && CanMove(c, x, y, own, l) && IsLocal(l)
    ensures var x' := Moved(c, x, y, own, disk, all, l);
      && Read(y, l).pc == y.pc
      && (x'.Ready() ==> x.Ready() || l.TakeSnapshot?)
      && (x.pc.Telling? && x.pc.todo != {} ==> x'.pc == x.pc)
      && (x'.pc.Telling? ==> x'.pc == x.pc)
      && (x'.pc.Saved? ==> x'.pc == x.pc)
  {
    hide Wanted, NothingWanted, All;
  }

  lemma LocalContained(c: Config, st: State, l: Step)
    requires Inv(c, st) && Enabled(c, st, l) && Informed(c, st, l) && IsLocal(l)
    ensures var x, y := st.ses[l.s], st.ses[Rev(l.s)];
      Contained(c, st, l.s, Moved(c, x, y, st.own[l.s.me], st.disk[l.s.me], SessionsOf(st, l.s.me), l), Read(y, l))
  {
    hide Link, Links, Complete, Unique, Backed, Both, Keeps, SameTokens, CanMove, Moved, Read, Pending;
    var x, y, op, oq := st.ses[l.s], st.ses[Rev(l.s)], st.own[l.s.me], st.own[l.s.other];
    BothOf(c, st, l.s);
    assert GoodDisk(c, op, st.disk[l.s.me]);
    PairStep(c, op, oq, st.disk[l.s.me], SessionsOf(st, l.s.me), x, y, l);
    MovedLocally(c, x, y, op, st.disk[l.s.me], SessionsOf(st, l.s.me), l);
    if l.TakeSnapshot? {
      SnapshotMove(c, op, oq, st.disk[l.s.me], SessionsOf(st, l.s.me), x, y, l);
    }
  }

  lemma SnapshotMove(c: Config, op: seq<Status>, oq: seq<Status>, disk: seq<Data>, all: set<Sid>,
                     x: Session, y: Session, l: Step)
    requires Both(c, op, oq, x, y) && |disk| == |op| == |x.view| == c.N()
    requires CanMove(c, x, y, op, l) && l.TakeSnapshot?
    ensures forall i :: Has(op, i) ==> Knows(Read(y, l), Moved(c, x, y, op, disk, all, l), i)
  {
    hide Link, Knows;
    SnapshotLink(c, op, oq, x, y);
  }

  lemma LocalInv(c: Config, st: State, l: Step)
    requires Inv(c, st) && Enabled(c, st, l) && Informed(c, st, l) && IsLocal(l)
    ensures Inv(c, Apply(c, st, l))
  {
    hide Link, Links, Complete, Unique, Backed, DiskOk, Contained;
    var x, y, p := st.ses[l.s], st.ses[Rev(l.s)], l.s.me;
    LocalContained(c, st, l);
    var x', y' := Moved(c, x, y, st.own[p], st.disk[p], SessionsOf(st, p), l), Read(y, l);
    ContainedInv(c, st, l.s, x', y');
    assert Apply(c, st, l) == With(st, l.s, x', y');
  }

  lemma WriteDiskPair(c: Config, st: State, l: Step)
    requires Inv(c, st) && Enabled(c, st, l) && l.WriteDisk?
    ensures var x, y := st.ses[l.s], st.ses[Rev(l.s)];
      && GoodPiece(c, x.pc.i, x.pc.data)
      && SafePair(c, st.own[l.s.me], st.own[l.s.other], x, y, x.(pc := Saved(x.pc.i)), y)
  {
    hide Links, Complete, Unique, Backed, DiskOk, Both, BadEvent;
    var x, y := st.ses[l.s], st.ses[Rev(l.s)];
    BothOf(c, st, l.s);
    SavingIsGood(c, st.own[l.s.me], st.own[l.s.other], x, y);
    PcLink(c, st.own[l.s.me], st.own[l.s.other], x, y, Saved(x.pc.i));
  }

  lemma SavingIsGood(c: Config, op: seq<Status>, oq: seq<Status>, x: Session, y: Session)
    requires Both(c, op, oq, x, y) && x.pc.Saving?
    ensures GoodPiece(c, x.pc.i, x.pc.data)
  {
  }

  function Written(st: State, p: Peer, i: int, data: Data): State
    requires p in st.disk && 0 <= i < |st.disk[p]|
  {
    st.(disk := st.disk[p := st.disk[p][i := data]])
  }

  /** Writing a piece that carries the content of the file harms nothing. */
  lemma WrittenInv(c: Config, st: State, p: Peer, i: int, data: Data)
    requires Inv(c, st) && p in st.own && GoodPiece(c, i, data)
    ensures Inv(c, Written(st, p, i, data))
  {
    hide Link;
    var st0 := Written(st, p, i, data);
    assert WellFormed(c, st0) && DiskOk(c, st0);
    SameSessions(c, st, st0);
  }

  /** Nothing but the content of the disks depends on them. */
  lemma SameSessions(c: Config, st: State, st0: State)
    requires Inv(c, st) && WellFormed(c, st0) && st0.ses == st.ses && st0.own == st.own
    ensures Links(c, st0) && Complete(c, st0) && Unique(c, st0) && Backed(c, st0)
  {
    hide Link, Announced, DiskOk;
    assert Complete(c, st0) by {
      forall r, j ensures Pending(st0, r, j) <==> Pending(st, r, j) {
        assert forall t :: Tells(st0, t, r, j) <==> Tells(st, t, r, j);
      }
    }
    assert Links(c, st0);
    hide Links, Complete;
    TokensAgree(c, st, st0);
  }

  lemma WriteDiskInv(c: Config, st: State, l: Step)
    requires Inv(c, st) && Enabled(c, st, l) && l.WriteDisk?
    ensures Inv(c, Apply(c, st, l))
  {
    hide Link, Links, Complete, Unique, Backed, DiskOk, SafePair, BadEvent;
    WriteDiskPair(c, st, l);
    var x, y, p := st.ses[l.s], st.ses[Rev(l.s)], l.s.me;
    var st0 := Written(st, p, x.pc.i, x.pc.data);
    WrittenInv(c, st, p, x.pc.i, x.pc.data);
    assert st0.ses == st.ses;
    ContainedInv(c, st0, l.s, x.(pc := Saved(x.pc.i)), y);
    assert Apply(c, st, l) == With(st0, l.s, x.(pc := Saved(x.pc.i)), y);
  }
}
