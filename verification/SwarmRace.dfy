/**
 * A run in which the sleep before the drain matters.  Three peers, one piece: peer 1 gets it from peer 2
 * while it sets up its session with peer 0, and that session wakes with a broadcast under way to it.
 */
module SwarmRace {
  import opened Bytes
  import opened Pieces
  import opened SwarmModel
  import opened SwarmLink
  import opened SwarmRuns
  import opened SwarmSleep

  ghost predicate EndsIn(c: Config, sts: seq<State>, ls: seq<Step>, st: State) {
    IsFreeRun(c, sts, ls) && sts[|ls|] == st
  }

  /** Some run, of whatever sleeps, ends in state st. */
  ghost predicate Leads(c: Config, st: State) {
    exists sts, ls :: EndsIn(c, sts, ls, st)
  }

  lemma Go(c: Config, st: State, l: Step)
    requires Leads(c, st) && WellFormed(c, st) && Enabled(c, st, l)
    ensures Leads(c, Apply(c, st, l))
  {
    hide Enabled, Apply, Init;
    var sts, ls :| EndsIn(c, sts, ls, st);
    var sts', ls' := sts + [Apply(c, st, l)], ls + [l];
    assert EndsIn(c, sts', ls', Apply(c, st, l));
  }

  const ONE := Config([[7]])
  const A := Sid(1, 0)
  const B := Sid(0, 1)
  const C := Sid(1, 2)
  const D := Sid(2, 1)

  /**
   * Peers 0 and 2 have the file, which is one piece; peer 1 has status o and disk content k, session a
   * with peer 0 and session x with peer 2; b and y are the other ends.
   */
  datatype World = World(o: Status, k: Data, a: Session, b: Session, x: Session, y: Session) {

    function Swarm(): State {
      State(map[0 := [Owned], 1 := [o], 2 := [Owned]], map[0 := [[7]], 1 := [k], 2 := [[7]]],
            map[A := a, B := b, C := x, D := y])
    }

    predicate Ones() { |a.view| == |b.view| == |x.view| == |y.view| == 1 }

    function At(s: Sid): Session {
      if s == A then a else if s == B then b else if s == C then x else y
    }

    function Own(s: Sid): seq<Status> { if s.me == 1 then [o] else [Owned] }

    function Disk(s: Sid): seq<Data> { if s.me == 1 then [k] else [[7]] }

    function Mates(s: Sid): set<Sid> { if s.me == 1 then {A, C} else {s} }

    predicate Can(l: Step) {
      && Ones() && l.s in {A, B, C, D} && !l.AckHave?
      && (l.s.me != 1 ==> !l.Claim? && !l.SetOwned? && !l.WriteDisk?)
      && CanMove(ONE, At(l.s), At(Rev(l.s)), Own(l.s), l)
    }

    function Put(s: Sid, z: Session, z': Session): World
      requires s in {A, B, C, D}
    {
      if s == A then this.(a := z, b := z') else if s == B then this.(b := z, a := z')
      else if s == C then this.(x := z, y := z') else this.(y := z, x := z')
    }

    /** The world after step l. */
    function Turn(l: Step): World
      requires Can(l)
    {
      var z, z', s := At(l.s), At(Rev(l.s)), l.s;
      var w := Put(s, Moved(ONE, z, z', Own(s), Disk(s), Mates(s), l), Read(z', l));
      if s.me != 1 then w else
      OneLong(o, k, z, l);
      w.(o := OwnAfter([o], z, l)[0], k := DiskAfter([k], z, l)[0])
    }
  }

  lemma OneLong(o: Status, k: Data, x: Session, l: Step)
    ensures var own', disk' := OwnAfter([o], x, l), DiskAfter([k], x, l);
      |own'| == |disk'| == 1 && own' == [own'[0]] && disk' == [disk'[0]]
  {
  }

  lemma WorldIsFine(w: World)
    requires w.Ones()
    ensures WellFormed(ONE, w.Swarm())
    ensures var st := w.Swarm();
      SessionsOf(st, 0) == {B} && SessionsOf(st, 1) == {A, C} && SessionsOf(st, 2) == {D}
  {
  }

  lemma SessionsMove(w: World, s: Sid, z: Session, z': Session)
    requires s in {A, B, C, D}
    ensures w.Swarm().ses[s := z][Rev(s) := z'] == w.Put(s, z, z').Swarm().ses
  {
  }

  lemma WorldMoves(w: World, s: Sid, z: Session, z': Session, own: Status, disk: Data)
    requires s in {A, B, C, D} && (s.me != 1 ==> own == Owned && disk == [7])
    ensures var st, w' := w.Swarm(), w.Put(s, z, z');
      With(st, s, z, z').(own := st.own[s.me := [own]], disk := st.disk[s.me := [disk]])
      == (if s.me == 1 then w'.(o := own, k := disk) else w').Swarm()
  {
    var st, w' := w.Swarm(), w.Put(s, z, z');
    SessionsMove(w, s, z, z');
    var w1 := if s.me == 1 then w'.(o := own, k := disk) else w';
    assert w1.Swarm().ses == w'.Swarm().ses;
    assert w1.o == (if s.me == 1 then own else w.o) && w1.k == (if s.me == 1 then disk else w.k);
    hide World.Put;
    assert st.own[s.me := [own]] == w1.Swarm().own;
    assert st.disk[s.me := [disk]] == w1.Swarm().disk;
  }

  lemma Unshared(c: Config, st: State, l: Step)
    requires WellFormed(c, st) && Enabled(c, st, l) && !l.AckHave?
    ensures var p, x, y := l.s.me, st.ses[l.s], st.ses[Rev(l.s)];
      Apply(c, st, l)
      == With(st, l.s, Moved(c, x, y, st.own[p], st.disk[p], SessionsOf(st, p), l), Read(y, l)).(
           own := st.own[p := OwnAfter(st.own[p], x, l)], disk := st.disk[p := DiskAfter(st.disk[p], x, l)])
  {
  }

  lemma TurnsInSwarm(w: World, l: Step)
    requires w.Can(l)
    ensures var st, s := w.Swarm(), l.s;
      && WellFormed(ONE, st) && Enabled(ONE, st, l)
      && st.ses[s] == w.At(s) && st.ses[Rev(s)] == w.At(Rev(s)) && SessionsOf(st, s.me) == w.Mates(s)
      && st.own[s.me] == w.Own(s) && st.disk[s.me] == w.Disk(s)
  {
    hide CanMove, WellFormed, SessionsOf;
    WorldIsFine(w);
  }

  lemma Turned(w: World, l: Step) returns (w': World)
    requires Leads(ONE, w.Swarm()) && w.Can(l)
    ensures w' == w.Turn(l) && Leads(ONE, w'.Swarm())
  {
    hide CanMove, Moved, Read, Leads, OwnAfter, DiskAfter, Enabled, WellFormed, World.Swarm, Apply, With, World.Put;
    w' := w.Turn(l);
    var st, s, z, z' := w.Swarm(), l.s, w.At(l.s), w.At(Rev(l.s));
    TurnsInSwarm(w, l);
    Go(ONE, st, l);
    Unshared(ONE, st, l);
    OneLong(w.o, w.k, z, l);
    if s.me != 1 { Undisturbed(z, l); }
    WorldMoves(w, s, Moved(ONE, z, z', w.Own(s), w.Disk(s), w.Mates(s), l), Read(z', l),
               OwnAfter(w.Own(s), z, l)[0], DiskAfter(w.Disk(s), z, l)[0]);
  }

  lemma Undisturbed(x: Session, l: Step)
    requires !l.Claim? && !l.SetOwned? && !l.WriteDisk?
    ensures OwnAfter([Owned], x, l) == [Owned] && DiskAfter([[7]], x, l) == [[7]]
  {
  }

  const START := World(Absent, [0], NewSession(1), NewSession(1), NewSession(1), NewSession(1))

  lemma Started()
    ensures Leads(ONE, START.Swarm())
  {
    var st := START.Swarm();
    WorldIsFine(START);
    assert Init(ONE, st);
    assert EndsIn(ONE, [st], [], st);
  }

  const X1 := NewSession(1).(pc := Idle, view := [Owned], out := [Interested], lastSaid := IsInterested)
  const Y1 := NewSession(1).(pc := Idle, out := [NotInterested], lastSaid := IsNotInterested)

  lemma BothSnapped() returns (w: World)
    ensures Leads(ONE, w.Swarm())
    ensures w == START.(x := NewSession(1).(pc := Snapped, out := [Bitfield([Absent])]),
                        y := NewSession(1).(pc := Snapped, out := [Bitfield([Owned])]))
  {
    hide Leads, World.Swarm, AfterEvent, AfterBcast, AfterHave, AfterHaveCheck, AfterDrainOne, BadEvent;
    Started();
    w := Turned(START, TakeSnapshot(C));
    w := Turned(w, TakeSnapshot(D));
    assert Snapshot([Absent]) == [Absent] && Snapshot([Owned]) == [Owned];
  }

  /** Peers 1 and 2 set up their link. */
  lemma LinkSetUp() returns (w: World)
    ensures Leads(ONE, w.Swarm())
    ensures w == START.(x := X1, y := Y1)
  {
    hide Leads, World.Swarm, AfterEvent, AfterBcast, AfterHave, AfterHaveCheck, AfterDrainOne, BadEvent;
    w := BothSnapped();
    w := Turned(w, RecvBitfield(C));
    w := Turned(w, RecvBitfield(D));
    assert w.x.out == [] && w.y.out == [];
    assert Wanted([Owned], [Absent], 0);
    hide AfterSnapshot, AfterBitfield;
    w := Turned(w, SayInterest(C));
    w := Turned(w, SayInterest(D));
  }

  const Y2 := Y1.(peerChoke := Unchoked, out := [])
  const X2 := X1.(eq := [Net(NotInterested), Net(Unchoke)])

  /** Peer 2 unchokes peer 1. */
  lemma PeerUnchoked() returns (w: World)
    ensures Leads(ONE, w.Swarm())
    ensures w == START.(x := X2, y := Y2)
  {
    hide Leads, World.Swarm, AfterHave, AfterHaveCheck, AfterBcast, AfterDrainOne, All, NothingWanted, Wanted;
    w := LinkSetUp();
    w := Turned(w, Tick(D, TimerUnchoke));
    assert w.y.eq == [TimerUnchoke];
    w := Turned(w, Dispatch(D));
    assert w.y.out == [NotInterested, Unchoke] && w.y.eq == [];
    w := Turned(w, Scan(C));
    assert w.y.out == [Unchoke] && w.x.eq == [Net(NotInterested)];
    w := Turned(w, Scan(C));
    assert w.y.out == [] && w.x.eq == [Net(NotInterested), Net(Unchoke)];
  }

  const X3 := X1.(peerInterest := IsNotInterested, selfChoke := Unchoked, out := [Interested, Choke, Request(0)])

  /** Peer 1 claims the piece and asks for it. */
  lemma PieceRequested() returns (w: World)
    ensures Leads(ONE, w.Swarm())
    ensures w == START.(o := Requested, x := X3, y := Y2)
  {
    hide Leads, World.Swarm;
    w := PeerUnchoked();
    w := Turned(w, Dispatch(C));
    assert w.x.eq == [Net(Unchoke)] && w.x.out == [Interested, Choke];
    w := Turned(w, Dispatch(C));
    assert w.x.eq == [] && w.x.pc.Asking?;
    assert Wanted([Owned], [Absent], 0);
    w := Turned(w, Claim(C, 0));
    w := Turned(w, SendRequest(C));
    assert w.x.out == [Interested, Choke, Request(0)];
  }

  const Y4 := Y2.(peerInterest := IsInterested, selfChoke := Choked, out := [Piece(0, [7])])
  const X4 := X3.(out := [])

  const Y3 := Y2.(peerInterest := IsInterested, selfChoke := Choked)

  /** Peer 2 reads what peer 1 has to say. */
  lemma PeerListens() returns (w: World)
    ensures Leads(ONE, w.Swarm())
    ensures w == START.(o := Requested, x := X4.(out := [Request(0)]), y := Y3)
  {
    hide Leads, World.Swarm, All, NothingWanted, Wanted;
    w := PieceRequested();
    w := Turned(w, Scan(D));
    assert w.x.out == [Choke, Request(0)] && w.y.eq == [Net(Interested)];
    w := Turned(w, Dispatch(D));
    assert w.y.eq == [];
    w := Turned(w, Scan(D));
    assert w.x.out == [Request(0)] && w.y.eq == [Net(Choke)];
    w := Turned(w, Dispatch(D));
    assert w.y.eq == [];
  }

  /** Peer 2 answers with the piece. */
  lemma PieceSent() returns (w: World)
    ensures Leads(ONE, w.Swarm())
    ensures w == START.(o := Requested, x := X4, y := Y4)
  {
    hide Leads, World.Swarm, All, NothingWanted, Wanted;
    w := PeerListens();
    w := Turned(w, Scan(D));
    assert w.x.out == [] && w.y.eq == [Net(Request(0))];
    w := Turned(w, Dispatch(D));
    assert w.y.eq == [] && w.y.out == [Piece(0, [7])];
  }

  lemma PieceArrived() returns (w: World)
    ensures Leads(ONE, w.Swarm())
    ensures w == START.(o := Requested, x := X4.(pc := Saving(0, [7])), y := Y4.(out := []))
  {
    hide Leads, World.Swarm, All, NothingWanted, Wanted;
    w := PieceSent();
    w := Turned(w, Scan(C));
    assert w.y.out == [] && w.x.eq == [Net(Piece(0, [7]))];
    w := Turned(w, Dispatch(C));
    assert w.x.eq == [];
  }

  lemma PieceWritten() returns (w: World)
    ensures Leads(ONE, w.Swarm())
    ensures w == START.(o := Requested, k := [7], x := X4.(pc := Saved(0)), y := Y4.(out := []))
  {
    hide Leads, World.Swarm, All, NothingWanted, Wanted, AfterEvent, BadEvent;
    w := PieceArrived();
    w := Turned(w, WriteDisk(C));
  }

  /** Peer 1 has written the piece and not yet marked it owned when its session with peer 0 takes the snapshot. */
  lemma PieceStored() returns (w: World)
    ensures Leads(ONE, w.Swarm())
    ensures w == START.(o := Owned, k := [7], x := X4.(pc := Telling(0, {A, C})), y := Y4.(out := []),
                        a := START.a.(pc := Snapped, out := [Bitfield([Absent])]),
                        b := START.b.(pc := Snapped, out := [Bitfield([Owned])]))
  {
    hide Leads, World.Swarm, AfterEvent, BadEvent, NothingWanted, Wanted;
    w := PieceWritten();
    assert Snapshot([Requested]) == [Absent] && Snapshot([Owned]) == [Owned];
    w := Turned(w, TakeSnapshot(A));
    w := Turned(w, TakeSnapshot(B));
    w := Turned(w, SetOwned(C));
  }

  /** Its session with peer 0 then finds both complete. */
  lemma FoundDone() returns (w: World)
    ensures Leads(ONE, w.Swarm()) && w.Ones() && w.o == Owned && w.x.pc == Telling(0, {A, C})
    ensures w.a == START.a.(pc := SetupCheck(true), view := [Owned], out := [Bitfield([Absent])])
    ensures w.b == START.b.(pc := Snapped)
  {
    hide Leads, World.Swarm, AfterEvent, AfterBcast, AfterHave, AfterHaveCheck, AfterDrainOne, AfterSetup, BadEvent;
    w := PieceStored();
    assert All([Owned]);
    hide All, NothingWanted, Wanted;
    w := Turned(w, RecvBitfield(A));
    assert w.b.out == [];
  }

  /** It goes to sleep, with the broadcast under way. */
  lemma LeftBehind() returns (w: World)
    ensures Leads(ONE, w.Swarm())
    ensures w.Ones() && w.a.pc.Sleeping? && w.a.eq == [] && w.a.out == []
    ensures w.b.pc.Idle? && w.b.eq == [] && w.x.pc == Telling(0, {A, C})
  {
    hide Leads, World.Swarm, AfterEvent, AfterBcast, AfterHave, AfterHaveCheck, AfterDrainOne, AfterSetup, BadEvent;
    w := FoundDone();
    assert !All([Absent]) by { assert [Absent][0] != Owned; }
    hide All, NothingWanted, Wanted;
    w := Turned(w, RecvBitfield(B));
    assert w.a.out == [];
    w := SleepsUnheard(w);
  }

  lemma SleepsUnheard(v: World) returns (w: World)
    requires Leads(ONE, v.Swarm()) && v.Ones() && v.o == Owned && v.x.pc == Telling(0, {A, C})
    requires v.a == START.a.(pc := SetupCheck(true), view := [Owned])
    requires v.b == START.b.(pc := SetupCheck(false))
    ensures Leads(ONE, w.Swarm())
    ensures w.Ones() && w.a.pc.Sleeping? && w.a.eq == [] && w.a.out == []
    ensures w.b.pc.Idle? && w.b.eq == [] && w.x.pc == Telling(0, {A, C})
  {
    hide Leads, World.Swarm, AfterHave, AfterDrainOne, AfterSnapshot, AfterBitfield;
    w := v;
    assert NothingWanted([Owned], [Owned]) && NothingWanted([Absent], [Owned]);
    w := Turned(w, Step.SayInterest(A));
    w := Turned(w, Step.SayInterest(B));
    assert w.a.out == [NotInterested];
    w := Turned(w, Scan(B));
    assert w.a.out == [] && w.b.eq == [Net(NotInterested)];
    w := Turned(w, Dispatch(B));
    assert w.b.eq == [];
  }

  // ---------- an early waking that does no harm ----------

  /** As above, but the piece is marked owned before the snapshots: both ends learn of everything. */
  lemma BothAnnounceAll() returns (w: World)
    ensures Leads(ONE, w.Swarm()) && w.Ones() && w.o == Owned && w.x.pc == Telling(0, {A, C})
    ensures w.a == START.a.(pc := Snapped, out := [Bitfield([Owned])])
    ensures w.b == START.b.(pc := Snapped, out := [Bitfield([Owned])])
  {
    hide Leads, World.Swarm, AfterEvent, BadEvent, NothingWanted, Wanted, AfterBcast, AfterDrainOne, AfterSetup, AfterHave, AfterHaveCheck, AfterBitfield, AfterBcastCheck, All;
    w := PieceWritten();
    w := Turned(w, SetOwned(C));
    assert Snapshot([Owned]) == [Owned];
    w := Turned(w, TakeSnapshot(A));
    w := Turned(w, TakeSnapshot(B));
  }

  lemma BothFindDone() returns (w: World)
    ensures Leads(ONE, w.Swarm()) && w.Ones() && w.x.pc == Telling(0, {A, C})
    ensures w.a.pc == SetupCheck(true) && w.b == START.b.(pc := SetupCheck(true), view := [Owned])
  {
    hide Leads, World.Swarm, AfterEvent, BadEvent, NothingWanted, Wanted, AfterBcast, AfterDrainOne, AfterSetup;
    w := BothAnnounceAll();
    assert All([Owned]);
    hide All;
    w := Turned(w, RecvBitfield(A));
    assert w.b.out == [];
    w := Turned(w, RecvBitfield(B));
    assert w.a.out == [];
  }

  /** A broadcast is under way to a sleeping session, and yet its TearDown would not be too early. */
  lemma EarlyWakeMayBeHarmless() returns (w: World)
    ensures Leads(ONE, w.Swarm()) && w.a.pc.Sleeping?
    ensures Pending(w.Swarm(), A, 0) && KnowsAll(1, w.b, w.a)
  {
    hide Leads, World.Swarm, AfterEvent, BadEvent, Wanted, NothingWanted, AfterBcast, AfterDrainOne, All;
    w := BothFindDone();
    w := Turned(w, Step.SayInterest(A));
    assert w.a.pc.Sleeping? && Has(w.b.view, 0);
    TellsA(w);
  }

  lemma TellsA(w: World)
    requires w.x.pc == Telling(0, {A, C})
    ensures Pending(w.Swarm(), A, 0)
  {
    assert Tells(w.Swarm(), C, A, 0);
  }

  /** It wakes too early, sends its TearDown, and peer 0 reads it. */
  lemma WakesTooEarly() returns (w: World)
    ensures Leads(ONE, w.Swarm())
    ensures w.Ones() && w.b.pc.Idle? && w.b.eq == [Net(TearDown)]
  {
    hide Leads, World.Swarm, AfterEvent, AfterDrainOne, BadEvent;
    w := LeftBehind();
    w := Turned(w, Wake(A));
    w := Turned(w, SendTearDown(A));
    assert w.a.out == [TearDown];
    w := Turned(w, Scan(B));
  }

  /** If a sleep may be too short, a premature TearDown is received: a run of the swarm ends in a panic. */
  lemma SleepIsNeeded()
    ensures exists sts: seq<State>, ls: seq<Step> ::
              IsFreeRun(ONE, sts, ls) && WellFormed(ONE, sts[|ls|]) && B in sts[|ls|].ses && Panics(ONE, sts[|ls|], B)
  {
    var w := WakesTooEarly();
    var st := w.Swarm();
    WorldIsFine(w);
    assert st.ses[B] == w.b;
    var sts, ls :| EndsIn(ONE, sts, ls, st);
    hide IsFreeRun, WellFormed, World.Swarm;
    assert Panics(ONE, st, B);
  }
}
