/**
 * The swarm: any number of peers, each with one shared bitfield and one session
 * for each neighbour.  A session is a thread with a program counter, an event queue
 * `eq` that mixes network messages with local events, and a wire `out`
 * to the session at the other end.  Every step below is one atomic action of one
 * thread; a handler that touches shared state more than once is several steps.
 */
module SwarmModel {
  import opened Bytes
  import opened Pieces

  type Peer = nat
  type Data = seq<Byte>

  /** The session that peer `me` holds with peer `other`. */
  datatype Sid = Sid(me: Peer, other: Peer)

  function Rev(s: Sid): Sid {
    Sid(s.other, s.me)
  }

  datatype Msg =
    | Choke | Unchoke | Interested | NotInterested
    | Have(i: int) | Bitfield(sv: seq<Status>) | Request(i: int) | Piece(i: int, data: Data)
    | TearDown

  datatype Event = TimerChoke | TimerUnchoke | BcastHave(i: int) | Net(m: Msg)

  datatype ChokeStatus = Choked | Unchoked | ChokeUnknown
  datatype InterestStatus = IsInterested | IsNotInterested | InterestUnknown

  /** Where a session thread stands. */
  datatype PC =
    | Fresh                            // before the snapshot of the own bitfield
    | Snapped                          // bitfield sent, is_bcast_ready, awaiting the peer's bitfield
    | SetupCheck(done: bool)           // view built, first done check made
    | Idle                             // at the head of the event loop
    | BcastCheck                       // HAVE sent, before the done check
    | HaveCheck                        // view updated and found not done, before the interest check
    | Asking                           // in requestNextIfPossible, before the claim
    | Claimed(i: int)                  // piece i claimed, Request not sent yet
    | Saving(i: int, data: Data)       // before repo.save
    | Saved(i: int)                    // before setOwned
    | Telling(i: int, todo: set<Sid>)  // in broadcastHave
    | Sleeping                         // is_done, in the one-second sleep
    | Draining
    | AwaitTd                          // own TearDown sent, the peer's not received
    | Ended

  /**
   * `view` is peer_own, all absent until the peer's bitfield is received.
   * `lastSaid` is a history variable: the last interest message sent.
   */
  datatype Session = Session(
    pc: PC, view: seq<Status>, eq: seq<Event>, out: seq<Msg>,
    selfChoke: ChokeStatus, peerChoke: ChokeStatus,
    peerInterest: InterestStatus, lastSaid: InterestStatus)
  {
    /** is_bcast_ready */
    predicate Ready() { pc != Fresh }

    predicate AwaitsBitfield() { pc.Fresh? || pc.Snapped? }

    /** is_active, and the message scanner runs */
    predicate Started() { !pc.Fresh? && !pc.Snapped? && !pc.SetupCheck? }

    /** is_done */
    predicate Done() {
      (pc.SetupCheck? && pc.done) || pc.Sleeping? || pc.Draining? || Closed()
    }

    /** the session has sent its TearDown */
    predicate Closed() { pc.AwaitTd? || pc.Ended? }

    /** not done, and past every done check that is due */
    predicate Settled() { !AwaitsBitfield() && !Done() && !pc.BcastCheck? }
  }

  /** The file cut into pieces; every complete peer holds the same one. */
  datatype Config = Config(file: seq<Data>) {
    function N(): nat { |file| }
  }

  datatype State = State(
    own: map<Peer, seq<Status>>, disk: map<Peer, seq<Data>>, ses: map<Sid, Session>)

  ghost predicate WellFormed(c: Config, st: State) {
    && (forall p :: p in st.own ==> p in st.disk && |st.own[p]| == c.N() && |st.disk[p]| == c.N())
    && (forall s :: s in st.ses ==>
          s.me in st.own && s.other in st.own && s.me != s.other && Rev(s) in st.ses
          && |st.ses[s].view| == c.N())
  }

  // ---------- what one session thread does in one step ----------

  function AfterSnapshot(x: Session, own: seq<Status>): Session {
    x.(pc := Snapped, out := x.out + [Bitfield(Snapshot(own))])
  }

  function AfterBitfield(x: Session, own: seq<Status>, sv: seq<Status>): Session {
    x.(pc := SetupCheck(All(sv) && All(own)), view := sv)
  }

  function AfterSetup(x: Session, own: seq<Status>): Session
    requires x.pc.SetupCheck?
  {
    var x1 := x.(pc := if x.pc.done then Sleeping else Idle);
    if NothingWanted(x.view, own)
    then x1.(out := x.out + [NotInterested], lastSaid := IsNotInterested)
    else x1.(out := x.out + [Interested], lastSaid := IsInterested)
  }

  function AfterBcast(x: Session, own: seq<Status>, i: int): Session {
    if NothingWanted(x.view, own)
    then x.(out := x.out + [Have(i), NotInterested], lastSaid := IsNotInterested)
    else x.(out := x.out + [Have(i)])
  }

  /** The done check after a BcastHave. */
  function AfterBcastCheck(x: Session, own: seq<Status>): Session {
    x.(pc := if All(own) && All(x.view) then Sleeping else Idle)
  }

  function AfterHave(x: Session, own: seq<Status>, i: int): Session
    requires 0 <= i < |x.view|
  {
    var view := x.view[i := Owned];
    x.(view := view, pc := if All(own) && All(view) then Sleeping else HaveCheck)
  }

  function AfterHaveCheck(x: Session, own: seq<Status>): Session {
    if NothingWanted(x.view, own) then x.(pc := Idle)
    else x.(pc := Idle, out := x.out + [Interested], lastSaid := IsInterested)
  }

  /** The panics of the event loop, on the event e that has just been dequeued. */
  predicate BadEvent(own: seq<Status>, e: Event) {
    match e
    case Net(Request(i)) => !Has(own, i)
    case Net(Piece(i, _)) => !(0 <= i < |own| && own[i] == Requested)
    case Net(Have(i)) => !(0 <= i < |own|)
    case Net(TearDown) => true
    case Net(Bitfield(_)) => true
    case _ => false
  }

  /** An event that neither carries a token nor announces anything. */
  predicate Plain(e: Event) {
    e.TimerChoke? || e.TimerUnchoke?
    || (e.Net? && (e.m.Choke? || e.m.Unchoke? || e.m.Interested? || e.m.NotInterested?))
  }

  /** One turn of the event loop, up to the first access to shared state that follows. */
  function AfterEvent(x: Session, own: seq<Status>, disk: seq<Data>, e: Event): Session
    requires |own| == |x.view| == |disk|
    requires !BadEvent(own, e)
  {
    match e
    case TimerChoke =>
      if x.peerChoke != Choked then x.(peerChoke := Choked, out := x.out + [Choke]) else x
    case TimerUnchoke =>
      if x.peerChoke != Unchoked then x.(peerChoke := Unchoked, out := x.out + [Unchoke]) else x
    case BcastHave(i) => AfterBcast(x, own, i).(pc := BcastCheck)
    case Net(Choke) => x.(selfChoke := Choked)
    case Net(Unchoke) => x.(selfChoke := Unchoked, pc := Asking)
    case Net(Interested) => x.(peerInterest := IsInterested)
    case Net(NotInterested) => x.(peerInterest := IsNotInterested, out := x.out + [Choke])
    case Net(Have(i)) => AfterHave(x, own, i)
    case Net(Request(i)) => x.(out := x.out + [Piece(i, disk[i])])
    case Net(Piece(i, data)) => x.(pc := Saving(i, data))
  }

  /** One turn of the loop that drains the queue after the sleep. */
  function AfterDrainOne(x: Session, own: seq<Status>, e: Event): Session {
    match e
    case BcastHave(i) => AfterBcast(x, own, i)
    case Net(TearDown) => x.(pc := Ended, out := x.out + [TearDown])
    case _ => x
  }

  // ---------- the steps ----------

  datatype Step =
    | TakeSnapshot(s: Sid) | RecvBitfield(s: Sid) | SayInterest(s: Sid)
    | Scan(s: Sid) | Tick(s: Sid, e: Event)
    | Dispatch(s: Sid) | CheckAfterBcast(s: Sid) | CheckAfterHave(s: Sid)
    | Claim(s: Sid, i: int) | NoClaim(s: Sid) | SendRequest(s: Sid)
    | WriteDisk(s: Sid) | SetOwned(s: Sid) | AckHave(s: Sid, t: Sid) | EndBroadcast(s: Sid)
    | Wake(s: Sid) | DrainOne(s: Sid) | SendTearDown(s: Sid) | AwaitOne(s: Sid)

  /** Some session of the same peer has yet to pass HAVE i on to session r. */
  ghost predicate Pending(st: State, r: Sid, i: int) {
    exists t :: Tells(st, t, r, i)
  }

  ghost predicate Tells(st: State, t: Sid, r: Sid, i: int) {
    t in st.ses && t.me == r.me && st.ses[t].pc.Telling? && st.ses[t].pc.i == i && r in st.ses[t].pc.todo
  }

  function SessionsOf(st: State, p: Peer): set<Sid> {
    set t | t in st.ses && t.me == p
  }

  /**
   * Whether session x can take step l, given the session y at the other end
   * and the bitfield of its own peer.
   */
  predicate CanMove(c: Config, x: Session, y: Session, own: seq<Status>, l: Step) {
    match l
    case TakeSnapshot(_) => x.pc.Fresh?
    case RecvBitfield(_) => x.pc.Snapped? && y.out != [] && y.out[0].Bitfield? && |y.out[0].sv| == c.N()
    case SayInterest(_) => x.pc.SetupCheck?
    case Scan(_) => x.Started() && y.out != [] && !y.out[0].Bitfield?
    case Tick(_, e) => x.Started() && (e.TimerChoke? || e.TimerUnchoke?)
    case Dispatch(_) => x.pc.Idle? && x.eq != [] && !BadEvent(own, x.eq[0])
    case CheckAfterBcast(_) => x.pc.BcastCheck?
    case CheckAfterHave(_) => x.pc.HaveCheck?
    case Claim(_, i) => x.pc.Asking? && Wanted(x.view, own, i)
    case NoClaim(_) => x.pc.Asking? && NothingWanted(x.view, own)
    case SendRequest(_) => x.pc.Claimed?
    case WriteDisk(_) => x.pc.Saving? && 0 <= x.pc.i < c.N() && |x.pc.data| == |c.file[x.pc.i]|
    case SetOwned(_) => x.pc.Saved? && 0 <= x.pc.i < c.N()
    case AckHave(_, t) => x.pc.Telling? && t in x.pc.todo
    case EndBroadcast(_) => x.pc.Telling? && x.pc.todo == {}
    case Wake(_) => x.pc.Sleeping?
    case DrainOne(_) => x.pc.Draining? && x.eq != []
    case SendTearDown(_) => x.pc.Draining? && x.eq == []
    case AwaitOne(_) => x.pc.AwaitTd? && x.eq != []
  }

  /** Session x after step l; `all` are the sessions of its peer. */
  function Moved(c: Config, x: Session, y: Session, own: seq<Status>, disk: seq<Data>,
                 all: set<Sid>, l: Step): Session
    requires |own| == |disk| == |x.view| == c.N() && CanMove(c, x, y, own, l)
  {
    match l
    case TakeSnapshot(_) => AfterSnapshot(x, own)
    case RecvBitfield(_) => AfterBitfield(x, own, y.out[0].sv)
    case SayInterest(_) => AfterSetup(x, own)
    case Scan(_) => x.(eq := x.eq + [Net(y.out[0])])
    case Tick(_, e) => x.(eq := x.eq + [e])
    case Dispatch(_) => AfterEvent(x.(eq := x.eq[1..]), own, disk, x.eq[0])
    case CheckAfterBcast(_) => AfterBcastCheck(x, own)
    case CheckAfterHave(_) => AfterHaveCheck(x, own)
    case Claim(_, i) => x.(pc := Claimed(i))
    case NoClaim(_) => x.(pc := Idle)
    case SendRequest(_) => x.(pc := Idle, out := x.out + [Request(x.pc.i)])
    case WriteDisk(_) => x.(pc := Saved(x.pc.i))
    case SetOwned(_) => x.(pc := Telling(x.pc.i, all))
    case AckHave(_, t) => x.(pc := Telling(x.pc.i, x.pc.todo - {t}))
    case EndBroadcast(_) => x.(pc := if x.selfChoke == Unchoked then Asking else Idle)
    case Wake(_) => x.(pc := Draining)
    case DrainOne(_) => AfterDrainOne(x.(eq := x.eq[1..]), own, x.eq[0])
    case SendTearDown(_) => x.(pc := AwaitTd, out := x.out + [TearDown])
    case AwaitOne(_) =>
      x.(eq := x.eq[1..], pc := if x.eq[0] == Net(TearDown) then Ended else AwaitTd)
  }

  /** The other end after step l: the set-up and the scanner take a message off its wire. */
  function Read(y: Session, l: Step): Session {
    if (l.RecvBitfield? || l.Scan?) && y.out != [] then y.(out := y.out[1..]) else y
  }

  ghost predicate Enabled(c: Config, st: State, l: Step)
    requires WellFormed(c, st)
  {
    && l.s in st.ses
    && CanMove(c, st.ses[l.s], st.ses[Rev(l.s)], st.own[l.s.me], l)
    && (l.AckHave? ==> l.t in st.ses && l.t.me == l.s.me)
  }

  /** ackHave on session t: the event is enqueued once the snapshot of t has been taken. */
  function Acked(x: Session, i: int): Session {
    if x.Ready() then x.(eq := x.eq + [BcastHave(i)]) else x
  }

  function With(st: State, s: Sid, x: Session, y: Session): State {
    st.(ses := st.ses[s := x][Rev(s) := y])
  }

  /** The bitfield of the peer after step l. */
  function OwnAfter(own: seq<Status>, x: Session, l: Step): seq<Status> {
    match l
    case Claim(_, i) => if 0 <= i < |own| then own[i := Requested] else own
    case SetOwned(_) => if x.pc.Saved? && 0 <= x.pc.i < |own| then own[x.pc.i := Owned] else own
    case _ => own
  }

  function DiskAfter(disk: seq<Data>, x: Session, l: Step): seq<Data> {
    if l.WriteDisk? && x.pc.Saving? && 0 <= x.pc.i < |disk| then disk[x.pc.i := x.pc.data] else disk
  }

  /** ackHave happens on the session that is told before the telling session goes on. */
  function AckedState(st: State, l: Step): State
    requires l.s in st.ses
  {
    if l.AckHave? && l.t in st.ses && st.ses[l.s].pc.Telling?
    then st.(ses := st.ses[l.t := Acked(st.ses[l.t], st.ses[l.s].pc.i)]) else st
  }

  function Apply(c: Config, st: State, l: Step): State
    requires WellFormed(c, st) && Enabled(c, st, l)
  {
    var p, st0 := l.s.me, AckedState(st, l);
    var x, y := st0.ses[l.s], st0.ses[Rev(l.s)];
    var own, disk := st.own[p], st.disk[p];
    var st1 := With(st0, l.s, Moved(c, x, y, own, disk, SessionsOf(st, p), l), Read(y, l));
    st1.(own := st.own[p := OwnAfter(own, x, l)], disk := st.disk[p := DiskAfter(disk, x, l)])
  }

  /** Complete peers hold the file, the others nothing; no session has begun. */
  ghost predicate Init(c: Config, st: State) {
    && WellFormed(c, st)
    && (forall p :: p in st.own ==>
          || (All(st.own[p]) && st.disk[p] == c.file)
          || (forall i :: 0 <= i < c.N() ==> st.own[p][i] == Absent))
    && (forall s :: s in st.ses ==> st.ses[s] == NewSession(c.N()))
  }

  function NewSession(n: nat): Session {
    Session(Fresh, seq(n, _ => Absent), [], [], ChokeUnknown, ChokeUnknown, InterestUnknown, InterestUnknown)
  }

  // ---------- the panics, as conditions on a state ----------

  ghost predicate Panics(c: Config, st: State, s: Sid)
    requires WellFormed(c, st) && s in st.ses
  {
    var x, y := st.ses[s], st.ses[Rev(s)];
    || (x.pc.Idle? && x.eq != [] && BadEvent(st.own[s.me], x.eq[0]))
    || (x.pc.Saving? && !(0 <= x.pc.i < c.N() && |x.pc.data| == |c.file[x.pc.i]|))
    || (x.pc.Saved? && !(0 <= x.pc.i < c.N()))
    // the message scanner and the set-up
    || (x.Started() && y.out != [] && y.out[0].Bitfield?)
    || (x.pc.Snapped? && y.out != [] && !(y.out[0].Bitfield? && |y.out[0].sv| == c.N()))
  }
}
