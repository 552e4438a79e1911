/**
 * The control thread of one session, in the form of its program: fields updated by handlers that an
 * event loop calls.  Run without interruption, each handler takes exactly a path of steps of the
 * swarm, on the shared bitfield and the file of its peer.
 */
module SessionThread {
  import opened Bytes
  import opened Pieces
  import opened Bitfields
  import opened Geometry
  import opened Repository
  import opened SwarmModel
  import opened Utils

  class BlockingQueue<T> {
    var q: seq<T>

    constructor ()
      ensures q == []
    {
      q := [];
    }

    method Enq(e: T)
      modifies this
      ensures q == old(q) + [e]
    {
      q := q + [e];
    }

    /** None stands for blocking: nothing has been queued yet. */
    method Deq() returns (e: Option<T>)
      modifies this
      ensures if old(q) == [] then e == None && q == [] else e.Some? && old(q) == [e.value] + q
    {
      if q == [] { return None; }
      e := Some(q[0]);
      q := q[1..];
    }

    method IsEmpty() returns (b: bool)
      ensures b <==> q == []
    {
      b := q == [];
    }
  }

  /** What the collection reaches of session sid: its queue and is_bcast_ready. */
  class Mailbox {
    const sid: Sid
    const eq: BlockingQueue<Event>
    var ready: bool

    constructor (sid: Sid)
      ensures this.sid == sid && fresh(eq) && eq.q == [] && !ready
    {
      this.sid, ready := sid, false;
      eq := new BlockingQueue();
    }

    method AckHave(i: int)
      modifies eq
      ensures eq.q == old(eq.q) + (if ready then [BcastHave(i)] else [])
    {
      if ready {
        eq.Enq(BcastHave(i));
      }
    }
  }

  /** Each session of a collection has its own mailbox and its own queue. */
  ghost predicate Apart(boxes: seq<Mailbox>) {
    forall j, k :: 0 <= j < k < |boxes| ==> boxes[j].sid != boxes[k].sid && boxes[j].eq != boxes[k].eq
  }

  ghost function Queues(boxes: seq<Mailbox>): set<BlockingQueue<Event>> { set b | b in boxes :: b.eq }

  ghost function Sids(boxes: seq<Mailbox>): seq<Sid> {
    seq(|boxes|, k requires 0 <= k < |boxes| => boxes[k].sid)
  }

  /** broadcastHave: every session of the collection is told once. */
  method TellAll(boxes: seq<Mailbox>, i: int)
    requires Apart(boxes)
    modifies Queues(boxes)
    ensures forall b :: b in boxes ==> b.eq.q == old(b.eq.q) + (if b.ready then [BcastHave(i)] else [])
  {
    for k := 0 to |boxes|
      invariant forall j :: 0 <= j < k ==>
                  boxes[j].eq.q == old(boxes[j].eq.q) + (if boxes[j].ready then [BcastHave(i)] else [])
      invariant forall j :: k <= j < |boxes| ==> boxes[j].eq.q == old(boxes[j].eq.q)
    {
      boxes[k].AckHave(i);
    }
  }

  // ---------- paths of steps of one session ----------

  /** Session id with the shared bitfield and the disk of its peer. */
  datatype Whole = Whole(id: Sid, x: Session, own: seq<Status>, disk: seq<Data>)

  /** The steps a session takes without its peer's help: none reads the wire. */
  predicate Solo(l: Step) {
    !l.RecvBitfield? && !l.Scan? && !l.Wake? && !l.Tick?
  }

  predicate Sized(c: Config, a: Whole) {
    |a.own| == |a.disk| == |a.x.view| == c.N()
  }

  ghost predicate Can(c: Config, a: Whole, l: Step) {
    l.s == a.id && Solo(l) && Sized(c, a) && CanMove(c, a.x, a.x, a.own, l)
  }

  /** The step; an ackHave addressed to the session itself reaches its own queue. */
  ghost function After(c: Config, a: Whole, all: set<Sid>, l: Step): Whole
    requires Can(c, a, l)
  {
    var x := if l.AckHave? && l.t == l.s then Acked(a.x, a.x.pc.i) else a.x;
    Whole(a.id, Moved(c, x, x, a.own, a.disk, all, l), OwnAfter(a.own, a.x, l), DiskAfter(a.disk, a.x, l))
  }

  ghost predicate Path(c: Config, a: Whole, all: set<Sid>, ls: seq<Step>, b: Whole)
    decreases |ls|
  {
    if ls == [] then a == b
    else Can(c, a, ls[0]) && Path(c, After(c, a, all, ls[0]), all, ls[1..], b)
  }

  /** A path goes on by one step. */
  lemma {:induction false} PathSnoc(c: Config, a: Whole, all: set<Sid>, ls: seq<Step>, b: Whole, l: Step)
    requires Path(c, a, all, ls, b) && Can(c, b, l)
    ensures Path(c, a, all, ls + [l], After(c, b, all, l))
    decreases |ls|
  {
    hide Can, After;
    if ls == [] {
      assert ls + [l] == [l] && [l][1..] == [];
      assert Path(c, After(c, a, all, l), all, [], After(c, a, all, l));
    } else {
      PathSnoc(c, After(c, a, all, ls[0]), all, ls[1..], b, l);
      assert (ls + [l])[1..] == ls[1..] + [l];
    }
  }

  /** What one ackHave does to the telling session. */
  lemma AckStep(c: Config, a: Whole, all: set<Sid>, t: Sid)
    requires Sized(c, a) && a.x.pc.Telling? && t in a.x.pc.todo
    ensures Can(c, a, AckHave(a.id, t))
    ensures After(c, a, all, AckHave(a.id, t))
         == Whole(a.id, Told(a.x, a.x.pc.todo - {t}, if t == a.id then [BcastHave(a.x.pc.i)] else []), a.own, a.disk)
  {
  }

  function Told(x: Session, todo: set<Sid>, news: seq<Event>): Session
    requires x.pc.Telling?
  {
    x.(pc := Telling(x.pc.i, todo), eq := x.eq + news)
  }

  /** Telling the sessions of a list, one after the other. */
  lemma {:induction false} ToldPath(c: Config, a0: Whole, all: set<Sid>, ls0: seq<Step>, a: Whole, s: seq<Sid>)
    returns (ls: seq<Step>)
    requires Path(c, a0, all, ls0, a) && Sized(c, a) && a.x.pc.Telling? && a.x.pc.todo == Members(s)
    requires forall i, j :: 0 <= i < j < |s| ==> s[i] != s[j]
    ensures Path(c, a0, all, ls, Whole(a.id, Told(a.x, {}, if a.id in s then [BcastHave(a.x.pc.i)] else []), a.own, a.disk))
    decreases |s|
  {
    hide Can, After, Path;
    if s == [] {
      ls := ls0;
      assert Told(a.x, {}, []) == a.x;
    } else {
      var l, news := AckHave(a.id, s[0]), if s[0] == a.id then [BcastHave(a.x.pc.i)] else [];
      AckStep(c, a, all, s[0]);
      PathSnoc(c, a0, all, ls0, a, l);
      assert s == [s[0]] + s[1..];
      assert a.x.pc.todo - {s[0]} == Members(s[1..]);
      var b := Whole(a.id, Told(a.x, Members(s[1..]), news), a.own, a.disk);
      ls := ToldPath(c, a0, all, ls0 + [l], b, s[1..]);
      var rest := if a.id in s[1..] then [BcastHave(a.x.pc.i)] else [];
      assert a.x.eq + news + rest == a.x.eq + (news + rest);
      assert s[0] !in s[1..];
      assert Told(b.x, {}, rest) == Told(a.x, {}, if a.id in s then [BcastHave(a.x.pc.i)] else []);
    }
  }

  /** What Dispatch does. */
  lemma EventStep(c: Config, a: Whole, all: set<Sid>)
    requires Sized(c, a) && a.x.pc.Idle? && a.x.eq != [] && !BadEvent(a.own, a.x.eq[0])
    ensures Can(c, a, Dispatch(a.id))
    ensures After(c, a, all, Dispatch(a.id))
         == Whole(a.id, AfterEvent(a.x.(eq := a.x.eq[1..]), a.own, a.disk, a.x.eq[0]), a.own, a.disk)
  {
    hide AfterEvent, BadEvent;
  }

  /** What DrainOne does. */
  lemma DrainStep(c: Config, a: Whole, all: set<Sid>)
    requires Sized(c, a) && a.x.pc.Draining? && a.x.eq != []
    ensures Can(c, a, DrainOne(a.id))
    ensures After(c, a, all, DrainOne(a.id))
         == Whole(a.id, AfterDrainOne(a.x.(eq := a.x.eq[1..]), a.own, a.x.eq[0]), a.own, a.disk)
  {
    hide AfterDrainOne;
  }

  /** What WriteDisk does. */
  lemma WriteStep(c: Config, a: Whole, all: set<Sid>)
    requires Sized(c, a) && a.x.pc.Saving? && 0 <= a.x.pc.i < c.N() && |a.x.pc.data| == |c.file[a.x.pc.i]|
    ensures Can(c, a, WriteDisk(a.id))
    ensures After(c, a, all, WriteDisk(a.id))
         == Whole(a.id, a.x.(pc := Saved(a.x.pc.i)), a.own, a.disk[a.x.pc.i := a.x.pc.data])
  {
  }

  /** An event that makes the event loop panic, at the head of the queue of a session with this bitfield. */
  predicate Fatal(c: Config, own: seq<Status>, e: Event) {
    BadEvent(own, e) || (e.Net? && e.m.Piece? && (0 <= e.m.i < c.N() ==> |e.m.data| != |c.file[e.m.i]|))
  }

  /** A path leads from a to b, where the event loop panics. */
  ghost predicate StopsAt(c: Config, a: Whole, all: set<Sid>, ls: seq<Step>, b: Whole) {
    Path(c, a, all, ls, b) && b.x.pc.Idle? && b.x.eq != [] && Fatal(c, b.own, b.x.eq[0])
  }

  // ---------- the session ----------

  function Members(s: seq<Sid>): set<Sid> { set t | t in s }

  /**
   * `pc` tells where the thread stands, `lastSaid` which interest message it sent last; everything
   * else is a field of the program.  `out` is what has been handed to the writer.
   */
  class SessionLoop {
    const id: Sid
    const boxes: seq<Mailbox>        // the sessions of the collection, this one included
    const box: Mailbox               // that of this session
    const selfOwn: SyncPieceBitfield
    const repo: PieceRepository
    const eq: BlockingQueue<Event>
    var peerOwn: PieceBitfield?
    var out: seq<Msg>
    var isDone: bool
    var selfChoke: ChokeStatus
    var peerChoke: ChokeStatus
    var peerInterest: InterestStatus
    ghost var pc: PC
    ghost var lastSaid: InterestStatus
    ghost const c: Config

    ghost function View(): seq<Status>
      reads this, peerOwn
    {
      if peerOwn == null then seq(c.N(), _ => Absent) else peerOwn.sv
    }

    ghost function X(): Session
      reads this, eq, peerOwn
    {
      Session(pc, View(), eq.q, out, selfChoke, peerChoke, peerInterest, lastSaid)
    }

    ghost function W(): Whole
      reads this, eq, peerOwn, selfOwn, repo
    {
      Whole(id, X(), selfOwn.sv, if repo.pieceSize > 0 then Cut(repo.f, repo.pieceSize) else [])
    }

    /** The file of the configuration is cut as the repository cuts its own. */
    ghost predicate SameCut()
      reads repo
    {
      && repo.pieceSize > 0 && c.N() == NumPieces(|repo.f|, repo.pieceSize)
      && forall i :: 0 <= i < c.N() ==> |c.file[i]| == Len(|repo.f|, repo.pieceSize, i)
    }

    ghost predicate Valid()
      reads this, eq, peerOwn, selfOwn, repo, box
    {
      && selfOwn.Valid() && |selfOwn.sv| == c.N()
      && repo.Valid() && SameCut() && repo.leaked + repo.pieceSize <= repo.limit
      && (forall i :: i in repo.cache ==> Has(selfOwn.sv, i) || pc == Saved(i))
      && (peerOwn != null ==> peerOwn.Valid() && |peerOwn.sv| == c.N())
      && (!X().AwaitsBitfield() ==> peerOwn != null)
      && isDone == X().Done()
      && Apart(boxes) && box in boxes && box.sid == id && box.eq == eq && box.ready == X().Ready()
    }

    ghost function Everyone(): set<Sid> { Members(Sids(boxes)) }

    constructor (id: Sid, boxes: seq<Mailbox>, box: Mailbox, selfOwn: SyncPieceBitfield, repo: PieceRepository, ghost c: Config)
      requires selfOwn.Valid() && |selfOwn.sv| == c.N()
      requires repo.Valid() && repo.leaked + repo.pieceSize <= repo.limit
      requires forall i :: i in repo.cache ==> Has(selfOwn.sv, i)
      requires c.N() == NumPieces(|repo.f|, repo.pieceSize)
      requires forall i :: 0 <= i < c.N() ==> |c.file[i]| == Len(|repo.f|, repo.pieceSize, i)
      requires Apart(boxes) && box in boxes && box.sid == id && !box.ready && box.eq.q == []
      ensures Valid() && X() == NewSession(c.N())
      ensures this.id == id && this.box == box && this.boxes == boxes
      ensures this.selfOwn == selfOwn && this.repo == repo && this.c == c
    {
      this.id, this.boxes, this.box, this.selfOwn, this.repo, this.c := id, boxes, box, selfOwn, repo, c;
      eq := box.eq;
      peerOwn, out, isDone, pc := null, [], false, Fresh;
      selfChoke, peerChoke, peerInterest, lastSaid := ChokeUnknown, ChokeUnknown, InterestUnknown, InterestUnknown;
    }

    /** Whether self is interested, decided and said. */
    method InterestedInPeer() returns (b: bool)
      requires Valid() && peerOwn != null
      ensures b <==> !NothingWanted(peerOwn.sv, selfOwn.sv)
    {
      var ok, eligible := Difference(peerOwn.sv, selfOwn.sv);
      b := eligible != [];
    }

    /** First half of setup: snapshot and flag under m_bcast, then the bitfield is sent. */
    method SendBitfield()
      requires Valid() && pc.Fresh?
      modifies `out, `pc, box
      ensures Valid() && box.ready
      ensures exists sv :: out == old(out) + [Bitfield(sv)] && Shows(sv, selfOwn.sv)
      ensures var l := TakeSnapshot(id); Can(c, old(W()), l) && W() == After(c, old(W()), Everyone(), l)
    {
      hide Held, Coherent, Cut, Slice, NumPieces, Len, PieceRepository.Valid, AfterEvent, BadEvent;
      var snapshot := selfOwn.TakeSnapshot();
      box.ready := true;
      out := out + [Bitfield(snapshot)];
      pc := Snapped;
    }

    /**
     * Second half: the view is built and the first done check made.  False stands for the panic of the
     * difference that follows in the program, on a bitfield of another size.
     */
    method ReceiveBitfield(sv: seq<Status>) returns (ok: bool)
      requires Valid() && pc.Snapped?
      modifies `peerOwn, `isDone, `pc
      ensures ok <==> |sv| == c.N()
      ensures ok ==> Valid() && X() == AfterBitfield(old(X()), selfOwn.sv, sv)
      ensures fresh(peerOwn) && peerOwn.sv == sv
    {
      hide Held, Coherent, Cut, Slice, NumPieces, Len, ListsWanted, NothingWanted, PieceRepository.Valid, AfterEvent, BadEvent;
      peerOwn := new PieceBitfield(sv);
      var theirs := peerOwn.OwningAll();
      var mine := selfOwn.OwningAll();
      isDone := theirs && mine;
      pc := SetupCheck(isDone);
      var eligible;
      ok, eligible := Difference(peerOwn.sv, selfOwn.sv);
    }

    /** The end of setup: say whether self is interested. */
    method SayInterest()
      requires Valid() && pc.SetupCheck?
      modifies `out, `pc, `lastSaid
      ensures Valid() && (if isDone then pc.Sleeping? else pc.Idle?)
      ensures out == old(out) + [if NothingWanted(View(), selfOwn.sv) then NotInterested else Interested]
      ensures var l := Step.SayInterest(id); Can(c, old(W()), l) && W() == After(c, old(W()), Everyone(), l)
    {
      hide Held, Coherent, Cut, Slice, NumPieces, Len, PieceRepository.Valid, AfterEvent, BadEvent;
      var interested := InterestedInPeer();
      if interested {
        out, lastSaid := out + [Interested], IsInterested;
      } else {
        out, lastSaid := out + [NotInterested], IsNotInterested;
      }
      pc := if isDone then Sleeping else Idle;
    }

    /** handleBcast, without the done check that follows it in the loop. */
    method HandleBcast(i: int)
      requires Valid() && peerOwn != null
      modifies `out, `lastSaid
      ensures Valid() && X() == AfterBcast(old(X()), selfOwn.sv, i)
      ensures out == old(out) + (if NothingWanted(View(), selfOwn.sv) then [Have(i), NotInterested] else [Have(i)])
    {
      hide Held, Coherent, Cut, Slice, NumPieces, Len, PieceRepository.Valid, AfterEvent, BadEvent;
      out := out + [Have(i)];
      var interested := InterestedInPeer();
      if !interested {
        out, lastSaid := out + [NotInterested], IsNotInterested;
      }
    }

    // ---------- one step each ----------

    /** The claim: the eligible piece i is marked requested. */
    method MarkRequested(i: int)
      requires Valid() && pc.Asking? && Wanted(View(), selfOwn.sv, i)
      modifies `pc, selfOwn
      ensures Valid() && pc == Claimed(i) && selfOwn.sv == old(selfOwn.sv)[i := Requested]
      ensures var l := Claim(id, i); Can(c, old(W()), l) && W() == After(c, old(W()), Everyone(), l)
    {
      hide Held, Coherent, Cut, Slice, NumPieces, Len, PieceRepository.Valid, AfterEvent, BadEvent;
      var ok := selfOwn.SetRequested(i);
      pc := Claimed(i);
    }

    method SendTheRequest(i: int)
      requires Valid() && pc == Claimed(i)
      modifies `pc, `out
      ensures Valid() && pc.Idle? && out == old(out) + [Request(i)]
      ensures var l := SendRequest(id); Can(c, old(W()), l) && W() == After(c, old(W()), Everyone(), l)
    {
      hide Held, Coherent, Cut, Slice, NumPieces, Len, PieceRepository.Valid, AfterEvent, BadEvent;
      out := out + [Request(i)];
      pc := Idle;
    }

    method FindNothing()
      requires Valid() && pc.Asking? && NothingWanted(View(), selfOwn.sv)
      modifies `pc
      ensures Valid() && pc.Idle?
      ensures var l := NoClaim(id); Can(c, old(W()), l) && W() == After(c, old(W()), Everyone(), l)
    {
      hide Held, Coherent, Cut, Slice, NumPieces, Len, PieceRepository.Valid, AfterEvent, BadEvent;
      pc := Idle;
    }

    /** The done check after a broadcast. */
    method CheckDone()
      requires Valid() && pc.BcastCheck?
      modifies `pc, `isDone
      ensures Valid() && (if isDone then pc.Sleeping? else pc.Idle?)
      ensures isDone <==> All(selfOwn.sv) && All(View())
      ensures var l := CheckAfterBcast(id); Can(c, old(W()), l) && W() == After(c, old(W()), Everyone(), l)
    {
      hide Held, Coherent, Cut, Slice, NumPieces, Len, PieceRepository.Valid, AfterEvent, BadEvent;
      var mine := selfOwn.OwningAll();
      var theirs := peerOwn.OwningAll();
      isDone := mine && theirs;
      pc := if isDone then Sleeping else Idle;
    }

    /** The interest check after a HAVE that has not made the session done. */
    method CheckInterest()
      requires Valid() && pc.HaveCheck?
      modifies `pc, `out, `lastSaid
      ensures Valid() && pc.Idle?
      ensures out == old(out) + (if NothingWanted(View(), selfOwn.sv) then [] else [Interested])
      ensures var l := CheckAfterHave(id); Can(c, old(W()), l) && W() == After(c, old(W()), Everyone(), l)
    {
      hide Held, Coherent, Cut, Slice, NumPieces, Len, PieceRepository.Valid, AfterEvent, BadEvent;
      var interested := InterestedInPeer();
      if interested {
        out, lastSaid := out + [Interested], IsInterested;
      }
      pc := Idle;
    }

    /** repo.save; false stands for the panic on a piece of the wrong size. */
    method SaveIt(i: int, data: Data) returns (ok: bool)
      requires Valid() && pc == Saving(i, data)
      requires 0 <= i < c.N() && selfOwn.sv[i] == Requested
      modifies `pc, repo
      ensures ok <==> |data| == |c.file[i]|
      ensures ok ==> Valid() && pc == Saved(i)
      ensures ok ==> var l := WriteDisk(id); Can(c, old(W()), l) && W() == After(c, old(W()), Everyone(), l)
    {
      hide Slice, Save, Cut, NumPieces, Len, Can, After, PieceRepository.Valid, PieceRepository.Needed;
      if |data| == |c.file[i]| { WriteStep(c, W(), Everyone()); }
      PieceBounds(|repo.f|, repo.pieceSize, i);
      if |data| == |c.file[i]| { SaveCut(repo.f, repo.pieceSize, i, data); }
      var stored;
      ok, stored := repo.SavePiece(i, data);
      pc := Saved(i);
    }

    method MarkOwned(i: int)
      requires Valid() && pc == Saved(i) && 0 <= i < c.N()
      modifies `pc, selfOwn
      ensures Valid() && pc == Telling(i, Everyone()) && selfOwn.sv == old(selfOwn.sv)[i := Owned]
      ensures var l := Step.SetOwned(id); Can(c, old(W()), l) && W() == After(c, old(W()), Everyone(), l)
    {
      hide Held, Coherent, Cut, Slice, NumPieces, Len, PieceRepository.Valid, AfterEvent, BadEvent;
      var ok := selfOwn.SetOwned(i);
      pc := Telling(i, Everyone());
    }

    // ---------- the switch of the event loop ----------

    method ReactToPlain(e: Event)
      requires Valid() && pc.Idle? && Plain(e)
      modifies `out, `pc, `selfChoke, `peerChoke, `peerInterest
      ensures Valid() && X() == AfterEvent(old(X()), selfOwn.sv, W().disk, e)
      // what is sent
      ensures e == TimerChoke ==> out == old(out) + (if old(peerChoke) == Choked then [] else [Choke])
      ensures e == TimerUnchoke ==> out == old(out) + (if old(peerChoke) == Unchoked then [] else [Unchoke])
      ensures e == Net(NotInterested) ==> out == old(out) + [Choke]
      ensures e.Net? && e.m != NotInterested ==> out == old(out)
      // what is noted
      ensures peerChoke == if e == TimerChoke then Choked else if e == TimerUnchoke then Unchoked else old(peerChoke)
      ensures selfChoke == if e == Net(Choke) then Choked else if e == Net(Unchoke) then Unchoked else old(selfChoke)
      ensures peerInterest == if e == Net(Interested) then IsInterested
                              else if e == Net(NotInterested) then IsNotInterested else old(peerInterest)
      ensures if e == Net(Unchoke) then pc.Asking? else pc.Idle?
    {
      hide Held, Coherent, Cut, Slice, NumPieces, Len, PieceRepository.Valid;
      match e {
        case TimerChoke =>
          if peerChoke != Choked {
            peerChoke := Choked;
            out := out + [Choke];
          }
        case TimerUnchoke =>
          if peerChoke != Unchoked {
            peerChoke := Unchoked;
            out := out + [Unchoke];
          }
        case Net(Choke) => selfChoke := Choked;
        case Net(Unchoke) =>
          selfChoke := Unchoked;
          pc := Asking;
        case Net(Interested) => peerInterest := IsInterested;
        case Net(NotInterested) =>
          peerInterest := IsNotInterested;
          out := out + [Choke];
      }
    }

    method ReactToBcast(i: int)
      requires Valid() && pc.Idle?
      modifies `out, `pc, `lastSaid
      ensures Valid() && X() == AfterEvent(old(X()), selfOwn.sv, W().disk, BcastHave(i))
      ensures out == old(out) + (if NothingWanted(View(), selfOwn.sv) then [Have(i), NotInterested] else [Have(i)])
    {
      hide Held, Coherent, Cut, Slice, NumPieces, Len, PieceRepository.Valid;
      HandleBcast(i);
      pc := BcastCheck;
    }

    /** False stands for the panic on an index out of range. */
    method ReactToHave(i: int) returns (ok: bool)
      requires Valid() && pc.Idle?
      modifies `isDone, `pc, peerOwn
      ensures ok <==> 0 <= i < c.N()
      ensures ok ==> Valid() && X() == AfterHave(old(X()), selfOwn.sv, i)
      ensures ok ==> View() == old(View())[i := Owned] && (isDone <==> All(selfOwn.sv) && All(View())) && out == old(out)
    {
      hide Held, Coherent, Cut, Slice, NumPieces, Len, PieceRepository.Valid, AfterEvent, BadEvent;
      ok := peerOwn.SetOwned(i);
      if ok {
        var mine := selfOwn.OwningAll();
        var theirs := peerOwn.OwningAll();
        isDone := mine && theirs;
        pc := if isDone then Sleeping else HaveCheck;
      }
    }

    /** A message is handed to the writer. */
    method Send(m: Msg)
      requires Valid()
      modifies `out
      ensures Valid() && X() == old(X()).(out := old(out) + [m]) && W().disk == old(W().disk)
    {
      hide Held, Coherent, Cut, Slice, NumPieces, Len, PieceRepository.Valid;
      out := out + [m];
    }

    /** repo.get of an owned piece. */
    method Fetch(i: int) returns (piece: seq<Byte>)
      requires Valid() && Has(selfOwn.sv, i)
      modifies repo
      ensures Valid() && repo.f == old(repo.f) && piece == Slice(repo.f, repo.pieceSize, i)
      ensures W().disk == old(W().disk) && i < |W().disk| && piece == W().disk[i]
    {
      hide Held, Coherent, Slice, Cut, PieceRepository.Needed, PieceRepository.Valid;
      PieceBounds(|repo.f|, repo.pieceSize, i);
      CutAt(repo.f, repo.pieceSize, i);
      hide NumPieces, Len;
      var got;
      got, piece := repo.Get(i);
    }

    /** False stands for the panic on a piece that self does not own. */
    method ReactToRequest(i: int) returns (ok: bool)
      requires Valid() && pc.Idle?
      modifies `out, repo
      ensures ok <==> Has(selfOwn.sv, i)
      ensures ok ==> Valid() && W().disk == old(W()).disk
      ensures ok ==> X() == old(X()).(out := old(out) + [Piece(i, W().disk[i])])
    {
      ok := 0 <= i < |selfOwn.sv| && selfOwn.sv[i] == Owned;
      if ok {
        hide SessionLoop.Valid, SessionLoop.X, SessionLoop.W, Slice;
        var piece := Fetch(i);
        Send(Piece(i, piece));
      }
    }

    /** False stands for the panic on a piece that self did not request. */
    method ReactToPiece(i: int, data: Data) returns (ok: bool)
      requires Valid() && pc.Idle?
      modifies `pc
      ensures ok <==> 0 <= i < c.N() && selfOwn.sv[i] == Requested
      ensures ok ==> Valid() && X() == old(X()).(pc := Saving(i, data))
    {
      hide Held, Coherent, Cut, Slice, NumPieces, Len, PieceRepository.Valid, AfterEvent, BadEvent;
      ok := 0 <= i < |selfOwn.sv| && selfOwn.sv[i] == Requested;
      if ok {
        pc := Saving(i, data);
      }
    }

    // ---------- whole handlers, without interruption ----------

    /** The eligible pieces, as a list. */
    method Eligible() returns (ret: seq<int>)
      requires Valid() && peerOwn != null
      ensures forall i :: i in ret <==> Wanted(View(), selfOwn.sv, i)
      ensures ret == [] <==> NothingWanted(View(), selfOwn.sv)
    {
      var ok;
      ok, ret := Difference(peerOwn.sv, selfOwn.sv);
    }

    /**
     * requestNextIfPossible: claim some eligible piece and ask for it, or do nothing.
     * Here and below, ls0 is the path that the handler has taken so far, from state a.
     */
    method RequestNextIfPossible(ghost a: Whole, ghost ls0: seq<Step>) returns (ghost ls: seq<Step>)
      requires Valid() && pc.Asking? && Path(c, a, Everyone(), ls0, W())
      modifies `out, `pc, selfOwn
      ensures Valid() && pc.Idle? && Path(c, a, Everyone(), ls, W())
      ensures old(NothingWanted(View(), selfOwn.sv)) ==> ls == ls0 + [NoClaim(id)] && out == old(out)
      ensures !old(NothingWanted(View(), selfOwn.sv)) ==>
                exists i :: (ls == ls0 + [Claim(id, i)] + [SendRequest(id)] && old(Wanted(View(), selfOwn.sv, i))
                             && out == old(out) + [Request(i)] && selfOwn.sv == old(selfOwn.sv)[i := Requested])
    {
      ghost var b, all := W(), Everyone();
      var eligible := Eligible();
      hide Can, After, Path, SessionLoop.W, SessionLoop.Valid, Wanted, NothingWanted;
      if eligible == [] {
        FindNothing();
        PathSnoc(c, a, all, ls0, b, NoClaim(id));
        ls := ls0 + [NoClaim(id)];
      } else {
        var k: nat :| k < |eligible|;
        assert eligible[k] in eligible;
        MarkRequested(eligible[k]);
        PathSnoc(c, a, all, ls0, b, Claim(id, eligible[k]));
        ghost var ls1, b1 := ls0 + [Claim(id, eligible[k])], W();
        SendTheRequest(eligible[k]);
        PathSnoc(c, a, all, ls1, b1, SendRequest(id));
        ls := ls1 + [SendRequest(id)];
      }
    }

    /** The broadcast of the collection; this session, which is ready, is told as well. */
    method TellEveryone(i: int)
      requires Valid() && pc == Telling(i, Everyone())
      modifies `pc, Queues(boxes)
      ensures Valid()
      ensures X() == Told(old(X()), {}, [BcastHave(i)])
      ensures W() == Whole(id, X(), old(W()).own, old(W()).disk)
      ensures forall b :: b in boxes ==> b.eq.q == old(b.eq.q) + (if b.ready then [BcastHave(i)] else [])
    {
      hide Held, Coherent, Cut, Slice, NumPieces, Len, PieceRepository.Valid;
      SelfIsListed();
      TellAll(boxes, i);
      pc := Telling(i, {});
    }

    /** To the swarm it is one ackHave after the other. */
    method BroadcastHave(i: int, ghost a: Whole, ghost ls0: seq<Step>) returns (ghost ls: seq<Step>)
      requires Valid() && pc == Telling(i, Everyone()) && Path(c, a, Everyone(), ls0, W())
      modifies `pc, Queues(boxes)
      ensures Valid() && Path(c, a, Everyone(), ls, W())
      ensures X() == old(X()).(pc := Telling(i, {}), eq := old(eq.q) + [BcastHave(i)])
      ensures forall b :: b in boxes ==> b.eq.q == old(b.eq.q) + (if b.ready then [BcastHave(i)] else [])
    {
      SelfIsListed();
      WholeIs();
      hide Path, SessionLoop.W, SessionLoop.Valid, Apart, Queues;
      ls := ToldPath(c, a, Everyone(), ls0, W(), Sids(boxes));
      TellEveryone(i);
    }

    lemma SelfIsListed()
      requires Valid()
      ensures id in Sids(boxes) && eq in Queues(boxes)
      ensures forall i, j :: 0 <= i < j < |boxes| ==> Sids(boxes)[i] != Sids(boxes)[j]
    {
      var k :| 0 <= k < |boxes| && boxes[k] == box;
      assert Sids(boxes)[k] == id;
    }

    method EndOfBroadcast()
      requires Valid() && pc.Telling? && pc.todo == {}
      modifies `pc
      ensures Valid() && pc == if selfChoke == Unchoked then Asking else Idle
      ensures var l := EndBroadcast(id); Can(c, old(W()), l) && W() == After(c, old(W()), Everyone(), l)
    {
      hide Held, Coherent, Cut, Slice, NumPieces, Len, PieceRepository.Valid, AfterEvent, BadEvent;
      pc := if selfChoke == Unchoked then Asking else Idle;
    }

    /** The switch on the event; false stands for the panics. */
    method React(e: Event) returns (ok: bool)
      requires Valid() && pc.Idle?
      modifies this, peerOwn, repo
      ensures peerOwn == old(peerOwn)
      ensures ok <==> !BadEvent(selfOwn.sv, e)
      ensures ok ==> Valid() && Begun(e) && W().disk == old(W()).disk
      ensures ok ==> X() == AfterEvent(old(X()), selfOwn.sv, W().disk, e)
      ensures ok && e.Net? && e.m.Piece? ==> 0 <= e.m.i < c.N()
    {
      hide AfterSetup, AfterHaveCheck, Slice, Save, Held, Coherent, NumPieces, Len, PieceRepository.Valid;
      ok := true;
      if Plain(e) {
        ReactToPlain(e);
      } else if e.BcastHave? {
        ReactToBcast(e.i);
      } else if e.m.Have? {
        ok := ReactToHave(e.m.i);
      } else if e.m.Request? {
        ok := ReactToRequest(e.m.i);
      } else if e.m.Piece? {
        ok := ReactToPiece(e.m.i, e.m.data);
      } else {
        ok := false;
      }
    }

    /** Takes an event off the queue and begins to handle it. */
    method BeginEvent() returns (ok: bool, e: Event)
      requires Valid() && pc.Idle? && eq.q != []
      modifies this, peerOwn, repo, eq
      ensures e == old(eq.q)[0] && peerOwn == old(peerOwn)
      ensures ok <==> !BadEvent(selfOwn.sv, e)
      ensures ok ==> Valid() && Begun(e) && eq.q == old(eq.q)[1..]
      ensures ok && e.Net? && e.m.Piece? ==> 0 <= e.m.i < c.N()
      ensures ok ==> var l := Dispatch(id); Can(c, old(W()), l) && W() == After(c, old(W()), Everyone(), l)
    {
      if !BadEvent(selfOwn.sv, eq.q[0]) { EventStep(c, W(), Everyone()); }
      hide Can, After, AfterEvent, BadEvent, Plain, Slice, Held, Coherent, Cut, NumPieces, Len, PieceRepository.Valid;
      var got := eq.Deq();
      e := got.value;
      ok := React(e);
    }

    /** The rest of the handling of a piece, first part: save, setOwned, broadcastHave. */
    method StoreAndTell(i: int, data: Data, ghost a: Whole, ghost ls0: seq<Step>)
      returns (ok: bool, ghost ls: seq<Step>)
      requires Valid() && pc == Saving(i, data) && 0 <= i < c.N() && selfOwn.sv[i] == Requested
      requires Path(c, a, Everyone(), ls0, W())
      modifies `pc, repo, selfOwn, Queues(boxes)
      ensures ok <==> |data| == |c.file[i]|
      ensures ok ==> Valid() && pc == Telling(i, {}) && Path(c, a, Everyone(), ls, W())
      ensures ok ==> selfOwn.sv == old(selfOwn.sv)[i := Owned]
      ensures ok ==> eq.q == old(eq.q) + [BcastHave(i)]
      ensures ok ==> forall b :: b in boxes ==> b.eq.q == old(b.eq.q) + (if b.ready then [BcastHave(i)] else [])
    {
      ghost var b, all := W(), Everyone();
      hide Can, After, Path, SessionLoop.W, SessionLoop.Valid, Apart, Queues;
      ls := ls0;
      ok := SaveIt(i, data);
      if ok {
        PathSnoc(c, a, all, ls, b, WriteDisk(id));
        ls, b := ls + [WriteDisk(id)], W();
        MarkOwned(i);
        PathSnoc(c, a, all, ls, b, Step.SetOwned(id));
        ls := ls + [Step.SetOwned(id)];
        ls := BroadcastHave(i, a, ls);
      }
    }

    /** The handler of a piece after the dispatch: save, tell everyone, and ask for the next one while unchoked. */
    method FinishPiece(i: int, data: Data, ghost a: Whole, ghost ls0: seq<Step>) returns (ok: bool, ghost ls: seq<Step>)
      requires Valid() && pc == Saving(i, data) && 0 <= i < c.N() && selfOwn.sv[i] == Requested
      requires Path(c, a, Everyone(), ls0, W())
      modifies `pc, `out, repo, selfOwn, Queues(boxes)
      ensures ok <==> |data| == |c.file[i]|
      ensures ok ==> Valid() && pc.Idle? && Path(c, a, Everyone(), ls, W())
      ensures ok ==> eq.q == old(eq.q) + [BcastHave(i)]
      ensures ok ==>
                if selfChoke != Unchoked || old(NothingWanted(View(), selfOwn.sv)) then out == old(out)
                else exists j :: old(Wanted(View(), selfOwn.sv, j)) && out == old(out) + [Request(j)]
    {
      hide Can, After, Path, SessionLoop.W, SessionLoop.X, Wanted, NothingWanted;
      hide Held, Coherent, Cut, Slice, NumPieces, Len, PieceRepository.Valid;
      ok, ls := StoreAndTell(i, data, a, ls0);
      if ok {
        ghost var b := W();
        RequestedIsUnwanted(View(), old(selfOwn.sv), i, selfOwn.sv);
        EndOfBroadcast();
        PathSnoc(c, a, Everyone(), ls, b, EndBroadcast(id));
        ls := ls + [EndBroadcast(id)];
        if selfChoke == Unchoked {
          ls := RequestNextIfPossible(a, ls);
        }
      }
    }

    /** After the dispatch of event e: what is left of its handler. */
    method FinishEvent(e: Event, ghost a: Whole, ghost ls0: seq<Step>) returns (ok: bool, ghost ls: seq<Step>)
      requires Valid() && Path(c, a, Everyone(), ls0, W()) && Begun(e)
      modifies this, repo, selfOwn, Queues(boxes)
      ensures peerOwn == old(peerOwn)
      ensures ok <==> (e.Net? && e.m.Piece? ==> |e.m.data| == |c.file[e.m.i]|)
      ensures ok ==> Valid() && (pc.Idle? || pc.Sleeping?) && Path(c, a, Everyone(), ls, W())
      ensures ok ==> eq.q == old(eq.q) + (if e.Net? && e.m.Piece? then [BcastHave(e.m.i)] else [])
      // an Unchoke, and a piece that comes while unchoked, are answered by the next request, if there is one
      ensures ok && (e == Net(Unchoke) || (e.Net? && e.m.Piece? && selfChoke == Unchoked)) ==>
                if old(NothingWanted(View(), selfOwn.sv)) then out == old(out)
                else exists i :: old(Wanted(View(), selfOwn.sv, i)) && out == old(out) + [Request(i)]
      // a HAVE, after which something is wanted and the session is not done, by Interested
      ensures ok && e.Net? && e.m.Have? ==>
                out == old(out) + (if old(isDone || NothingWanted(View(), selfOwn.sv)) then [] else [Interested])
    {
      ghost var b, all := W(), Everyone();
      hide Can, After, Path, SessionLoop.W, SessionLoop.X, Wanted, NothingWanted;
      hide Held, Coherent, Cut, Slice, NumPieces, Len, PieceRepository.Valid;
      ok, ls := true, ls0;
      if e.BcastHave? {
        CheckDone();
        PathSnoc(c, a, all, ls, b, CheckAfterBcast(id));
        ls := ls + [CheckAfterBcast(id)];
      } else if e == Net(Unchoke) {
        ls := RequestNextIfPossible(a, ls);
      } else if e.Net? && e.m.Have? {
        if !isDone {
          CheckInterest();
          PathSnoc(c, a, all, ls, b, CheckAfterHave(id));
          ls := ls + [CheckAfterHave(id)];
        }
      } else if e.Net? && e.m.Piece? {
        ok, ls := FinishPiece(e.m.i, e.m.data, a, ls);
      }
    }

    /** Where the dispatch of an event leaves the thread. */
    ghost predicate Begun(e: Event)
      reads this, selfOwn
    {
      match e
      case BcastHave(_) => pc.BcastCheck?
      case Net(Unchoke) => pc.Asking?
      case Net(Have(_)) => if isDone then pc.Sleeping? else pc.HaveCheck?
      case Net(Piece(i, data)) =>
        pc == Saving(i, data) && 0 <= i < c.N() && i < |selfOwn.sv| && selfOwn.sv[i] == Requested
      case _ => pc.Idle?
    }

    /**
     * One turn of the event loop.  It panics exactly on the events that the swarm calls bad and on a
     * piece of the wrong size; otherwise it takes a path of steps of the swarm.
     */
    method HandleEvent() returns (ok: bool, ghost ls: seq<Step>)
      requires Valid() && pc.Idle? && eq.q != []
      modifies this, peerOwn, repo, selfOwn, Queues(boxes)
      ensures peerOwn == old(peerOwn)
      ensures ok <==> !Fatal(c, old(selfOwn.sv), old(eq.q)[0])
      ensures ok ==> Valid() && (pc.Idle? || pc.Sleeping?) && Path(c, old(W()), Everyone(), ls, W())
      ensures ok ==> Work(eq.q) < Work(old(eq.q))
    {
      SelfIsListed();
      hide Can, After, SessionLoop.W, SessionLoop.X, SessionLoop.Begun, SessionLoop.Valid, BadEvent, Work;
      ghost var a, all, es := W(), Everyone(), eq.q;
      var e;
      ok, e := BeginEvent();
      ls := [Dispatch(id)];
      if ok {
        PathSnoc(c, a, all, [], a, Dispatch(id));
        assert [] + [Dispatch(id)] == ls;
        hide Path;
        ok, ls := FinishEvent(e, a, ls);
        WorkDrops(es);
      }
    }

    lemma WholeIs()
      ensures W().x == X() && W().own == selfOwn.sv && W().id == id
      ensures Valid() ==> Sized(c, W())
    {
    }

    /**
     * The event loop, until the session is done, has nothing to do, or panics.  It panics only at a
     * fatal event, which a path of steps of the swarm has brought to the head of the queue.
     */
    method EventLoop() returns (ok: bool)
      requires Valid() && (pc.Idle? || pc.Sleeping?)
      modifies this, peerOwn, repo, selfOwn, Queues(boxes)
      ensures peerOwn == old(peerOwn)
      ensures ok ==> Valid() && (if isDone then pc.Sleeping? else pc.Idle? && eq.q == [])
      ensures ok ==> exists ls :: Path(c, old(W()), Everyone(), ls, W())
      ensures !ok ==> exists ls, b :: StopsAt(c, old(W()), Everyone(), ls, b)
    {
      SelfIsListed();
      hide Can, After, SessionLoop.W, BadEvent, Fatal;
      ok := true;
      ghost var a, ls: seq<Step> := W(), [];
      while !isDone && eq.q != []
        invariant ok && Valid() && (pc.Idle? || pc.Sleeping?) && peerOwn == old(peerOwn)
        invariant Path(c, a, Everyone(), ls, W())
        decreases Work(eq.q)
      {
        ghost var b := W();
        WholeIs();
        ghost var more;
        ok, more := HandleEvent();
        if !ok {
          assert StopsAt(c, a, Everyone(), ls, b);
          return;
        }
        PathJoin(c, a, Everyone(), ls, b, more, W());
        ls := ls + more;
      }
    }

    /**
     * The drain after the sleep: broadcasts are still sent, everything else is dropped, up to a
     * TearDown or the end of the queue; then the own TearDown is sent.
     */
    method Drain() returns (tdReceived: bool)
      requires Valid() && pc.Draining?
      modifies this, eq
      ensures Valid() && peerOwn == old(peerOwn) && pc == if tdReceived then Ended else AwaitTd
      ensures tdReceived <==> Net(TearDown) in old(eq.q)
      ensures out != [] && out[|out| - 1] == TearDown
      ensures exists ls :: Path(c, old(W()), Everyone(), ls, W())
    {
      hide Can, After, Path, SessionLoop.W;
      ghost var a, ls: seq<Step> := W(), [];
      tdReceived := false;
      assert Path(c, a, Everyone(), ls, W()) by { PathNone(c, a, Everyone()); }
      while eq.q != []
        invariant Valid() && pc.Draining? && peerOwn == old(peerOwn)
        invariant Path(c, a, Everyone(), ls, W())
        invariant Net(TearDown) in old(eq.q) <==> Net(TearDown) in eq.q
        decreases |eq.q|
      {
        ghost var b := W();
        tdReceived := DrainNext();
        PathSnoc(c, a, Everyone(), ls, b, DrainOne(id));
        ls := ls + [DrainOne(id)];
        if tdReceived { return; }
      }
      ghost var b := W();
      CloseDown();
      PathSnoc(c, a, Everyone(), ls, b, SendTearDown(id));
      ls := ls + [SendTearDown(id)];
    }

    method DrainNext() returns (tdReceived: bool)
      requires Valid() && pc.Draining? && eq.q != []
      modifies `pc, `out, `lastSaid, eq
      ensures Valid() && eq.q == old(eq.q)[1..]
      ensures tdReceived <==> old(eq.q)[0] == Net(TearDown)
      ensures if tdReceived then pc.Ended? else pc.Draining?
      ensures var e := old(eq.q)[0];
        out == old(out) + (if tdReceived then [TearDown]
                           else if !e.BcastHave? then []
                           else if NothingWanted(View(), selfOwn.sv) then [Have(e.i), NotInterested] else [Have(e.i)])
      ensures var l := DrainOne(id); Can(c, old(W()), l) && W() == After(c, old(W()), Everyone(), l)
    {
      DrainStep(c, W(), Everyone());
      hide Can, After, BadEvent, Held, Coherent, Cut, Slice, NumPieces, Len, PieceRepository.Valid;
      var got := eq.Deq();
      var e := got.value;
      tdReceived := false;
      if e.BcastHave? {
        HandleBcast(e.i);
      } else if e == Net(TearDown) {
        tdReceived := true;
        out := out + [TearDown];
        pc := Ended;
      }
    }

    method CloseDown()
      requires Valid() && pc.Draining? && eq.q == []
      modifies `pc, `out
      ensures Valid() && pc.AwaitTd? && out == old(out) + [TearDown]
      ensures var l := SendTearDown(id); Can(c, old(W()), l) && W() == After(c, old(W()), Everyone(), l)
    {
      hide Held, Coherent, Cut, Slice, NumPieces, Len, PieceRepository.Valid, AfterEvent, BadEvent;
      out := out + [TearDown];
      pc := AwaitTd;
    }

    /**
     * Everything up to the peer's TearDown is ignored.  False stands for blocking: the queue is empty and
     * the TearDown has yet to arrive.
     */
    method AwaitTearDown() returns (over: bool)
      requires Valid() && pc.AwaitTd?
      modifies `pc, eq
      ensures Valid() && pc == if over then Ended else AwaitTd
      ensures over <==> Net(TearDown) in old(eq.q)
      ensures !over ==> eq.q == []
      ensures exists ls :: Path(c, old(W()), Everyone(), ls, W())
    {
      hide Can, After, Path, SessionLoop.W;
      ghost var a, ls: seq<Step> := W(), [];
      assert Path(c, a, Everyone(), ls, W()) by { PathNone(c, a, Everyone()); }
      over := false;
      while !over && eq.q != []
        invariant Valid() && pc == if over then Ended else AwaitTd
        invariant Net(TearDown) in old(eq.q) <==> over || Net(TearDown) in eq.q
        invariant Path(c, a, Everyone(), ls, W())
        decreases |eq.q|
      {
        ghost var b := W();
        over := AwaitNext();
        PathSnoc(c, a, Everyone(), ls, b, AwaitOne(id));
        ls := ls + [AwaitOne(id)];
      }
    }

    method AwaitNext() returns (over: bool)
      requires Valid() && pc.AwaitTd? && eq.q != []
      modifies `pc, eq
      ensures Valid() && eq.q == old(eq.q)[1..]
      ensures over <==> old(eq.q)[0] == Net(TearDown)
      ensures pc == if over then Ended else AwaitTd
      ensures var l := AwaitOne(id); Can(c, old(W()), l) && W() == After(c, old(W()), Everyone(), l)
    {
      hide Held, Coherent, Cut, Slice, NumPieces, Len, PieceRepository.Valid, AfterEvent, BadEvent;
      var e := eq.Deq();
      over := e == Some(Net(TearDown));
      pc := if over then Ended else AwaitTd;
    }
  }

  /** The completion of a requested piece leaves what is wanted as it is. */
  lemma RequestedIsUnwanted(view: seq<Status>, own: seq<Status>, p: int, own': seq<Status>)
    requires 0 <= p < |own| && own[p] == Requested && own' == own[p := Owned]
    ensures forall i :: Wanted(view, own', i) <==> Wanted(view, own, i)
    ensures NothingWanted(view, own') <==> NothingWanted(view, own)
  {
    if NothingWanted(view, own) {
      forall i | 0 <= i < |view| ensures !Wanted(view, own', i) {
        assert !Wanted(view, own, i);
      }
    } else {
      var i :| 0 <= i < |view| && Wanted(view, own, i);
      assert Wanted(view, own', i);
    }
  }

  lemma PathNone(c: Config, a: Whole, all: set<Sid>)
    ensures Path(c, a, all, [], a)
  {
  }

  lemma {:induction false} PathJoin(c: Config, a: Whole, all: set<Sid>, ls: seq<Step>, b: Whole, more: seq<Step>, d: Whole)
    requires Path(c, a, all, ls, b) && Path(c, b, all, more, d)
    ensures Path(c, a, all, ls + more, d)
    decreases |ls|
  {
    hide Can, After;
    if ls == [] {
      assert ls + more == more;
    } else {
      PathJoin(c, After(c, a, all, ls[0]), all, ls[1..], b, more, d);
      assert (ls + more)[1..] == ls[1..] + more;
    }
  }

  /** An upper bound on the turns that the events of a queue take: a piece brings one more event. */
  function Work(es: seq<Event>): nat {
    if es == [] then 0 else (if es[0].Net? && es[0].m.Piece? then 2 else 1) + Work(es[1..])
  }

  lemma {:induction false} WorkAppend(es: seq<Event>, e: Event)
    ensures Work(es + [e]) == Work(es) + Work([e])
  {
    if es == [] {
      assert es + [e] == [e];
    } else {
      WorkAppend(es[1..], e);
      assert (es + [e])[1..] == es[1..] + [e];
    }
  }

  /** An event is work that is done, even when it is a piece and its broadcast comes into the queue. */
  lemma WorkDrops(es: seq<Event>)
    requires es != []
    ensures Work(es[1..] + (if es[0].Net? && es[0].m.Piece? then [BcastHave(es[0].m.i)] else [])) < Work(es)
  {
    if es[0].Net? && es[0].m.Piece? {
      WorkAppend(es[1..], BcastHave(es[0].m.i));
    } else {
      assert es[1..] + [] == es[1..];
    }
  }
}
