/**
 * The hand-over from the snapshot to the broadcasts, at the granularity of locks and atomic flags.
 * One session sets up while any number of threads of the same peer run ackHave on it.  The session
 * holds m_bcast while it takes the snapshot and raises is_bcast_ready; ackHave reads the flag
 * without the lock first and, finding it down, once more under the lock.
 *
 * Shown: every step is one of the two atomic steps of the swarm (the snapshot together with the
 * flag; a whole ackHave) or invisible, and no broadcast is missed.
 */
module Handoff {
  import opened Pieces
  import opened SwarmModel
  import opened Utils

  type Tid = nat

  datatype SetupPC =
    | Before       // has not taken m_bcast
    | Locked       // holds m_bcast
    | Snapshotted  // holds m_bcast, snapshot taken, flag still down
    | Raised       // holds m_bcast, flag up
    | After        // m_bcast released

  /** A thread in ackHave(i). */
  datatype AckPC =
    | FastRead(i: int)     // before the unlocked read of the flag
    | FastEnq(i: int)      // read it up
    | WantLock(i: int)     // read it down
    | SlowRead(i: int)     // holds m_bcast
    | SlowEnq(i: int)      // holds m_bcast, read it up
    | Release(i: int)      // holds m_bcast, nothing left to do
    | Returned(i: int)

  datatype Owner = BySetup | ByAck(t: Tid)

  datatype State = State(
    own: seq<Status>, lock: Option<Owner>, ready: bool, snap: Option<seq<Status>>,
    setup: SetupPC, acks: map<Tid, AckPC>, eq: seq<Event>)

  predicate HoldsLock(a: AckPC) { a.SlowRead? || a.SlowEnq? || a.Release? }

  /** The effect of this ackHave has taken place. */
  predicate Passed(a: AckPC) { a.Release? || a.Returned? }

  datatype Step =
    | Advance(own: seq<Status>)    // other threads move the bitfield forward
    | Setup                        // the next step of the session in set-up
    | Call(t: Tid, i: int)         // broadcastHave reaches this session, after setOwned(i): call t begins
    | Ack(t: Tid)                  // the next step of call t of ackHave

  predicate Enabled(st: State, l: Step) {
    match l
    case Advance(own) => Forward(st.own, own)
    case Setup => st.setup != After && (st.setup == Before ==> st.lock == None)
    case Call(t, i) => t !in st.acks && Has(st.own, i)
    case Ack(t) => t in st.acks && !st.acks[t].Returned? && (st.acks[t].WantLock? ==> st.lock == None)
  }

  function SetupStep(st: State): State {
    match st.setup
    case Before => st.(setup := Locked, lock := Some(BySetup))
    case Locked => st.(setup := Snapshotted, snap := Some(Snapshot(st.own)))
    case Snapshotted => st.(setup := Raised, ready := true)
    case Raised => st.(setup := After, lock := None)
    case After => st
  }

  function AckStep(st: State, t: Tid): State
    requires t in st.acks
  {
    match st.acks[t]
    case FastRead(i) => st.(acks := st.acks[t := if st.ready then FastEnq(i) else WantLock(i)])
    case FastEnq(i) => st.(acks := st.acks[t := Returned(i)], eq := st.eq + [BcastHave(i)])
    case WantLock(i) => st.(acks := st.acks[t := SlowRead(i)], lock := Some(ByAck(t)))
    case SlowRead(i) => st.(acks := st.acks[t := if st.ready then SlowEnq(i) else Release(i)])
    case SlowEnq(i) => st.(acks := st.acks[t := Release(i)], eq := st.eq + [BcastHave(i)])
    case Release(i) => st.(acks := st.acks[t := Returned(i)], lock := None)
    case Returned(i) => st
  }

  function Next(st: State, l: Step): State
    requires Enabled(st, l)
  {
    match l
    case Advance(own) => st.(own := own)
    case Setup => SetupStep(st)
    case Call(t, i) => st.(acks := st.acks[t := FastRead(i)])
    case Ack(t) => AckStep(st, t)
  }

  predicate Init(st: State) {
    st.lock == None && !st.ready && st.snap == None && st.setup == Before && st.acks == map[] && st.eq == []
  }

  // ---------- the invariant ----------

  ghost predicate LockOk(st: State) {
    && (st.lock == Some(BySetup) <==> st.setup.Locked? || st.setup.Snapshotted? || st.setup.Raised?)
    && (forall t :: t in st.acks ==> (HoldsLock(st.acks[t]) <==> st.lock == Some(ByAck(t))))
    && (forall t :: st.lock == Some(ByAck(t)) ==> t in st.acks)
  }

  ghost predicate FlagOk(st: State) {
    && (st.ready <==> st.setup.Raised? || st.setup.After?)
    && (st.snap.Some? <==> st.setup.Snapshotted? || st.ready)
    && (forall t :: t in st.acks && (st.acks[t].FastEnq? || st.acks[t].SlowEnq?) ==> st.ready)
  }

  ghost predicate OwnOk(st: State) {
    forall t :: t in st.acks ==> Has(st.own, st.acks[t].i)
  }

  /** Every broadcast that has passed is in the snapshot or in the queue, once there is a snapshot. */
  ghost predicate NothingMissed(st: State) {
    forall t :: t in st.acks && Passed(st.acks[t]) && st.snap.Some? ==>
      Has(st.snap.value, st.acks[t].i) || BcastHave(st.acks[t].i) in st.eq
  }

  /** And everything in the snapshot or in the queue is owned. */
  ghost predicate NothingInvented(st: State) {
    && (st.snap.Some? ==> forall i :: Has(st.snap.value, i) ==> Has(st.own, i))
    && (forall e :: e in st.eq ==> e.BcastHave? && Has(st.own, e.i))
    && (st.snap.None? ==> st.eq == [])
  }

  ghost predicate Inv(st: State) {
    LockOk(st) && FlagOk(st) && OwnOk(st) && NothingMissed(st) && NothingInvented(st)
  }

  lemma LockStep(st: State, l: Step)
    requires LockOk(st) && Enabled(st, l)
    ensures LockOk(Next(st, l))
  {
  }

  lemma FlagStep(st: State, l: Step)
    requires LockOk(st) && FlagOk(st) && Enabled(st, l)
    ensures FlagOk(Next(st, l))
  {
  }

  lemma AdvanceInv(st: State, l: Step)
    requires Inv(st) && Enabled(st, l) && l.Advance?
    ensures Inv(Next(st, l))
  {
  }

  lemma SetupInv(st: State, l: Step)
    requires Inv(st) && Enabled(st, l) && l.Setup?
    ensures Inv(Next(st, l))
  {
    hide LockOk, FlagOk;
    LockStep(st, l);
    FlagStep(st, l);
  }

  /** The one delicate case: a thread that reads the flag down under the lock precedes the snapshot. */
  lemma AckInv(st: State, l: Step)
    requires Inv(st) && Enabled(st, l) && l.Ack?
    ensures Inv(Next(st, l))
  {
    LockStep(st, l);
    FlagStep(st, l);
    if st.acks[l.t].SlowRead? && !st.ready {
      assert st.lock == Some(ByAck(l.t));
      assert st.snap.None?;
    }
    hide LockOk, FlagOk;
    AckInvents(st, l);
  }

  lemma AckInvents(st: State, l: Step)
    requires FlagOk(st) && OwnOk(st) && NothingInvented(st) && Enabled(st, l) && l.Ack?
    ensures OwnOk(Next(st, l)) && NothingInvented(Next(st, l))
  {
  }

  lemma StepInv(st: State, l: Step)
    requires Inv(st) && Enabled(st, l)
    ensures Inv(Next(st, l))
  {
    match l
    case Advance(_) => AdvanceInv(st, l);
    case Setup => SetupInv(st, l);
    case Call(_, _) =>
    case Ack(_) => AckInv(st, l);
  }

  /** The states and steps of a run. */
  ghost predicate IsRun(sts: seq<State>, ls: seq<Step>) {
    && |sts| == |ls| + 1 && Init(sts[0])
    && forall k :: 0 <= k < |ls| ==> Enabled(sts[k], ls[k]) && sts[k + 1] == Next(sts[k], ls[k])
  }

  lemma {:induction false} RunInv(sts: seq<State>, ls: seq<Step>, n: nat)
    requires IsRun(sts, ls) && n <= |ls|
    ensures Inv(sts[n])
  {
    if n > 0 {
      RunInv(sts, ls, n - 1);
      StepInv(sts[n - 1], ls[n - 1]);
    }
  }

  /**
   * Over every interleaving: a piece whose broadcast has returned from this session is in the
   * snapshot that the session sends or in its queue, and nothing else is in either.
   */
  lemma NoBroadcastMissed(sts: seq<State>, ls: seq<Step>, n: nat, t: Tid)
    requires IsRun(sts, ls) && n <= |ls|
    requires t in sts[n].acks && sts[n].acks[t].Returned? && sts[n].snap.Some?
    ensures var st, i := sts[n], sts[n].acks[t].i;
      && Has(st.own, i)
      && (Has(st.snap.value, i) || BcastHave(i) in st.eq)
      && (forall j :: Has(st.snap.value, j) || BcastHave(j) in st.eq ==> Has(st.own, j))
  {
    RunInv(sts, ls, n);
  }

  // ---------- the atomic view ----------

  /** The session of the swarm that the other threads see: ready as soon as the snapshot is taken. */
  function Abs(st: State): Session {
    var x := NewSession(|st.own|);
    if st.snap.None? then x.(eq := st.eq)
    else x.(pc := Snapped, out := [Bitfield(st.snap.value)], eq := st.eq)
  }

  /** The step at which an ackHave takes effect: its enqueuing, or the second reading of a flag still down. */
  predicate Effective(st: State, l: Step) {
    l.Ack? && l.t in st.acks
    && (st.acks[l.t].FastEnq? || st.acks[l.t].SlowEnq? || (st.acks[l.t].SlowRead? && !st.ready))
  }

  /**
   * Each step refines the swarm: the snapshot is the swarm's, with the flag raised in the same instant;
   * an ackHave takes effect at one step as the swarm's does; all other steps are invisible.
   */
  lemma Refines(st: State, l: Step)
    requires Inv(st) && Enabled(st, l)
    ensures var x, x' := Abs(st), Abs(Next(st, l));
      if l.Setup? && st.setup.Locked? then !x.Ready() && x' == AfterSnapshot(x, st.own)
      else if Effective(st, l) then x' == Acked(x, st.acks[l.t].i)
      else x' == x
    ensures forall t :: t in st.acks ==>
      var a, a' := st.acks[t], Next(st, l).acks[t];
      a' != a && Passed(a') && !Passed(a) <==> Effective(st, l) && t == l.t
  {
    var st' := Next(st, l);
    if l.Setup? && st.setup.Locked? {
      assert Abs(st).out + [Bitfield(Snapshot(st.own))] == [Bitfield(Snapshot(st.own))];
    }
  }
}
