/**
 * Broadcasts over a whole collection, at the granularity of locks.  A broadcast holds the lock of the
 * collection while it goes through its sessions, calling ackHave on each; a new session joins under the
 * same lock; sessions set up and other broadcasts end in between.  The inside of ackHave and of the set-up
 * of one session are those of the module Handoff.
 */
module Broadcasts {
  import opened Pieces
  import opened SwarmModel
  import opened Utils
  import H = Handoff

  /** A broadcast of piece i: before session k, in ackHave on session k, or over. */
  datatype Cast = At(i: int, k: nat) | In(i: int, k: nat) | Over(i: int)

  datatype State = State(own: seq<Status>, ss: seq<H.State>, m: Option<H.Tid>, casts: map<H.Tid, Cast>)

  datatype Step =
    | Advance(own: seq<Status>)     // the shared bitfield moves forward
    | NewSession                    // joins the collection
    | Setup(k: nat)                 // the next step of the set-up of session k
    | Begin(t: H.Tid, i: int)       // broadcastHave(i), after setOwned(i), takes the lock
    | Call(t: H.Tid)                // ackHave on the next session
    | Ack(t: H.Tid)                 // its next step
    | Return(t: H.Tid)
    | End(t: H.Tid)                 // the lock is released

  predicate Enabled(st: State, l: Step) {
    match l
    case Advance(own) => Forward(st.own, own)
    case NewSession => st.m == None
    case Setup(k) => k < |st.ss| && H.Enabled(st.ss[k], H.Setup)
    case Begin(t, i) => t !in st.casts && st.m == None && Has(st.own, i)
    case Call(t) =>
      t in st.casts && st.casts[t].At? && st.casts[t].k < |st.ss|
      && H.Enabled(st.ss[st.casts[t].k], H.Call(t, st.casts[t].i))
    case Ack(t) =>
      t in st.casts && st.casts[t].In? && st.casts[t].k < |st.ss| && H.Enabled(st.ss[st.casts[t].k], H.Ack(t))
    case Return(t) =>
      t in st.casts && st.casts[t].In? && st.casts[t].k < |st.ss|
      && t in st.ss[st.casts[t].k].acks && st.ss[st.casts[t].k].acks[t].Returned?
    case End(t) => t in st.casts && st.casts[t].At? && st.casts[t].k == |st.ss|
  }

  function Fresh(own: seq<Status>): H.State {
    H.State(own, None, false, None, H.Before, map[], [])
  }

  function Next(st: State, l: Step): State
    requires Enabled(st, l)
  {
    match l
    case Advance(own) => st.(own := own, ss := seq(|st.ss|, k requires 0 <= k < |st.ss| => st.ss[k].(own := own)))
    case NewSession => st.(ss := st.ss + [Fresh(st.own)])
    case Setup(k) => st.(ss := st.ss[k := H.Next(st.ss[k], H.Setup)])
    case Begin(t, i) => st.(m := Some(t), casts := st.casts[t := At(i, 0)])
    case Call(t) =>
      var k, i := st.casts[t].k, st.casts[t].i;
      st.(ss := st.ss[k := H.Next(st.ss[k], H.Call(t, i))], casts := st.casts[t := In(i, k)])
    case Ack(t) => st.(ss := st.ss[st.casts[t].k := H.Next(st.ss[st.casts[t].k], H.Ack(t))])
    case Return(t) => st.(casts := st.casts[t := At(st.casts[t].i, st.casts[t].k + 1)])
    case End(t) => st.(m := None, casts := st.casts[t := Over(st.casts[t].i)])
  }

  /** Once session h has its snapshot, piece i is in the snapshot or in the queue; before, it is owned. */
  ghost predicate Covered(h: H.State, i: int) {
    if h.snap.Some? then Has(h.snap.value, i) || BcastHave(i) in h.eq else Has(h.own, i)
  }

  /** The broadcast has passed session k. */
  predicate Passed(a: Cast, k: nat) { a.Over? || k < a.k }

  predicate Called(a: Cast, k: nat) { Passed(a, k) || (a.In? && k == a.k) }

  // ---------- the invariant ----------

  ghost predicate SessionsOk(st: State) {
    forall k :: 0 <= k < |st.ss| ==> st.ss[k].own == st.own && H.Inv(st.ss[k])
  }

  ghost predicate LockOk(st: State) {
    && (forall t :: t in st.casts ==> (!st.casts[t].Over? <==> st.m == Some(t)))
    && (forall t :: st.m == Some(t) ==> t in st.casts)
    && (forall t :: t in st.casts && !st.casts[t].Over? ==> st.casts[t].k <= |st.ss|)
  }

  /** Whom a broadcast is calling, and whom it has not called yet. */
  ghost predicate CallsOk(st: State) {
    && (forall t :: t in st.casts ==> Has(st.own, st.casts[t].i))
    && (forall t :: t in st.casts && st.casts[t].In? ==>
          && st.casts[t].k < |st.ss| && t in st.ss[st.casts[t].k].acks
          && st.ss[st.casts[t].k].acks[t].i == st.casts[t].i)
    // a session that a broadcast has yet to call has not been called by it
    && (forall t, k :: 0 <= k < |st.ss| && t in st.ss[k].acks ==> t in st.casts && Called(st.casts[t], k))
  }

  ghost predicate CoveredOk(st: State) {
    forall t, k :: t in st.casts && 0 <= k < |st.ss| && Passed(st.casts[t], k) ==> Covered(st.ss[k], st.casts[t].i)
  }

  ghost predicate Inv(st: State) {
    SessionsOk(st) && LockOk(st) && CallsOk(st) && CoveredOk(st)
  }

  /** What is covered stays covered, whatever a session does. */
  lemma CoveredStep(h: H.State, l: H.Step, i: int)
    requires H.Inv(h) && H.Enabled(h, l) && Covered(h, i)
    ensures Covered(H.Next(h, l), i)
  {
  }

  /** A call of ackHave that has returned leaves its piece covered. */
  lemma ReturnedIsCovered(h: H.State, t: H.Tid)
    requires H.Inv(h) && t in h.acks && h.acks[t].Returned?
    ensures Covered(h, h.acks[t].i)
  {
  }

  lemma OneSession(st: State, k: nat, hl: H.Step)
    requires Inv(st) && k < |st.ss| && H.Enabled(st.ss[k], hl)
    ensures H.Inv(H.Next(st.ss[k], hl))
    ensures forall i :: Covered(st.ss[k], i) ==> Covered(H.Next(st.ss[k], hl), i)
  {
    hide H.LockOk, H.OwnOk, H.NothingMissed, H.NothingInvented;
    H.StepInv(st.ss[k], hl);
    forall i | Covered(st.ss[k], i) ensures Covered(H.Next(st.ss[k], hl), i) {
      CoveredStep(st.ss[k], hl, i);
    }
  }

  lemma AcksOf(h: H.State, l: H.Step)
    requires H.Enabled(h, l)
    ensures forall t :: t in H.Next(h, l).acks ==> t in h.acks || (l.Call? && l.t == t)
    ensures forall t :: t in h.acks ==> t in H.Next(h, l).acks && H.Next(h, l).acks[t].i == h.acks[t].i
    ensures l.Call? ==> l.t in H.Next(h, l).acks && H.Next(h, l).acks[l.t].i == l.i
    ensures !l.Advance? ==> H.Next(h, l).own == h.own
  {
  }

  /** A step inside session k, made by its set-up or by the broadcast that calls it. */
  lemma InsideInv(st: State, k: nat, hl: H.Step, a: Cast, t: H.Tid)
    requires Inv(st) && k < |st.ss| && H.Enabled(st.ss[k], hl)
    requires hl.Setup? || hl.Call? || hl.Ack?
    requires t in st.casts && a.i == st.casts[t].i
    requires if hl.Call? then hl.t == t && hl.i == a.i && st.casts[t] == At(a.i, k) && a == In(a.i, k) else a == st.casts[t]
    ensures Inv(st.(ss := st.ss[k := H.Next(st.ss[k], hl)], casts := st.casts[t := a]))
  {
    hide H.Inv, H.Next, H.Enabled, Covered;
    OneSession(st, k, hl);
    AcksOf(st.ss[k], hl);
  }

  lemma SetupInv(st: State, l: Step)
    requires Inv(st) && Enabled(st, l) && l.Setup?
    ensures Inv(Next(st, l))
  {
    hide H.Inv, H.Next, H.Enabled, Covered;
    OneSession(st, l.k, H.Setup);
    AcksOf(st.ss[l.k], H.Setup);
  }

  lemma AdvanceInv(st: State, l: Step)
    requires Inv(st) && Enabled(st, l) && l.Advance?
    ensures Inv(Next(st, l))
  {
    forall k | 0 <= k < |st.ss|
      ensures H.Inv(st.ss[k].(own := l.own))
      ensures forall i :: Covered(st.ss[k], i) ==> Covered(st.ss[k].(own := l.own), i)
    {
      OneSession(st, k, H.Advance(l.own));
    }
    hide H.Inv, Covered;
    var st' := Next(st, l);
    assert SessionsOk(st') && LockOk(st') && CallsOk(st') && CoveredOk(st');
  }

  lemma JoinInv(st: State, l: Step)
    requires Inv(st) && Enabled(st, l) && l.NewSession?
    ensures Inv(Next(st, l))
  {
    assert H.Inv(Fresh(st.own));
    assert forall t :: t in st.casts ==> Covered(Fresh(st.own), st.casts[t].i);
    hide H.Inv, Covered;
  }

  lemma BeginInv(st: State, l: Step)
    requires Inv(st) && Enabled(st, l) && l.Begin?
    ensures Inv(Next(st, l))
  {
    hide H.Inv, H.Next, H.Enabled, Covered;
  }

  lemma ReturnInv(st: State, l: Step)
    requires Inv(st) && Enabled(st, l) && l.Return?
    ensures Inv(Next(st, l))
  {
    ReturnedIsCovered(st.ss[st.casts[l.t].k], l.t);
    hide H.Inv, H.Next, H.Enabled, Covered;
  }

  lemma EndInv(st: State, l: Step)
    requires Inv(st) && Enabled(st, l) && l.End?
    ensures Inv(Next(st, l))
  {
    hide H.Inv, H.Next, H.Enabled, Covered;
  }

  lemma StepInv(st: State, l: Step)
    requires Inv(st) && Enabled(st, l)
    ensures Inv(Next(st, l))
  {
    match l
    case Advance(_) => AdvanceInv(st, l);
    case NewSession => JoinInv(st, l);
    case Setup(_) => SetupInv(st, l);
    case Call(t) =>
      InsideInv(st, st.casts[t].k, H.Call(t, st.casts[t].i), In(st.casts[t].i, st.casts[t].k), t);
    case Ack(t) =>
      InsideInv(st, st.casts[t].k, H.Ack(t), st.casts[t], t);
      assert st.casts[t := st.casts[t]] == st.casts;
    case Begin(_, _) => BeginInv(st, l);
    case Return(_) => ReturnInv(st, l);
    case End(_) => EndInv(st, l);
  }

  // ---------- runs ----------

  predicate Init(st: State) {
    st.ss == [] && st.m == None && st.casts == map[]
  }

  ghost predicate IsRun(sts: seq<State>, ls: seq<Step>) {
    && |sts| == |ls| + 1 && Init(sts[0])
    && forall k :: 0 <= k < |ls| ==> Enabled(sts[k], ls[k]) && sts[k + 1] == Next(sts[k], ls[k])
  }

  lemma {:induction false} RunInv(sts: seq<State>, ls: seq<Step>, n: nat)
    requires IsRun(sts, ls) && n <= |ls|
    ensures Inv(sts[n])
  {
    if n > 0 {
      hide Enabled, Next, Inv;
      RunInv(sts, ls, n - 1);
      StepInv(sts[n - 1], ls[n - 1]);
    }
  }

  /**
   * Once a broadcast is over, every session of the collection, those that joined later included, has the
   * piece in its snapshot or in its queue from the moment it has a snapshot on.
   */
  lemma BroadcastReachesAll(sts: seq<State>, ls: seq<Step>, n: nat, t: H.Tid, k: nat)
    requires IsRun(sts, ls) && n <= |ls| && t in sts[n].casts && sts[n].casts[t].Over? && k < |sts[n].ss|
    ensures Covered(sts[n].ss[k], sts[n].casts[t].i)
  {
    hide Enabled, Next, Covered;
    RunInv(sts, ls, n);
  }

  /** No broadcast gets stuck before a session: it has never called that session before. */
  lemma CallIsPossible(sts: seq<State>, ls: seq<Step>, n: nat, t: H.Tid)
    requires IsRun(sts, ls) && n <= |ls| && t in sts[n].casts && sts[n].casts[t].At?
    ensures Enabled(sts[n], Call(t)) || Enabled(sts[n], End(t))
  {
    hide Next;
    RunInv(sts, ls, n);
  }
}
