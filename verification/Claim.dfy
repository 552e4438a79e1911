/**
 * The claim of a piece, at the granularity of locks.  All session threads of one peer share the
 * bitfield `sv` with its counter `nOwned`, guarded by the lock `m`, and the lock `mReq` that makes
 * computing the eligible pieces, picking one and marking it requested a unit.  Completions take `m`
 * but not `mReq`; inside, the counter moves before the slot, and owningAll reads the counter
 * without any lock.
 *
 * Shown: every step is an atomic claim or completion of the swarm, or invisible; a picked piece
 * is still absent when it is marked; and the counter agrees with the slots at every instant.
 */
module Claim {
  import opened Pieces
  import opened Utils

  type Tid = nat

  datatype PC =
    | Idle
    | WantReq                   // at the lock mReq
    | Choosing                  // holds mReq
    | Picked(i: int)            // holds mReq, i was eligible
    | Leaving(got: Option<int>) // holds mReq, done
    | Counting(i: int)          // holds m, in setOwned(i), nothing changed yet
    | Counted(i: int)           // holds m, counter moved, slot not yet
    | Marked(i: int)            // holds m, both moved

  /** `claims` are the pieces that threads have claimed and not yet completed. */
  datatype State = State(
    sv: seq<Status>, nOwned: int, m: Option<Tid>, mReq: Option<Tid>,
    views: map<Tid, seq<Status>>, pcs: map<Tid, PC>, claims: map<int, Tid>)

  datatype Step =
    | Learn(t: Tid, view: seq<Status>)  // thread t, between handlers, updates its view of its peer
    | Ask(t: Tid)                       // enters requestNextIfPossible
    | LockReq(t: Tid)
    | Pick(t: Tid, i: int)              // the difference, computed under m, and the random choice
    | PickNone(t: Tid)                  // the difference is empty
    | SetRequested(t: Tid)
    | UnlockReq(t: Tid)
    | BeginOwned(t: Tid, i: int)        // the piece has arrived and is saved: setOwned takes m
    | Count(t: Tid)
    | Mark(t: Tid)
    | EndOwned(t: Tid)

  predicate InReq(p: PC) { p.Choosing? || p.Picked? || p.Leaving? }

  predicate InOwn(p: PC) { p.Counting? || p.Counted? || p.Marked? }

  predicate WellFormed(st: State) {
    st.views.Keys == st.pcs.Keys && forall t :: t in st.views ==> |st.views[t]| == |st.sv|
  }

  predicate Enabled(st: State, l: Step)
    requires WellFormed(st)
  {
    && l.t in st.pcs
    && var pc, view := st.pcs[l.t], st.views[l.t];
    match l
    case Learn(_, v) => pc.Idle? && |v| == |st.sv|
    case Ask(_) => pc.Idle?
    case LockReq(_) => pc.WantReq? && st.mReq == None
    case Pick(_, i) => pc.Choosing? && st.m == None && Wanted(view, st.sv, i)
    case PickNone(_) => pc.Choosing? && st.m == None && NothingWanted(view, st.sv)
    case SetRequested(_) => pc.Picked? && st.m == None
    case UnlockReq(_) => pc.Leaving?
    case BeginOwned(t, i) => pc.Idle? && st.m == None && i in st.claims && st.claims[i] == t
    case Count(_) => pc.Counting?
    case Mark(_) => pc.Counted?
    case EndOwned(_) => pc.Marked?
  }

  function Next(st: State, l: Step): State
    requires WellFormed(st) && Enabled(st, l)
  {
    var t, pc := l.t, st.pcs[l.t];
    match l
    case Learn(_, v) => st.(views := st.views[t := v])
    case Ask(_) => st.(pcs := st.pcs[t := WantReq])
    case LockReq(_) => st.(pcs := st.pcs[t := Choosing], mReq := Some(t))
    case Pick(_, i) => st.(pcs := st.pcs[t := Picked(i)])
    case PickNone(_) => st.(pcs := st.pcs[t := Leaving(None)])
    case SetRequested(_) =>
      st.(pcs := st.pcs[t := Leaving(Some(pc.i))], claims := st.claims[pc.i := t],
          sv := if 0 <= pc.i < |st.sv| then st.sv[pc.i := Requested] else st.sv)
    case UnlockReq(_) => st.(pcs := st.pcs[t := Idle], mReq := None)
    case BeginOwned(_, i) => st.(pcs := st.pcs[t := Counting(i)], m := Some(t))
    case Count(_) =>
      st.(pcs := st.pcs[t := Counted(pc.i)],
          nOwned := if Has(st.sv, pc.i) then st.nOwned else st.nOwned + 1)
    case Mark(_) =>
      st.(pcs := st.pcs[t := Marked(pc.i)], claims := st.claims - {pc.i},
          sv := if 0 <= pc.i < |st.sv| then st.sv[pc.i := Owned] else st.sv)
    case EndOwned(_) => st.(pcs := st.pcs[t := Idle], m := None)
  }

  // ---------- the invariant ----------

  /** The bitfield as all the other threads see it: a completion takes effect when the counter moves. */
  function Seen(st: State): seq<Status> {
    if st.m.Some? && st.m.value in st.pcs && st.pcs[st.m.value].Counted?
       && 0 <= st.pcs[st.m.value].i < |st.sv|
    then st.sv[st.pcs[st.m.value].i := Owned] else st.sv
  }

  ghost predicate LocksOk(st: State) {
    && (forall t :: t in st.pcs ==> (InReq(st.pcs[t]) <==> st.mReq == Some(t)))
    && (forall t :: t in st.pcs ==> (InOwn(st.pcs[t]) <==> st.m == Some(t)))
    && (st.m.Some? ==> st.m.value in st.pcs)
  }

  /** A piece is claimed by exactly one thread while it is requested, and by none otherwise. */
  ghost predicate ClaimsOk(st: State) {
    && (forall i :: i in st.claims <==> 0 <= i < |st.sv| && st.sv[i] == Requested)
    && (forall t :: t in st.pcs && (st.pcs[t].Counting? || st.pcs[t].Counted?) ==>
          st.pcs[t].i in st.claims && st.claims[st.pcs[t].i] == t)
  }

  /** A picked piece is still absent, whatever the other threads have done since. */
  ghost predicate PickedOk(st: State)
    requires WellFormed(st)
  {
    forall t :: t in st.pcs && st.pcs[t].Picked? ==> Wanted(st.views[t], st.sv, st.pcs[t].i)
  }

  ghost predicate CountOk(st: State) {
    st.nOwned == OwnedCount(Seen(st))
  }

  ghost predicate Inv(st: State) {
    WellFormed(st) && LocksOk(st) && ClaimsOk(st) && PickedOk(st) && CountOk(st)
  }

  predicate Init(st: State) {
    && WellFormed(st)
    && st.m == None && st.mReq == None && st.claims == map[]
    && (forall i :: 0 <= i < |st.sv| ==> st.sv[i] != Requested)
    && (forall t :: t in st.pcs ==> st.pcs[t].Idle?)
    && st.nOwned == OwnedCount(st.sv)
  }

  lemma LocksStep(st: State, l: Step)
    requires WellFormed(st) && LocksOk(st) && Enabled(st, l)
    ensures LocksOk(Next(st, l))
  {
  }

  lemma ClaimsStep(st: State, l: Step)
    requires WellFormed(st) && LocksOk(st) && ClaimsOk(st) && PickedOk(st) && Enabled(st, l)
    ensures ClaimsOk(Next(st, l))
  {
  }

  lemma PickedStep(st: State, l: Step)
    requires WellFormed(st) && LocksOk(st) && ClaimsOk(st) && PickedOk(st) && Enabled(st, l)
    ensures WellFormed(Next(st, l)) && PickedOk(Next(st, l))
  {
  }

  /** What the others see of the bitfield changes at two kinds of step only. */
  lemma SeenStep(st: State, l: Step)
    requires Inv(st) && Enabled(st, l)
    ensures var b, b', pc := Seen(st), Seen(Next(st, l)), st.pcs[l.t];
      if l.SetRequested? then Wanted(st.views[l.t], b, pc.i) && b' == b[pc.i := Requested]
      else if l.Count? then
        0 <= pc.i < |b| && b[pc.i] == Requested && st.claims[pc.i] == l.t && b' == b[pc.i := Owned]
      else b' == b
    ensures l.Pick? ==> Wanted(st.views[l.t], Seen(st), l.i)
    ensures l.PickNone? ==> NothingWanted(st.views[l.t], Seen(st))
  {
  }

  lemma CountStep(st: State, l: Step)
    requires Inv(st) && Enabled(st, l)
    ensures CountOk(Next(st, l))
  {
    SeenStep(st, l);
    if l.SetRequested? {
      CountUpdate(Seen(st), st.pcs[l.t].i, Requested);
    }
    if l.Count? {
      CountUpdate(Seen(st), st.pcs[l.t].i, Owned);
    }
  }

  lemma StepInv(st: State, l: Step)
    requires Inv(st) && Enabled(st, l)
    ensures Inv(Next(st, l))
  {
    hide LocksOk, ClaimsOk, CountOk;
    LocksStep(st, l);
    ClaimsStep(st, l);
    PickedStep(st, l);
    CountStep(st, l);
  }

  // ---------- runs ----------

  ghost predicate IsRun(sts: seq<State>, ls: seq<Step>) {
    && |sts| == |ls| + 1 && Init(sts[0])
    && forall k :: 0 <= k < |ls| ==>
         WellFormed(sts[k]) && Enabled(sts[k], ls[k]) && sts[k + 1] == Next(sts[k], ls[k])
  }

  lemma {:induction false} RunInv(sts: seq<State>, ls: seq<Step>, n: nat)
    requires IsRun(sts, ls) && n <= |ls|
    ensures Inv(sts[n])
  {
    hide LocksOk, ClaimsOk, PickedOk, CountOk, Enabled, Next;
    if n == 0 {
      InitInv(sts[0]);
    } else {
      RunInv(sts, ls, n - 1);
      StepInv(sts[n - 1], ls[n - 1]);
    }
  }

  lemma InitInv(st: State)
    requires Init(st)
    ensures Inv(st)
  {
  }

  /**
   * In every interleaving, a piece that a thread has picked is still absent and still wanted when
   * the thread comes to mark it requested, although completions went on meanwhile.
   */
  lemma PickedStaysAbsent(sts: seq<State>, ls: seq<Step>, n: nat, t: Tid)
    requires IsRun(sts, ls) && n <= |ls| && t in sts[n].pcs && sts[n].pcs[t].Picked?
    ensures t in sts[n].views && Wanted(sts[n].views[t], sts[n].sv, sts[n].pcs[t].i)
    ensures sts[n].pcs[t].i !in sts[n].claims
  {
    RunInv(sts, ls, n);
  }

  /** Some thread is in the middle of setOwned(i): the counter has moved, the slot has not. */
  ghost predicate HalfOwned(st: State, i: int) {
    exists t :: t in st.pcs && st.pcs[t] == Counted(i)
  }

  /**
   * What the unlocked test of owningAll says at every instant: that each slot is owned or, in the middle of
   * setOwned, about to be.  Outside of setOwned that is that every slot is owned.
   */
  lemma OwningAllIsRight(sts: seq<State>, ls: seq<Step>, n: nat)
    requires IsRun(sts, ls) && n <= |ls|
    ensures var st := sts[n];
      && (st.nOwned == |st.sv| <==> forall i :: 0 <= i < |st.sv| ==> st.sv[i] == Owned || HalfOwned(st, i))
      && (st.m == None ==> (st.nOwned == |st.sv| <==> All(st.sv)))
  {
    RunInv(sts, ls, n);
    var st := sts[n];
    CountAll(Seen(st));
    forall i | 0 <= i < |st.sv| ensures Seen(st)[i] == Owned <==> st.sv[i] == Owned || HalfOwned(st, i) {
      SeenSlot(st, i);
    }
  }

  lemma SeenSlot(st: State, i: nat)
    requires LocksOk(st) && i < |st.sv|
    ensures |Seen(st)| == |st.sv|
    ensures Seen(st)[i] == Owned <==> st.sv[i] == Owned || HalfOwned(st, i)
  {
    if HalfOwned(st, i) {
      var t :| t in st.pcs && st.pcs[t] == Counted(i);
      assert st.m == Some(t);
    }
  }

  /** How many claims of piece i the run makes. */
  ghost function Claims(sts: seq<State>, ls: seq<Step>, n: nat, i: int): nat
    requires IsRun(sts, ls) && n <= |ls|
  {
    if n == 0 then 0
    else
      var st, l := sts[n - 1], ls[n - 1];
      Claims(sts, ls, n - 1, i) + (if l.SetRequested? && st.pcs[l.t].i == i then 1 else 0)
  }

  /** No piece is ever claimed twice: it is claimed exactly once if it was absent and no longer is. */
  lemma {:induction false} ClaimedOnce(sts: seq<State>, ls: seq<Step>, n: nat, i: int)
    requires IsRun(sts, ls) && n <= |ls| && 0 <= i < |sts[0].sv|
    ensures |Seen(sts[n])| == |sts[0].sv|
    ensures Claims(sts, ls, n, i) == if sts[0].sv[i] == Absent && Seen(sts[n])[i] != Absent then 1 else 0
    ensures sts[0].sv[i] == Owned ==> Seen(sts[n])[i] == Owned
  {
    hide LocksOk, ClaimsOk, PickedOk, CountOk, Next, Seen;
    if n == 0 {
      assert Seen(sts[0]) == sts[0].sv by { SeenAtStart(sts[0]); }
    } else {
      ClaimedOnce(sts, ls, n - 1, i);
      RunInv(sts, ls, n - 1);
      SeenStep(sts[n - 1], ls[n - 1]);
    }
  }

  lemma SeenAtStart(st: State)
    requires Init(st)
    ensures Seen(st) == st.sv
  {
  }
}
