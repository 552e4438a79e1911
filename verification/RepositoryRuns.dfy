/**
 * The repository under interleaving: get is three steps (look up, read the file, insert) and so is
 * save (write the file, insert, setOwned), taken by any number of threads in any order.
 */
module RepositoryRuns {
  import opened Bytes
  import opened Geometry
  import opened Repository

  type Tid = nat

  datatype PC =
    | Idle
    | Missed(i: nat)                       // get: not found in the cache
    | Read(i: nat, piece: seq<Byte>)       // get: read from the file
    | Served(i: nat, piece: seq<Byte>)     // get: has returned
    | Writing(i: nat, piece: seq<Byte>)    // save: size checked
    | Written(i: nat, piece: seq<Byte>)    // save: written to the file
    | Inserted(i: nat)                     // save has returned, before setOwned

  /** `claims` tells which thread has requested which piece; a piece is owned after that. */
  datatype State = State(
    f: seq<Byte>, cache: Cache, nCached: int, owned: set<nat>, claims: map<nat, Tid>, pcs: map<Tid, PC>)

  type Positive = n: nat | n > 0 witness 1

  datatype Config = Config(size: nat, ps: Positive, limit: nat)

  datatype Step =
    | Hit(t: Tid, i: nat)
    | Miss(t: Tid, i: nat)
    | ReadFile(t: Tid)
    | InsertRead(t: Tid, kept: set<nat>)     // kept: what the eviction leaves of the cache
    | Done(t: Tid)
    | BeginSave(t: Tid, i: nat, piece: seq<Byte>)
    | WriteFile(t: Tid)
    | InsertSaved(t: Tid, kept: set<nat>)
    | SetOwned(t: Tid)
    | Request(t: Tid, i: nat)

  function Restrict(c: Cache, kept: set<nat>): (r: Cache)
    ensures r.Keys == c.Keys * kept
  {
    map k | k in c && k in kept :: c[k]
  }

  /** What eviction has freed. */
  ghost function Freed(c: Cache, kept: set<nat>): int {
    Held(c) - Held(Restrict(c, kept))
  }

  /** There is room for size bytes once all but kept has been evicted. */
  ghost predicate Fits(c: Config, st: State, kept: set<nat>, size: nat) {
    st.nCached - Freed(st.cache, kept) + size <= c.limit
  }

  /** Entries are evicted one at a time, each because there was no room with it, until there is. */
  ghost predicate Roomy(c: Config, st: State, kept: set<nat>, size: nat) {
    && Fits(c, st, kept, size)
    && (st.cache.Keys <= kept || exists k :: k in st.cache && k !in kept && !Fits(c, st, kept + {k}, size))
  }

  ghost predicate WellFormed(c: Config, st: State) {
    |st.f| == c.size
  }

  ghost predicate Enabled(c: Config, st: State, l: Step) {
    && l.t in st.pcs
    && var pc := st.pcs[l.t];
    match l
    case Hit(_, i) => pc.Idle? && i in st.owned && i in st.cache
    case Miss(_, i) => pc.Idle? && i in st.owned && i !in st.cache
    case ReadFile(_) => pc.Missed?
    case InsertRead(_, kept) => pc.Read? && Roomy(c, st, kept, |pc.piece|)
    case Done(_) => pc.Served?
    case BeginSave(t, i, piece) =>
      pc.Idle? && i in st.claims && st.claims[i] == t && |piece| == Len(c.size, c.ps, i)
    case WriteFile(_) => pc.Writing?
    case InsertSaved(_, kept) => pc.Written? && Roomy(c, st, kept, |pc.piece|)
    case SetOwned(_) => pc.Inserted?
    case Request(_, i) => pc.Idle? && i < NumPieces(c.size, c.ps) && i !in st.owned && i !in st.claims
  }

  /** Eviction, then emplace, then the counter: a key that is there already keeps its value. */
  ghost function Emplaced(st: State, t: Tid, kept: set<nat>, i: nat, piece: seq<Byte>, pc: PC): State {
    var c := Restrict(st.cache, kept);
    st.(cache := if i in c then c else c[i := piece],
        nCached := st.nCached - Freed(st.cache, kept) + |piece|, pcs := st.pcs[t := pc])
  }

  ghost function Next(c: Config, st: State, l: Step): State
    requires WellFormed(c, st) && Enabled(c, st, l)
  {
    var t, pc := l.t, st.pcs[l.t];
    match l
    case Hit(_, i) => st.(pcs := st.pcs[t := Served(i, st.cache[i])])
    case Miss(_, i) => st.(pcs := st.pcs[t := Missed(i)])
    case ReadFile(_) =>
      if pc.i < NumPieces(c.size, c.ps) then st.(pcs := st.pcs[t := Read(pc.i, Slice(st.f, c.ps, pc.i))]) else st
    case InsertRead(_, kept) => Emplaced(st, t, kept, pc.i, pc.piece, Served(pc.i, pc.piece))
    case Done(_) => st.(pcs := st.pcs[t := Idle])
    case BeginSave(_, i, piece) => st.(pcs := st.pcs[t := Writing(i, piece)])
    case WriteFile(_) =>
      if pc.i < NumPieces(c.size, c.ps) && |pc.piece| == Len(c.size, c.ps, pc.i)
      then st.(f := Save(st.f, c.ps, pc.i, pc.piece), pcs := st.pcs[t := Written(pc.i, pc.piece)]) else st
    case InsertSaved(_, kept) => Emplaced(st, t, kept, pc.i, pc.piece, Inserted(pc.i))
    case SetOwned(_) => st.(owned := st.owned + {pc.i}, claims := st.claims - {pc.i}, pcs := st.pcs[t := Idle])
    case Request(_, i) => st.(claims := st.claims[i := t])
  }

  // ---------- the invariant ----------

  predicate Saves(p: PC) { p.Writing? || p.Written? || p.Inserted? }

  ghost predicate ClaimsOk(c: Config, st: State) {
    && (forall i :: i in st.claims ==> i < NumPieces(c.size, c.ps) && i !in st.owned)
    && (forall i :: i in st.owned ==> i < NumPieces(c.size, c.ps))
    && (forall t :: t in st.pcs && Saves(st.pcs[t]) ==> st.pcs[t].i in st.claims && st.claims[st.pcs[t].i] == t)
    && (forall t :: t in st.pcs && st.pcs[t].Writing? ==> |st.pcs[t].piece| == Len(c.size, c.ps, st.pcs[t].i))
  }

  /** A piece is cached only once it is owned or its claimant has written it. */
  ghost predicate CachedOk(st: State) {
    forall i :: i in st.cache && i !in st.owned ==>
      i in st.claims && st.claims[i] in st.pcs && st.pcs[st.claims[i]] == Inserted(i)
  }

  /** Whatever a thread carries is the slice of the file. */
  ghost predicate CarriedOk(c: Config, st: State)
    requires WellFormed(c, st)
  {
    forall t :: t in st.pcs ==>
      var p := st.pcs[t];
      && (p.Missed? || p.Read? || p.Served? ==> p.i in st.owned)
      && (p.Read? || p.Served? || p.Written? ==>
            p.i < NumPieces(c.size, c.ps) && p.piece == Slice(st.f, c.ps, p.i))
  }

  ghost predicate Inv(c: Config, st: State) {
    WellFormed(c, st) && ClaimsOk(c, st) && CachedOk(st) && CarriedOk(c, st)
    && Coherent(st.cache, st.f, c.ps) && st.nCached <= c.limit
  }

  /** A file slice that is owned or read is never the one being written. */
  lemma WriteInv(c: Config, st: State, l: Step)
    requires Inv(c, st) && Enabled(c, st, l) && l.WriteFile?
    ensures Inv(c, Next(c, st, l))
  {
    var i, piece := st.pcs[l.t].i, st.pcs[l.t].piece;
    forall j: nat | j < NumPieces(c.size, c.ps)
      ensures Slice(Save(st.f, c.ps, i, piece), c.ps, j) == if j == i then piece else Slice(st.f, c.ps, j)
    {
      SaveSlice(st.f, c.ps, i, piece, j);
    }
  }

  lemma InsertInv(c: Config, st: State, l: Step)
    requires Inv(c, st) && Enabled(c, st, l) && (l.InsertRead? || l.InsertSaved?)
    ensures Inv(c, Next(c, st, l))
  {
    hide Freed, Slice, NumPieces, Len;
  }

  lemma GetInv(c: Config, st: State, l: Step)
    requires Inv(c, st) && Enabled(c, st, l) && (l.Hit? || l.Miss? || l.ReadFile? || l.Done?)
    ensures Inv(c, Next(c, st, l))
  {
    hide Freed, Roomy, Slice, NumPieces, Len;
  }

  lemma ClaimInv(c: Config, st: State, l: Step)
    requires Inv(c, st) && Enabled(c, st, l) && (l.BeginSave? || l.SetOwned? || l.Request?)
    ensures Inv(c, Next(c, st, l))
  {
    hide Freed, Roomy, Slice, NumPieces, Len;
  }

  lemma StepInv(c: Config, st: State, l: Step)
    requires Inv(c, st) && Enabled(c, st, l)
    ensures Inv(c, Next(c, st, l))
  {
    hide Inv, Enabled, Next;
    match l {
      case WriteFile(_) => WriteInv(c, st, l);
      case InsertRead(_, _) => InsertInv(c, st, l);
      case InsertSaved(_, _) => InsertInv(c, st, l);
      case BeginSave(_, _, _) => ClaimInv(c, st, l);
      case SetOwned(_) => ClaimInv(c, st, l);
      case Request(_, _) => ClaimInv(c, st, l);
      case _ => GetInv(c, st, l);
    }
  }

  // ---------- runs ----------

  ghost predicate Init(c: Config, st: State) {
    && WellFormed(c, st)
    && st.cache == map[] && st.nCached == 0 && st.claims == map[]
    && (forall i :: i in st.owned ==> i < NumPieces(c.size, c.ps))
    && (forall t :: t in st.pcs ==> st.pcs[t].Idle?)
  }

  ghost predicate IsRun(c: Config, sts: seq<State>, ls: seq<Step>) {
    && |sts| == |ls| + 1 && Init(c, sts[0])
    && forall k :: 0 <= k < |ls| ==>
         WellFormed(c, sts[k]) && Enabled(c, sts[k], ls[k]) && sts[k + 1] == Next(c, sts[k], ls[k])
  }

  lemma {:induction false} RunInv(c: Config, sts: seq<State>, ls: seq<Step>, n: nat)
    requires IsRun(c, sts, ls) && n <= |ls|
    ensures Inv(c, sts[n])
  {
    if n > 0 {
      hide Inv, Enabled, Next;
      RunInv(c, sts, ls, n - 1);
      StepInv(c, sts[n - 1], ls[n - 1]);
    }
  }

  /** In every interleaving the cache agrees with the file, and so does every piece that get returns. */
  lemma ServedFromFile(c: Config, sts: seq<State>, ls: seq<Step>, n: nat)
    requires IsRun(c, sts, ls) && n <= |ls|
    ensures |sts[n].f| == c.size && Coherent(sts[n].cache, sts[n].f, c.ps)
    ensures forall t :: t in sts[n].pcs && sts[n].pcs[t].Served? ==>
              var p := sts[n].pcs[t];
              p.i in sts[n].owned && p.i < NumPieces(c.size, c.ps) && p.piece == Slice(sts[n].f, c.ps, p.i)
  {
    hide Enabled, Next;
    RunInv(c, sts, ls, n);
  }

  /** The slice of an owned piece never changes again. */
  lemma {:induction false} OwnedSlicesStay(c: Config, sts: seq<State>, ls: seq<Step>, m: nat, n: nat, i: nat)
    requires IsRun(c, sts, ls) && m <= n <= |ls| && i in sts[m].owned
    ensures i in sts[n].owned && i < NumPieces(c.size, c.ps) && |sts[m].f| == |sts[n].f| == c.size
    ensures Slice(sts[n].f, c.ps, i) == Slice(sts[m].f, c.ps, i)
    decreases n
  {
    RunInv(c, sts, ls, n);
    if m < n {
      OwnedSlicesStay(c, sts, ls, m, n - 1, i);
      RunInv(c, sts, ls, n - 1);
      OwnedSliceStep(c, sts[n - 1], ls[n - 1], i);
    }
  }

  lemma OwnedSliceStep(c: Config, st: State, l: Step, i: nat)
    requires Inv(c, st) && Enabled(c, st, l) && i in st.owned
    ensures var st' := Next(c, st, l);
      i in st'.owned && i < NumPieces(c.size, c.ps) && |st'.f| == c.size && Slice(st'.f, c.ps, i) == Slice(st.f, c.ps, i)
  {
    if l.WriteFile? {
      SaveSlice(st.f, c.ps, st.pcs[l.t].i, st.pcs[l.t].piece, i);
    }
  }

  // ---------- room ----------

  /** What the counter says beyond what the cache holds. */
  ghost function Leaked(st: State): int {
    st.nCached - Held(st.cache)
  }

  lemma EvictedAll(c: Cache, kept: set<nat>)
    requires kept * c.Keys == {}
    ensures Freed(c, kept) == Held(c)
  {
    assert Restrict(c, kept).Keys == {};
  }

  /** Evicting on from kept, which has no room or nothing superfluous evicted, until there is room. */
  lemma Evict(c: Config, st: State, kept: set<nat>, size: nat) returns (kept': set<nat>)
    requires Leaked(st) + size <= c.limit
    requires st.cache.Keys <= kept || exists k :: k in st.cache && k !in kept && !Fits(c, st, kept + {k}, size)
    ensures Roomy(c, st, kept', size)
    decreases |kept * st.cache.Keys|
  {
    if Fits(c, st, kept, size) {
      kept' := kept;
    } else if kept * st.cache.Keys == {} {
      EvictedAll(st.cache, kept);
      assert false;
    } else {
      var k :| k in kept * st.cache.Keys;
      assert kept - {k} + {k} == kept;
      assert (kept - {k}) * st.cache.Keys == kept * st.cache.Keys - {k};
      kept' := Evict(c, st, kept - {k}, size);
    }
  }

  /**
   * The exact condition for an insertion: evicting ends with room, and not at an empty cache, if and only if what
   * has leaked from the counter leaves room for the piece.
   */
  lemma RoomExactly(c: Config, st: State, size: nat)
    ensures (exists kept :: Roomy(c, st, kept, size)) <==> Leaked(st) + size <= c.limit
  {
    if Leaked(st) + size <= c.limit {
      var kept := Evict(c, st, st.cache.Keys, size);
    }
  }

  /** Thread t comes to insert its piece and evicts in vain: it reaches into an empty cache. */
  ghost predicate Panics(c: Config, st: State, t: Tid) {
    && t in st.pcs && (st.pcs[t].Read? || st.pcs[t].Written?)
    && !exists kept :: Roomy(c, st, kept, |st.pcs[t].piece|)
  }

  // ---------- the byte counter ----------

  /** The insertion finds its piece in the cache already. */
  ghost predicate Redundant(st: State, l: Step)
    requires l.t in st.pcs
  {
    l.InsertRead? && st.pcs[l.t].Read? && st.pcs[l.t].i in st.cache && st.pcs[l.t].i in l.kept
  }

  /** The counter leaks a piece at exactly one kind of step: the second insertion of two overlapping misses. */
  lemma LeakStep(c: Config, st: State, l: Step)
    requires Inv(c, st) && Enabled(c, st, l)
    ensures Leaked(Next(c, st, l)) == Leaked(st) + (if Redundant(st, l) then |st.pcs[l.t].piece| else 0)
  {
    hide ClaimsOk, CarriedOk, Coherent, Roomy, Held, Slice, NumPieces, Len;
    if l.InsertRead? || l.InsertSaved? {
      var i, piece, r := st.pcs[l.t].i, st.pcs[l.t].piece, Restrict(st.cache, l.kept);
      if l.InsertSaved? { assert i !in st.cache by { NotCachedYet(c, st, l.t); } }
      if i !in r { HeldInsert(r, i, piece); }
    }
  }

  lemma NotCachedYet(c: Config, st: State, t: Tid)
    requires Inv(c, st) && t in st.pcs && st.pcs[t].Written?
    ensures st.pcs[t].i !in st.cache
  {
  }

  /** No other thread is between a miss and the insertion of piece i. */
  ghost predicate Alone(st: State, t: Tid, i: nat) {
    forall u :: u in st.pcs && u != t ==> !((st.pcs[u].Missed? || st.pcs[u].Read?) && st.pcs[u].i == i)
  }

  ghost predicate MissesApart(c: Config, sts: seq<State>, ls: seq<Step>) {
    |sts| == |ls| + 1 && forall k :: 0 <= k < |ls| && ls[k].Miss? ==> Alone(sts[k], ls[k].t, ls[k].i)
  }

  ghost predicate ApartInv(st: State) {
    forall t :: t in st.pcs && (st.pcs[t].Missed? || st.pcs[t].Read?) ==>
      st.pcs[t].i !in st.cache && st.pcs[t].i in st.owned && Alone(st, t, st.pcs[t].i)
  }

  lemma ApartStep(c: Config, st: State, l: Step)
    requires Inv(c, st) && Enabled(c, st, l) && ApartInv(st)
    requires l.Miss? ==> Alone(st, l.t, l.i)
    ensures ApartInv(Next(c, st, l)) && !Redundant(st, l)
  {
    hide Coherent, Roomy, Freed, Slice, NumPieces, Len, CachedOk;
  }

  /** When misses of one piece do not overlap, the counter is exactly what the cache holds. */
  lemma {:induction false} CounterIsExact(c: Config, sts: seq<State>, ls: seq<Step>, n: nat)
    requires IsRun(c, sts, ls) && MissesApart(c, sts, ls) && n <= |ls|
    ensures sts[n].nCached == Held(sts[n].cache)
    ensures ApartInv(sts[n])
  {
    if n > 0 {
      hide Inv, Enabled, Next, ApartInv, Alone;
      CounterIsExact(c, sts, ls, n - 1);
      RunInv(c, sts, ls, n - 1);
      LeakStep(c, sts[n - 1], ls[n - 1]);
      ApartStep(c, sts[n - 1], ls[n - 1]);
    }
  }

  lemma PieceSize(c: Config, st: State, t: Tid)
    requires Inv(c, st) && t in st.pcs && (st.pcs[t].Read? || st.pcs[t].Written?)
    ensures 0 < |st.pcs[t].piece| <= c.ps
  {
    PieceBounds(c.size, c.ps, st.pcs[t].i);
  }

  /**
   * Over every run the counter is within the limit and never below what the cache holds, and it is exact
   * if and only if no insertion has found its piece in the cache.
   */
  lemma {:induction false} CounterExactly(c: Config, sts: seq<State>, ls: seq<Step>, n: nat)
    requires IsRun(c, sts, ls) && n <= |ls|
    ensures Held(sts[n].cache) <= sts[n].nCached <= c.limit
    ensures sts[n].nCached == Held(sts[n].cache) <==>
            forall k :: 0 <= k < n ==> ls[k].t in sts[k].pcs && !Redundant(sts[k], ls[k])
  {
    hide Inv, Enabled, Next, Held, Redundant;
    RunInv(c, sts, ls, n);
    InvLimit(c, sts[n]);
    if n == 0 {
      NothingHeld(c, sts[0]);
    } else {
      CounterExactly(c, sts, ls, n - 1);
      RunInv(c, sts, ls, n - 1);
      LeakStep(c, sts[n - 1], ls[n - 1]);
      RedundantPiece(c, sts[n - 1], ls[n - 1]);
    }
  }

  lemma InvLimit(c: Config, st: State)
    requires Inv(c, st)
    ensures st.nCached <= c.limit
  {
  }

  lemma NothingHeld(c: Config, st: State)
    requires Init(c, st)
    ensures Held(st.cache) == st.nCached == 0
  {
  }

  lemma RedundantPiece(c: Config, st: State, l: Step)
    requires Inv(c, st) && Enabled(c, st, l)
    ensures l.t in st.pcs && (Redundant(st, l) ==> st.pcs[l.t].Read? && |st.pcs[l.t].piece| > 0)
  {
    hide Inv;
    if Redundant(st, l) { PieceSize(c, st, l.t); }
  }

  /** When misses of one piece do not overlap and no piece exceeds the limit, nobody reaches into an empty cache. */
  lemma EvictionNeverStarves(c: Config, sts: seq<State>, ls: seq<Step>, n: nat, t: Tid)
    requires IsRun(c, sts, ls) && MissesApart(c, sts, ls) && n <= |ls| && c.ps <= c.limit
    ensures !Panics(c, sts[n], t)
  {
    hide Inv, Enabled, Next, Roomy;
    var st := sts[n];
    if t in st.pcs && (st.pcs[t].Read? || st.pcs[t].Written?) {
      RunInv(c, sts, ls, n);
      CounterIsExact(c, sts, ls, n);
      PieceSize(c, st, t);
      RoomExactly(c, st, |st.pcs[t].piece|);
    }
  }

  /** Two threads that have missed one piece: whoever inserts second leaks its size from the counter. */
  lemma OverlappingMissesLeak(c: Config, st: State, t: Tid, u: Tid, i: nat, all: set<nat>)
    requires Inv(c, st) && t in st.pcs && u in st.pcs && t != u && i !in st.cache
    requires st.pcs[t].Read? && st.pcs[u].Read? && st.pcs[t].i == st.pcs[u].i == i
    requires all == st.cache.Keys + {i}
    requires st.nCached + 2 * |st.pcs[t].piece| <= c.limit
    ensures WellFormed(c, st) && Enabled(c, st, InsertRead(t, all))
    ensures var st1 := Next(c, st, InsertRead(t, all));
      && Enabled(c, st1, InsertRead(u, all))
      && Leaked(Next(c, st1, InsertRead(u, all))) == Leaked(st) + |st.pcs[t].piece|
  {
    var l := InsertRead(t, all);
    assert Restrict(st.cache, all) == st.cache;
    var st1 := Next(c, st, l);
    assert st1.cache == st.cache[i := st.pcs[t].piece];
    assert Restrict(st1.cache, all) == st1.cache;
    LeakStep(c, st, l);
    StepInv(c, st, l);
    LeakStep(c, st1, InsertRead(u, all));
  }
}
