/**
 * A run of the repository in which its byte counter drifts, and then an eviction reaches into an empty
 * cache.  A file of three bytes in pieces of two, a cache of two bytes, and two threads.
 */
module RepositoryRace {
  import opened Bytes
  import opened Geometry
  import opened Repository
  import opened RepositoryRuns

  const SMALL := Config(3, 2, 2)

  /** The whole file is owned; threads 0 and 1 stand at p and q. */
  function Stand(f: seq<Byte>, cache: Cache, nCached: int, p: PC, q: PC): State {
    State(f, cache, nCached, {0, 1}, map[], map[0 := p, 1 := q])
  }

  ghost predicate EndsIn(sts: seq<State>, ls: seq<Step>, st: State) {
    IsRun(SMALL, sts, ls) && sts[|ls|] == st
  }

  /** Some run ends in state st. */
  ghost predicate Leads(st: State) {
    exists sts, ls :: EndsIn(sts, ls, st)
  }

  lemma Go(st: State, l: Step, st': State)
    requires Leads(st) && WellFormed(SMALL, st) && Enabled(SMALL, st, l) && st' == Next(SMALL, st, l)
    ensures Leads(st')
  {
    hide Enabled, Next, Init;
    var sts, ls :| EndsIn(sts, ls, st);
    assert EndsIn(sts + [st'], ls + [l], st');
  }

  lemma TwoOfThree()
    ensures NumPieces(3, 2) == 2
  {
  }

  lemma TwoPieces(f: seq<Byte>)
    requires |f| == 3 && NumPieces(3, 2) == 2
    ensures Slice(f, 2, 0) == f[0..2] && Slice(f, 2, 1) == f[2..3]
  {
  }

  lemma Start(f: seq<Byte>)
    requires |f| == 3
    ensures Leads(Stand(f, map[], 0, Idle, Idle))
  {
    hide NumPieces, Slice;
    TwoOfThree();
    assert EndsIn([Stand(f, map[], 0, Idle, Idle)], [], Stand(f, map[], 0, Idle, Idle));
  }

  /** Both threads miss piece 1 and read it from the file. */
  lemma BothRead(f: seq<Byte>)
    requires |f| == 3
    ensures Leads(Stand(f, map[], 0, Read(1, f[2..3]), Read(1, f[2..3])))
  {
    hide Slice, NumPieces, Len, Save, Leads, Held, Restrict, Roomy;
    TwoOfThree();
    TwoPieces(f);
    var d := f[2..3];
    Start(f);
    Go(Stand(f, map[], 0, Idle, Idle), Miss(0, 1), Stand(f, map[], 0, Missed(1), Idle));
    Go(Stand(f, map[], 0, Missed(1), Idle), Miss(1, 1), Stand(f, map[], 0, Missed(1), Missed(1)));
    Go(Stand(f, map[], 0, Missed(1), Missed(1)), ReadFile(0), Stand(f, map[], 0, Read(1, d), Missed(1)));
    Go(Stand(f, map[], 0, Read(1, d), Missed(1)), ReadFile(1), Stand(f, map[], 0, Read(1, d), Read(1, d)));
  }

  lemma OneCached(d: seq<Byte>)
    ensures Held(map[]) == 0 && Held(map[1 := d]) == |d|
    ensures Restrict(map[], {}) == map[] && Restrict(map[1 := d], {1}) == map[1 := d]
  {
    HeldInsert(map[], 1, d);
  }

  /** Both insert it: the cache holds one byte and the counter says two. */
  lemma CounterDrifts(f: seq<Byte>)
    requires |f| == 3
    ensures var st := Stand(f, map[1 := f[2..3]], 2, Served(1, f[2..3]), Served(1, f[2..3]));
      Leads(st) && Leaked(st) == 1
  {
    hide Slice, NumPieces, Leads, Held, Restrict;
    var d := f[2..3];
    var st0 := Stand(f, map[], 0, Read(1, d), Read(1, d));
    var st1 := Stand(f, map[1 := d], 1, Served(1, d), Read(1, d));
    var st2 := Stand(f, map[1 := d], 2, Served(1, d), Served(1, d));
    BothRead(f);
    OneCached(d);
    assert Freed(st0.cache, {}) == 0 && Freed(st1.cache, {1}) == 0;
    Go(st0, InsertRead(0, {}), st1);
    Go(st1, InsertRead(1, {1}), st2);
  }

  /** Then thread 0 reads piece 0, which would fill the cache: there is no room for it whatever is evicted. */
  lemma EvictionStarves(f: seq<Byte>)
    requires |f| == 3
    ensures exists sts: seq<State>, ls: seq<Step> :: IsRun(SMALL, sts, ls) && Panics(SMALL, sts[|ls|], 0)
  {
    hide Slice, NumPieces, Len, Save, Leads, Held, Restrict, Roomy;
    var d := f[2..3];
    var cache := map[1 := d];
    CounterDrifts(f);
    TwoOfThree();
    TwoPieces(f);
    Go(Stand(f, cache, 2, Served(1, d), Served(1, d)), Done(0), Stand(f, cache, 2, Idle, Served(1, d)));
    Go(Stand(f, cache, 2, Idle, Served(1, d)), Miss(0, 0), Stand(f, cache, 2, Missed(0), Served(1, d)));
    var st := Stand(f, cache, 2, Read(0, f[0..2]), Served(1, d));
    Go(Stand(f, cache, 2, Missed(0), Served(1, d)), ReadFile(0), st);
    OneCached(d);
    RoomExactly(SMALL, st, 2);
    RunOf(st);
  }

  lemma RunOf(st: State)
    requires Leads(st) && Panics(SMALL, st, 0)
    ensures exists sts: seq<State>, ls: seq<Step> :: IsRun(SMALL, sts, ls) && Panics(SMALL, sts[|ls|], 0)
  {
    hide Panics;
    var sts, ls :| EndsIn(sts, ls, st);
  }
}
