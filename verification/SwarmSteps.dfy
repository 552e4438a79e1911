/** What any step leaves as it is: who there is, the sizes, and where the other threads stand. */
module SwarmSteps {
  import opened Pieces
  import opened SwarmModel

  lemma AckedFirst(c: Config, st: State, l: Step)
    requires WellFormed(c, st) && Enabled(c, st, l)
    ensures var st0 := AckedState(st, l); var x, x0 := st.ses[l.s], st0.ses[l.s];
      && st0.ses.Keys == st.ses.Keys && st0.ses[Rev(l.s)] == st.ses[Rev(l.s)]
      && x0.pc == x.pc && x0.view == x.view && (!l.AckHave? ==> x0 == x)
      && CanMove(c, x0, st0.ses[Rev(l.s)], st.own[l.s.me], l)
  {
    hide BadEvent, Wanted, NothingWanted;
    assert l.AckHave? ==> Rev(l.s) != l.t;
  }

  lemma OnlyQueues(st: State, l: Step)
    requires l.s in st.ses
    ensures AckedState(st, l).ses.Keys == st.ses.Keys
    ensures forall t :: t in st.ses ==> AckedState(st, l).ses[t].pc == st.ses[t].pc
  {
  }

  lemma OnlyWires(y: Session, l: Step)
    ensures Read(y, l).pc == y.pc
  {
  }

  lemma StepMoves(c: Config, st: State, l: Step)
    requires WellFormed(c, st) && Enabled(c, st, l)
    ensures var x := AckedState(st, l).ses[l.s];
      && CanMove(c, x, AckedState(st, l).ses[Rev(l.s)], st.own[l.s.me], l)
      && Apply(c, st, l).ses[l.s] ==
         Moved(c, x, AckedState(st, l).ses[Rev(l.s)], st.own[l.s.me], st.disk[l.s.me], SessionsOf(st, l.s.me), l)
      && x.pc == st.ses[l.s].pc && (!l.AckHave? ==> x == st.ses[l.s])
    ensures Apply(c, st, l).own == st.own[l.s.me := OwnAfter(st.own[l.s.me], st.ses[l.s], l)]
  {
    hide CanMove, Moved, Read, DiskAfter;
    AckedFirst(c, st, l);
  }

  /** All other threads stay where they are: at most their queues and wires change. */
  lemma PcElsewhere(c: Config, st: State, l: Step)
    requires WellFormed(c, st) && Enabled(c, st, l)
    ensures Apply(c, st, l).ses.Keys == st.ses.Keys
    ensures forall t :: t in st.ses && t != l.s ==> Apply(c, st, l).ses[t].pc == st.ses[t].pc
  {
    hide CanMove, Moved, Read, DiskAfter, OwnAfter, AckedState;
    OnlyQueues(st, l);
    OnlyWires(AckedState(st, l).ses[Rev(l.s)], l);
  }

  lemma MovedView(c: Config, x: Session, y: Session, own: seq<Status>, disk: seq<Data>, all: set<Sid>, l: Step)
    requires |own| == |disk| == |x.view| == c.N() && CanMove(c, x, y, own, l)
    ensures |Moved(c, x, y, own, disk, all, l).view| == c.N()
  {
    hide Wanted, NothingWanted, All;
  }

  lemma MovedSizes(c: Config, st: State, l: Step)
    requires WellFormed(c, st) && Enabled(c, st, l)
    ensures |Apply(c, st, l).ses[l.s].view| == c.N()
  {
    hide CanMove, Moved, Apply;
    StepMoves(c, st, l);
    var st0 := AckedState(st, l);
    MovedView(c, st0.ses[l.s], st0.ses[Rev(l.s)], st.own[l.s.me], st.disk[l.s.me], SessionsOf(st, l.s.me), l);
  }

  lemma SizesStay(c: Config, st: State, s: Sid, x: Session, y: Session)
    requires WellFormed(c, st) && s in st.ses && |x.view| == |y.view| == c.N()
    ensures WellFormed(c, With(st, s, x, y))
  {
    var st' := With(st, s, x, y);
    forall t | t in st'.ses
      ensures t.me in st'.own && t.other in st'.own && t.me != t.other && Rev(t) in st'.ses
              && |st'.ses[t].view| == c.N()
    {
      assert t in st.ses;
    }
  }

  lemma AckedSizes(c: Config, st: State, l: Step)
    requires WellFormed(c, st) && l.s in st.ses
    ensures WellFormed(c, AckedState(st, l))
  {
    var st0 := AckedState(st, l);
    forall t | t in st0.ses ensures Rev(t) in st0.ses && |st0.ses[t].view| == c.N() {
      assert t in st.ses;
    }
  }

  lemma SharedSizes(c: Config, st: State, p: Peer, own: seq<Status>, disk: seq<Data>)
    requires WellFormed(c, st) && p in st.own && |own| == |disk| == c.N()
    ensures WellFormed(c, st.(own := st.own[p := own], disk := st.disk[p := disk]))
  {
  }

  /** A step in its parts. */
  lemma ApplyIs(c: Config, st: State, l: Step)
    requires WellFormed(c, st) && Enabled(c, st, l)
    ensures var st0 := AckedState(st, l);
      && l.s in st0.ses && Rev(l.s) in st0.ses && l.s != Rev(l.s) && l.s in Apply(c, st, l).ses
      && Apply(c, st, l) == With(st0, l.s, Apply(c, st, l).ses[l.s], Read(st0.ses[Rev(l.s)], l)).(
           own := st.own[l.s.me := OwnAfter(st.own[l.s.me], st0.ses[l.s], l)],
           disk := st.disk[l.s.me := DiskAfter(st.disk[l.s.me], st0.ses[l.s], l)])
  {
    hide CanMove, Moved, Read, OwnAfter, DiskAfter, AckedState;
    OnlyQueues(st, l);
  }

  /** Sizes and identities survive every step. */
  lemma StepKeepsSizes(c: Config, st: State, l: Step)
    requires WellFormed(c, st) && Enabled(c, st, l)
    ensures WellFormed(c, Apply(c, st, l))
  {
    hide Apply, CanMove, With, Read, OwnAfter, DiskAfter, AckedState, Moved;
    MovedSizes(c, st, l);
    ApplyIs(c, st, l);
    var st0, p := AckedState(st, l), l.s.me;
    var x', x0, y0 := Apply(c, st, l).ses[l.s], st0.ses[l.s], st0.ses[Rev(l.s)];
    AckedSizes(c, st, l);
    PartsKeepSizes(st.own[p], st.disk[p], x0, y0, l);
    SizesStay(c, st0, l.s, x', Read(y0, l));
    SharedSizes(c, With(st0, l.s, x', Read(y0, l)), p, OwnAfter(st.own[p], x0, l), DiskAfter(st.disk[p], x0, l));
    WithShares(st, l, x', Read(y0, l));
  }

  lemma PartsKeepSizes(own: seq<Status>, disk: seq<Data>, x: Session, y: Session, l: Step)
    ensures |OwnAfter(own, x, l)| == |own| && |DiskAfter(disk, x, l)| == |disk| && Read(y, l).view == y.view
  {
  }

  lemma WithShares(st: State, l: Step, x: Session, y: Session)
    requires l.s in st.ses
    ensures var st1 := With(AckedState(st, l), l.s, x, y); st1.own == st.own && st1.disk == st.disk
  {
  }
}
