/** Confluence matters: a chain in which piHat is not a bound of the probability that the perimeter ends
    up with. */
module LateMass {
  import opened Csl
  import opened SourceChain
  import opened TruncatedModel
  import opened Exploration
  import opened Invariant
  import opened Iterations
  import opened Runs
  import opened PerimeterMass

  const FIRST: CompressedState := [false, false]
  const SMALL: CompressedState := [false, true]
  const LARGE: CompressedState := [true, false]

  function Successors(s: CompressedState): seq<Edge> {
    if s == FIRST then [Edge(SMALL, 0.4), Edge(LARGE, 0.6)]
    else if s == LARGE then [Edge(SMALL, 1.0)]
    else []
  }

  // A first state with a likely and an unlikely successor, of which the likely one leads to the other
  function Diamond(p: Property): Config {
    Config(Problem(Source(2, [FIRST], Successors, s => {}), p), false)
  }

  lemma DiamondIsWellFormed(p: Property)
    ensures Diamond(p).problem.src.WellFormed()
  {
    var src := Diamond(p).problem.src;
    assert src.Absorbing() == [true, true];
    forall s ensures src.DistinctTargets(s) && src.PositiveRates(s) && src.AvoidsAbsorbing(s) {
      assert src.Succ(s) == Successors(s);
    }
  }

  const TOP := Record(1.0, true, 0, true, false, false)
  const GONE := Record(0.0, false, 0, false, false, false)

  function Ids(p: Property): Numbering {
    map[Diamond(p).problem.src.Absorbing() := 0, FIRST := 1]
  }

  function AllIds(p: Property): Numbering {
    map[Diamond(p).problem.src.Absorbing() := 0, FIRST := 1, SMALL := 2, LARGE := 3]
  }

  function AfterFirst(p: Property): Snapshot {
    Snapshot(AllIds(p),
             map[1 := GONE, 2 := Record(0.4, true, 0, true, false, false),
                 3 := Record(0.6, true, 0, true, false, false)],
             [Entry(2, SMALL), Entry(3, LARGE)], [], [[], [Transition(1, 2, 0.4), Transition(1, 3, 0.6)], [], []],
             [0], 2, 0.5, 0)
  }

  function AfterSmall(p: Property): Snapshot {
    Snapshot(AllIds(p),
             map[1 := GONE, 2 := Record(0.4, true, 0, true, true, false),
                 3 := Record(0.6, true, 0, true, false, false)],
             [Entry(3, LARGE)], [Entry(2, SMALL)], [[], [Transition(1, 2, 0.4), Transition(1, 3, 0.6)], [], []],
             [0], 2, 0.5, 0)
  }

  function AfterLarge(p: Property): Snapshot {
    Snapshot(AllIds(p), map[1 := GONE, 2 := Record(1.0, true, 0, true, true, false), 3 := GONE],
             [], [Entry(2, SMALL)], [[], [Transition(1, 2, 0.4), Transition(1, 3, 0.6)], [], [Transition(3, 2, 1.0)]],
             [0], 1, 0.5, 0)
  }

  lemma DiamondStarts(p: Property)
    ensures Start(Diamond(p), 0.5) == Snapshot(Ids(p), map[1 := TOP], [Entry(1, FIRST)], [], [], [0], 1, 0.5, 0)
  {
    var c := Diamond(p);
    assert c.problem.src.Absorbing() == [true, true];
    assert c.problem.src.initial == [FIRST] && [FIRST][..0] == [];
    assert RegisterInitials(Fresh(c, 0.5), []) == Fresh(c, 0.5);
  }

  // The callbacks and the loop over the successors, for one and for two edges
  lemma OneEdge(n: Snapshot, cur: nat, a: Edge)
    requires cur in n.recs
    ensures RegisterAll(n, cur, [a]) == Register(n, cur, a.to)
  {
    assert [a][..0] == [];
  }

  lemma TwoEdges(n: Snapshot, cur: nat, a: Edge, b: Edge)
    requires cur in n.recs
    ensures RegisterAll(n, cur, [a, b]) == Register(Register(n, cur, a.to), cur, b.to)
  {
    assert [a, b][..1] == [a];
    OneEdge(n, cur, a);
  }

  lemma OneShare(n: Snapshot, cur: nat, a: Edge, total: real)
    requires cur in n.recs && a.to in n.ids && total != 0.0
    ensures PropagateAll(n, cur, [a], false, total) == Propagate(n, cur, a, false, total)
  {
    assert [a][..0] == [];
  }

  lemma TwoShares(n: Snapshot, cur: nat, a: Edge, b: Edge, total: real)
    requires cur in n.recs && a.to in n.ids && b.to in n.ids && total != 0.0
    ensures PropagateAll(n, cur, [a, b], false, total)
            == Propagate(Propagate(n, cur, a, false, total), cur, b, false, total)
  {
    assert [a, b][..1] == [a];
    OneShare(n, cur, a, total);
  }

  lemma Exits()
    ensures Exit(Successors(FIRST)) == 1.0 && Exit(Successors(LARGE)) == 1.0
  {
    var a, b, e := Edge(SMALL, 0.4), Edge(LARGE, 0.6), Edge(SMALL, 1.0);
    assert [a, b][..1] == [a] && [a][..0] == [] && [e][..0] == [];
    assert Exit([a]) == 0.4;
    assert Exit([a, b]) == 1.0;
    assert Exit([e]) == 1.0;
  }

  function Begun(p: Property): Snapshot {
    Snapshot(Ids(p), map[1 := TOP], [], [], [], [0], 1, 0.5, 0)
  }

  function HalfCalled(p: Property): Snapshot {
    Snapshot(map[Diamond(p).problem.src.Absorbing() := 0, FIRST := 1, SMALL := 2],
             map[1 := TOP, 2 := Record(0.0, true, 0, true, false, false)], [Entry(2, SMALL)], [], [], [0], 2, 0.5, 0)
  }

  function Called(p: Property): Snapshot {
    Snapshot(AllIds(p),
             map[1 := TOP, 2 := Record(0.0, true, 0, true, false, false),
                 3 := Record(0.0, true, 0, true, false, false)],
             [Entry(2, SMALL), Entry(3, LARGE)], [], [], [0], 3, 0.5, 0)
  }

  lemma SmallIsCalled(p: Property)
    ensures Register(Begun(p), 1, SMALL) == HalfCalled(p)
  {
    assert Diamond(p).problem.src.Absorbing() == [true, true];
    assert |Ids(p)| == 2;
  }

  lemma LargeIsCalled(p: Property)
    ensures Register(HalfCalled(p), 1, LARGE) == Called(p)
  {
    assert Diamond(p).problem.src.Absorbing() == [true, true];
    assert |HalfCalled(p).ids| == 3;
  }

  lemma FirstCalled(p: Property)
    ensures CallBack(Diamond(p), Begun(p), Entry(1, FIRST)) == Called(p)
  {
    hide Register;
    var n := Begun(p);
    assert n.(recs := n.recs[1 := n.recs[1].(inQueue := false)]) == n;
    TwoEdges(n, 1, Edge(SMALL, 0.4), Edge(LARGE, 0.6));
    SmallIsCalled(p);
    LargeIsCalled(p);
  }

  function HalfSpread(p: Property): Snapshot {
    Called(p).(recs := map[1 := TOP, 2 := Record(0.4, true, 0, true, false, false),
                           3 := Record(0.0, true, 0, true, false, false)],
               table := [[], [Transition(1, 2, 0.4)], []])
  }

  function Spread(p: Property): Snapshot {
    Called(p).(recs := map[1 := TOP, 2 := Record(0.4, true, 0, true, false, false),
                           3 := Record(0.6, true, 0, true, false, false)],
               table := [[], [Transition(1, 2, 0.4), Transition(1, 3, 0.6)], [], []])
  }

  lemma NewEntry(table: seq<seq<Transition>>, grown: seq<seq<Transition>>, from: nat, to: nat, rate: real)
    requires Grow(table, (if from < to then to else from) + 1) == grown && from < |grown| && grown[from] == []
             && rate != 0.0
    ensures Create(table, from, to, rate) == grown[from := [Transition(from, to, rate)]]
  {
    var none: seq<Transition> := [];
    assert none + [Transition(from, to, rate)] == [Transition(from, to, rate)];
  }

  lemma SmallGetsShare(p: Property)
    ensures Propagate(Called(p), 1, Edge(SMALL, 0.4), false, 1.0) == HalfSpread(p)
  {
    assert Diamond(p).problem.src.Absorbing() == [true, true];
    var empty: seq<seq<Transition>> := [];
    assert Grow(empty, 3) == [[], [], []];
    NewEntry(empty, [[], [], []], 1, 2, 0.4);
    assert Create(empty, 1, 2, 0.4) == [[], [Transition(1, 2, 0.4)], []];
    assert Times(1.0, Share(0.4, 1.0)) == 0.4;
  }

  lemma LargeGetsShare(p: Property)
    ensures Propagate(HalfSpread(p), 1, Edge(LARGE, 0.6), false, 1.0) == Spread(p)
  {
    assert Diamond(p).problem.src.Absorbing() == [true, true];
    assert Grow([[], [Transition(1, 2, 0.4)], []], 4) == [[], [Transition(1, 2, 0.4)], [], []];
    assert [Transition(1, 2, 0.4)] + [Transition(1, 3, 0.6)] == [Transition(1, 2, 0.4), Transition(1, 3, 0.6)];
  }

  lemma FirstSpreads(p: Property)
    requires Diamond(p).problem.src.WellFormed()
    ensures forall j :: 0 <= j < |Successors(FIRST)| ==> Successors(FIRST)[j].to in Called(p).ids
    ensures Distribute(Diamond(p), Called(p), Entry(1, FIRST)) == Spread(p)
  {
    hide Propagate;
    Exits();
    TwoShares(Called(p), 1, Edge(SMALL, 0.4), Edge(LARGE, 0.6), 1.0);
    SmallGetsShare(p);
    LargeGetsShare(p);
  }

  lemma FirstRound(p: Property)
    requires Diamond(p).problem.src.WellFormed()
    ensures var n := Start(Diamond(p), 0.5);
            n.work != [] && n.work[0].index in n.recs && Step(Diamond(p), n) == AfterFirst(p)
  {
    hide Register, Propagate, CallBack, Distribute;
    DiamondStarts(p);
    FirstCalled(p);
    FirstSpreads(p);
    assert Pop(Start(Diamond(p), 0.5)) == Begun(p);
  }

  lemma SecondRound(p: Property)
    requires Diamond(p).problem.src.WellFormed()
    ensures Step(Diamond(p), AfterFirst(p)) == AfterSmall(p)
  {
    hide Expand;
  }

  lemma LargeCalls(p: Property)
    ensures var n := Pop(AfterSmall(p)); CallBack(Diamond(p), n, Entry(3, LARGE)) == n
  {
    var n := Pop(AfterSmall(p));
    assert n.(recs := n.recs[3 := n.recs[3].(inQueue := false)]) == n;
    assert Diamond(p).problem.src.Absorbing() == [true, true];
    OneEdge(n, 3, Edge(SMALL, 1.0));
    assert Register(n, 3, SMALL) == n;
  }

  lemma LargeSpreads(p: Property)
    requires Diamond(p).problem.src.WellFormed()
    ensures var n := Pop(AfterSmall(p));
            && (forall j :: 0 <= j < |Successors(LARGE)| ==> Successors(LARGE)[j].to in n.ids)
            && Finish(Distribute(Diamond(p), n, Entry(3, LARGE)), 3) == AfterLarge(p)
  {
    var n := Pop(AfterSmall(p));
    Exits();
    assert Diamond(p).problem.src.Absorbing() == [true, true];
    OneShare(n, 3, Edge(SMALL, 1.0), 1.0);
    assert Grow(n.table, 4) == n.table;
    NewEntry(n.table, n.table, 3, 2, 1.0);
    assert Create(n.table, 3, 2, 1.0) == AfterLarge(p).table;
    assert Times(0.6, Share(1.0, 1.0)) == 0.6;
    assert Propagate(n, 3, Edge(SMALL, 1.0), false, 1.0)
           == n.(recs := n.recs[2 := n.recs[2].(pi := 1.0)], table := AfterLarge(p).table);
  }

  lemma ThirdRound(p: Property)
    requires Diamond(p).problem.src.WellFormed()
    ensures Step(Diamond(p), AfterSmall(p)) == AfterLarge(p)
  {
    hide Register, Propagate, CallBack, Distribute, Finish;
    LargeCalls(p);
    LargeSpreads(p);
  }

  /** Two ways lead to one of its states, and a state of the perimeter receives probability late: the
      exploration ends with the whole probability on the perimeter, and piHat is a half. */
  lemma PiHatMissesLateMass(p: Property)
    ensures !WithoutConfluence(Diamond(p))
    ensures Valid(Diamond(p), Start(Diamond(p), 0.5))
    ensures var n := Run(Diamond(p), Start(Diamond(p), 0.5), 3);
            n.work == [] && LiveMass(n.recs, n.perimeter) == 1.0 && PiHat(n) == 0.5
  {
    hide Step;
    DiamondIsWellFormed(p);
    TwoWays(p);
    StartValid(Diamond(p), 0.5);
    FirstRound(p);
    SecondRound(p);
    ThirdRound(p);
    StepKeepsValid(Diamond(p), Start(Diamond(p), 0.5));
    StepKeepsValid(Diamond(p), AfterFirst(p));
    StepKeepsValid(Diamond(p), AfterSmall(p));
    assert Run(Diamond(p), AfterLarge(p), 0) == AfterLarge(p);
    assert [Entry(2, SMALL)][..0] == [];
  }

  lemma TwoWays(p: Property)
    ensures !WithoutConfluence(Diamond(p))
  {
    var c := Diamond(p);
    assert c.Succ(FIRST)[0].to == SMALL && c.Succ(LARGE)[0].to == SMALL;
    assert HasEdge(c, FIRST, SMALL) && HasEdge(c, LARGE, SMALL);
  }
}
