/** Whole builds of the re-exploring builder: mass, counters, and the end of its loops. */
module ReExploringRuns {
  import opened SourceChain
  import opened TruncatedModel
  import opened Exploration
  import opened Invariant
  import opened Iterations
  import opened Accounting
  import opened Runs
  import opened Termination
  import opened KappaLoop
  import opened ReExploring

  // ----- Between two iterations -----------------------------------------------------------------------------

  lemma RevisitSums(n: Snapshot, s: CompressedState)
    requires s in n.ids && n.ids[s] in n.recs && n.ids[s] < |n.ids|
    ensures var m := Revisit(n, s);
            && Sum(Mass, m) == Sum(Mass, n) && Surplus(m) == Surplus(n)
            && (Seen(n, n.ids[s]) == 0 ==> Unmarked(m) == Unmarked(n))
            && m.iteration == n.iteration && m.kappa == n.kappa && m.ids == n.ids
  {
    var i := n.ids[s];
    var r := n.recs[i].(lastSeen := n.iteration);
    TotalUpdate(Mass, n.recs, i, r, |n.ids|);
    TotalUpdate(Terminals, n.recs, i, r, |n.ids|);
    TotalUpdate(SeenIn(n.iteration), n.recs, i, r, |n.ids|);
  }

  /** Every initial state that is enqueued again is marked as seen, and nothing else changes. */
  lemma {:induction false} RevisitAllSums(c: Config, n: Snapshot, states: seq<CompressedState>)
    requires Valid(c, n) && KnowsInitials(c, n) && states <= c.problem.src.initial
    requires forall j :: 0 <= j < |states| ==> states[j] in n.ids && n.ids[states[j]] in n.recs
    requires forall i: nat :: Seen(n, i) == 0
    ensures var m := RevisitAll(n, states);
            && Sum(Mass, m) == Sum(Mass, n) && Surplus(m) == Surplus(n) && Unmarked(m) == Unmarked(n)
            && m.iteration == n.iteration && m.kappa == n.kappa && m.ids == n.ids
  {
    hide Valid, Revisit, Sum, Surplus, Unmarked, Seen;
    if states != [] {
      var rest, s := states[..|states| - 1], states[|states| - 1];
      RevisitAllSums(c, n, rest);
      assert s == c.problem.src.initial[|states| - 1];
      RevisitAllMarks(c, n, rest, |states|);
      SeenAtMostOnce(RevisitAll(n, rest), |states|);
      IndexFits(c, n, |states|);
      RevisitSums(RevisitAll(n, rest), s);
    }
  }

  lemma IndexFits(c: Config, n: Snapshot, i: nat)
    requires Valid(c, n) && i in n.recs
    ensures i < |n.ids|
  {
  }

  lemma EndSums(c: Config, n: Snapshot, reduceKappa: real)
    requires Valid(c, n) && reduceKappa >= 1.0 && n.work == []
    ensures var m := EndIteration(n, reduceKappa);
            && Sum(Mass, m) == Sum(Mass, n) && Surplus(m) == Surplus(n) && Unmarked(m) == 0.0
  {
    var m := EndIteration(n, reduceKappa);
    forall i: nat | i < |n.ids|
      ensures AmountAt(SeenIn(m.iteration), m.recs, i) == AmountAt(SeenIn(m.iteration), map[], i)
    {
      NothingSeenYet(c, n, reduceKappa, i);
    }
    TotalSame(SeenIn(m.iteration), m.recs, map[], |n.ids|);
    NothingSeen(m.iteration, |n.ids|);
  }

  lemma ReopenSums(c: Config, n: Snapshot, reduceKappa: real)
    requires Valid(c, n) && KnowsInitials(c, n) && reduceKappa >= 1.0 && n.work == []
    ensures var m := Reopen(c, n, reduceKappa);
            && Sum(Mass, m) == Sum(Mass, n) && Surplus(m) == Surplus(n) && Unmarked(m) == 0.0
            && m.iteration == n.iteration + 1 && m.kappa == n.kappa / reduceKappa && m.ids == n.ids
  {
    hide Valid, KnowsInitials, Sum, Surplus, Unmarked, Seen;
    var e, states := EndIteration(n, reduceKappa), c.problem.src.initial;
    EndIterationKeepsValid(c, n, reduceKappa);
    EndIterationKnows(c, n, reduceKappa);
    RevisitAllKeepsValid(c, e, states);
    EndSums(c, n, reduceKappa);
    forall i: nat ensures Seen(e, i) == 0 {
      NothingSeenYet(c, n, reduceKappa, i);
    }
    RevisitAllSums(c, e, states);
  }

  // ----- All iterations of a build ----------------------------------------------------------------------------

  /** Mass: as in the iterative builder, none appears, and none is lost without self-loops. */
  lemma {:induction false} ReIterationMass(c: Config, kappa: real, reduceKappa: real, rounds: nat, k: nat)
    requires c.problem.src.WellFormed() && kappa >= 0.0 && reduceKappa >= 1.0
    ensures Sum(Mass, ReIteration(c, kappa, reduceKappa, rounds, k)) <= |c.problem.src.initial| as real
    ensures (forall s :: !SelfLoops(c, s)) ==>
              Sum(Mass, ReIteration(c, kappa, reduceKappa, rounds, k)) == |c.problem.src.initial| as real
  {
    hide Sum, Run, Reopen, Valid, SelfLoops, Start;
    if k == 0 {
      StartIsRegistered(c, kappa);
      StartValid(c, kappa);
      StartSums(c, kappa, c.problem.src.initial);
      RunMass(c, Start(c, kappa), rounds);
    } else {
      var n := ReIteration(c, kappa, reduceKappa, rounds, k - 1);
      ReIterationMass(c, kappa, reduceKappa, rounds, k - 1);
      if n.work == [] {
        ReopenStarts(c, n, reduceKappa);
        ReopenSums(c, n, reduceKappa);
        RunMass(c, Reopen(c, n, reduceKappa), rounds);
      }
    }
  }

  /** The counter: at least the number of terminal states, and exact without property refinement. */
  lemma {:induction false} ReIterationCounts(c: Config, kappa: real, reduceKappa: real, rounds: nat, k: nat)
    requires c.problem.src.WellFormed() && kappa >= 0.0 && reduceKappa >= 1.0
    ensures Counted(ReIteration(c, kappa, reduceKappa, rounds, k))
    ensures !c.refine ==> Surplus(ReIteration(c, kappa, reduceKappa, rounds, k)) == 0.0
  {
    hide Sum, Run, Reopen, Valid, Start;
    if k == 0 {
      StartIsRegistered(c, kappa);
      StartValid(c, kappa);
      StartSums(c, kappa, c.problem.src.initial);
      RunCounts(c, Start(c, kappa), rounds);
    } else {
      var n := ReIteration(c, kappa, reduceKappa, rounds, k - 1);
      ReIterationCounts(c, kappa, reduceKappa, rounds, k - 1);
      if n.work == [] {
        ReopenStarts(c, n, reduceKappa);
        ReopenSums(c, n, reduceKappa);
        RunCounts(c, Reopen(c, n, reduceKappa), rounds);
      }
    }
  }

  /** An iteration that begins with marked entries only ends within as many rounds as there are
      reachable states, and recounts each stopped state at most once. */
  lemma ReRunEnds(c: Config, n: Snapshot, rounds: nat, states: set<CompressedState>)
    requires Valid(c, n) && Counted(n) && Unmarked(n) == 0.0 && Encloses(c, states) && KnownIn(c, n, states)
    requires rounds >= |states|
    ensures var m := Run(c, n, rounds);
            && m.work == [] && Valid(c, m) && Counted(m) && KnownIn(c, m, states)
            && m.iteration == n.iteration && m.kappa == n.kappa
            && Surplus(m) <= Surplus(n) + |states| as real
            && (!c.refine ==> Surplus(m) == Surplus(n))
  {
    hide Run, Length, Sum, Valid, Counted, Encloses, KnownIn, Surplus, Unmarked;
    RunEnds(c, n, rounds, states);
    RunCounts(c, n, rounds);
    RunStaysIn(c, n, rounds, states);
    RunKeepsValid(c, n, rounds);
  }

  lemma FirstReIterationStarts(c: Config, kappa: real, states: set<CompressedState>)
    requires c.problem.src.WellFormed() && kappa >= 0.0 && Encloses(c, states)
    ensures var n := Start(c, kappa);
            && Valid(c, n) && Counted(n) && KnownIn(c, n, states)
            && Surplus(n) == 0.0 && Unmarked(n) == 0.0 && n.iteration == 0 && n.kappa == kappa
  {
    StartValid(c, kappa);
    StartSums(c, kappa, c.problem.src.initial);
    InitialsStayIn(c, kappa, states);
  }

  /** On a chain with finitely many reachable states every inner iteration ends. */
  lemma {:induction false} ReIterationsEnd(c: Config, kappa: real, reduceKappa: real, rounds: nat, k: nat,
                                           states: set<CompressedState>)
    requires c.problem.src.WellFormed() && kappa >= 0.0 && reduceKappa >= 1.0
    requires Encloses(c, states) && rounds >= |states|
    ensures AfterIteration(c, ReIteration(c, kappa, reduceKappa, rounds, k), kappa, reduceKappa, k, states)
  {
    hide Sum, Run, Reopen, Valid, Start, Encloses, KnownIn, Counted, VisitLimit, Times, Surplus, Unmarked;
    VisitLimitStep(|states|, k);
    if k == 0 {
      TimesOne(kappa);
      FirstReIterationStarts(c, kappa, states);
      ReRunEnds(c, Start(c, kappa), rounds, states);
    } else {
      var n := ReIteration(c, kappa, reduceKappa, rounds, k - 1);
      ReIterationsEnd(c, kappa, reduceKappa, rounds, k - 1, states);
      ReopenStarts(c, n, reduceKappa);
      ReopenSums(c, n, reduceKappa);
      CountedBySurplus(n, Reopen(c, n, reduceKappa));
      KnownInSame(c, n, Reopen(c, n, reduceKappa), states);
      ReRunEnds(c, Reopen(c, n, reduceKappa), rounds, states);
      DividePower(n.kappa, reduceKappa, Power(reduceKappa, k - 1), kappa);
    }
  }

  /** And so does the kappa loop, by the same iteration as that of the iterative builder. */
  lemma ReKappaLoopEnds(c: Config, kappa: real, reduceKappa: real, window: real, rounds: nat,
                        states: set<CompressedState>)
    requires c.problem.src.WellFormed() && kappa >= 0.0 && reduceKappa > 1.0 && window > 0.0
    requires Encloses(c, states) && rounds >= |states|
    ensures var n := ReIteration(c, kappa, reduceKappa, rounds, LastIteration(|states|, kappa, reduceKappa, window));
            n.work == [] && PiHat(n) < window
  {
    hide ReIteration, LastIteration, Encloses, PiHat;
    var k := LastIteration(|states|, kappa, reduceKappa, window);
    ReIterationsEnd(c, kappa, reduceKappa, rounds, k, states);
    AfterLastIteration(c, ReIteration(c, kappa, reduceKappa, rounds, k), kappa, reduceKappa, window, states);
  }

  lemma ReKappaLoopEndsLogarithmically(c: Config, kappa: real, reduceKappa: real, window: real, rounds: nat, k: nat,
                                       states: set<CompressedState>)
    requires c.problem.src.WellFormed() && kappa >= 0.0 && reduceKappa >= 1.0
    requires Encloses(c, states) && rounds >= |states| && !c.refine
    requires |states| as real * kappa < window * Power(reduceKappa, k)
    ensures var n := ReIteration(c, kappa, reduceKappa, rounds, k);
            n.work == [] && PiHat(n) < window
  {
    hide ReIteration, Encloses, PiHat, Power;
    ReIterationsEnd(c, kappa, reduceKappa, rounds, k, states);
    AfterExactIteration(c, ReIteration(c, kappa, reduceKappa, rounds, k), kappa, reduceKappa, window, k, states);
  }

  /** Completeness without any assumption about the worklists: on a chain with finitely many reachable
      states every inner iteration dequeues every state that is registered by then exactly once. */
  lemma EveryIterationIsComplete(c: Config, kappa: real, reduceKappa: real, rounds: nat, k: nat, t: CompressedState,
                                 states: set<CompressedState>)
    requires c.problem.src.WellFormed() && kappa >= 0.0 && reduceKappa >= 1.0
    requires Encloses(c, states) && rounds >= |states|
    requires Known(c.problem, ReIteration(c, kappa, reduceKappa, rounds, k).ids, t)
    ensures Valid(c, ReStart(c, kappa, reduceKappa, rounds, k))
    ensures Dequeues(c, ReStart(c, kappa, reduceKappa, rounds, k), rounds,
            ReIteration(c, kappa, reduceKappa, rounds, k).ids[t]) == 1
  {
    hide ReIteration, ReStart, Valid, Dequeues, Encloses;
    forall i | 0 <= i <= k ensures ReIteration(c, kappa, reduceKappa, rounds, i).work == [] {
      ReIterationsEnd(c, kappa, reduceKappa, rounds, i, states);
    }
    EveryIterationVisitsAll(c, kappa, reduceKappa, rounds, k, t);
  }
}
