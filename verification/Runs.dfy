/** Whole runs of the exploration loop: what the counter of terminal states, the worklist and the
    probability mass do from the first to the last round. */
module Runs {
  import opened SourceChain
  import opened Exploration
  import opened Invariant
  import opened Iterations
  import opened Accounting

  // ----- One round -----------------------------------------------------------------------------------

  /** The bookkept number of terminal states is never too small. */
  ghost predicate Counted(n: Snapshot) {
    Sum(Terminals, n) <= n.numberTerminal as real
  }

  function Surplus(n: Snapshot): real {
    n.numberTerminal as real - Sum(Terminals, n)
  }

  // Entries in the worklist that were put there without the state being marked as seen
  function Unmarked(n: Snapshot): real {
    |n.work| as real - Sum(SeenIn(n.iteration), n)
  }

  lemma TerminalIsCounted(n: Snapshot, i: nat)
    requires Counted(n) && i in n.recs && i < |n.ids| && n.recs[i].terminal
    ensures n.numberTerminal > 0
  {
    TotalCovers(Terminals, n.recs, |n.ids|, i);
  }

  lemma CountedBySurplus(n: Snapshot, m: Snapshot)
    requires Counted(n) && Surplus(m) == Surplus(n)
    ensures Counted(m)
  {
  }

  lemma CallBackCounts(c: Config, n: Snapshot, e: Entry)
    requires Ready(c, n, e)
    ensures var b := CallBack(c, n, e);
            && Expanding(c, b, e) && Successors(c, b.ids, c.Succ(e.state))
            && Surplus(b) == Surplus(n) && Unmarked(b) == Unmarked(n)
            && b.iteration == n.iteration && b.kappa == n.kappa
  {
    hide Sum;
    CallBackEffect(c, n, e);
    CallBackSum(c, Terminals, n, e);
    CallBackSum(c, SeenIn(n.iteration), n, e);
  }

  lemma DistributeSurplus(c: Config, n: Snapshot, e: Entry)
    requires c.problem.src.WellFormed() && Expanding(c, n, e) && Successors(c, n.ids, c.Succ(e.state))
    ensures var m := Distribute(c, n, e);
            && Surplus(m) == Surplus(n) && Unmarked(m) == Unmarked(n)
            && m.iteration == n.iteration && m.kappa == n.kappa
            && e.index in m.recs && e.index < |m.ids|
  {
    hide Sum;
    DistributeEffect(c, n, e);
    DistributeCounts(c, Terminals, n, e);
    DistributeCounts(c, SeenIn(n.iteration), n, e);
  }

  /** The abort "Number terminal should have been positive, but was zero" cannot happen. */
  lemma TerminalCounterIsPositive(c: Config, n: Snapshot, e: Entry)
    requires Ready(c, n, e) && Counted(n)
    ensures Successors(c, CallBack(c, n, e).ids, c.Succ(e.state))
    ensures var m := Distribute(c, CallBack(c, n, e), e);
            && e.index in m.recs && (m.recs[e.index].terminal ==> m.numberTerminal > 0)
  {
    hide Counted, Surplus, Unmarked, CallBack, Distribute;
    CallBackCounts(c, n, e);
    DistributeSurplus(c, CallBack(c, n, e), e);
    var m := Distribute(c, CallBack(c, n, e), e);
    CountedBySurplus(n, m);
    if m.recs[e.index].terminal {
      TerminalIsCounted(m, e.index);
    }
  }

  lemma FinishCounts(n: Snapshot, i: nat)
    requires i in n.recs && i < |n.ids| && (n.recs[i].terminal ==> n.numberTerminal > 0)
    ensures var m := Finish(n, i);
            && Surplus(m) == Surplus(n) && Unmarked(m) == Unmarked(n)
            && m.iteration == n.iteration && m.kappa == n.kappa
  {
    hide Sum;
    FinishSum(Terminals, n, i);
    FinishSum(SeenIn(n.iteration), n, i);
  }

  lemma ExpandCounts(c: Config, n: Snapshot, e: Entry)
    requires Ready(c, n, e) && Counted(n)
    ensures var m := Expand(c, n, e);
            && Surplus(m) == Surplus(n) && Unmarked(m) == Unmarked(n)
            && m.iteration == n.iteration && m.kappa == n.kappa
  {
    hide Counted, Surplus, Unmarked, CallBack, Distribute, Finish;
    TerminalCounterIsPositive(c, n, e);
    CallBackCounts(c, n, e);
    DistributeSurplus(c, CallBack(c, n, e), e);
    FinishCounts(Distribute(c, CallBack(c, n, e), e), e.index);
  }

  /** Each round takes one entry from the worklist, and marks the state of every entry it adds as
      seen; the counter errs only by the states that settle the property, which are counted again at
      every visit. */
  lemma StepCounts(c: Config, n: Snapshot)
    requires Valid(c, n) && n.work != [] && Counted(n)
    ensures EntryOk(n, n.work[0])
    ensures var m := Step(c, n);
            && Surplus(m) == Surplus(n) + (if c.Stops(n.work[0].state) then 1.0 else 0.0)
            && Unmarked(m) == Unmarked(n) - 1.0
            && m.iteration == n.iteration && m.kappa == n.kappa
  {
    hide Expand;
    PopKeepsInv(c, n);
    var e, m := n.work[0], Pop(n);
    assert EntryOk(n, n.work[0]);
    if c.Stops(e.state) || (m.recs[e.index].terminal && m.recs[e.index].pi < m.kappa) {
      PerimeterEntry(c, m, e);
      TotalSame(Terminals, n.recs, Step(c, n).recs, |n.ids|);
      TotalSame(SeenIn(n.iteration), n.recs, Step(c, n).recs, |n.ids|);
    } else if c.Succ(e.state) == [] {
      DeadlockTurn(c, m, e);
      TotalSame(Terminals, n.recs, Step(c, n).recs, |n.ids|);
      TotalSame(SeenIn(n.iteration), n.recs, Step(c, n).recs, |n.ids|);
    } else {
      ExpandCounts(c, m, e);
    }
  }

  // ----- Invariants of a run ---------------------------------------------------------------------------

  /** The number of rounds that a run takes. */
  function Length(c: Config, n: Snapshot, rounds: nat): nat
    requires Valid(c, n)
    decreases rounds
  {
    if rounds == 0 || n.work == [] then 0
    else
      StepKeepsValid(c, n);
      1 + Length(c, Step(c, n), rounds - 1)
  }

  /** Over a whole run the counter stays an upper bound of the number of terminal states; it is
      exact throughout if no state is stopped, and is at most one too large for each round. */
  lemma {:induction false} RunCounts(c: Config, n: Snapshot, rounds: nat)
    requires Valid(c, n) && Counted(n)
    ensures Counted(Run(c, n, rounds))
    ensures Surplus(n) <= Surplus(Run(c, n, rounds)) <= Surplus(n) + Length(c, n, rounds) as real
    ensures !c.refine ==> Surplus(Run(c, n, rounds)) == Surplus(n)
    ensures Unmarked(Run(c, n, rounds)) == Unmarked(n) - Length(c, n, rounds) as real
    ensures Run(c, n, rounds).iteration == n.iteration && Run(c, n, rounds).kappa == n.kappa
    decreases rounds
  {
    hide Step, Sum;
    if rounds != 0 && n.work != [] {
      StepKeepsValid(c, n);
      StepCounts(c, n);
      RunCounts(c, Step(c, n), rounds - 1);
    }
  }

  /** Over a whole run no probability appears, and none is lost in a chain without self-loops. */
  lemma {:induction false} RunMass(c: Config, n: Snapshot, rounds: nat)
    requires Valid(c, n)
    ensures Sum(Mass, Run(c, n, rounds)) <= Sum(Mass, n)
    ensures (forall s :: !SelfLoops(c, s)) ==> Sum(Mass, Run(c, n, rounds)) == Sum(Mass, n)
    decreases rounds
  {
    hide Step, Sum;
    if rounds != 0 && n.work != [] {
      StepKeepsValid(c, n);
      StepMass(c, n);
      RunMass(c, Step(c, n), rounds - 1);
    }
  }

  // ----- The bookkeeping around a run --------------------------------------------------------------------

  lemma RegisterInitialSum(k: Measure, n: Snapshot, s: CompressedState)
    requires s !in n.ids && forall i: nat :: i in n.recs <==> 1 <= i < |n.ids|
    ensures Sum(k, RegisterInitial(n, s)) == Sum(k, n) + Amount(k, Record(1.0, true, n.iteration, true, false, false))
  {
    var i := |n.ids|;
    assert |n.ids[s := i]| == i + 1;
    TotalUpdate(k, n.recs, i, Record(1.0, true, n.iteration, true, false, false), i + 1);
  }

  lemma {:induction false} StartSums(c: Config, kappa: real, states: seq<CompressedState>)
    requires c.problem.src.WellFormed() && states <= c.problem.src.initial
    ensures var n := RegisterInitials(Fresh(c, kappa), states);
            && Sum(Mass, n) == |states| as real
            && Sum(Terminals, n) == |states| as real && n.numberTerminal == |states|
            && Sum(SeenIn(0), n) == |states| as real && |n.work| == |states|
            && n.iteration == 0 && n.kappa == kappa
  {
    hide Sum, RegisterInitial;
    if states == [] {
      FreshSum(c, kappa, Mass);
      FreshSum(c, kappa, Terminals);
      FreshSum(c, kappa, SeenIn(0));
    } else {
      var rest := states[..|states| - 1];
      var n := RegisterInitials(Fresh(c, kappa), rest);
      StartSums(c, kappa, rest);
      InitialIsNew(c, kappa, states);
      NewIndexUnused(c, kappa, rest);
      RegisterInitialSum(Mass, n, states[|states| - 1]);
      RegisterInitialSum(Terminals, n, states[|states| - 1]);
      RegisterInitialSum(SeenIn(0), n, states[|states| - 1]);
      RegisterInitialCounts(n, states[|states| - 1]);
    }
  }

  lemma FreshSum(c: Config, kappa: real, k: Measure)
    ensures Sum(k, Fresh(c, kappa)) == 0.0
  {
    assert |map[c.problem.src.Absorbing() := 0]| == 1;
    assert Total(k, map[], 0) == 0.0;
  }

  lemma RegisterInitialCounts(n: Snapshot, s: CompressedState)
    ensures var m := RegisterInitial(n, s);
            && |m.work| == |n.work| + 1 && m.numberTerminal == n.numberTerminal + 1
            && m.iteration == n.iteration && m.kappa == n.kappa
  {
  }

  lemma {:induction false} NewIndexUnused(c: Config, kappa: real, states: seq<CompressedState>)
    requires c.problem.src.WellFormed() && states <= c.problem.src.initial
    ensures var n := RegisterInitials(Fresh(c, kappa), states);
            forall i: nat :: i in n.recs <==> 1 <= i < |n.ids|
  {
    RegisterInitialsShape(c, kappa, states);
    if states != [] {
      NewIndexUnused(c, kappa, states[..|states| - 1]);
      RegisterInitialsShape(c, kappa, states[..|states| - 1]);
      InitialIsNew(c, kappa, states);
    }
  }

  lemma FlushOneSums(c: Config, n: Snapshot)
    requires Valid(c, n) && n.perimeter != []
    ensures EntryOk(n, n.perimeter[0])
    ensures var m := FlushOne(n);
            && Sum(Mass, m) == Sum(Mass, n) && Surplus(m) == Surplus(n)
            && Sum(SeenIn(n.iteration), m) == Sum(SeenIn(n.iteration), n)
            && m.iteration == n.iteration && m.kappa == n.kappa && m.numberTerminal == n.numberTerminal
  {
    assert EntryOk(n, n.perimeter[0]);
    TotalSame(Mass, n.recs, FlushOne(n).recs, |n.ids|);
    TotalSame(Terminals, n.recs, FlushOne(n).recs, |n.ids|);
    TotalSame(SeenIn(n.iteration), n.recs, FlushOne(n).recs, |n.ids|);
  }

  lemma {:induction false} FlushSums(c: Config, n: Snapshot)
    requires Valid(c, n)
    ensures var m := Flush(c, n);
            && Sum(Mass, m) == Sum(Mass, n) && Surplus(m) == Surplus(n)
            && Sum(SeenIn(n.iteration), m) == Sum(SeenIn(n.iteration), n)
            && m.iteration == n.iteration && m.kappa == n.kappa && m.numberTerminal == n.numberTerminal
    decreases |n.perimeter|
  {
    hide FlushOne, Sum;
    if n.perimeter != [] {
      FlushOneSums(c, n);
      FlushOneKeepsValid(c, n);
      FlushSums(c, FlushOne(n));
    }
  }

  // ----- All inner iterations ------------------------------------------------------------------------------

  /** The builder at the end of its loop in inner iteration k (counted from 0), where each loop is
      given up to the stated number of rounds. */
  function Iteration(c: Config, kappa: real, reduceKappa: real, rounds: nat, k: nat): (n: Snapshot)
    requires c.problem.src.WellFormed() && kappa >= 0.0 && reduceKappa >= 1.0
    ensures Valid(c, n)
  {
    if k == 0 then
      StartValid(c, kappa);
      RunKeepsValid(c, Start(c, kappa), rounds);
      Run(c, Start(c, kappa), rounds)
    else
      var before := Iteration(c, kappa, reduceKappa, rounds, k - 1);
      NextIterationGrows(c, before, reduceKappa, rounds);
      NextIteration(c, before, reduceKappa, rounds)
  }

  lemma StartValid(c: Config, kappa: real)
    requires c.problem.src.WellFormed() && kappa >= 0.0
    ensures Valid(c, Start(c, kappa))
  {
    hide Valid;
    RegisterInitialsValid(c, kappa, c.problem.src.initial);
  }
}
