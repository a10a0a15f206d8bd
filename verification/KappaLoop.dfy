/** The outer loop, which reduces kappa until piHat falls below the window: it ends, piHat bounds
    the probability that was put on the perimeter, and mass is kept over all its iterations. */
module KappaLoop {
  import opened Outcomes
  import opened SourceChain
  import opened Truncation
  import opened TruncatedModel
  import opened Exploration
  import opened Invariant
  import opened Iterations
  import opened Accounting
  import opened Runs
  import opened Termination

  // ----- Mass over all iterations -------------------------------------------------------------------------

  lemma RestartSums(c: Config, n: Snapshot, reduceKappa: real)
    requires Valid(c, n) && reduceKappa >= 1.0
    ensures var m := Restart(c, n, reduceKappa);
            && Sum(Mass, m) == Sum(Mass, n) && Surplus(m) == Surplus(n)
            && m.iteration == n.iteration + 1 && m.kappa == n.kappa / reduceKappa
            && Sum(SeenIn(m.iteration), m) == 0.0
  {
    EndIterationKeepsValid(c, n, reduceKappa);
    var e := EndIteration(n, reduceKappa);
    FlushSums(c, e);
    forall i: nat | i < |n.ids|
      ensures AmountAt(SeenIn(e.iteration), e.recs, i) == AmountAt(SeenIn(e.iteration), map[], i)
    {
      if i in n.recs {
        assert IsIndex(n.ids, i);
        var s :| s in n.ids && n.ids[s] == i;
        assert Known(c.problem, n.ids, s) && StateOk(c, n, Entry(i, s), 0);
      }
    }
    TotalSame(SeenIn(e.iteration), e.recs, map[], |n.ids|);
    NothingSeen(e.iteration, |n.ids|);
    FlushKeepsValid(c, e);
  }

  lemma {:induction false} NothingSeen(iteration: nat, size: nat)
    ensures Total(SeenIn(iteration), map[], size) == 0.0
  {
    if size > 0 {
      NothingSeen(iteration, size - 1);
    }
  }

  /** Over all inner iterations the registered states together never hold more probability than the
      initial states had, and in a chain without self-loops they always hold all of it. */
  lemma {:induction false} IterationMass(c: Config, kappa: real, reduceKappa: real, rounds: nat, k: nat)
    requires c.problem.src.WellFormed() && kappa >= 0.0 && reduceKappa >= 1.0
    ensures Sum(Mass, Iteration(c, kappa, reduceKappa, rounds, k)) <= |c.problem.src.initial| as real
    ensures (forall s :: !SelfLoops(c, s)) ==>
              Sum(Mass, Iteration(c, kappa, reduceKappa, rounds, k)) == |c.problem.src.initial| as real
  {
    hide Sum, Run, Restart, Valid, SelfLoops;
    if k == 0 {
      StartValid(c, kappa);
      StartSums(c, kappa, c.problem.src.initial);
      RunMass(c, Start(c, kappa), rounds);
    } else {
      var n := Iteration(c, kappa, reduceKappa, rounds, k - 1);
      IterationMass(c, kappa, reduceKappa, rounds, k - 1);
      RestartKeepsValid(c, n, reduceKappa);
      RestartSums(c, n, reduceKappa);
      RunMass(c, Restart(c, n, reduceKappa), rounds);
    }
  }

  /** Where inner iteration k begins its loop. */
  function IterationStart(c: Config, kappa: real, reduceKappa: real, rounds: nat, k: nat): (n: Snapshot)
    requires c.problem.src.WellFormed() && kappa >= 0.0 && reduceKappa >= 1.0
    ensures Valid(c, n) && n.perimeter == []
  {
    if k == 0 then
      StartValid(c, kappa);
      StartRecords(c, kappa, c.problem.src.initial);
      Start(c, kappa)
    else
      RestartKeepsValid(c, Iteration(c, kappa, reduceKappa, rounds, k - 1), reduceKappa);
      Restart(c, Iteration(c, kappa, reduceKappa, rounds, k - 1), reduceKappa)
  }

  lemma IterationIsRun(c: Config, kappa: real, reduceKappa: real, rounds: nat, k: nat)
    requires c.problem.src.WellFormed() && kappa >= 0.0 && reduceKappa >= 1.0
    ensures Iteration(c, kappa, reduceKappa, rounds, k)
            == Run(c, IterationStart(c, kappa, reduceKappa, rounds, k), rounds)
  {
    hide Run, Start, Restart, Valid;
  }

  /** Over all inner iterations numberTerminal is at least the number of terminal states, and equal to
      it if property refinement is off. */
  lemma {:induction false} IterationCounts(c: Config, kappa: real, reduceKappa: real, rounds: nat, k: nat)
    requires c.problem.src.WellFormed() && kappa >= 0.0 && reduceKappa >= 1.0
    ensures Counted(IterationStart(c, kappa, reduceKappa, rounds, k))
    ensures Counted(Iteration(c, kappa, reduceKappa, rounds, k))
    ensures !c.refine ==> Surplus(Iteration(c, kappa, reduceKappa, rounds, k)) == 0.0
  {
    hide Sum, Run, Restart, Start, Valid, Iteration;
    IterationIsRun(c, kappa, reduceKappa, rounds, k);
    if k == 0 {
      StartSums(c, kappa, c.problem.src.initial);
      StartIsRegistered(c, kappa);
    } else {
      IterationCounts(c, kappa, reduceKappa, rounds, k - 1);
      RestartSums(c, Iteration(c, kappa, reduceKappa, rounds, k - 1), reduceKappa);
    }
    RunCounts(c, IterationStart(c, kappa, reduceKappa, rounds, k), rounds);
  }

  lemma StartIsRegistered(c: Config, kappa: real)
    ensures Start(c, kappa) == RegisterInitials(Fresh(c, kappa), c.problem.src.initial)
  {
  }

  // ----- What was put on the perimeter ------------------------------------------------------------------------

  /** The probability each state held when the run put it into the perimeter queue (for the last
      time). */
  function Held(c: Config, n: Snapshot, rounds: nat): map<nat, real>
    requires Valid(c, n)
    decreases rounds
  {
    if rounds == 0 || n.work == [] then map[]
    else
      StepKeepsValid(c, n);
      var i := n.work[0].index;
      var rest := Held(c, Step(c, n), rounds - 1);
      if i !in rest && i in Step(c, n).recs && Step(c, n).recs[i].inQueue && !n.recs[i].inQueue
      then rest[i := n.recs[i].pi]
      else rest
  }

  // The states with the flag that were not flagged before
  ghost predicate FlaggedOnlyAt(n: Snapshot, m: Snapshot, i: nat) {
    forall j: nat :: j in m.recs && m.recs[j].inQueue && j != i ==> j in n.recs && n.recs[j].inQueue
  }

  lemma CallBackFlagsNothing(c: Config, n: Snapshot, e: Entry, j: nat)
    requires Ready(c, n, e) && j in CallBack(c, n, e).recs && CallBack(c, n, e).recs[j].inQueue
    ensures j in n.recs && n.recs[j].inQueue
  {
    CallBackEffect(c, n, e);
    if j in n.recs {
      assert Unflagged(n, e.index).recs[j].inQueue;
    } else {
      var k := NewIndexIsSuccessor(c, n, e, j);
    }
  }

  lemma DistributeFlags(c: Config, n: Snapshot, e: Entry)
    requires c.problem.src.WellFormed() && Expanding(c, n, e) && Successors(c, n.ids, c.Succ(e.state))
    ensures var m := Finish(Distribute(c, n, e), e.index);
            && m.recs.Keys == n.recs.Keys && !m.recs[e.index].inQueue
            && forall j: nat :: j in n.recs ==> m.recs[j].inQueue == n.recs[j].inQueue
  {
    DistributeEffect(c, n, e);
  }

  lemma ExpandFlagsNothing(c: Config, n: Snapshot, e: Entry)
    requires Ready(c, n, e)
    ensures FlaggedOnlyAt(n, Expand(c, n, e), e.index)
    ensures e.index in Expand(c, n, e).recs && !Expand(c, n, e).recs[e.index].inQueue
  {
    hide CallBack, Distribute, Finish;
    var m := Expand(c, n, e);
    CallBackEffect(c, n, e);
    DistributeFlags(c, CallBack(c, n, e), e);
    forall j: nat | j in m.recs && m.recs[j].inQueue ensures j in n.recs && n.recs[j].inQueue {
      CallBackFlagsNothing(c, n, e, j);
    }
  }

  /** A round flags at most the state it treats, and only if that is below the threshold. */
  lemma StepFlags(c: Config, n: Snapshot)
    requires Valid(c, n) && n.work != []
    ensures EntryOk(n, n.work[0])
    ensures FlaggedOnlyAt(n, Step(c, n), n.work[0].index)
    ensures n.work[0].index in Step(c, n).recs && Step(c, n).recs[n.work[0].index].inQueue
            && !n.recs[n.work[0].index].inQueue ==>
              0.0 <= n.recs[n.work[0].index].pi < n.kappa
  {
    hide Expand;
    PopKeepsInv(c, n);
    var e, m := n.work[0], Pop(n);
    assert EntryOk(n, e);
    PerimeterEntry(c, m, e);
    if c.Stops(e.state) || (m.recs[e.index].terminal && m.recs[e.index].pi < m.kappa) {
    } else if c.Succ(e.state) == [] {
      DeadlockTurn(c, m, e);
    } else {
      ExpandFlagsNothing(c, m, e);
    }
  }

  lemma {:induction false} HeldBelowKappa(c: Config, n: Snapshot, rounds: nat)
    requires Valid(c, n) && Counted(n)
    ensures forall i: nat :: i in Held(c, n, rounds) ==> 0.0 <= Held(c, n, rounds)[i] < n.kappa
    ensures forall i: nat :: i in Run(c, n, rounds).recs && Run(c, n, rounds).recs[i].inQueue ==>
              i in Held(c, n, rounds) || (i in n.recs && n.recs[i].inQueue)
    decreases rounds
  {
    hide Step;
    if rounds != 0 && n.work != [] {
      StepKeepsValid(c, n);
      StepCounted(c, n);
      StepCounts(c, n);
      StepFlags(c, n);
      HeldBelowKappa(c, Step(c, n), rounds - 1);
    }
  }

  /** The probability on the perimeter, each state with what it held when it was queued. */
  function HeldTotal(recs: map<nat, Record>, held: map<nat, real>, size: nat): real {
    if size == 0 then 0.0
    else
      HeldTotal(recs, held, size - 1)
      + (if size - 1 in recs && recs[size - 1].inQueue && size - 1 in held then held[size - 1] else 0.0)
  }

  lemma {:induction false} HeldTotalBound(recs: map<nat, Record>, held: map<nat, real>, kappa: real, size: nat)
    requires kappa >= 0.0
    requires forall i: nat :: i in recs && recs[i].inQueue ==> recs[i].terminal
    requires forall i: nat :: i in held ==> held[i] <= kappa
    ensures HeldTotal(recs, held, size) <= Times(Total(Terminals, recs, size), kappa)
  {
    if size > 0 {
      HeldTotalBound(recs, held, kappa, size - 1);
      var t := Total(Terminals, recs, size - 1);
      assert Times(t + 1.0, kappa) == Times(t, kappa) + kappa;
    }
  }

  lemma FlaggedIsOnPerimeter(c: Config, n: Snapshot, i: nat)
    requires Valid(c, n) && i in n.recs && n.recs[i].inQueue
    ensures n.recs[i].terminal && n.perimeter != []
  {
    assert IsIndex(n.ids, i);
    var s :| s in n.ids && n.ids[s] == i;
    assert Known(c.problem, n.ids, s) && StateOk(c, n, Entry(i, s), 0);
  }

  lemma FlaggedAreOnPerimeter(c: Config, n: Snapshot)
    requires Valid(c, n)
    ensures forall i: nat :: i in n.recs && n.recs[i].inQueue ==> n.recs[i].terminal && n.perimeter != []
  {
    hide Valid;
    forall i: nat | i in n.recs && n.recs[i].inQueue ensures n.recs[i].terminal && n.perimeter != [] {
      FlaggedIsOnPerimeter(c, n, i);
    }
  }

  lemma PiHatIs(n: Snapshot)
    ensures PiHat(n) == Times(n.numberTerminal as real, n.kappa)
    ensures Sum(Terminals, n) == Total(Terminals, n.recs, |n.ids|)
  {
  }

  /** piHat bounds what was put on the perimeter: at the end of an iteration that began with an
      empty perimeter queue, every perimeter state is recorded with what it held when it was
      queued, and together that is at most numberTerminal * kappa. */
  lemma PiHatBoundsQueuedMass(c: Config, n: Snapshot, rounds: nat)
    requires Valid(c, n) && Counted(n) && n.perimeter == []
    ensures var m, held := Run(c, n, rounds), Held(c, n, rounds);
            && (forall i: nat :: i in m.recs && m.recs[i].inQueue ==> i in held)
            && HeldTotal(m.recs, held, |m.ids|) <= PiHat(m)
  {
    hide Run, Held, Valid, HeldTotal, Sum, PiHat;
    var m, held := Run(c, n, rounds), Held(c, n, rounds);
    RunKeepsValid(c, n, rounds);
    RunCounts(c, n, rounds);
    FlaggedAreOnPerimeter(c, n);
    FlaggedAreOnPerimeter(c, m);
    HeldBelowKappa(c, n, rounds);
    KappaNonNegative(c, m);
    PiHatIs(m);
    HeldTotalBound(m.recs, held, m.kappa, |m.ids|);
    ScaleByKappa(Sum(Terminals, m), m.numberTerminal as real, m.kappa);
  }

  /** In particular whenever accumulateProbabilities is called. */
  lemma EveryPiHatBoundsQueuedMass(c: Config, kappa: real, reduceKappa: real, rounds: nat, k: nat)
    requires c.problem.src.WellFormed() && kappa >= 0.0 && reduceKappa >= 1.0
    ensures var m, held := Iteration(c, kappa, reduceKappa, rounds, k),
            Held(c, IterationStart(c, kappa, reduceKappa, rounds, k), rounds);
            && (forall i: nat :: i in m.recs && m.recs[i].inQueue ==> i in held)
            && HeldTotal(m.recs, held, |m.ids|) <= PiHat(m)
  {
    hide Iteration, IterationStart, Run, Held, Valid, Counted, PiHat, HeldTotal;
    IterationCounts(c, kappa, reduceKappa, rounds, k);
    IterationIsRun(c, kappa, reduceKappa, rounds, k);
    PiHatBoundsQueuedMass(c, IterationStart(c, kappa, reduceKappa, rounds, k), rounds);
  }

  lemma ScaleByKappa(x: real, y: real, kappa: real)
    requires x <= y && kappa >= 0.0
    ensures Times(x, kappa) <= y * kappa
  {
  }

  // ----- The loop ends ------------------------------------------------------------------------------------------

  ghost function IndexSet(work: seq<Entry>): set<nat> {
    if work == [] then {} else IndexSet(work[..|work| - 1]) + {work[|work| - 1].index}
  }

  lemma {:induction false} IndexSetMembers(work: seq<Entry>)
    ensures forall i: nat :: i in IndexSet(work) ==> exists j :: 0 <= j < |work| && work[j].index == i
  {
    if work != [] {
      var rest := work[..|work| - 1];
      IndexSetMembers(rest);
      forall i: nat | i in IndexSet(work) ensures exists j :: 0 <= j < |work| && work[j].index == i {
        if i in IndexSet(rest) {
          var j :| 0 <= j < |rest| && rest[j].index == i;
          assert work[j].index == i;
        } else {
          assert work[|work| - 1].index == i;
        }
      }
    }
  }

  lemma {:induction false} IndexSetSize(work: seq<Entry>)
    requires forall j, k :: 0 <= j < k < |work| ==> work[j].index != work[k].index
    ensures |IndexSet(work)| == |work|
  {
    if work != [] {
      IndexSetSize(work[..|work| - 1]);
      IndexSetMembers(work[..|work| - 1]);
    }
  }

  // The indices of states, with that many patterns registered
  ghost function Indices(size: nat): set<nat> {
    if size <= 1 then {} else Indices(size - 1) + {size - 1}
  }

  lemma {:induction false} IndicesSize(size: nat)
    requires size > 0
    ensures |Indices(size)| == size - 1
    ensures forall i: nat :: i in Indices(size) <==> 1 <= i < size
  {
    if size > 1 {
      IndicesSize(size - 1);
    }
  }

  lemma DistinctWorkFits(c: Config, n: Snapshot, states: set<CompressedState>)
    requires Valid(c, n) && DistinctWork(n) && KnownIn(c, n, states)
    ensures |n.work| <= |states|
  {
    IndexSetSize(n.work);
    IndexSetMembers(n.work);
    assert c.problem.src.Absorbing() in n.ids;
    forall i: nat | i in IndexSet(n.work) ensures 1 <= i < |n.ids| {
      var j :| 0 <= j < |n.work| && n.work[j].index == i;
      assert EntryOk(n, n.work[j]);
    }
    IndicesSize(|n.ids|);
    SubsetSize(IndexSet(n.work), Indices(|n.ids|));
    KnownFit(c, n, states);
  }

  lemma InitialsStayIn(c: Config, kappa: real, states: set<CompressedState>)
    requires c.problem.src.WellFormed() && Encloses(c, states)
    ensures KnownIn(c, Start(c, kappa), states)
  {
    RegisterInitialsKnown(c, kappa, c.problem.src.initial);
  }

  /** One iteration, from a start with distinct work, ends within 2 |states| rounds. */
  lemma IterationEnds(c: Config, n: Snapshot, rounds: nat, states: set<CompressedState>)
    requires Valid(c, n) && Counted(n) && Encloses(c, states) && KnownIn(c, n, states)
    requires DistinctWork(n) && rounds >= 2 * |states|
    ensures var m := Run(c, n, rounds);
            && m.work == [] && Valid(c, m) && Counted(m) && KnownIn(c, m, states)
            && m.iteration == n.iteration && m.kappa == n.kappa
            && Surplus(m) <= Surplus(n) + (2 * |states|) as real
            && (!c.refine ==> Surplus(m) == Surplus(n))
  {
    hide Run, Length, Sum, Valid, Counted, Encloses, KnownIn, DistinctWork, Surplus;
    DistinctWorkFits(c, n, states);
    SeenFit(c, n, states);
    RunEnds(c, n, rounds, states);
    RunCounts(c, n, rounds);
    RunStaysIn(c, n, rounds, states);
    RunKeepsValid(c, n, rounds);
  }

  function Power(base: real, k: nat): real {
    if k == 0 then 1.0 else Times(Power(base, k - 1), base)
  }

  // At most this many rounds have run by the end of inner iteration k
  function VisitLimit(size: nat, k: nat): nat {
    2 * size * (k + 1)
  }

  lemma VisitLimitStep(size: nat, k: nat)
    ensures VisitLimit(size, 0) == 2 * size
    ensures k > 0 ==> VisitLimit(size, k) == VisitLimit(size, k - 1) + 2 * size
  {
    assert k > 0 ==> 2 * size * (k + 1) == 2 * size * k + 2 * size;
  }

  /** The state of affairs at the end of inner iteration k on a chain with finitely many states. */
  ghost predicate AfterIteration(c: Config, n: Snapshot, kappa: real, reduceKappa: real, k: nat,
                                 states: set<CompressedState>) {
    && Valid(c, n) && n.work == [] && Counted(n) && KnownIn(c, n, states)
    && n.iteration == k
    && Times(n.kappa, Power(reduceKappa, k)) == kappa
    && Surplus(n) <= VisitLimit(|states|, k) as real
    && (!c.refine ==> Surplus(n) == 0.0)
  }

  lemma DividePower(kappa: real, base: real, power: real, total: real)
    requires base >= 1.0 && Times(kappa, power) == total
    ensures Times(kappa / base, Times(power, base)) == total
  {
    var q := kappa / base;
    assert q * base == kappa;
    assert q * (power * base) == (q * base) * power;
  }

  lemma RestartCounted(c: Config, n: Snapshot, reduceKappa: real)
    requires Valid(c, n) && reduceKappa >= 1.0 && Counted(n)
    ensures Counted(Restart(c, n, reduceKappa))
  {
    hide Sum, Restart;
    RestartSums(c, n, reduceKappa);
  }

  lemma {:induction false} IterationsEnd(c: Config, kappa: real, reduceKappa: real, rounds: nat, k: nat,
                                         states: set<CompressedState>)
    requires c.problem.src.WellFormed() && kappa >= 0.0 && reduceKappa >= 1.0
    requires Encloses(c, states) && rounds >= 2 * |states|
    ensures AfterIteration(c, Iteration(c, kappa, reduceKappa, rounds, k), kappa, reduceKappa, k, states)
  {
    hide Sum, Run, Restart, Valid, Start, Encloses, KnownIn, Counted, DistinctWork, VisitLimit, Times, Surplus;
    VisitLimitStep(|states|, k);
    if k == 0 {
      TimesOne(kappa);
      FirstIterationStarts(c, kappa, states);
      IterationEnds(c, Start(c, kappa), rounds, states);
    } else {
      var n := Iteration(c, kappa, reduceKappa, rounds, k - 1);
      IterationsEnd(c, kappa, reduceKappa, rounds, k - 1, states);
      RestartKeepsValid(c, n, reduceKappa);
      RestartSums(c, n, reduceKappa);
      RestartCounted(c, n, reduceKappa);
      RestartDistinct(c, n, reduceKappa);
      KnownInSame(c, n, Restart(c, n, reduceKappa), states);
      IterationEnds(c, Restart(c, n, reduceKappa), rounds, states);
      DividePower(n.kappa, reduceKappa, Power(reduceKappa, k - 1), kappa);
    }
  }

  lemma KnownInSame(c: Config, n: Snapshot, m: Snapshot, states: set<CompressedState>)
    requires KnownIn(c, n, states) && m.ids == n.ids
    ensures KnownIn(c, m, states)
  {
  }

  lemma FirstIterationStarts(c: Config, kappa: real, states: set<CompressedState>)
    requires c.problem.src.WellFormed() && kappa >= 0.0 && Encloses(c, states)
    ensures var n := Start(c, kappa);
            && Valid(c, n) && Counted(n) && KnownIn(c, n, states) && DistinctWork(n)
            && Surplus(n) == 0.0 && n.iteration == 0 && n.kappa == kappa
  {
    StartValid(c, kappa);
    StartSums(c, kappa, c.problem.src.initial);
    InitialsStayIn(c, kappa, states);
    RegisterInitialsShape(c, kappa, c.problem.src.initial);
    InitialDistinct(c.problem.src.initial);
  }

  // ----- Geometric against linear growth ----------------------------------------------------------------------------

  function Pairs(k: nat): real {
    (k * k - k) as real / 2.0
  }

  lemma PairsStep(k: nat)
    ensures Pairs(0) == 0.0 && Pairs(k) >= 0.0
    ensures Pairs(k + 1) == Pairs(k) + k as real
  {
    assert (k + 1) * (k + 1) - (k + 1) == (k * k - k) + 2 * k;
  }

  lemma {:induction false} PowerGrows(h: real, k: nat)
    requires h >= 0.0
    ensures Power(1.0 + h, k) >= 1.0 + k as real * h + Pairs(k) * (h * h)
  {
    hide Pairs, Times;
    PairsStep(k);
    if k > 0 {
      PowerGrows(h, k - 1);
      PairsStep(k - 1);
      BinomialStep((k - 1) as real, Pairs(k - 1), h, h * h, Power(1.0 + h, k - 1));
    }
  }

  lemma BinomialStep(a: real, b: real, h: real, s: real, power: real)
    requires h >= 0.0 && s == h * h && b >= 0.0 && power >= 1.0 + a * h + b * s
    ensures Times(power, 1.0 + h) >= 1.0 + (a + 1.0) * h + (b + a) * s
  {
    var low := 1.0 + a * h + b * s;
    ScaleMonotone(1.0 + h, low, power);
    assert (1.0 + h) * low == low + h + a * s + (b * s) * h;
    ScaleMonotone(b, 0.0, s);
    ScaleMonotone(b * s, 0.0, h);
  }

  /** The inner iteration by whose end the loop is over, counted from 0. */
  function LastIteration(size: nat, kappa: real, reduceKappa: real, window: real): (k: nat)
    requires kappa >= 0.0 && reduceKappa > 1.0 && window > 0.0
    ensures k >= 1
  {
    ProductPositive(reduceKappa - 1.0, reduceKappa - 1.0);
    ProductPositive(window, Times(reduceKappa - 1.0, reduceKappa - 1.0));
    var x := (10.0 * size as real * kappa) / Times(window, Times(reduceKappa - 1.0, reduceKappa - 1.0));
    if x < 0.0 then 2 else x.Floor + 2
  }

  lemma LastIterationLarge(size: nat, kappa: real, reduceKappa: real, window: real)
    requires kappa >= 0.0 && reduceKappa > 1.0 && window > 0.0
    ensures var k, h := LastIteration(size, kappa, reduceKappa, window), reduceKappa - 1.0;
            10.0 * size as real * kappa < (window * (h * h)) * (k as real - 1.0)
  {
    var h := reduceKappa - 1.0;
    ProductPositive(h, h);
    var d, y := Times(window, Times(h, h)), 10.0 * size as real * kappa;
    ProductPositive(window, Times(h, h));
    var k := LastIteration(size, kappa, reduceKappa, window);
    var x := y / d;
    assert x * d == y;
    assert k as real - 1.0 > x;
    ProductPositive(d, k as real - 1.0 - x);
    assert d * (k as real - 1.0 - x) == d * (k as real - 1.0) - y;
  }

  lemma BelowWindow(count: real, limit: real, kappa: real, power: real, start: real, window: real)
    requires count <= limit && kappa >= 0.0 && power > 0.0 && Times(kappa, power) == start
    requires Times(limit, start) < Times(window, power)
    ensures count * kappa < window
  {
    var x := count * kappa;
    ScaleMonotone(kappa, 0.0, power);
    ScaleMonotone(start, count, limit);
    assert power * x == count * (kappa * power);
    if x >= window {
      ScaleMonotone(power, window, x);
    }
  }

  lemma LinearPart(size: real, kappa: real, k: real)
    requires size >= 0.0 && kappa >= 0.0 && k >= 1.0
    ensures Times(size * (2.0 * k + 3.0), kappa) <= Times(5.0 * size * kappa, k)
  {
    var y := size * kappa;
    ScaleMonotone(size, 0.0, kappa);
    ScaleMonotone(y, 2.0 * k + 3.0, 5.0 * k);
    assert size * (2.0 * k + 3.0) * kappa == y * (2.0 * k + 3.0);
    assert 5.0 * size * kappa * k == y * (5.0 * k);
  }

  lemma QuadraticPart(y: real, u: real, k: real)
    requires k >= 1.0 && 2.0 * y < u * (k - 1.0)
    ensures Times(y, k) <= u * ((k * k - k) / 2.0)
  {
    var z := u * (k - 1.0);
    ScaleMonotone(k, 2.0 * y, z);
    assert k * z == u * (k * k - k);
    assert k * (2.0 * y) == 2.0 * (y * k);
  }

  lemma PowerPart(window: real, s: real, d: real, power: real)
    requires window > 0.0 && power > d * s
    ensures (window * s) * d < Times(window, power)
  {
    ProductPositive(window, power - d * s);
    assert window * (power - d * s) == window * power - (window * s) * d;
  }

  lemma QuadraticBeatsLinear(size: real, kappa: real, h: real, window: real, k: real, power: real)
    requires size >= 0.0 && kappa >= 0.0 && h > 0.0 && window > 0.0 && k >= 1.0
    requires 10.0 * size * kappa < (window * (h * h)) * (k - 1.0)
    requires power >= 1.0 + k * h + ((k * k - k) / 2.0) * (h * h)
    ensures Times(size * (2.0 * k + 3.0), kappa) < Times(window, power)
  {
    hide Times;
    LinearPart(size, kappa, k);
    QuadraticPart(5.0 * size * kappa, window * (h * h), k);
    ProductPositive(k, h);
    PowerPart(window, h * h, (k * k - k) / 2.0, power);
  }

  lemma CountLimit(n: Snapshot, size: nat, k: nat)
    requires Surplus(n) <= VisitLimit(size, k) as real && Sum(Terminals, n) <= size as real
    ensures n.numberTerminal as real <= size as real * (2.0 * k as real + 3.0)
  {
    assert (2 * size * (k + 1)) as real == size as real * (2.0 * k as real + 2.0);
  }

  lemma GeometricWins(size: nat, kappa: real, reduceKappa: real, window: real)
    requires kappa >= 0.0 && reduceKappa > 1.0 && window > 0.0
    ensures var k := LastIteration(size, kappa, reduceKappa, window);
            Times(size as real * (2.0 * k as real + 3.0), kappa) < Times(window, Power(reduceKappa, k))
  {
    hide LastIteration, Power;
    var k := LastIteration(size, kappa, reduceKappa, window);
    PowerGrows(reduceKappa - 1.0, k);
    LastIterationLarge(size, kappa, reduceKappa, window);
    assert (k * k - k) as real == k as real * k as real - k as real;
    QuadraticBeatsLinear(size as real, kappa, reduceKappa - 1.0, window, k as real, Power(reduceKappa, k));
  }

  /** At the end of that iteration piHat is below the window, although states that settle the property
      are counted again in every iteration. */
  lemma AfterLastIteration(c: Config, n: Snapshot, kappa: real, reduceKappa: real, window: real,
                           states: set<CompressedState>)
    requires kappa >= 0.0 && reduceKappa > 1.0 && window > 0.0
    requires AfterIteration(c, n, kappa, reduceKappa, LastIteration(|states|, kappa, reduceKappa, window), states)
    ensures PiHat(n) < window
  {
    hide Sum, LastIteration, Power, Valid, Times, Surplus, VisitLimit;
    var k := LastIteration(|states|, kappa, reduceKappa, window);
    SeenFit(c, n, states);
    CountLimit(n, |states|, k);
    GeometricWins(|states|, kappa, reduceKappa, window);
    PowerPositive(reduceKappa, k);
    KappaNonNegative(c, n);
    BelowWindow(n.numberTerminal as real, |states| as real * (2.0 * k as real + 3.0), n.kappa, Power(reduceKappa, k),
        kappa, window);
  }

  /** Without property refinement the counter is exact, and any iteration does in which kappa is small
      enough. */
  lemma AfterExactIteration(c: Config, n: Snapshot, kappa: real, reduceKappa: real, window: real, k: nat,
                            states: set<CompressedState>)
    requires kappa >= 0.0 && reduceKappa >= 1.0 && !c.refine && AfterIteration(c, n, kappa, reduceKappa, k, states)
    requires |states| as real * kappa < window * Power(reduceKappa, k)
    ensures PiHat(n) < window
  {
    hide Sum, Power, Valid;
    SeenFit(c, n, states);
    PowerPositive(reduceKappa, k);
    KappaNonNegative(c, n);
    BelowWindow(n.numberTerminal as real, |states| as real, n.kappa, Power(reduceKappa, k), kappa, window);
  }

  /** Kappa loop termination.  On a chain with finitely many reachable states, with any reduction
      factor above 1 and any positive window, piHat is below the window at the end of an inner
      iteration that is known in advance, although states that settle the property are counted
      again in every iteration. */
  lemma KappaLoopEnds(c: Config, kappa: real, reduceKappa: real, window: real, rounds: nat,
                      states: set<CompressedState>)
    requires c.problem.src.WellFormed() && kappa >= 0.0 && reduceKappa > 1.0 && window > 0.0
    requires Encloses(c, states) && rounds >= 2 * |states|
    ensures var n := Iteration(c, kappa, reduceKappa, rounds, LastIteration(|states|, kappa, reduceKappa, window));
            n.work == [] && PiHat(n) < window
  {
    hide Iteration, LastIteration, Encloses, PiHat;
    var k := LastIteration(|states|, kappa, reduceKappa, window);
    IterationsEnd(c, kappa, reduceKappa, rounds, k, states);
    AfterLastIteration(c, Iteration(c, kappa, reduceKappa, rounds, k), kappa, reduceKappa, window, states);
  }

  lemma KappaNonNegative(c: Config, n: Snapshot)
    requires Valid(c, n)
    ensures n.kappa >= 0.0
  {
  }

  lemma {:induction false} PowerPositive(base: real, k: nat)
    requires base > 0.0
    ensures Power(base, k) > 0.0
  {
    if k > 0 {
      PowerPositive(base, k - 1);
      ProductPositive(Power(base, k - 1), base);
    }
  }

  /** Without property refinement the loop is over at the end of the first inner iteration k for
      which reduceKappa to the power k exceeds (number of states) * kappa / window: the number of
      iterations is logarithmic. */
  lemma KappaLoopEndsLogarithmically(c: Config, kappa: real, reduceKappa: real, window: real, rounds: nat, k: nat,
                                     states: set<CompressedState>)
    requires c.problem.src.WellFormed() && kappa >= 0.0 && reduceKappa >= 1.0
    requires Encloses(c, states) && rounds >= 2 * |states| && !c.refine
    requires |states| as real * kappa < window * Power(reduceKappa, k)
    ensures var n := Iteration(c, kappa, reduceKappa, rounds, k);
            n.work == [] && PiHat(n) < window
  {
    hide Iteration, Encloses, PiHat, Power;
    IterationsEnd(c, kappa, reduceKappa, rounds, k, states);
    AfterExactIteration(c, Iteration(c, kappa, reduceKappa, rounds, k), kappa, reduceKappa, window, k, states);
  }

  // ----- The outcome of the loop ----------------------------------------------------------------------------------

  /** The iteration, from i on, at whose end piHat is below the window; none if the loop is given up
      before. */
  function FirstBelow(c: Config, kappa: real, reduceKappa: real, window: real, rounds: nat, iterations: nat,
                      i: nat): Option<nat>
    requires c.problem.src.WellFormed() && kappa >= 0.0 && reduceKappa >= 1.0
    decreases iterations - i
  {
    if i >= iterations || Iteration(c, kappa, reduceKappa, rounds, i).work != [] then None
    else if PiHat(Iteration(c, kappa, reduceKappa, rounds, i)) < window then Some(i)
    else FirstBelow(c, kappa, reduceKappa, window, rounds, iterations, i + 1)
  }

  /** The outcome of the kappa loop, which starts from piHat = 1. */
  function LoopOutcome(c: Config, kappa: real, reduceKappa: real, window: real, rounds: nat,
                       iterations: nat): Option<nat>
    requires c.problem.src.WellFormed() && kappa >= 0.0 && reduceKappa >= 1.0
  {
    if 1.0 < window then None else FirstBelow(c, kappa, reduceKappa, window, rounds, iterations, 0)
  }

  // What accumulateProbabilities finds at the end of inner iteration k
  function Estimate(c: Config, kappa: real, reduceKappa: real, rounds: nat, k: nat): real
    requires c.problem.src.WellFormed() && kappa >= 0.0 && reduceKappa >= 1.0
  {
    var n := Iteration(c, kappa, reduceKappa, rounds, k);
    n.numberTerminal as real * n.kappa
  }

  /** The loop is left after inner iteration r: none before it has brought the estimate below the
      window, r has, and no exploration up to r was given up. */
  ghost predicate LeavesAfter(c: Config, kappa: real, reduceKappa: real, window: real, rounds: nat, iterations: nat,
                              r: nat)
    requires c.problem.src.WellFormed() && kappa >= 0.0 && reduceKappa >= 1.0
  {
    && window <= 1.0 && r < iterations
    && (forall j: nat :: j <= r ==> Iteration(c, kappa, reduceKappa, rounds, j).work == [])
    && (forall j: nat :: j < r ==> Estimate(c, kappa, reduceKappa, rounds, j) >= window)
    && Estimate(c, kappa, reduceKappa, rounds, r) < window
  }

  lemma {:induction false} FirstBelowExists(c: Config, kappa: real, reduceKappa: real, window: real, rounds: nat,
                                            iterations: nat, i: nat, k: nat,
                                            states: set<CompressedState>)
    requires c.problem.src.WellFormed() && kappa >= 0.0 && reduceKappa >= 1.0
    requires Encloses(c, states) && rounds >= 2 * |states| && i <= k < iterations
    requires PiHat(Iteration(c, kappa, reduceKappa, rounds, k)) < window
    ensures var r := FirstBelow(c, kappa, reduceKappa, window, rounds, iterations, i);
            r.Some? && i <= r.value <= k
    decreases k - i
  {
    hide Iteration, PiHat, Valid, Encloses;
    IterationsEnd(c, kappa, reduceKappa, rounds, i, states);
    if i < k {
      FirstBelowExists(c, kappa, reduceKappa, window, rounds, iterations, i + 1, k, states);
    }
  }

  /** With enough rounds and iterations the kappa loop of a chain with finitely many reachable states
      is never given up: it is left because piHat is below the window, after an iteration that is
      known in advance or before. */
  lemma LoopIsNotGivenUp(c: Config, kappa: real, reduceKappa: real, window: real, rounds: nat, iterations: nat,
                         states: set<CompressedState>) returns (r: nat)
    requires c.problem.src.WellFormed() && kappa >= 0.0 && reduceKappa > 1.0 && 0.0 < window <= 1.0
    requires Encloses(c, states) && rounds >= 2 * |states|
    requires iterations > LastIteration(|states|, kappa, reduceKappa, window)
    ensures r <= LastIteration(|states|, kappa, reduceKappa, window)
    ensures LeavesAfter(c, kappa, reduceKappa, window, rounds, iterations, r)
  {
    hide Iteration, PiHat, LastIteration, LeavesAfter, FirstBelow;
    KappaLoopEnds(c, kappa, reduceKappa, window, rounds, states);
    var k := LastIteration(|states|, kappa, reduceKappa, window);
    FirstBelowExists(c, kappa, reduceKappa, window, rounds, iterations, 0, k, states);
    r := FirstBelow(c, kappa, reduceKappa, window, rounds, iterations, 0).value;
    OutcomeMeaning(c, kappa, reduceKappa, window, rounds, iterations, r);
  }

  // The same from iteration i on, for iteration r
  ghost predicate FirstFrom(c: Config, kappa: real, reduceKappa: real, window: real, rounds: nat, i: nat, r: nat)
    requires c.problem.src.WellFormed() && kappa >= 0.0 && reduceKappa >= 1.0
  {
    && (forall j: nat :: i <= j <= r ==> Iteration(c, kappa, reduceKappa, rounds, j).work == [])
    && (forall j: nat :: i <= j < r ==> Estimate(c, kappa, reduceKappa, rounds, j) >= window)
    && Estimate(c, kappa, reduceKappa, rounds, r) < window
  }

  /** The iteration found is the first, and the first is found. */
  lemma {:induction false} FirstBelowMeaning(c: Config, kappa: real, reduceKappa: real, window: real, rounds: nat,
                                             iterations: nat, i: nat, r: nat)
    requires c.problem.src.WellFormed() && kappa >= 0.0 && reduceKappa >= 1.0
    ensures FirstBelow(c, kappa, reduceKappa, window, rounds, iterations, i) == Some(r)
            <==> i <= r < iterations && FirstFrom(c, kappa, reduceKappa, window, rounds, i, r)
    decreases iterations - i
  {
    hide Iteration, Valid;
    if i < iterations {
      FirstBelowMeaning(c, kappa, reduceKappa, window, rounds, iterations, i + 1, r);
      assert PiHat(Iteration(c, kappa, reduceKappa, rounds, i)) == Estimate(c, kappa, reduceKappa, rounds, i);
    }
  }

  lemma OutcomeMeaning(c: Config, kappa: real, reduceKappa: real, window: real, rounds: nat, iterations: nat, r: nat)
    requires c.problem.src.WellFormed() && kappa >= 0.0 && reduceKappa >= 1.0
    ensures LoopOutcome(c, kappa, reduceKappa, window, rounds, iterations) == Some(r)
            <==> LeavesAfter(c, kappa, reduceKappa, window, rounds, iterations, r)
  {
    hide Iteration, Valid, FirstBelow, Estimate;
    FirstBelowMeaning(c, kappa, reduceKappa, window, rounds, iterations, 0, r);
  }
}
