/** On a chain with finitely many reachable states every inner iteration ends, and so does the loop
    that reduces kappa. */
module Termination {
  import opened SourceChain
  import opened TruncatedModel
  import opened Exploration
  import opened Invariant
  import opened Iterations
  import opened Accounting
  import opened Runs

  /** A finite set of states that the chain does not leave. */
  ghost predicate Encloses(c: Config, states: set<CompressedState>) {
    && (forall i :: 0 <= i < |c.problem.src.initial| ==> c.problem.src.initial[i] in states)
    && (forall s :: s in states ==> AllIn(c.Succ(s), states))
  }

  ghost predicate AllIn(es: seq<Edge>, states: set<CompressedState>) {
    forall j :: 0 <= j < |es| ==> es[j].to in states
  }

  ghost predicate KnownIn(c: Config, n: Snapshot, states: set<CompressedState>) {
    forall s :: Known(c.problem, n.ids, s) ==> s in states
  }

  // ----- The known states stay inside ------------------------------------------------------------------

  lemma StepStaysIn(c: Config, n: Snapshot, states: set<CompressedState>)
    requires Valid(c, n) && n.work != [] && Encloses(c, states) && KnownIn(c, n, states)
    ensures EntryOk(n, n.work[0]) && KnownIn(c, Step(c, n), states)
  {
    var e, m := n.work[0], Pop(n);
    assert EntryOk(n, e);
    assert Known(c.problem, n.ids, e.state) && AllIn(c.Succ(e.state), states);
    RegisterAllNewStates(Unflagged(m, e.index), e.index, c.Succ(e.state));
  }

  lemma {:induction false} RunStaysIn(c: Config, n: Snapshot, rounds: nat, states: set<CompressedState>)
    requires Valid(c, n) && Encloses(c, states) && KnownIn(c, n, states)
    ensures KnownIn(c, Run(c, n, rounds), states)
    decreases rounds
  {
    hide Step;
    if rounds != 0 && n.work != [] {
      StepKeepsValid(c, n);
      StepStaysIn(c, n, states);
      RunStaysIn(c, Step(c, n), rounds - 1, states);
    }
  }

  lemma {:induction false} SubsetSize<T>(a: set<T>, b: set<T>)
    requires a <= b
    ensures |a| <= |b|
  {
    if a != {} {
      var x :| x in a;
      SubsetSize(a - {x}, b - {x});
    }
  }

  lemma KnownFit(c: Config, n: Snapshot, states: set<CompressedState>)
    requires KnownIn(c, n, states)
    ensures |n.ids| <= |states| + 1
  {
    assert n.ids.Keys <= states + {c.problem.src.Absorbing()} by {
      forall s | s in n.ids ensures s in states || s == c.problem.src.Absorbing() {
        assert Known(c.problem, n.ids, s) || s == c.problem.src.Absorbing();
      }
    }
    SubsetSize(n.ids.Keys, states + {c.problem.src.Absorbing()});
    assert |n.ids.Keys| == |n.ids|;
  }

  // ----- One inner iteration ends ------------------------------------------------------------------------

  lemma SeenFit(c: Config, n: Snapshot, states: set<CompressedState>)
    requires Valid(c, n) && KnownIn(c, n, states)
    ensures 0.0 <= Sum(SeenIn(n.iteration), n) <= |states| as real
    ensures Sum(Terminals, n) <= |states| as real
  {
    KnownFit(c, n, states);
    assert 0 !in n.recs;
    TotalBounds(SeenIn(n.iteration), n.recs, |n.ids|);
    TotalBounds(Terminals, n.recs, |n.ids|);
  }

  /** Worklist termination: the entries in the worklist plus the states not yet seen in this
      iteration lose exactly one in every round, so the loop ends after at most that many rounds. */
  lemma {:induction false} RunEnds(c: Config, n: Snapshot, rounds: nat, states: set<CompressedState>)
    requires Valid(c, n) && Counted(n) && Encloses(c, states) && KnownIn(c, n, states)
    requires rounds as real >= Unmarked(n) + |states| as real
    ensures Run(c, n, rounds).work == []
    ensures Length(c, n, rounds) as real <= Unmarked(n) + |states| as real
    decreases rounds
  {
    hide Step, Sum;
    SeenFit(c, n, states);
    if n.work != [] {
      assert Unmarked(n) + |states| as real >= 1.0;
      StepKeepsValid(c, n);
      StepCounts(c, n);
      StepStaysIn(c, n, states);
      StepCounted(c, n);
      RunEnds(c, Step(c, n), rounds - 1, states);
    }
  }

  lemma StepCounted(c: Config, n: Snapshot)
    requires Valid(c, n) && n.work != [] && Counted(n)
    ensures EntryOk(n, n.work[0]) && Counted(Step(c, n))
  {
    hide Step, Sum;
    StepCounts(c, n);
  }

  // ----- No state is dequeued more than twice ----------------------------------------------------------------

  function Occurrences(work: seq<Entry>, i: nat): nat {
    if work == [] then 0
    else Occurrences(work[..|work| - 1], i) + (if work[|work| - 1].index == i then 1 else 0)
  }

  function Seen(n: Snapshot, i: nat): nat {
    if i in n.recs && n.recs[i].lastSeen == n.iteration then 1 else 0
  }

  /** How often a run dequeues the state with index i. */
  function Dequeues(c: Config, n: Snapshot, rounds: nat, i: nat): nat
    requires Valid(c, n)
    decreases rounds
  {
    if rounds == 0 || n.work == [] then 0
    else
      StepKeepsValid(c, n);
      (if n.work[0].index == i then 1 else 0) + Dequeues(c, Step(c, n), rounds - 1, i)
  }

  lemma {:induction false} OccurrencesFront(work: seq<Entry>, i: nat)
    requires work != []
    ensures Occurrences(work, i) == (if work[0].index == i then 1 else 0) + Occurrences(work[1..], i)
  {
    if |work| > 1 {
      OccurrencesFront(work[..|work| - 1], i);
      assert work[1..][..|work| - 2] == work[..|work| - 1][1..];
    }
  }

  lemma OccurrencesAppend(work: seq<Entry>, e: Entry, i: nat)
    ensures Occurrences(work + [e], i) == Occurrences(work, i) + (if e.index == i then 1 else 0)
  {
    assert (work + [e])[..|work|] == work;
  }

  lemma RegisterMarks(c: Config, n: Snapshot, cur: nat, s: CompressedState, i: nat)
    requires Shape(c, n) && cur in n.recs && s != c.problem.src.Absorbing()
    requires n.recs[cur].pi == 0.0 ==> s in n.ids
    ensures var m := Register(n, cur, s);
            Occurrences(m.work, i) + Seen(n, i) == Occurrences(n.work, i) + Seen(m, i)
  {
    hide Occurrences;
    assert s in n.ids ==> Known(c.problem, n.ids, s);
    OccurrencesAppend(n.work, Entry(IndexFor(n.ids, s), s), i);
  }

  lemma {:induction false} RegisterAllMarks(c: Config, n: Snapshot, e: Entry, es: seq<Edge>, i: nat)
    requires Expanding(c, n, e) && es <= c.Succ(e.state) && c.problem.src.AvoidsAbsorbing(e.state)
    requires n.recs[e.index].pi == 0.0 ==> AllKnown(n.ids, c.Succ(e.state))
    ensures var m := RegisterAll(n, e.index, es);
            Occurrences(m.work, i) + Seen(n, i) == Occurrences(n.work, i) + Seen(m, i)
  {
    hide Register, Seen;
    if es != [] {
      var rest := es[..|es| - 1];
      RegisterAllMarks(c, n, e, rest, i);
      RegisterAllKeepsExpanding(c, n, e, rest);
      assert c.Succ(e.state)[|es| - 1] == es[|es| - 1];
      RegisterMarks(c, RegisterAll(n, e.index, rest), e.index, es[|es| - 1].to, i);
    }
  }

  lemma CallBackMarks(c: Config, n: Snapshot, e: Entry, i: nat)
    requires Ready(c, n, e)
    ensures var m := CallBack(c, n, e);
            Occurrences(m.work, i) + Seen(n, i) == Occurrences(n.work, i) + Seen(m, i)
  {
    hide Occurrences;
    NoMassIsClosed(c, n, e);
    assert c.problem.src.AvoidsAbsorbing(e.state);
    RegisterAllMarks(c, Unflagged(n, e.index), e, c.Succ(e.state), i);
    assert Seen(Unflagged(n, e.index), i) == Seen(n, i);
  }

  lemma DistributeMarks(c: Config, n: Snapshot, e: Entry, i: nat)
    requires c.problem.src.WellFormed() && Expanding(c, n, e) && Successors(c, n.ids, c.Succ(e.state))
    ensures var m := Finish(Distribute(c, n, e), e.index);
            m.work == n.work && Seen(m, i) == Seen(n, i)
  {
    DistributeEffect(c, n, e);
  }

  lemma ExpandMarks(c: Config, n: Snapshot, e: Entry, i: nat)
    requires Ready(c, n, e)
    ensures var m := Expand(c, n, e);
            Occurrences(m.work, i) + Seen(n, i) == Occurrences(n.work, i) + Seen(m, i)
  {
    hide Occurrences, Seen, CallBack, Distribute, Finish;
    CallBackMarks(c, n, e, i);
    CallBackEffect(c, n, e);
    DistributeMarks(c, CallBack(c, n, e), e, i);
  }

  lemma StepMarks(c: Config, n: Snapshot, i: nat)
    requires Valid(c, n) && n.work != []
    ensures EntryOk(n, n.work[0])
    ensures var m := Step(c, n);
            Occurrences(m.work, i) + (if n.work[0].index == i then 1 else 0) + Seen(n, i)
                == Occurrences(n.work, i) + Seen(m, i)
  {
    hide Expand, Occurrences;
    PopKeepsInv(c, n);
    OccurrencesFront(n.work, i);
    var e, m := n.work[0], Pop(n);
    assert EntryOk(n, n.work[0]);
    if c.Stops(e.state) || (m.recs[e.index].terminal && m.recs[e.index].pi < m.kappa) {
    } else if c.Succ(e.state) == [] {
      DeadlockTurn(c, m, e);
    } else {
      ExpandMarks(c, m, e, i);
    }
  }

  /** What is dequeued was in the worklist at the start or was marked as seen once since. */
  lemma {:induction false} DequeuesAreMarked(c: Config, n: Snapshot, rounds: nat, i: nat)
    requires Valid(c, n)
    ensures Dequeues(c, n, rounds, i) + Occurrences(Run(c, n, rounds).work, i) + Seen(n, i)
            == Occurrences(n.work, i) + Seen(Run(c, n, rounds), i)
    decreases rounds
  {
    hide Step, Seen, Occurrences;
    if rounds != 0 && n.work != [] {
      StepKeepsValid(c, n);
      StepMarks(c, n, i);
      DequeuesAreMarked(c, Step(c, n), rounds - 1, i);
    }
  }

  lemma {:induction false} DistinctOccurrences(work: seq<Entry>, i: nat)
    requires forall j, k :: 0 <= j < k < |work| ==> work[j].index != work[k].index
    ensures Occurrences(work, i) <= 1
    ensures Occurrences(work, i) == 1 ==> exists j :: 0 <= j < |work| && work[j].index == i
  {
    if work != [] {
      var rest := work[..|work| - 1];
      DistinctOccurrences(rest, i);
      if Occurrences(rest, i) == 1 {
        var j :| 0 <= j < |rest| && rest[j].index == i;
        assert work[j].index == i;
      } else if work[|work| - 1].index == i {
        assert work[|work| - 1].index == i;
      }
    }
  }

  // The worklist an iteration starts with has no state twice
  ghost predicate DistinctWork(n: Snapshot) {
    forall j, k :: 0 <= j < k < |n.work| ==> n.work[j].index != n.work[k].index
  }

  lemma {:induction false} FlushDistinct(c: Config, n: Snapshot)
    requires Valid(c, n) && DistinctWork(n)
    requires forall j, k :: 0 <= j < |n.work| && 0 <= k < |n.perimeter| ==> n.work[j].index != n.perimeter[k].index
    ensures DistinctWork(Flush(c, n))
    decreases |n.perimeter|
  {
    if n.perimeter != [] {
      FlushOneKeepsValid(c, n);
      FlushDistinct(c, FlushOne(n));
    }
  }

  lemma RestartDistinct(c: Config, n: Snapshot, reduceKappa: real)
    requires Valid(c, n) && n.work == [] && reduceKappa >= 1.0
    ensures DistinctWork(Restart(c, n, reduceKappa))
  {
    EndIterationKeepsValid(c, n, reduceKappa);
    FlushDistinct(c, EndIteration(n, reduceKappa));
  }

  lemma {:induction false} InitialDistinct(states: seq<CompressedState>)
    ensures |InitialWork(states)| == |states|
    ensures forall j :: 0 <= j < |states| ==> InitialWork(states)[j].index == j + 1
  {
    if states != [] {
      InitialDistinct(states[..|states| - 1]);
    }
  }

  /** In one inner iteration no state is dequeued more than twice, once from the flushed perimeter
      and once after it was discovered again; and in the first one none more than once. */
  lemma AtMostTwice(c: Config, n: Snapshot, reduceKappa: real, rounds: nat, i: nat)
    requires Valid(c, n) && n.work == [] && reduceKappa >= 1.0
    ensures Valid(c, Restart(c, n, reduceKappa))
    ensures Dequeues(c, Restart(c, n, reduceKappa), rounds, i) <= 2
  {
    hide Restart, Valid;
    RestartKeepsValid(c, n, reduceKappa);
    RestartDistinct(c, n, reduceKappa);
    DistinctOccurrences(Restart(c, n, reduceKappa).work, i);
    DequeuesAreMarked(c, Restart(c, n, reduceKappa), rounds, i);
  }

  lemma AtMostOnceAtFirst(c: Config, kappa: real, rounds: nat, i: nat)
    requires c.problem.src.WellFormed() && kappa >= 0.0
    ensures Valid(c, Start(c, kappa))
    ensures Dequeues(c, Start(c, kappa), rounds, i) <= 1
  {
    hide Valid;
    var states, n := c.problem.src.initial, Start(c, kappa);
    StartValid(c, kappa);
    RegisterInitialsShape(c, kappa, states);
    InitialDistinct(states);
    DistinctOccurrences(n.work, i);
    InitialsSeen(c, kappa, states);
    DequeuesAreMarked(c, n, rounds, i);
  }

  lemma {:induction false} InitialsSeen(c: Config, kappa: real, states: seq<CompressedState>)
    ensures var n := RegisterInitials(Fresh(c, kappa), states);
            && n.iteration == 0
            && forall j :: 0 <= j < |n.work| ==> n.work[j].index in n.recs && n.recs[n.work[j].index].lastSeen == 0
  {
    if states != [] {
      InitialsSeen(c, kappa, states[..|states| - 1]);
    }
  }
}
