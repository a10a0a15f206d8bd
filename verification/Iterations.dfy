/** Whole inner iterations: the first one from the initial states, the later ones from the flushed
    perimeter, each running the exploration loop until the worklist is empty. */
module Iterations {
  import opened SourceChain
  import opened TruncatedModel
  import opened Exploration
  import opened Invariant

  // ----- Starting ------------------------------------------------------------------------------

  lemma FreshIsValid(c: Config, kappa: real)
    requires c.problem.src.WellFormed() && kappa >= 0.0
    ensures Valid(c, Fresh(c, kappa))
  {
    var n := Fresh(c, kappa);
    assert IsIndex(n.ids, 0) by {
      assert c.problem.src.Absorbing() in n.ids;
    }
  }

  lemma RegisterInitialShape(c: Config, n: Snapshot, s: CompressedState)
    requires Shape(c, n) && s !in n.ids
    ensures Shape(c, RegisterInitial(n, s)) && SubNumbering(n.ids, RegisterInitial(n, s).ids)
  {
    var i, m := |n.ids|, RegisterInitial(n, s);
    RegisterNumbering(c.problem, n.ids, s);
    assert m.ids == n.ids[s := i] && m.recs.Keys == n.recs.Keys + {i};
    forall j | 0 <= j < |m.work| ensures EntryOk(m, m.work[j]) {
      assert j < |n.work| ==> EntryOk(n, n.work[j]);
    }
    forall j | 0 <= j < |m.perimeter| ensures EntryOk(m, m.perimeter[j]) {
      assert EntryOk(n, n.perimeter[j]);
    }
  }

  lemma RegisterInitialKeepsValid(c: Config, n: Snapshot, s: CompressedState)
    requires Valid(c, n) && s !in n.ids
    ensures Valid(c, RegisterInitial(n, s))
  {
    var m := RegisterInitial(n, s);
    RegisterInitialShape(c, n, s);
    forall j | 0 <= j < |m.perimeter| ensures Settled(m, m.perimeter[j]) {
      assert EntryOk(n, n.perimeter[j]) && Settled(n, n.perimeter[j]);
    }
    forall t | Known(c.problem, m.ids, t) ensures StateOk(c, m, Entry(m.ids[t], t), 0) {
      if t in n.ids {
        assert Known(c.problem, n.ids, t) && StateOk(c, n, Entry(n.ids[t], t), 0);
        StateOkKept(c, n, m, Entry(n.ids[t], t), 0);
      } else {
        assert Entry(|n.ids|, s) in m.work;
      }
    }
  }

  // The worklist after the initial states were registered
  function InitialWork(states: seq<CompressedState>): seq<Entry> {
    if states == [] then [] else InitialWork(states[..|states| - 1]) + [Entry(|states|, states[|states| - 1])]
  }

  // Exactly these states are registered
  ghost predicate Registers(c: Config, ids: Numbering, states: seq<CompressedState>) {
    forall s :: s in ids <==> s == c.problem.src.Absorbing() || s in states
  }

  lemma {:induction false} RegisterInitialsKnown(c: Config, kappa: real, states: seq<CompressedState>)
    ensures Registers(c, RegisterInitials(Fresh(c, kappa), states).ids, states)
  {
    if states != [] {
      RegisterInitialsKnown(c, kappa, states[..|states| - 1]);
      assert states == states[..|states| - 1] + [states[|states| - 1]];
    }
  }

  lemma InitialIsNew(c: Config, kappa: real, states: seq<CompressedState>)
    requires c.problem.src.WellFormed() && states <= c.problem.src.initial && states != []
    ensures states[|states| - 1] !in RegisterInitials(Fresh(c, kappa), states[..|states| - 1]).ids
  {
    var rest, s := states[..|states| - 1], states[|states| - 1];
    RegisterInitialsKnown(c, kappa, rest);
    assert c.problem.src.initial[|states| - 1] == s;
    forall j | 0 <= j < |rest| ensures rest[j] != s {
      assert rest[j] == c.problem.src.initial[j];
    }
  }

  /** The initial states get the indices from 1 on, in their order, and are enqueued in it. */
  lemma {:induction false} RegisterInitialsShape(c: Config, kappa: real, states: seq<CompressedState>)
    requires c.problem.src.WellFormed() && states <= c.problem.src.initial
    ensures RegisterInitials(Fresh(c, kappa), states).work == InitialWork(states)
    ensures |RegisterInitials(Fresh(c, kappa), states).ids| == |states| + 1
  {
    if states != [] {
      var n := RegisterInitials(Fresh(c, kappa), states[..|states| - 1]);
      RegisterInitialsShape(c, kappa, states[..|states| - 1]);
      InitialIsNew(c, kappa, states);
      assert |n.ids[states[|states| - 1] := |n.ids|]| == |n.ids| + 1;
    }
  }

  lemma {:induction false} RegisterInitialsValid(c: Config, kappa: real, states: seq<CompressedState>)
    requires c.problem.src.WellFormed() && kappa >= 0.0 && states <= c.problem.src.initial
    ensures Valid(c, RegisterInitials(Fresh(c, kappa), states))
  {
    hide RegisterInitial, Fresh;
    if states == [] {
      FreshIsValid(c, kappa);
    } else {
      var rest := states[..|states| - 1];
      RegisterInitialsValid(c, kappa, rest);
      InitialIsNew(c, kappa, states);
      RegisterInitialKeepsValid(c, RegisterInitials(Fresh(c, kappa), rest), states[|states| - 1]);
    }
  }

  /** The first iteration, before its loop. */
  function Start(c: Config, kappa: real): Snapshot {
    RegisterInitials(Fresh(c, kappa), c.problem.src.initial)
  }

  lemma {:induction false} StartRecords(c: Config, kappa: real, states: seq<CompressedState>)
    ensures var n := RegisterInitials(Fresh(c, kappa), states);
            && n.table == [] && n.perimeter == [] && n.iteration == 0
            && forall i: nat :: i in n.recs ==> n.recs[i] == Record(1.0, true, 0, true, false, false)
  {
    if states != [] {
      StartRecords(c, kappa, states[..|states| - 1]);
    }
  }

  // ----- Running the loop --------------------------------------------------------------------------

  /** The exploration loop, for at most the given number of rounds. */
  function Run(c: Config, n: Snapshot, rounds: nat): Snapshot
    requires Valid(c, n)
    decreases rounds
  {
    if rounds == 0 || n.work == [] then n
    else
      StepKeepsValid(c, n);
      Run(c, Step(c, n), rounds - 1)
  }

  lemma {:induction false} RunKeepsValid(c: Config, n: Snapshot, rounds: nat)
    requires Valid(c, n)
    ensures Valid(c, Run(c, n, rounds))
    decreases rounds
  {
    hide Step;
    if rounds != 0 && n.work != [] {
      StepKeepsValid(c, n);
      RunKeepsValid(c, Step(c, n), rounds - 1);
    }
  }

  // ----- Starting over from the perimeter ----------------------------------------------------------

  lemma FlushOneShape(c: Config, n: Snapshot)
    requires Inv(c, n, 0) && n.perimeter != []
    ensures EntryOk(n, n.perimeter[0]) && Shape(c, FlushOne(n))
    ensures forall j :: 0 <= j < |FlushOne(n).perimeter| ==> Settled(FlushOne(n), FlushOne(n).perimeter[j])
    ensures |FlushOne(n).perimeter| == |n.perimeter| - 1 && FlushOne(n).ids == n.ids
  {
    var e := n.perimeter[0];
    assert EntryOk(n, e) && Settled(n, e);
    var m := FlushOne(n);
    assert m.recs.Keys == n.recs.Keys;
    forall j | 0 <= j < |m.work| ensures EntryOk(m, m.work[j]) {
      assert j < |n.work| ==> EntryOk(n, n.work[j]);
    }
    forall j | 0 <= j < |m.perimeter| ensures EntryOk(m, m.perimeter[j]) && Settled(m, m.perimeter[j]) {
      assert EntryOk(n, n.perimeter[j + 1]) && Settled(n, n.perimeter[j + 1]);
    }
  }

  /** A flagged entry becomes work again, with the flag cleared; an unflagged one is dropped. */
  lemma FlushOneKeepsValid(c: Config, n: Snapshot)
    requires Valid(c, n) && n.perimeter != []
    ensures EntryOk(n, n.perimeter[0]) && Valid(c, FlushOne(n))
    ensures |FlushOne(n).perimeter| == |n.perimeter| - 1 && FlushOne(n).ids == n.ids
  {
    FlushOneShape(c, n);
    forall t | Known(c.problem, FlushOne(n).ids, t) ensures StateOk(c, FlushOne(n), Entry(n.ids[t], t), 0) {
      FlushOneKeepsState(c, n, t);
    }
  }

  lemma FlushOneKeepsState(c: Config, n: Snapshot, t: CompressedState)
    requires Valid(c, n) && n.perimeter != [] && EntryOk(n, n.perimeter[0]) && Known(c.problem, n.ids, t)
    ensures n.ids[t] in FlushOne(n).recs && StateOk(c, FlushOne(n), Entry(n.ids[t], t), 0)
  {
    var e, m, f := n.perimeter[0], FlushOne(n), Entry(n.ids[t], t);
    assert StateOk(c, n, f, 0);
    if t != e.state {
      assert f in n.perimeter ==> f in m.perimeter by {
        assert n.perimeter == [e] + m.perimeter;
      }
      StateOkKept(c, n, m, f, 0);
    }
  }

  /** flushStatesTerminated. */
  function Flush(c: Config, n: Snapshot): Snapshot
    requires Valid(c, n)
    decreases |n.perimeter|
  {
    if n.perimeter == [] then n
    else
      FlushOneKeepsValid(c, n);
      Flush(c, FlushOne(n))
  }

  lemma {:induction false} FlushKeepsValid(c: Config, n: Snapshot)
    requires Valid(c, n)
    ensures Valid(c, Flush(c, n)) && Flush(c, n).perimeter == [] && Flush(c, n).ids == n.ids
    decreases |n.perimeter|
  {
    hide FlushOne;
    if n.perimeter != [] {
      FlushOneKeepsValid(c, n);
      FlushKeepsValid(c, FlushOne(n));
    }
  }

  lemma EndIterationKeepsValid(c: Config, n: Snapshot, reduceKappa: real)
    requires Valid(c, n) && reduceKappa >= 1.0
    ensures Valid(c, EndIteration(n, reduceKappa)) && EndIteration(n, reduceKappa).kappa <= n.kappa
  {
    var m := EndIteration(n, reduceKappa);
    assert m.kappa <= n.kappa by {
      assert n.kappa / reduceKappa * reduceKappa == n.kappa;
    }
    assert m.kappa >= 0.0;
    forall j | 0 <= j < |m.work| ensures EntryOk(m, m.work[j]) {
      assert EntryOk(n, n.work[j]);
    }
    forall j | 0 <= j < |m.perimeter| ensures EntryOk(m, m.perimeter[j]) && Settled(m, m.perimeter[j]) {
      assert EntryOk(n, n.perimeter[j]) && Settled(n, n.perimeter[j]);
    }
    forall t | Known(c.problem, m.ids, t) ensures StateOk(c, m, Entry(m.ids[t], t), 0) {
      assert StateOk(c, n, Entry(n.ids[t], t), 0);
      StateOkKept(c, n, m, Entry(n.ids[t], t), 0);
    }
  }

  /** From the end of one inner iteration to the loop of the next. */
  function Restart(c: Config, n: Snapshot, reduceKappa: real): Snapshot
    requires Valid(c, n) && reduceKappa >= 1.0
  {
    EndIterationKeepsValid(c, n, reduceKappa);
    Flush(c, EndIteration(n, reduceKappa))
  }

  lemma RestartKeepsValid(c: Config, n: Snapshot, reduceKappa: real)
    requires Valid(c, n) && reduceKappa >= 1.0
    ensures Valid(c, Restart(c, n, reduceKappa))
    ensures Restart(c, n, reduceKappa).perimeter == [] && Restart(c, n, reduceKappa).ids == n.ids
  {
    EndIterationKeepsValid(c, n, reduceKappa);
    FlushKeepsValid(c, EndIteration(n, reduceKappa));
  }

  /** One inner iteration of the iterative builder after the first. */
  function NextIteration(c: Config, n: Snapshot, reduceKappa: real, rounds: nat): Snapshot
    requires Valid(c, n) && reduceKappa >= 1.0
  {
    RestartKeepsValid(c, n, reduceKappa);
    Run(c, Restart(c, n, reduceKappa), rounds)
  }

  // ----- The set of known states only grows ----------------------------------------------------------

  lemma {:induction false} RegisterAllGrows(n: Snapshot, cur: nat, es: seq<Edge>)
    requires cur in n.recs
    ensures SubNumbering(n.ids, RegisterAll(n, cur, es).ids)
  {
    if es != [] {
      RegisterAllGrows(n, cur, es[..|es| - 1]);
    }
  }

  lemma StepGrows(c: Config, n: Snapshot)
    requires Valid(c, n) && n.work != [] && n.work[0].index in n.recs
    ensures SubNumbering(n.ids, Step(c, n).ids)
  {
    var e, m := n.work[0], Pop(n);
    RegisterAllGrows(Unflagged(m, e.index), e.index, c.Succ(e.state));
  }

  lemma {:induction false} RunGrows(c: Config, n: Snapshot, rounds: nat)
    requires Valid(c, n)
    ensures SubNumbering(n.ids, Run(c, n, rounds).ids)
    decreases rounds
  {
    hide Step;
    if rounds != 0 && n.work != [] {
      StepKeepsValid(c, n);
      StepGrows(c, n);
      RunGrows(c, Step(c, n), rounds - 1);
    }
  }

  /** No later iteration forgets or renumbers a state. */
  lemma NextIterationGrows(c: Config, n: Snapshot, reduceKappa: real, rounds: nat)
    requires Valid(c, n) && reduceKappa >= 1.0
    ensures SubNumbering(n.ids, NextIteration(c, n, reduceKappa, rounds).ids)
    ensures Valid(c, NextIteration(c, n, reduceKappa, rounds))
  {
    hide Restart;
    RestartKeepsValid(c, n, reduceKappa);
    RunKeepsValid(c, Restart(c, n, reduceKappa), rounds);
    RunGrows(c, Restart(c, n, reduceKappa), rounds);
  }

  // ----- When the worklist is empty --------------------------------------------------------------------

  ghost predicate OneEntry(queue: seq<Entry>, e: Entry) {
    exists j :: 0 <= j < |queue| && queue[j] == e
                && forall k :: 0 <= k < |queue| && queue[k].index == e.index ==> k == j
  }

  predicate ExactlyOne(a: bool, b: bool, c: bool, d: bool) {
    (if a then 1 else 0) + (if b then 1 else 0) + (if c then 1 else 0) + (if d then 1 else 0) == 1
  }

  /** Perimeter partition: of every registered state exactly one holds: it is not terminal (expanded),
      it settles the property, it is a known deadlock, or its perimeter flag is set.  In the last case
      it has exactly one entry in the perimeter queue; every other entry of that queue is one the flush
      skips, and belongs to a state that was expanded or found to be a deadlock since. */
  lemma PerimeterPartition(c: Config, n: Snapshot)
    requires Valid(c, n) && n.work == []
    ensures forall s :: Known(c.problem, n.ids, s) ==>
              var e := Entry(n.ids[s], s);
              && e.index in n.recs
              && var r := n.recs[e.index];
              && ExactlyOne(!r.terminal, c.refine && !c.problem.Live(s), r.deadlock, r.inQueue)
              && (SituationOf(c, s, r).OnPerimeter? <==> r.inQueue)
              && (r.inQueue ==> OneEntry(n.perimeter, e))
    ensures forall j :: 0 <= j < |n.perimeter| ==>
              var e := n.perimeter[j];
              && EntryOk(n, e)
              && (n.recs[e.index].inQueue || SituationOf(c, e.state, n.recs[e.index]) in {Expanded, Deadlocked})
  {
    forall s | Known(c.problem, n.ids, s)
      ensures n.ids[s] in n.recs
      ensures var r := n.recs[n.ids[s]];
              ExactlyOne(!r.terminal, c.refine && !c.problem.Live(s), r.deadlock, r.inQueue)
      ensures SituationOf(c, s, n.recs[n.ids[s]]).OnPerimeter? <==> n.recs[n.ids[s]].inQueue
      ensures n.recs[n.ids[s]].inQueue ==> OneEntry(n.perimeter, Entry(n.ids[s], s))
    {
      var e := Entry(n.ids[s], s);
      assert StateOk(c, n, e, 0);
      if n.recs[e.index].inQueue {
        var j :| 0 <= j < |n.perimeter| && n.perimeter[j] == e;
      }
    }
    forall j | 0 <= j < |n.perimeter|
      ensures EntryOk(n, n.perimeter[j])
      ensures n.recs[n.perimeter[j].index].inQueue
              || SituationOf(c, n.perimeter[j].state, n.recs[n.perimeter[j].index]) in {Expanded, Deadlocked}
    {
      assert Known(c.problem, n.ids, n.perimeter[j].state) ==> StateOk(c, n, n.perimeter[j], 0);
      assert EntryOk(n, n.perimeter[j]) && Settled(n, n.perimeter[j]);
    }
  }
}
