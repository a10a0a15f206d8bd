/** Which indices are reported as deadlocks. */
module Deadlocks {
  import opened SourceChain
  import opened TruncatedModel
  import opened Exploration
  import opened Invariant
  import opened Iterations
  import opened Accounting
  import opened Runs
  import opened Finalization

  /** While the chain is explored the list holds the absorbing state and the known deadlocks. */
  ghost predicate DeadlocksListed(n: Snapshot) {
    forall i: nat :: i in n.deadlocks <==> i == 0 || (i in n.recs && n.recs[i].deadlock)
  }

  lemma CallBackKeepsDeadlocks(c: Config, n: Snapshot, e: Entry, i: nat)
    requires Ready(c, n, e)
    ensures var m := CallBack(c, n, e);
            && m.deadlocks == n.deadlocks
            && (i in m.recs && m.recs[i].deadlock <==> i in n.recs && n.recs[i].deadlock)
  {
    CallBackEffect(c, n, e);
    if i in CallBack(c, n, e).recs && i !in n.recs {
      var j := NewIndexIsSuccessor(c, n, e, i);
    }
  }

  lemma DistributeKeepsDeadlocks(c: Config, n: Snapshot, e: Entry)
    requires c.problem.src.WellFormed() && Expanding(c, n, e) && Successors(c, n.ids, c.Succ(e.state))
    ensures var m := Finish(Distribute(c, n, e), e.index);
            && m.deadlocks == n.deadlocks && m.recs.Keys == n.recs.Keys
            && forall i: nat :: i in n.recs ==> m.recs[i].deadlock == n.recs[i].deadlock
  {
    DistributeEffect(c, n, e);
  }

  lemma ExpandKeepsDeadlocks(c: Config, n: Snapshot, e: Entry)
    requires Ready(c, n, e) && DeadlocksListed(n)
    ensures DeadlocksListed(Expand(c, n, e))
  {
    hide CallBack, Distribute, Finish, Ready;
    CallBackParts(c, n, e);
    var m := CallBack(c, n, e);
    DistributeKeepsDeadlocks(c, m, e);
    forall i: nat ensures i in m.deadlocks <==> i == 0 || (i in m.recs && m.recs[i].deadlock) {
      CallBackKeepsDeadlocks(c, n, e, i);
    }
  }

  lemma CallBackParts(c: Config, n: Snapshot, e: Entry)
    requires Ready(c, n, e)
    ensures c.problem.src.WellFormed() && e.index in n.recs && c.Succ(e.state) != []
    ensures Expanding(c, CallBack(c, n, e), e) && Successors(c, CallBack(c, n, e).ids, c.Succ(e.state))
  {
    CallBackEffect(c, n, e);
  }

  lemma StepKeepsDeadlocks(c: Config, n: Snapshot)
    requires Valid(c, n) && n.work != [] && DeadlocksListed(n)
    ensures EntryOk(n, n.work[0]) && DeadlocksListed(Step(c, n))
  {
    hide Expand;
    PopKeepsInv(c, n);
    var e, m := n.work[0], Pop(n);
    assert EntryOk(n, e);
    if c.Stops(e.state) || (m.recs[e.index].terminal && m.recs[e.index].pi < m.kappa) {
    } else if c.Succ(e.state) == [] {
      DeadlockTurn(c, m, e);
    } else {
      ExpandKeepsDeadlocks(c, m, e);
    }
  }

  lemma {:induction false} RunKeepsDeadlocks(c: Config, n: Snapshot, rounds: nat)
    requires Valid(c, n) && DeadlocksListed(n)
    ensures DeadlocksListed(Run(c, n, rounds))
    decreases rounds
  {
    hide Step, DeadlocksListed;
    if rounds != 0 && n.work != [] {
      StepKeepsValid(c, n);
      StepKeepsDeadlocks(c, n);
      RunKeepsDeadlocks(c, Step(c, n), rounds - 1);
    }
  }

  lemma {:induction false} FlushKeepsDeadlocks(c: Config, n: Snapshot)
    requires Valid(c, n) && DeadlocksListed(n)
    ensures DeadlocksListed(Flush(c, n))
    decreases |n.perimeter|
  {
    if n.perimeter != [] {
      FlushOneKeepsValid(c, n);
      FlushKeepsDeadlocks(c, FlushOne(n));
    }
  }

  lemma {:induction false} StartListsDeadlocks(c: Config, kappa: real, states: seq<CompressedState>)
    requires c.problem.src.WellFormed() && states <= c.problem.src.initial
    ensures DeadlocksListed(RegisterInitials(Fresh(c, kappa), states))
  {
    if states != [] {
      StartListsDeadlocks(c, kappa, states[..|states| - 1]);
      NewIndexUnused(c, kappa, states[..|states| - 1]);
      InitialIsNew(c, kappa, states);
    }
  }

  /** After every inner iteration. */
  lemma {:induction false} IterationListsDeadlocks(c: Config, kappa: real, reduceKappa: real, rounds: nat, k: nat)
    requires c.problem.src.WellFormed() && kappa >= 0.0 && reduceKappa >= 1.0
    ensures DeadlocksListed(Iteration(c, kappa, reduceKappa, rounds, k))
  {
    hide Run, Flush, DeadlocksListed, Valid;
    if k == 0 {
      StartValid(c, kappa);
      StartListsDeadlocks(c, kappa, c.problem.src.initial);
      RunKeepsDeadlocks(c, Start(c, kappa), rounds);
    } else {
      var n := Iteration(c, kappa, reduceKappa, rounds, k - 1);
      IterationListsDeadlocks(c, kappa, reduceKappa, rounds, k - 1);
      EndIterationKeepsValid(c, n, reduceKappa);
      EndKeepsDeadlocks(n, reduceKappa);
      FlushKeepsDeadlocks(c, EndIteration(n, reduceKappa));
      RestartKeepsValid(c, n, reduceKappa);
      RunKeepsDeadlocks(c, Restart(c, n, reduceKappa), rounds);
    }
  }

  lemma EndKeepsDeadlocks(n: Snapshot, reduceKappa: real)
    requires DeadlocksListed(n) && reduceKappa != 0.0
    ensures DeadlocksListed(EndIteration(n, reduceKappa))
  {
  }

  // ----- When the perimeter is connected -------------------------------------------------------------------

  // A perimeter state without successors
  ghost predicate Dangles(c: Config, n: Snapshot, e: Entry) {
    e in n.perimeter && e.index in n.recs && n.recs[e.index].inQueue && c.Succ(e.state) == []
  }

  lemma ConnectOneLists(c: Config, n: Snapshot, e: Entry)
    requires Closing(c, n) && n.perimeter != [] && EntryOk(n, n.perimeter[0]) && EntryOk(n, e)
    ensures var m := ConnectOne(c, n);
            e.index in m.deadlocks || Dangles(c, m, e) <==> e.index in n.deadlocks || Dangles(c, n, e)
  {
    var f, m := n.perimeter[0], ConnectOne(c, n);
    assert n.perimeter == [f] + m.perimeter;
    assert e.index == f.index ==> e == f;
    forall j | 0 <= j < |m.perimeter| ensures m.perimeter[j].index != f.index {
      assert m.perimeter[j] == n.perimeter[j + 1];
    }
  }

  lemma {:induction false} ConnectAllLists(c: Config, n: Snapshot, e: Entry)
    requires Closing(c, n) && EntryOk(n, e)
    ensures e.index in ConnectAll(c, n).deadlocks <==> e.index in n.deadlocks || Dangles(c, n, e)
    decreases |n.perimeter|
  {
    hide ConnectOne;
    if n.perimeter != [] {
      ConnectOneKeepsClosing(c, n);
      ConnectOneShape(c, n);
      ConnectOneLists(c, n, e);
      ConnectAllLists(c, ConnectOne(c, n), e);
    }
  }

  /** In a finished build the states reported as deadlocks are exactly those without successors that
      do not settle the property; each has its self-loop by RowFidelity. */
  lemma DeadlocksAreExact(c: Config, n: Snapshot, s: CompressedState)
    requires Valid(c, n) && n.work == [] && DeadlocksListed(n) && Known(c.problem, n.ids, s)
    ensures Closing(c, n)
    ensures n.ids[s] in ConnectAll(c, n).deadlocks <==> c.Succ(s) == [] && !(c.refine && !c.problem.Live(s))
  {
    ClosingStarts(c, n);
    var e := Entry(n.ids[s], s);
    assert StateOk(c, n, e, 0);
    assert EntryOk(n, e);
    ConnectAllLists(c, n, e);
    hide ConnectAll, Closing;
    if e in n.perimeter {
      var j :| 0 <= j < |n.perimeter| && n.perimeter[j] == e;
      assert EntryOk(n, n.perimeter[j]) && Settled(n, n.perimeter[j]);
    }
  }
}
