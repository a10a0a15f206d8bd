/** What the re-exploring builder does differently: an inner iteration begins with the initial states
    in place of the flushed perimeter. */
module ReExploringBuilder {
  import opened SourceChain
  import opened Exploration
  import opened Invariant
  import opened Iterations
  import opened Runs
  import opened ProbabilityStates
  import opened ModelBuilder
  import opened ReExploring

  /** getOrAddStateIndex for an initial state that is registered already. */
  method RevisitState(b: IterativeModelBuilder, state: CompressedState)
    requires b.Linked() && state in b.stateToId && b.stateToId[state] in b.stateMap
    modifies b`statesToExplore, b.stateMap.Values
    ensures b.Linked() && state in old(b.Snap()).ids && old(b.Snap()).ids[state] in old(b.Snap()).recs
    ensures b.Snap() == Revisit(old(b.Snap()), state)
  {
    b.HoldsAt(b.stateToId[state]);
    var p := b.stateMap[b.stateToId[state]];
    b.Enqueue(p, state);
    MarkSeen(b, p);
  }

  method MarkSeen(b: IterativeModelBuilder, p: ProbabilityState)
    requires b.Linked() && b.Holds(p)
    modifies p
    ensures b.Linked() && p.index in old(b.Snap()).recs
    ensures b.Snap() == old(b.Snap()).(recs := old(b.Snap()).recs[p.index := old(p.View()).(lastSeen := b.iteration)])
  {
    p.iterationLastSeen := b.iteration;
    assert b.Records() == old(b.Records())[p.index := p.View()];
  }

  /** The generator makes the initial states again. */
  method RevisitInitialStates(b: IterativeModelBuilder)
    requires b.Active() && KnowsInitials(b.c, b.Snap())
    modifies b`statesToExplore, b.stateMap.Values
    ensures b.Active()
    ensures forall j :: 0 <= j < |b.c.problem.src.initial| ==>
              b.c.problem.src.initial[j] in old(b.Snap()).ids
                  && old(b.Snap()).ids[b.c.problem.src.initial[j]] in old(b.Snap()).recs
    ensures b.Snap() == RevisitAll(old(b.Snap()), b.c.problem.src.initial)
  {
    hide Revisit, Counted, Valid, IterativeModelBuilder.Snap, IterativeModelBuilder.Linked;
    var states := b.c.problem.src.initial;
    ghost var n := b.Snap();
    RevisitAllKeepsValid(b.c, n, states);
    assert states[..0] == [];
    for j := 0 to |states|
      invariant b.Linked() && b.Snap() == RevisitAll(n, states[..j])
    {
      assert states[..j + 1][..j] == states[..j];
      b.SnapKeys();
      RevisitState(b, states[j]);
    }
    assert states[..|states|] == states;
    RevisitAllCounted(b.c, n, states);
  }

  lemma {:induction false} RevisitAllCounted(c: Config, n: Snapshot, states: seq<CompressedState>)
    requires Counted(n)
    requires forall j :: 0 <= j < |states| ==> states[j] in n.ids && n.ids[states[j]] in n.recs
    ensures Counted(RevisitAll(n, states))
  {
    if states != [] {
      var m, s := RevisitAll(n, states[..|states| - 1]), states[|states| - 1];
      RevisitAllCounted(c, n, states[..|states| - 1]);
      Accounting.TotalUpdate(Accounting.Terminals, m.recs, m.ids[s], m.recs[m.ids[s]].(lastSeen := m.iteration),
          |m.ids|);
    }
  }

  /** buildMatrices of the re-exploring builder, after the first iteration. */
  method BuildMatricesAgain(b: IterativeModelBuilder, rounds: nat)
    requires b.Active() && KnowsInitials(b.c, b.Snap())
    modifies b, b.stateMap.Values
    ensures b.Active() && fresh(b.stateMap.Values - old(b.stateMap.Values))
    ensures forall j :: 0 <= j < |b.c.problem.src.initial| ==>
              b.c.problem.src.initial[j] in old(b.Snap()).ids
                  && old(b.Snap()).ids[b.c.problem.src.initial[j]] in old(b.Snap()).recs
    ensures Valid(b.c, RevisitAll(old(b.Snap()), b.c.problem.src.initial))
    ensures b.Snap() == Tick(Run(b.c, RevisitAll(old(b.Snap()), b.c.problem.src.initial), rounds))
  {
    hide Valid, Counted, Run, IterativeModelBuilder.Snap, IterativeModelBuilder.Linked;
    RevisitAllKeepsValid(b.c, b.Snap(), b.c.problem.src.initial);
    RevisitInitialStates(b);
    b.Explore(rounds);
    TickKeepsValid(b.c, b.Snap());
    b.CountIteration();
  }
}
