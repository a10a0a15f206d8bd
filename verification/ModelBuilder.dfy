/** The iterative model builder (STAMINA 2.5) with its base class: mutable records shared between a
    map and two queues, a growing transition table, and the loops over them. */
module ModelBuilder {
  import opened Outcomes
  import opened SourceChain
  import opened TruncatedModel
  import opened Exploration
  import opened Invariant
  import opened Iterations
  import opened Accounting
  import opened Runs
  import opened Termination
  import opened KappaLoop
  import opened Finalization
  import opened Emission
  import opened Soundness
  import opened ProbabilityStates

  type Item = (ProbabilityState, CompressedState)

  function Entries(queue: seq<Item>): (r: seq<Entry>)
    ensures |r| == |queue|
    ensures forall j :: 0 <= j < |queue| ==> r[j] == Entry(queue[j].0.index, queue[j].1)
  {
    if queue == [] then []
    else Entries(queue[..|queue| - 1]) + [Entry(queue[|queue| - 1].0.index, queue[|queue| - 1].1)]
  }

  lemma Appended(queue: seq<Item>, x: Item)
    ensures Entries(queue + [x]) == Entries(queue) + [Entry(x.0.index, x.1)]
  {
    assert (queue + [x])[..|queue|] == queue;
  }

  lemma GrowReaches(table: seq<seq<Transition>>, from: nat, to: nat)
    ensures |Grow(table, (if from < to then to else from) + 1)| > from
  {
  }

  /** The sum of the rates of a choice. */
  method TotalRate(es: seq<Edge>) returns (totalRate: real)
    ensures totalRate == Exit(es)
  {
    totalRate := 0.0;
    for j := 0 to |es|
      invariant totalRate == Exit(es[..j])
    {
      assert es[..j + 1][..j] == es[..j];
      totalRate := totalRate + es[j].rate;
    }
    assert es[..|es|] == es;
  }

  class IterativeModelBuilder {
    const c: Config
    var stateToId: Numbering
    var stateMap: map<nat, ProbabilityState>
    var statesToExplore: seq<Item>
    var statesTerminatedLastIteration: seq<Item>
    var transitionsToAdd: seq<seq<Transition>>
    var deadlockStateIndices: seq<nat>
    var numberTerminal: nat
    var localKappa: real
    var iteration: nat
    var firstIteration: bool
    var hasAbsorbingTransitions: bool

    constructor (c: Config, kappa: real)
      ensures this.c == c && localKappa == kappa && Untouched()
    {
      this.c := c;
      stateToId := map[];
      stateMap := map[];
      statesToExplore := [];
      statesTerminatedLastIteration := [];
      transitionsToAdd := [];
      deadlockStateIndices := [];
      numberTerminal := 0;
      localKappa := kappa;
      iteration := 0;
      firstIteration := true;
      hasAbsorbingTransitions := false;
    }

    // Nothing was built yet
    ghost predicate Untouched()
      reads this
    {
      && firstIteration && !hasAbsorbingTransitions
      && stateToId == map[] && stateMap == map[] && statesToExplore == [] && statesTerminatedLastIteration == []
      && transitionsToAdd == [] && deadlockStateIndices == [] && numberTerminal == 0 && iteration == 0
    }

    /** Between two operations of a builder that has begun. */
    ghost predicate Active()
      reads this, stateMap.Values
    {
      !firstIteration && !hasAbsorbingTransitions && Linked() && Valid(c, Snap()) && Counted(Snap())
    }

    ghost function Records(): map<nat, Record>
      reads this`stateMap, stateMap.Values
    {
      map i | i in stateMap :: stateMap[i].View()
    }

    /** The abstract state of the builder. */
    ghost function Snap(): Snapshot
      reads this, stateMap.Values
    {
      Snapshot(stateToId, Records(), Entries(statesToExplore), Entries(statesTerminatedLastIteration),
               transitionsToAdd, deadlockStateIndices, numberTerminal, localKappa, iteration)
    }

    ghost predicate Holds(p: ProbabilityState)
      reads this`stateMap
    {
      p.index in stateMap && stateMap[p.index] == p
    }

    /** Every record is filed under its own index, and the queues hold records of the map. */
    ghost predicate Linked()
      reads this`stateMap, this`statesToExplore, this`statesTerminatedLastIteration
    {
      && (forall i: nat :: i in stateMap ==> stateMap[i].index == i)
      && (forall j :: 0 <= j < |statesToExplore| ==> Holds(statesToExplore[j].0))
      && (forall j :: 0 <= j < |statesTerminatedLastIteration| ==> Holds(statesTerminatedLastIteration[j].0))
    }

    method GrowTable(size: nat)
      modifies this`transitionsToAdd
      ensures transitionsToAdd == Grow(old(transitionsToAdd), size)
    {
      while |transitionsToAdd| < size
        invariant |old(transitionsToAdd)| <= |transitionsToAdd|
        invariant |transitionsToAdd| <= |old(transitionsToAdd)| || |transitionsToAdd| <= size
        invariant transitionsToAdd == Grow(old(transitionsToAdd), |transitionsToAdd|)
      {
        transitionsToAdd := transitionsToAdd + [[]];
      }
    }

    /** createTransition. */
    method CreateTransition(from: nat, to: nat, probability: real)
      modifies this`transitionsToAdd
      ensures transitionsToAdd == Create(old(transitionsToAdd), from, to, probability)
      ensures Snap() == old(Snap()).(table := transitionsToAdd)
    {
      hide Grow;
      if probability == 0.0 {
        return;
      }
      GrowTable((if from < to then to else from) + 1);
      GrowReaches(old(transitionsToAdd), from, to);
      var row := transitionsToAdd[from];
      if |row| > 0 {
        var lastTransition := row[|row| - 1];
        if lastTransition.to == to && lastTransition.from == from && lastTransition.rate == probability {
          return;
        }
      }
      transitionsToAdd := transitionsToAdd[from := row + [Transition(from, to, probability)]];
    }

    method Enqueue(p: ProbabilityState, state: CompressedState)
      requires Linked() && Holds(p)
      modifies this`statesToExplore
      ensures Linked() && statesToExplore == old(statesToExplore) + [(p, state)]
      ensures Snap() == old(Snap()).(work := old(Snap()).work + [Entry(p.index, state)])
    {
      statesToExplore := statesToExplore + [(p, state)];
      Appended(old(statesToExplore), (p, state));
      assert Records() == old(Records());
    }

    /** A registered state is met again: enqueue it once in each iteration.  The abort for a state
        seen in a later iteration cannot be reached. */
    method Meet(next: ProbabilityState, state: CompressedState)
      requires Linked() && Holds(next) && next.iterationLastSeen <= iteration
      modifies this`statesToExplore, next
      ensures Linked() && Snap() == MeetAgain(old(Snap()), next.index, state)
    {
      if next.iterationLastSeen != iteration {
        if next.iterationLastSeen > iteration {
          assert false;
        }
        next.iterationLastSeen := iteration;
        assert Records() == old(Records())[next.index := old(next.View()).(lastSeen := iteration)];
        Enqueue(next, state);
      }
    }

    /** A state is met for the first time: it gets a record. */
    method Put(index: nat, pi: real) returns (next: ProbabilityState)
      requires Linked() && index !in stateMap
      modifies this`stateMap, this`numberTerminal
      ensures Linked() && Holds(next) && next.index == index && fresh(next)
      ensures stateMap == old(stateMap)[index := next]
      ensures Snap() == old(Snap()).(recs := old(Snap()).recs[index := Record(pi, true, iteration, true, false, false)],
                                     numberTerminal := old(numberTerminal) + 1)
    {
      next := new ProbabilityState(index, pi, true);
      numberTerminal := numberTerminal + 1;
      stateMap := stateMap[index := next];
      next.iterationLastSeen := iteration;
      assert Records() == old(Records())[index := Record(pi, true, iteration, true, false, false)];
    }

    method Add(index: nat, state: CompressedState, pi: real)
      requires Linked() && index !in stateMap
      modifies this`stateMap, this`numberTerminal, this`statesToExplore
      ensures Linked() && fresh(stateMap.Values - old(stateMap.Values))
      ensures forall i: nat :: i in old(stateMap) ==> i in stateMap && stateMap[i] == old(stateMap[i])
      ensures Snap() == AddRecord(old(Snap()), index, state, pi)
    {
      hide Snap, Linked;
      SnapIteration();
      var next := Put(index, pi);
      Enqueue(next, state);
    }

    lemma SnapIteration()
      ensures Snap().iteration == iteration && Snap().numberTerminal == numberTerminal
    {
    }

    /** getOrAddStateIndex, for a successor of the state that is being expanded.  A registered state
        is met in the same way whether or not the expanded state carries probability.  Neither the
        abort nor the record that stays outside of the map can be reached. */
    method GetOrAddStateIndex(current: ProbabilityState, state: CompressedState) returns (actualIndex: nat)
      requires Linked() && Holds(current)
      requires state != c.problem.src.Absorbing()
      requires current.pi == 0.0 ==> state in stateToId && stateToId[state] in stateMap
      requires forall i: nat :: i in stateMap ==> stateMap[i].iterationLastSeen <= iteration
      modifies this`stateToId, this`stateMap, this`statesToExplore, this`numberTerminal, stateMap.Values
      ensures Linked() && Holds(current) && fresh(stateMap.Values - old(stateMap.Values))
      ensures Snap() == Register(old(Snap()), current.index, state)
      ensures state in stateToId && actualIndex == stateToId[state]
    {
      hide MeetAgain, AddRecord;
      if state == c.problem.src.Absorbing() {
        assert false;
      }
      var newIndex := |stateToId|;
      actualIndex := if state in stateToId then stateToId[state] else newIndex;
      var stateIsExisting := actualIndex in stateMap;
      stateToId := stateToId[state := actualIndex];
      assert Snap() == old(Snap()).(ids := stateToId);
      if stateIsExisting {
        Meet(stateMap[actualIndex], state);
      } else if current.pi == 0.0 {
        assert false;
      } else {
        Add(actualIndex, state, 0.0);
      }
    }

    /** generator->expand with its callbacks. */
    method CallBackSuccessors(current: ProbabilityState, state: CompressedState)
      requires Linked() && Holds(current) && !current.wasPutInTerminalQueue
      requires c.problem.src.WellFormed()
      requires c.Succ(state) != [] ==> Expanding(c, Snap(), Entry(current.index, state))
      requires c.Succ(state) != [] && current.pi == 0.0 ==> AllKnown(stateToId, c.Succ(state))
      modifies this`stateToId, this`stateMap, this`statesToExplore, this`numberTerminal, stateMap.Values
      ensures Linked() && Holds(current) && fresh(stateMap.Values - old(stateMap.Values))
      ensures current.index in old(Snap()).recs && Snap() == RegisterAll(old(Snap()), current.index, c.Succ(state))
    {
      hide Snap, Linked, Holds, Register, RegisterAll, Expanding;
      var es := c.Succ(state);
      ghost var n, e := Snap(), Entry(current.index, state);
      SnapOf(current);
      RegisterAllUnfold(n, current.index, es, 0);
      for j := 0 to |es|
        invariant Linked() && Holds(current) && fresh(stateMap.Values - old(stateMap.Values))
        invariant current.index in n.recs && Snap() == RegisterAll(n, current.index, es[..j])
      {
        RegisterAllUnfold(n, current.index, es, j);
        CallBackAllowed(n, current, state, j);
        var _ := GetOrAddStateIndex(current, es[j].to);
      }
      assert es[..|es|] == es;
    }

    method GiveShare(next: ProbabilityState, share: real)
      requires Linked() && Holds(next)
      modifies next
      ensures next.index in old(Snap()).recs
      ensures var r := old(next.View()).(pi := old(next.pi) + share);
              Snap() == old(Snap()).(recs := old(Snap()).recs[next.index := r])
    {
      next.AddToPi(share);
      assert Records() == old(Records())[next.index := next.View()];
    }

    /** One turn of the loop over the successors.  The abort "Should have gotten a successor for
        unexplored state" cannot be reached. */
    method PropagateTo(current: ProbabilityState, edge: Edge, shouldEnqueueAll: bool, totalRate: real)
      requires Linked() && Holds(current) && edge.to in stateToId && stateToId[edge.to] in stateMap
      requires shouldEnqueueAll || totalRate != 0.0
      modifies this`transitionsToAdd, stateMap.Values
      ensures Linked() && Holds(current)
      ensures current.index in old(Snap()).recs
              && Snap() == Propagate(old(Snap()), current.index, edge, shouldEnqueueAll, totalRate)
    {
      hide Snap, Linked, Holds, Create;
      SnapOf(current);
      var sPrime, carriesMass := stateToId[edge.to], current.pi != 0.0;
      if sPrime == 0 {
        return;
      }
      if sPrime in stateMap {
        HoldsAt(sPrime);
        SnapOf(stateMap[sPrime]);
        if !shouldEnqueueAll {
          GiveShare(stateMap[sPrime], Times(current.pi, Share(edge.rate, totalRate)));
        }
        SnapOf(current);
        if current.isNew {
          CreateTransition(current.index, sPrime, edge.rate);
        }
      } else if carriesMass {
        assert false;
      }
    }

    /** The loop over the successors of a choice, with the total rate computed before it. */
    method DistributeProbability(current: ProbabilityState, state: CompressedState)
      requires Linked() && Holds(current) && c.problem.src.WellFormed()
      requires Expanding(c, Snap(), Entry(current.index, state)) && Successors(c, stateToId, c.Succ(state))
      modifies this`transitionsToAdd, stateMap.Values
      ensures Linked() && Holds(current) && Snap() == Distribute(c, old(Snap()), Entry(current.index, state))
    {
      hide Snap, Linked, Holds, Propagate, PropagateAll, Expanding, Successors;
      var es := c.Succ(state);
      SuccessorsAreKnown(c, stateToId, es);
      SuccessorsHaveRates(c, Snap(), Entry(current.index, state));
      SnapOf(current);
      var shouldEnqueueAll := current.pi == 0.0;
      var totalRate := 0.0;
      if !shouldEnqueueAll {
        totalRate := TotalRate(es);
      }
      ghost var n := Snap();
      PropagateAllUnfold(n, current.index, es, 0, shouldEnqueueAll, Exit(es));
      for j := 0 to |es|
        invariant Linked() && Holds(current) && stateToId == n.ids
        invariant current.index in n.recs && AllKnown(n.ids, es)
        invariant Snap() == PropagateAll(n, current.index, es[..j], shouldEnqueueAll, Exit(es))
      {
        PropagateAllUnfold(n, current.index, es, j, shouldEnqueueAll, Exit(es));
        SuccessorRegistered(c, n, Entry(current.index, state), j);
        SnapOf(current);
        PropagateTo(current, es[j], shouldEnqueueAll, totalRate);
        PropagateRate(PropagateAll(n, current.index, es[..j], shouldEnqueueAll, Exit(es)), current.index, es[j],
            shouldEnqueueAll, totalRate, Exit(es));
        SnapOf(current);
      }
      assert es[..|es|] == es;
    }

    /** The front of the worklist is taken. */
    method TakeFront() returns (current: ProbabilityState, state: CompressedState)
      requires Linked() && statesToExplore != []
      modifies this`statesToExplore
      ensures Linked() && Holds(current)
      ensures old(Snap()).work != [] && Snap() == Pop(old(Snap()))
      ensures Entry(current.index, state) == old(Snap()).work[0]
    {
      current, state := statesToExplore[0].0, statesToExplore[0].1;
      statesToExplore := statesToExplore[1..];
      assert Entries(statesToExplore) == Entries(old(statesToExplore))[1..];
      assert Records() == old(Records());
    }

    /** A state that settles the property gets a self-loop and is not expanded. */
    method StopAt(current: ProbabilityState)
      requires Linked() && Holds(current)
      modifies this`transitionsToAdd, this`numberTerminal, current
      ensures Linked() && current.index in old(Snap()).recs && Snap() == Stop(old(Snap()), current.index)
    {
      hide Create;
      CreateTransition(current.index, current.index, 1.0);
      current.terminal := true;
      numberTerminal := numberTerminal + 1;
      assert Records() == old(Records())[current.index := current.View()];
    }

    /** A terminal state below the threshold goes to the perimeter queue, unless it is there. */
    method PostponeState(current: ProbabilityState, state: CompressedState)
      requires Linked() && Holds(current)
      modifies this`statesTerminatedLastIteration, current
      ensures Linked() && current.index in old(Snap()).recs
              && Snap() == Postpone(old(Snap()), Entry(current.index, state))
    {
      if !current.wasPutInTerminalQueue {
        statesTerminatedLastIteration := statesTerminatedLastIteration + [(current, state)];
        current.wasPutInTerminalQueue := true;
        Appended(old(statesTerminatedLastIteration), (current, state));
        assert Records() == old(Records())[current.index := current.View()];
      }
    }

    /** A state without behaviour. */
    method MarkDeadlock(current: ProbabilityState)
      requires Linked() && Holds(current)
      modifies this`transitionsToAdd, this`deadlockStateIndices, current
      ensures Linked() && current.index in old(Snap()).recs && Snap() == Deadlock(old(Snap()), current.index)
    {
      hide Create;
      if !current.deadlock {
        CreateTransition(current.index, current.index, 1.0);
        deadlockStateIndices := deadlockStateIndices + [current.index];
        current.deadlock := true;
        assert Records() == old(Records())[current.index := current.View()];
      }
    }

    /** numberTerminal goes down for a state that was terminal.  The abort for one that was not
        counted cannot be reached. */
    method CountDown(current: ProbabilityState)
      requires current.terminal ==> numberTerminal > 0
      modifies this`numberTerminal
      ensures var count := if current.terminal then old(numberTerminal) - 1 else old(numberTerminal);
              Snap() == old(Snap()).(numberTerminal := count)
    {
      if current.terminal && numberTerminal > 0 {
        numberTerminal := numberTerminal - 1;
      } else if current.terminal {
        assert false;
      }
      assert Records() == old(Records());
    }

    method Retire(current: ProbabilityState)
      requires Linked() && Holds(current)
      modifies current
      ensures Linked() && current.index in old(Snap()).recs
      ensures var r := old(current.View()).(isNew := false, terminal := false, pi := 0.0);
              Snap() == old(Snap()).(recs := old(Snap()).recs[current.index := r])
    {
      current.isNew := false;
      current.SetTerminal(false);
      current.SetPi(0.0);
      assert Records() == old(Records())[current.index := current.View()];
    }

    /** The end of an expansion. */
    method FinishExpansion(current: ProbabilityState)
      requires Linked() && Holds(current) && (current.terminal ==> numberTerminal > 0)
      modifies this`numberTerminal, current
      ensures Linked() && current.index in old(Snap()).recs && Snap() == Finish(old(Snap()), current.index)
    {
      hide Snap, Linked, Holds;
      SnapOf(current);
      CountDown(current);
      SnapOf(current);
      Retire(current);
    }

    method ClearFlag(current: ProbabilityState)
      requires Linked() && Holds(current)
      modifies current
      ensures Linked() && current.index in old(Snap()).recs && Snap() == Unflagged(old(Snap()), current.index)
      ensures !current.wasPutInTerminalQueue
    {
      if current.wasPutInTerminalQueue {
        current.wasPutInTerminalQueue := false;
      }
      assert Records() == old(Records())[current.index := current.View()];
    }

    /** The first half of an expansion: the flag is cleared and the successors are registered. */
    method RegisterSuccessors(current: ProbabilityState, state: CompressedState)
      requires Linked() && Holds(current) && Ready(c, Snap(), Entry(current.index, state))
      modifies this`stateToId, this`stateMap, this`statesToExplore, this`numberTerminal, stateMap.Values
      ensures Linked() && Holds(current) && fresh(stateMap.Values - old(stateMap.Values))
      ensures Snap() == CallBack(c, old(Snap()), Entry(current.index, state))
    {
      hide Snap, Linked, Holds, Expanding, AllKnown, Ready, Unflagged, RegisterAll;
      ghost var n, e := Snap(), Entry(current.index, state);
      ReadyParts(c, n, e);
      CallBackIsRegisterAll(c, n, e);
      SnapOf(current);
      ClearFlag(current);
      SnapOf(current);
      CallBackSuccessors(current, state);
    }

    /** The second half: they receive their share and become the entries of the row. */
    method DistributeAndFinish(current: ProbabilityState, state: CompressedState)
      requires Linked() && Holds(current) && c.problem.src.WellFormed()
      requires Expanding(c, Snap(), Entry(current.index, state)) && Successors(c, stateToId, c.Succ(state))
      requires c.Succ(state) != [] && var m := Distribute(c, Snap(), Entry(current.index, state));
               current.index in m.recs && (m.recs[current.index].terminal ==> m.numberTerminal > 0)
      modifies this`numberTerminal, this`transitionsToAdd, stateMap.Values
      ensures Linked()
      ensures current.index in old(Snap()).recs
      ensures Snap() == Finish(Distribute(c, old(Snap()), Entry(current.index, state)), current.index)
    {
      hide Snap, Linked, Holds, Finish, Distribute, Expanding, Successors;
      SnapOf(current);
      DistributeProbability(current, state);
      SnapOf(current);
      FinishExpansion(current);
    }

    /** A state with successors is expanded. */
    method ExpandSuccessors(current: ProbabilityState, state: CompressedState)
      requires Linked() && Holds(current) && Counted(Snap()) && Ready(c, Snap(), Entry(current.index, state))
      modifies this`stateToId, this`stateMap, this`statesToExplore, this`numberTerminal, this`transitionsToAdd,
               stateMap.Values
      ensures Linked() && fresh(stateMap.Values - old(stateMap.Values))
      ensures Snap() == Expand(c, old(Snap()), Entry(current.index, state))
    {
      hide Snap, Linked, Holds, Counted, Finish, Distribute, Expanding, Registered, Successors, Ready, CallBack;
      ghost var n, e := Snap(), Entry(current.index, state);
      ReadyParts(c, n, e);
      CallBackEffect(c, n, e);
      TerminalCounterIsPositive(c, n, e);
      RegisterSuccessors(current, state);
      SnapOf(current);
      DistributeAndFinish(current, state);
    }

    method ExpandState(current: ProbabilityState, state: CompressedState)
      requires Linked() && Holds(current) && c.problem.src.WellFormed()
      requires Inv(c, Snap(), current.index) && Charged(Snap()) && Counted(Snap())
      requires EntryOk(Snap(), Entry(current.index, state)) && !c.Stops(state)
      requires !(current.terminal && current.pi < localKappa)
      modifies this`stateToId, this`stateMap, this`statesToExplore, this`numberTerminal, this`transitionsToAdd,
               this`deadlockStateIndices, stateMap.Values
      ensures Linked() && fresh(stateMap.Values - old(stateMap.Values))
      ensures Snap() == Expand(c, old(Snap()), Entry(current.index, state))
    {
      hide Snap, Linked, Inv, Charged, Counted, Deadlock, Expand;
      SnapOf(current);
      if c.Succ(state) == [] {
        DeadlockTurn(c, Snap(), Entry(current.index, state));
        ClearFlag(current);
        MarkDeadlock(current);
      } else {
        ExpandSuccessors(current, state);
      }
    }

    /** One round of the exploration loop of buildMatrices. */
    method ExploreNext()
      requires Linked() && Valid(c, Snap()) && Counted(Snap()) && statesToExplore != []
      modifies this`stateToId, this`stateMap, this`statesToExplore, this`statesTerminatedLastIteration,
               this`numberTerminal, this`transitionsToAdd, this`deadlockStateIndices, stateMap.Values
      ensures Linked() && fresh(stateMap.Values - old(stateMap.Values))
      ensures old(Snap()).work != [] && Snap() == Step(c, old(Snap()))
    {
      hide Snap, Linked, Inv, Counted, Stop, Postpone, Expand;
      ghost var n := Snap();
      var current, state := TakeFront();
      PopKeepsInv(c, n);
      assert Counted(Snap()) by {
        PopCounted(n);
      }
      FrontIsOk(c, n);
      SnapOf(current);
      if current.index == 0 {
        assert false;
      }
      if c.refine && (!c.problem.Phi1(state) || c.problem.Phi2(state)) {
        StopAt(current);
        return;
      }
      if current.terminal && current.pi < localKappa {
        PostponeState(current, state);
        return;
      }
      ExpandState(current, state);
    }

    // ----- Inner iterations ---------------------------------------------------------------------------

    /** setUpAbsorbingState: the reserved pattern is registered at 0, and 0 is a deadlock. */
    method SetUpAbsorbingState()
      requires Untouched()
      modifies this`stateToId, this`deadlockStateIndices
      ensures Linked() && stateMap == map[] && Snap() == Fresh(c, localKappa)
    {
      deadlockStateIndices := deadlockStateIndices + [0];
      stateToId := stateToId[c.problem.src.Absorbing() := 0];
      assert Records() == map[];
    }

    /** getOrAddStateIndex for an initial state.  The abort for one that exists cannot be reached. */
    method AddInitialState(state: CompressedState)
      requires Linked() && state != c.problem.src.Absorbing() && state !in stateToId && |stateToId| !in stateMap
      modifies this`stateToId, this`stateMap, this`numberTerminal, this`statesToExplore
      ensures Linked() && fresh(stateMap.Values - old(stateMap.Values))
      ensures Snap() == RegisterInitial(old(Snap()), state)
    {
      hide AddRecord;
      var actualIndex := |stateToId|;
      stateToId := stateToId[state := actualIndex];
      assert Snap() == old(Snap()).(ids := stateToId);
      if actualIndex in stateMap {
        assert false;
      } else {
        Add(actualIndex, state, 1.0);
      }
    }

    /** The generator makes the initial states. */
    method CreateInitialStates()
      requires Linked() && c.problem.src.WellFormed() && localKappa >= 0.0
      requires stateMap == map[] && Snap() == Fresh(c, localKappa)
      modifies this`stateToId, this`stateMap, this`numberTerminal, this`statesToExplore
      ensures Linked() && fresh(stateMap.Values)
      ensures Snap() == Start(c, localKappa)
    {
      hide Snap, Linked, RegisterInitial, Fresh;
      var states := c.problem.src.initial;
      ghost var kappa := localKappa;
      assert states[..0] == [];
      for j := 0 to |states|
        invariant Linked() && fresh(stateMap.Values)
        invariant Snap() == RegisterInitials(Fresh(c, kappa), states[..j])
      {
        assert states[..j + 1][..j] == states[..j];
        NextInitial(c, kappa, j);
        SnapKeys();
        AddInitialState(states[j]);
      }
      assert states[..|states|] == states;
    }

    /** The exploration loop, given up after the stated number of rounds. */
    method Explore(rounds: nat)
      requires Active()
      modifies this`stateToId, this`stateMap, this`statesToExplore, this`statesTerminatedLastIteration,
               this`numberTerminal, this`transitionsToAdd, this`deadlockStateIndices, stateMap.Values
      ensures Active() && fresh(stateMap.Values - old(stateMap.Values))
      ensures Snap() == Run(c, old(Snap()), rounds)
      ensures statesToExplore == [] <==> Snap().work == []
    {
      hide Snap, Linked, Valid, Counted, Step;
      ghost var n := Snap();
      var left := rounds;
      WorkMatches();
      while statesToExplore != [] && left > 0
        invariant Active() && fresh(stateMap.Values - old(stateMap.Values))
        invariant Run(c, n, rounds) == Run(c, Snap(), left)
        invariant statesToExplore == [] <==> Snap().work == []
        decreases left
      {
        StepKeepsValid(c, Snap());
        StepCounted(c, Snap());
        ExploreNext();
        left := left - 1;
        WorkMatches();
      }
    }

    /** The front of the perimeter queue is taken. */
    method TakePerimeter() returns (p: ProbabilityState, state: CompressedState)
      requires Linked() && statesTerminatedLastIteration != []
      modifies this`statesTerminatedLastIteration
      ensures Linked() && Holds(p)
      ensures old(Snap()).perimeter != [] && Snap() == old(Snap()).(perimeter := old(Snap()).perimeter[1..])
      ensures Entry(p.index, state) == old(Snap()).perimeter[0]
    {
      p, state := statesTerminatedLastIteration[0].0, statesTerminatedLastIteration[0].1;
      statesTerminatedLastIteration := statesTerminatedLastIteration[1..];
      assert Entries(statesTerminatedLastIteration) == Entries(old(statesTerminatedLastIteration))[1..];
      assert Records() == old(Records());
    }

    method MakeNew(p: ProbabilityState)
      requires Linked() && Holds(p)
      modifies p
      ensures Linked() && p.index in old(Snap()).recs
      ensures var r := old(p.View()).(inQueue := false, isNew := true);
              Snap() == old(Snap()).(recs := old(Snap()).recs[p.index := r])
    {
      p.wasPutInTerminalQueue := false;
      p.isNew := true;
      assert Records() == old(Records())[p.index := p.View()];
    }

    /** One turn of flushStatesTerminated. */
    method FlushFront()
      requires Linked() && statesTerminatedLastIteration != []
      modifies this`statesToExplore, this`statesTerminatedLastIteration, stateMap.Values
      ensures Linked() && old(Snap()).perimeter != [] && old(Snap()).perimeter[0].index in old(Snap()).recs
      ensures Snap() == FlushOne(old(Snap()))
    {
      hide Snap, Linked, Holds;
      var p, state := TakePerimeter();
      SnapOf(p);
      if p.wasPutInTerminalQueue {
        Enqueue(p, state);
        SnapOf(p);
        MakeNew(p);
      }
    }

    /** flushStatesTerminated. */
    method FlushStatesTerminated()
      requires Active()
      modifies this`statesToExplore, this`statesTerminatedLastIteration, stateMap.Values
      ensures Active() && Snap() == Flush(c, old(Snap()))
    {
      hide Snap, Linked, Valid, Counted, FlushOne;
      ghost var n := Snap();
      WorkMatches();
      while statesTerminatedLastIteration != []
        invariant Active() && Flush(c, n) == Flush(c, Snap())
        invariant statesTerminatedLastIteration == [] <==> Snap().perimeter == []
        decreases |Snap().perimeter|
      {
        FlushOneKeepsValid(c, Snap());
        FlushOneCounted(c, Snap());
        FlushFront();
        WorkMatches();
      }
    }

    /** accumulateProbabilities. */
    method AccumulateProbabilities(reduceKappa: real) returns (totalProbability: real)
      requires reduceKappa != 0.0
      modifies this`localKappa
      ensures totalProbability == old(numberTerminal) as real * old(localKappa)
      ensures totalProbability == PiHat(old(Snap()))
      ensures Snap() == old(Snap()).(kappa := old(Snap()).kappa / reduceKappa)
    {
      totalProbability := numberTerminal as real * localKappa;
      localKappa := localKappa / reduceKappa;
      assert Records() == old(Records());
    }

    // ----- Closing the truncation ------------------------------------------------------------------------

    /** getStateIndexOrAbsorbing. */
    method GetStateIndexOrAbsorbing(state: CompressedState) returns (index: nat)
      ensures index == IndexOrAbsorbing(stateToId, state)
    {
      if state in stateToId {
        return stateToId[state];
      }
      return 0;
    }

    /** connectTerminalStatesToAbsorbing. */
    method ConnectTerminalStatesToAbsorbing(terminalState: CompressedState, stateId: nat)
      modifies this`transitionsToAdd, this`deadlockStateIndices, this`hasAbsorbingTransitions
      ensures Snap() == Connect(c, old(Snap()), Entry(stateId, terminalState))
    {
      hide Create;
      var es := c.Succ(terminalState);
      ghost var table := transitionsToAdd;
      if |es| == 0 {
        deadlockStateIndices := deadlockStateIndices + [stateId];
        CreateTransition(stateId, stateId, 1.0);
        assert Records() == old(Records());
        return;
      }
      hasAbsorbingTransitions := true;
      var totalRateToAbsorbing := 0.0;
      for j := 0 to |es|
        invariant deadlockStateIndices == old(deadlockStateIndices)
        invariant transitionsToAdd == ConnectKnown(table, stateToId, stateId, es[..j])
        invariant totalRateToAbsorbing == UnknownRate(stateToId, es[..j])
      {
        assert es[..j + 1][..j] == es[..j];
        var index := GetStateIndexOrAbsorbing(es[j].to);
        if index != 0 {
          CreateTransition(stateId, index, es[j].rate);
        } else {
          totalRateToAbsorbing := totalRateToAbsorbing + es[j].rate;
        }
      }
      assert es[..|es|] == es;
      if totalRateToAbsorbing != 0.0 {
        CreateTransition(stateId, 0, totalRateToAbsorbing);
      }
      assert Records() == old(Records());
    }

    method Unflag(p: ProbabilityState)
      requires Linked() && Holds(p)
      modifies p
      ensures Linked() && p.index in old(Snap()).recs && Snap() == Unflagged(old(Snap()), p.index)
    {
      p.wasPutInTerminalQueue := false;
      assert Records() == old(Records())[p.index := p.View()];
    }

    /** One turn of connectAllTerminalStatesToAbsorbing. */
    method ConnectFront()
      requires Linked() && statesTerminatedLastIteration != []
      modifies this`statesTerminatedLastIteration, this`transitionsToAdd, this`deadlockStateIndices,
               this`hasAbsorbingTransitions, stateMap.Values
      ensures Linked() && old(Snap()).perimeter != [] && old(Snap()).perimeter[0].index in old(Snap()).recs
      ensures Snap() == ConnectOne(c, old(Snap()))
    {
      hide Snap, Linked, Holds, Connect;
      var p, state := TakePerimeter();
      SnapOf(p);
      if p.wasPutInTerminalQueue {
        Unflag(p);
        ConnectTerminalStatesToAbsorbing(state, p.index);
      }
    }

    /** connectAllTerminalStatesToAbsorbing. */
    method ConnectAllTerminalStatesToAbsorbing()
      requires Linked() && Closing(c, Snap())
      modifies this`statesTerminatedLastIteration, this`transitionsToAdd, this`deadlockStateIndices,
               this`hasAbsorbingTransitions, stateMap.Values
      ensures Linked() && Snap() == ConnectAll(c, old(Snap()))
    {
      hide Snap, Linked, Closing, ConnectOne;
      ghost var n := Snap();
      WorkMatches();
      while statesTerminatedLastIteration != []
        invariant Linked() && Closing(c, Snap()) && ConnectAll(c, n) == ConnectAll(c, Snap())
        invariant statesTerminatedLastIteration == [] <==> Snap().perimeter == []
        decreases |Snap().perimeter|
      {
        ConnectOneKeepsClosing(c, Snap());
        ConnectFront();
        WorkMatches();
      }
    }

    /** purgeAbsorbingTransitions: the entries to the absorbing state that an earlier build left get
        rate 0.  There are none in a first build. */
    method PurgeAbsorbingTransitions()
      modifies this`transitionsToAdd, this`hasAbsorbingTransitions
      ensures !hasAbsorbingTransitions && |transitionsToAdd| == |old(transitionsToAdd)|
      ensures !old(hasAbsorbingTransitions) ==> transitionsToAdd == old(transitionsToAdd)
      ensures forall r :: 0 <= r < |transitionsToAdd| ==>
                transitionsToAdd[r]
                == if old(hasAbsorbingTransitions) then Purged(old(transitionsToAdd)[r]) else old(transitionsToAdd)[r]
      ensures Snap() == old(Snap()).(table := transitionsToAdd)
    {
      if hasAbsorbingTransitions {
        ghost var table := transitionsToAdd;
        for row := 0 to |transitionsToAdd|
          invariant |transitionsToAdd| == |table|
          invariant forall r :: 0 <= r < row ==> transitionsToAdd[r] == Purged(table[r])
          invariant forall r :: row <= r < |table| ==> transitionsToAdd[r] == table[r]
        {
          PurgeRow(row);
        }
        hasAbsorbingTransitions := false;
      }
      assert Records() == old(Records());
    }

    method PurgeRow(row: nat)
      requires row < |transitionsToAdd|
      modifies this`transitionsToAdd
      ensures transitionsToAdd == old(transitionsToAdd)[row := Purged(old(transitionsToAdd)[row])]
    {
      var infos := transitionsToAdd[row];
      var purged: seq<Transition> := [];
      for k := 0 to |infos|
        invariant purged == Purged(infos[..k])
      {
        assert infos[..k + 1][..k] == infos[..k];
        purged := purged + [if infos[k].to == 0 then infos[k].(rate := 0.0) else infos[k]];
      }
      assert infos[..|infos|] == infos;
      transitionsToAdd := transitionsToAdd[row := purged];
    }

    /** The part of flushToTransitionMatrix that removes the transitions to the absorbing state
        again. */
    method EraseAbsorbing(row: nat)
      requires row < |transitionsToAdd|
      modifies this`transitionsToAdd
      ensures transitionsToAdd == old(transitionsToAdd)[row := WithoutAbsorbing(old(transitionsToAdd)[row])]
    {
      var kept: seq<Transition> := [];
      var old' := transitionsToAdd[row];
      for k := 0 to |old'|
        invariant kept == WithoutAbsorbing(old'[..k])
      {
        assert old'[..k + 1][..k] == old'[..k];
        if old'[k].to != 0 {
          kept := kept + [old'[k]];
        }
      }
      assert old'[..|old'|] == old';
      transitionsToAdd := transitionsToAdd[row := kept];
    }

    /** flushToTransitionMatrix, with the entries in the order in which the matrix builder receives
        them.  The abort for a state without transitions cannot be reached. */
    method FlushToTransitionMatrix() returns (entries: seq<Transition>)
      requires forall r :: 1 <= r < |transitionsToAdd| ==> transitionsToAdd[r] != []
      modifies this`transitionsToAdd
      ensures entries == Emitted(old(transitionsToAdd))
      ensures |transitionsToAdd| == |old(transitionsToAdd)|
      ensures forall r :: 0 <= r < |transitionsToAdd| ==>
              transitionsToAdd[r] == WithoutAbsorbing(old(transitionsToAdd)[r])
    {
      entries := [];
      ghost var table := transitionsToAdd;
      for row := 0 to |transitionsToAdd|
        invariant |transitionsToAdd| == |table|
        invariant entries == Emitted(table[..row])
        invariant forall r :: row <= r < |table| ==> transitionsToAdd[r] == table[r]
        invariant forall r :: 0 <= r < row ==> transitionsToAdd[r] == WithoutAbsorbing(table[r])
      {
        if |transitionsToAdd[row]| == 0 && row != 0 {
          assert false;
        } else {
          var infos := transitionsToAdd[row];
          ghost var before := entries;
          for k := 0 to |infos|
            invariant entries == before + NonZero(infos[..k])
          {
            assert infos[..k + 1][..k] == infos[..k];
            if infos[k].rate != 0.0 {
              entries := entries + [infos[k]];
            }
          }
          assert infos[..|infos|] == infos;
        }
        assert table[..row + 1][..row] == table[..row];
        EraseAbsorbing(row);
      }
      assert table[..|table|] == table;
    }

    // ----- One build --------------------------------------------------------------------------------------

    /** buildMatrices: the loop of one inner iteration, from the initial states at first and from the
        flushed perimeter later. */
    method BuildMatrices(rounds: nat)
      requires if firstIteration then Untouched() && c.problem.src.WellFormed() && localKappa >= 0.0 else Active()
      modifies this, stateMap.Values
      ensures Active() && fresh(stateMap.Values - old(stateMap.Values))
      ensures old(firstIteration) ==>
                Valid(c, Start(c, old(localKappa))) && Snap() == Tick(Run(c, Start(c, old(localKappa)), rounds))
      ensures !old(firstIteration) ==>
                Valid(c, Flush(c, old(Snap()))) && Snap() == Tick(Run(c, Flush(c, old(Snap())), rounds))
      ensures statesToExplore == [] <==> Snap().work == []
    {
      hide Snap, Linked, Valid, Counted, Run, Flush, Start;
      if firstIteration {
        StartIsCounted(c, localKappa);
        SetUpAbsorbingState();
        CreateInitialStates();
        LeaveFirst();
      } else {
        FlushStatesTerminated();
      }
      Explore(rounds);
      TickKeepsValid(c, Snap());
      CountIteration();
      WorkMatches();
    }

    method LeaveFirst()
      modifies this`firstIteration
      ensures !firstIteration && Snap() == old(Snap())
    {
      firstIteration := false;
      assert Records() == old(Records());
    }

    method CountIteration()
      modifies this`iteration
      ensures Snap() == Tick(old(Snap()))
    {
      iteration := iteration + 1;
      assert Records() == old(Records());
    }

    /** The builder after k inner iterations that began with kappa. */
    ghost predicate After(kappa: real, reduceKappa: real, rounds: nat, k: nat)
      requires c.problem.src.WellFormed() && kappa >= 0.0 && reduceKappa >= 1.0
      reads this, stateMap.Values
    {
      if k == 0 then Untouched() && localKappa == kappa
      else Active() && Snap() == EndIteration(Iteration(c, kappa, reduceKappa, rounds, k - 1), reduceKappa)
    }

    /** One turn of the kappa loop. */
    method Iterate(ghost kappa: real, reduceKappa: real, rounds: nat, ghost k: nat)
      returns (finished: bool, piHat: real)
      requires c.problem.src.WellFormed() && kappa >= 0.0 && reduceKappa >= 1.0 && After(kappa, reduceKappa, rounds, k)
      modifies this, stateMap.Values
      ensures fresh(stateMap.Values - old(stateMap.Values))
      ensures finished <==> Iteration(c, kappa, reduceKappa, rounds, k).work == []
      ensures finished ==>
                && After(kappa, reduceKappa, rounds, k + 1)
                && Snap().work == []
                && piHat == PiHat(Iteration(c, kappa, reduceKappa, rounds, k))
    {
      hide Snap, Linked, Valid, Counted, Run, Flush, Start, Iteration, EndIteration, PiHat, Tick;
      IterationUnfold(c, kappa, reduceKappa, rounds, k);
      BuildMatrices(rounds);
      TickWork(Iteration(c, kappa, reduceKappa, rounds, k));
      finished, piHat := statesToExplore == [], 0.0;
      if finished {
        AccumulateKeepsValid(c, Iteration(c, kappa, reduceKappa, rounds, k), reduceKappa);
        piHat := AccumulateProbabilities(reduceKappa);
      }
    }

    /** The kappa loop of buildModelComponents: iterations with a smaller and smaller kappa until
        piHat is below the window.  Each exploration loop is given up after the stated number of
        rounds, and the kappa loop after the stated number of iterations; the result is the last
        iteration, if the loop was left because piHat was small enough. */
    method ReduceKappa(reduceKappa: real, window: real, rounds: nat, iterations: nat) returns (last: Option<nat>)
      requires Untouched() && c.problem.src.WellFormed() && localKappa >= 0.0 && reduceKappa >= 1.0
      modifies this
      ensures forall r: nat ::
                last == Some(r) <==> LeavesAfter(c, old(localKappa), reduceKappa, window, rounds, iterations, r)
      ensures last.Some? ==> After(old(localKappa), reduceKappa, rounds, last.value + 1) && Snap().work == []
      ensures 1.0 < window ==> Untouched()
      ensures fresh(stateMap.Values)
    {
      hide Snap, After, Iteration, PiHat, LeavesAfter;
      ghost var kappa := localKappa;
      StartsAfterNothing(reduceKappa, rounds);
      forall r: nat
        ensures LoopOutcome(c, kappa, reduceKappa, window, rounds, iterations) == Some(r)
                <==> LeavesAfter(c, kappa, reduceKappa, window, rounds, iterations, r)
      {
        OutcomeMeaning(c, kappa, reduceKappa, window, rounds, iterations, r);
      }
      if 1.0 < window {
        return None;
      }
      var piHat, k := 1.0, 0;
      last := None;
      while piHat >= window && k < iterations
        invariant k <= iterations && After(kappa, reduceKappa, rounds, k) && fresh(stateMap.Values)
        invariant k == 0 ==> piHat == 1.0
        invariant k > 0 ==> window <= 1.0 && Snap().work == []
        invariant k > 0 ==> FirstBelow(c, kappa, reduceKappa, window, rounds, iterations, 0)
                            == (if piHat < window then Some(k - 1)
                                else FirstBelow(c, kappa, reduceKappa, window, rounds, iterations, k))
        decreases iterations - k
      {
        var finished;
        finished, piHat := Iterate(kappa, reduceKappa, rounds, k);
        if !finished {
          return;
        }
        k := k + 1;
      }
      if k > 0 && piHat < window {
        last := Some(k - 1);
      }
    }

    /** buildModelComponents: the kappa loop, then the perimeter is connected to the absorbing state
        and the table is emitted.  With a window above 1 there is no iteration, and nothing is built. */
    method BuildModelComponents(reduceKappa: real, window: real, rounds: nat, iterations: nat)
      returns (last: Option<nat>, entries: seq<Transition>)
      requires Untouched() && c.problem.src.WellFormed() && localKappa >= 0.0 && reduceKappa >= 1.0
      modifies this
      ensures forall r: nat ::
                last == Some(r) <==> LeavesAfter(c, old(localKappa), reduceKappa, window, rounds, iterations, r)
      ensures last.Some? ==>
                var n := EndIteration(Iteration(c, old(localKappa), reduceKappa, rounds, last.value), reduceKappa);
                && Closing(c, n) && stateToId == n.ids && entries == BuiltModel(c, n).entries
                && deadlockStateIndices == ConnectAll(c, n).deadlocks
                && (c.problem.prop.path.upper.Some? ==> Brackets(c.problem, stateToId, BuiltModel(c, n)))
      ensures 1.0 < window ==> last.None? && Untouched() && entries == []
    {
      hide Brackets, Iteration, LeavesAfter, EndIteration, Linked, Valid, Counted, Closing, ConnectAll, Snap, Emitted;
      last := ReduceKappa(reduceKappa, window, rounds, iterations);
      entries := [];
      if last.Some? {
        ghost var n := Snap();
        ClosingStarts(c, n);
        ConnectAllCloses(c, n);
        ClosedTableOf(c, n);
        if c.problem.prop.path.upper.Some? {
          BuiltModelBrackets(c, n);
        }
        SnapTable();
        PurgeAbsorbingTransitions();
        ConnectAllTerminalStatesToAbsorbing();
        SnapTable();
        entries := FlushToTransitionMatrix();
      } else if 1.0 < window {
        // The perimeter queue is empty
        EmittedNothing();
        PurgeAbsorbingTransitions();
        entries := FlushToTransitionMatrix();
      }
    }

    lemma SnapOf(p: ProbabilityState)
      requires Holds(p)
      ensures p.index in Snap().recs && Snap().recs[p.index] == p.View() && Snap().recs.Keys == stateMap.Keys
      ensures Snap().ids == stateToId && Snap().table == transitionsToAdd
      ensures Snap().kappa == localKappa && Snap().numberTerminal == numberTerminal
      ensures p in stateMap.Values
    {
    }

    lemma StartsAfterNothing(reduceKappa: real, rounds: nat)
      requires Untouched() && c.problem.src.WellFormed() && localKappa >= 0.0 && reduceKappa >= 1.0
      ensures After(localKappa, reduceKappa, rounds, 0)
    {
    }

    lemma SnapTable()
      ensures Snap().table == transitionsToAdd && Snap().ids == stateToId && Snap().deadlocks == deadlockStateIndices
    {
    }

    lemma SnapKeys()
      ensures Snap().recs.Keys == stateMap.Keys && Snap().ids == stateToId
    {
    }

    lemma WorkMatches()
      ensures statesToExplore == [] <==> Snap().work == []
      ensures statesTerminatedLastIteration == [] <==> Snap().perimeter == []
    {
    }

    lemma HoldsAt(i: nat)
      requires Linked() && i in stateMap
      ensures Holds(stateMap[i]) && stateMap[i].index == i
    {
    }

    // What the callback for successor j may rely on
    lemma CallBackAllowed(n: Snapshot, current: ProbabilityState, state: CompressedState, j: nat)
      requires Holds(current) && j < |c.Succ(state)|
      requires c.problem.src.WellFormed() && Expanding(c, n, Entry(current.index, state))
      requires n.recs[current.index].pi == 0.0 ==> AllKnown(n.ids, c.Succ(state))
      requires Snap() == RegisterAll(n, current.index, c.Succ(state)[..j])
      ensures c.Succ(state)[j].to != c.problem.src.Absorbing()
      ensures current.pi == 0.0 ==> c.Succ(state)[j].to in stateToId && stateToId[c.Succ(state)[j].to] in stateMap
      ensures forall i: nat :: i in stateMap ==> stateMap[i].iterationLastSeen <= iteration
    {
      hide Expanding, RegisterAll;
      CallBackPossible(c, n, Entry(current.index, state), j);
      SnapOf(current);
      var m := Snap();
      forall i: nat | i in stateMap ensures stateMap[i].iterationLastSeen <= iteration {
        assert m.recs[i] == stateMap[i].View();
      }
    }
  }

  lemma NextInitial(c: Config, kappa: real, j: nat)
    requires c.problem.src.WellFormed() && kappa >= 0.0 && j < |c.problem.src.initial|
    ensures var n, s := RegisterInitials(Fresh(c, kappa), c.problem.src.initial[..j]), c.problem.src.initial[j];
            && s != c.problem.src.Absorbing() && s !in n.ids && |n.ids| !in n.recs
            && RegisterInitials(Fresh(c, kappa), c.problem.src.initial[..j + 1]) == RegisterInitial(n, s)
  {
    var states := c.problem.src.initial;
    assert states[..j + 1][..j] == states[..j];
    InitialIsNew(c, kappa, states[..j + 1]);
    RegisterInitialsValid(c, kappa, states[..j]);
  }

  lemma FlushOneCounted(c: Config, n: Snapshot)
    requires Valid(c, n) && n.perimeter != [] && Counted(n)
    ensures EntryOk(n, n.perimeter[0]) && Counted(FlushOne(n))
  {
    hide Sum, FlushOne;
    FlushOneSums(c, n);
  }

  function WithoutAbsorbing(row: seq<Transition>): seq<Transition> {
    if row == [] then []
    else WithoutAbsorbing(row[..|row| - 1]) + (if row[|row| - 1].to == 0 then [] else [row[|row| - 1]])
  }

  /** Of a row exactly the entries that go to a state stay, each as often as it was there. */
  lemma {:induction false} WithoutAbsorbingIs(row: seq<Transition>, t: Transition)
    ensures multiset(WithoutAbsorbing(row))[t] == if t.to == 0 then 0 else multiset(row)[t]
  {
    if row != [] {
      WithoutAbsorbingIs(row[..|row| - 1], t);
      assert row == row[..|row| - 1] + [row[|row| - 1]];
    }
  }

  /** They stay in their order: what is left of two rows in turn is what is left of each. */
  lemma {:induction false} WithoutAbsorbingAdds(a: seq<Transition>, b: seq<Transition>)
    ensures WithoutAbsorbing(a + b) == WithoutAbsorbing(a) + WithoutAbsorbing(b)
  {
    if b == [] {
      assert a + b == a;
    } else {
      WithoutAbsorbingAdds(a, b[..|b| - 1]);
      assert (a + b)[..|a + b| - 1] == a + b[..|b| - 1];
    }
  }

  /** Purging keeps every entry in its place, and sets the rate of those to index 0, and of no other,
      to 0. */
  lemma {:induction false} PurgedIs(row: seq<Transition>)
    ensures |Purged(row)| == |row|
    ensures forall k :: 0 <= k < |row| ==>
              Purged(row)[k] == Transition(row[k].from, row[k].to, if row[k].to == 0 then 0.0 else row[k].rate)
  {
    if row != [] {
      PurgedIs(row[..|row| - 1]);
    }
  }

  lemma EmittedNothing()
    ensures Emitted([]) == []
  {
  }

  function Purged(row: seq<Transition>): seq<Transition> {
    if row == [] then []
    else
      var t := row[|row| - 1];
      Purged(row[..|row| - 1]) + [if t.to == 0 then t.(rate := 0.0) else t]
  }

  /** What is emitted of a purged row is what would be emitted of it without the absorbing state. */
  lemma {:induction false} PurgedIsSilent(row: seq<Transition>)
    ensures NonZero(Purged(row)) == NonZero(WithoutAbsorbing(row))
  {
    if row != [] {
      var rest, t := row[..|row| - 1], row[|row| - 1];
      PurgedIsSilent(rest);
      assert Purged(row)[..|Purged(row)| - 1] == Purged(rest);
      if t.to != 0 {
        assert WithoutAbsorbing(row)[..|WithoutAbsorbing(row)| - 1] == WithoutAbsorbing(rest);
      } else {
        assert WithoutAbsorbing(row) == WithoutAbsorbing(rest);
      }
    }
  }

  // iteration++ at the end of buildMatrices
  function Tick(n: Snapshot): Snapshot {
    n.(iteration := n.iteration + 1)
  }

  lemma TickKeepsValid(c: Config, n: Snapshot)
    requires Valid(c, n) && Counted(n)
    ensures Valid(c, Tick(n)) && Counted(Tick(n))
  {
    EndIterationKeepsValid(c, n, 1.0);
    assert n.kappa / 1.0 == n.kappa;
  }

  lemma StartIsCounted(c: Config, kappa: real)
    requires c.problem.src.WellFormed() && kappa >= 0.0
    ensures Valid(c, Start(c, kappa)) && Counted(Start(c, kappa))
  {
    StartValid(c, kappa);
    StartSums(c, kappa, c.problem.src.initial);
  }

  lemma AccumulateKeepsValid(c: Config, n: Snapshot, reduceKappa: real)
    requires Valid(c, n) && reduceKappa >= 1.0 && Counted(Tick(n))
    ensures Tick(n).(kappa := Tick(n).kappa / reduceKappa) == EndIteration(n, reduceKappa)
    ensures Valid(c, EndIteration(n, reduceKappa)) && Counted(EndIteration(n, reduceKappa))
    ensures PiHat(Tick(n)) == PiHat(n) && EndIteration(n, reduceKappa).work == n.work
  {
    EndIterationKeepsValid(c, n, reduceKappa);
  }

  lemma IterationUnfold(c: Config, kappa: real, reduceKappa: real, rounds: nat, k: nat)
    requires c.problem.src.WellFormed() && kappa >= 0.0 && reduceKappa >= 1.0
    ensures Valid(c, Iteration(c, kappa, reduceKappa, rounds, k))
    ensures k == 0 ==>
              && Valid(c, Start(c, kappa))
              && Iteration(c, kappa, reduceKappa, rounds, 0) == Run(c, Start(c, kappa), rounds)
    ensures k > 0 ==>
              var n := EndIteration(Iteration(c, kappa, reduceKappa, rounds, k - 1), reduceKappa);
              && Valid(c, n) && Valid(c, Flush(c, n))
              && Iteration(c, kappa, reduceKappa, rounds, k) == Run(c, Flush(c, n), rounds)
  {
    hide Valid, Run, Start, EndIteration, Flush;
    if k == 0 {
      StartValid(c, kappa);
    } else {
      var n := Iteration(c, kappa, reduceKappa, rounds, k - 1);
      EndIterationKeepsValid(c, n, reduceKappa);
      FlushKeepsValid(c, EndIteration(n, reduceKappa));
      RestartIsFlush(c, n, reduceKappa);
    }
  }

  lemma RestartIsFlush(c: Config, n: Snapshot, reduceKappa: real)
    requires Valid(c, n) && reduceKappa >= 1.0
    ensures Valid(c, EndIteration(n, reduceKappa))
    ensures Restart(c, n, reduceKappa) == Flush(c, EndIteration(n, reduceKappa))
  {
    EndIterationKeepsValid(c, n, reduceKappa);
  }

  lemma TickWork(n: Snapshot)
    ensures Tick(n).work == n.work
  {
  }

  lemma ClosedTableOf(c: Config, n: Snapshot)
    requires Closing(c, n)
    ensures var m := ConnectAll(c, n);
            && m.ids == n.ids && (forall r :: 1 <= r < |m.table| ==> m.table[r] != [])
            && BuiltModel(c, n).entries == Emitted(m.table)
  {
    ConnectAllCloses(c, n);
    ClosedTable(c, ConnectAll(c, n));
  }

  lemma ReadyParts(c: Config, n: Snapshot, e: Entry)
    requires Ready(c, n, e)
    ensures c.problem.src.WellFormed() && c.Succ(e.state) != [] && e.index in n.recs
    ensures Expanding(c, Unflagged(n, e.index), e)
    ensures Unflagged(n, e.index).recs[e.index].pi == n.recs[e.index].pi
    ensures n.recs[e.index].pi == 0.0 ==> AllKnown(Unflagged(n, e.index).ids, c.Succ(e.state))
  {
    NoMassIsClosed(c, n, e);
  }

  lemma CallBackIsRegisterAll(c: Config, n: Snapshot, e: Entry)
    requires e.index in n.recs
    ensures CallBack(c, n, e) == RegisterAll(Unflagged(n, e.index), e.index, c.Succ(e.state))
  {
  }

  lemma PopCounted(n: Snapshot)
    requires Counted(n) && n.work != []
    ensures Counted(Pop(n))
  {
  }

  lemma FrontIsOk(c: Config, n: Snapshot)
    requires Inv(c, n, 0) && n.work != []
    ensures EntryOk(n, n.work[0]) && n.work[0].index != 0
  {
    assert EntryOk(n, n.work[0]);
  }

  lemma SuccessorsHaveRates(c: Config, n: Snapshot, e: Entry)
    requires c.problem.src.WellFormed() && Expanding(c, n, e)
    ensures c.Succ(e.state) != [] && Exit(c.Succ(e.state)) > 0.0
  {
    assert c.problem.src.PositiveRates(e.state);
    ExitNonNegative(c.Succ(e.state));
  }

  lemma SuccessorsAreKnown(c: Config, ids: Numbering, es: seq<Edge>)
    requires Successors(c, ids, es)
    ensures AllKnown(ids, es)
  {
  }

  lemma SuccessorRegistered(c: Config, n: Snapshot, e: Entry, j: nat)
    requires Expanding(c, n, e) && Successors(c, n.ids, c.Succ(e.state)) && j < |c.Succ(e.state)|
    ensures var s := c.Succ(e.state)[j].to;
            s in n.ids && n.ids[s] != 0 && n.ids[s] in n.recs
  {
    var s := c.Succ(e.state)[j].to;
    assert s in n.ids;
    assert Known(c.problem, n.ids, s);
  }

  lemma PropagateAllUnfold(n: Snapshot, cur: nat, es: seq<Edge>, j: nat, enqueueAll: bool, total: real)
    requires cur in n.recs && j <= |es| && AllKnown(n.ids, es) && (enqueueAll || total != 0.0)
    ensures PropagateAll(n, cur, es[..0], enqueueAll, total) == n
    ensures j < |es| ==>
              PropagateAll(n, cur, es[..j + 1], enqueueAll, total)
              == Propagate(PropagateAll(n, cur, es[..j], enqueueAll, total), cur, es[j], enqueueAll, total)
  {
    if j < |es| {
      assert es[..j + 1][..j] == es[..j] && es[..j + 1][j] == es[j];
    }
  }

  // The rate matters only if probability is moved
  lemma PropagateRate(n: Snapshot, cur: nat, e: Edge, enqueueAll: bool, total: real, total': real)
    requires cur in n.recs && e.to in n.ids && (enqueueAll || (total == total' && total != 0.0))
    ensures Propagate(n, cur, e, enqueueAll, total) == Propagate(n, cur, e, enqueueAll, total')
  {
  }

  lemma RegisterAllUnfold(n: Snapshot, cur: nat, es: seq<Edge>, j: nat)
    requires cur in n.recs && j <= |es|
    ensures RegisterAll(n, cur, es[..0]) == n
    ensures j < |es| ==>
              RegisterAll(n, cur, es[..j + 1]) == Register(RegisterAll(n, cur, es[..j]), cur, es[j].to)
  {
    if j < |es| {
      assert es[..j + 1][..j] == es[..j] && es[..j + 1][j] == es[j];
    }
  }

  lemma CallBackPossible(c: Config, n: Snapshot, e: Entry, j: nat)
    requires c.problem.src.WellFormed() && Expanding(c, n, e) && j < |c.Succ(e.state)|
    requires n.recs[e.index].pi == 0.0 ==> AllKnown(n.ids, c.Succ(e.state))
    ensures var m, s := RegisterAll(n, e.index, c.Succ(e.state)[..j]), c.Succ(e.state)[j].to;
            && s != c.problem.src.Absorbing() && e.index in m.recs
            && (m.recs[e.index].pi == 0.0 ==> s in m.ids && m.ids[s] in m.recs)
            && forall i: nat :: i in m.recs ==> m.recs[i].lastSeen <= m.iteration
  {
    var m, s := RegisterAll(n, e.index, c.Succ(e.state)[..j]), c.Succ(e.state)[j].to;
    assert c.problem.src.AvoidsAbsorbing(e.state);
    RegisterAllKeepsExpanding(c, n, e, c.Succ(e.state)[..j]);
    RecordsSeen(c, m, e);
    assert s in m.ids ==> Known(c.problem, m.ids, s);
  }

  lemma RecordsSeen(c: Config, n: Snapshot, e: Entry)
    requires Expanding(c, n, e)
    ensures forall i: nat :: i in n.recs ==> n.recs[i].lastSeen <= n.iteration
  {
    forall i: nat | i in n.recs ensures n.recs[i].lastSeen <= n.iteration {
      assert IsIndex(n.ids, i);
      var s :| s in n.ids && n.ids[s] == i;
      if s != e.state {
        assert Known(c.problem, n.ids, s) && StateOk(c, n, Entry(n.ids[s], s), 0);
      }
    }
  }
}
