/** The priority model builder (STAMINA 3.0) with preterminate off: its exploration loop on the mutable
    records.  The entry on top of the queue is chosen arbitrarily in every round. */
module PriorityBuilder {
  import opened SourceChain
  import opened Exploration
  import opened Invariant
  import opened Iterations
  import opened Runs
  import opened ProbabilityStates
  import opened ModelBuilder
  import opened PriorityExploration
  import opened PriorityFrontier
  import opened PriorityRounds
  import opened Termination

  class PriorityModelBuilder {
    // What all builders have; its worklist is statePriorityQueue here
    const b: IterativeModelBuilder
    var piHat: real
    var windowPower: real
    var numberOfExploredStates: nat
    ghost var held: map<nat, real>

    constructor (c: Config)
      ensures b.c == c && fresh(b) && b.Untouched() && b.localKappa == 0.0
      ensures piHat == 0.0 && windowPower == 0.0 && numberOfExploredStates == 0 && held == map[]
    {
      b := new IterativeModelBuilder(c, 0.0);
      piHat := 0.0;
      windowPower := 0.0;
      numberOfExploredStates := 0;
      held := map[];
    }

    ghost function View(): PState
      reads this, b, b.stateMap.Values
    {
      PState(b.Snap(), piHat, windowPower, numberOfExploredStates, held)
    }

    /** The top of the queue is taken, wherever the order of the queue may have put it. */
    method TakeTop() returns (current: ProbabilityState, state: CompressedState, ghost j: nat)
      requires b.Linked() && b.statesToExplore != []
      modifies b`statesToExplore
      ensures b.Linked() && b.Holds(current)
      ensures j < |old(b.Snap()).work| && b.Snap() == PopAt(old(b.Snap()), j)
      ensures Entry(current.index, state) == old(b.Snap()).work[j]
    {
      var k: nat :| k < |b.statesToExplore|;
      j := k;
      current, state := b.statesToExplore[k].0, b.statesToExplore[k].1;
      RemoveAt(k);
    }

    method RemoveAt(k: nat)
      requires b.Linked() && k < |b.statesToExplore|
      modifies b`statesToExplore
      ensures b.Linked() && k < |old(b.Snap()).work| && b.Snap() == PopAt(old(b.Snap()), k)
    {
      var queue := b.statesToExplore;
      b.statesToExplore := queue[..k] + queue[k + 1..];
      EntriesWithout(queue, k);
      assert b.Records() == old(b.Records());
      assert b.Linked() by {
        forall j | 0 <= j < |b.statesToExplore| ensures b.Holds(b.statesToExplore[j].0) {
          assert b.statesToExplore[j] == queue[if j < k then j else j + 1];
        }
      }
    }

    method MakeTerminal(current: ProbabilityState)
      requires b.Linked() && b.Holds(current)
      modifies current
      ensures b.Linked() && current.index in old(b.Snap()).recs
      ensures b.Snap()
              == old(b.Snap()).(recs := old(b.Snap()).recs[current.index := old(current.View()).(terminal := true)])
    {
      current.SetTerminal(true);
      assert b.Records() == old(b.Records())[current.index := current.View()];
    }

    /** A state that settles the property. */
    method StopAt(current: ProbabilityState)
      requires b.Linked() && b.Holds(current)
      modifies this`piHat, this`held, b`transitionsToAdd, current
      ensures b.Linked() && current.index in old(b.Snap()).recs && View() == PStop(old(View()), current.index)
    {
      hide Create, IterativeModelBuilder.Snap, IterativeModelBuilder.Linked, IterativeModelBuilder.Holds;
      b.SnapOf(current);
      b.CreateTransition(current.index, current.index, 1.0);
      b.SnapOf(current);
      MakeTerminal(current);
      b.SnapOf(current);
      piHat := piHat - current.pi;
      held := held[current.index := current.pi];
    }

    method NoteDeadlock(current: ProbabilityState)
      requires b.Linked() && b.Holds(current)
      modifies b`deadlockStateIndices, current
      ensures b.Linked() && current.index in old(b.Snap()).recs
      ensures b.Snap() == var n := old(b.Snap());
                          if n.recs[current.index].deadlock then n
                          else n.(deadlocks := n.deadlocks + [current.index],
                              recs := n.recs[current.index := n.recs[current.index].(deadlock := true)])
    {
      if !current.deadlock {
        b.deadlockStateIndices := b.deadlockStateIndices + [current.index];
        current.deadlock := true;
      }
      assert b.Records() == old(b.Records())[current.index := current.View()];
    }

    /** A state without behaviour. */
    method MarkDeadlock(current: ProbabilityState)
      requires b.Linked() && b.Holds(current)
      modifies this`piHat, this`held, b`transitionsToAdd, b`deadlockStateIndices, current
      ensures b.Linked() && current.index in old(b.Snap()).recs && View() == PDeadlock(old(View()), current.index)
    {
      hide Create, IterativeModelBuilder.Snap, IterativeModelBuilder.Linked, IterativeModelBuilder.Holds;
      b.SnapOf(current);
      b.CreateTransition(current.index, current.index, 1.0);
      b.SnapOf(current);
      NoteDeadlock(current);
      b.SnapOf(current);
      piHat := piHat - current.pi;
      held := held[current.index := current.pi];
    }

    /** One turn of the loop over the successors. */
    method PropagateTo(current: ProbabilityState, edge: Edge, shouldEnqueueAll: bool, totalRate: real)
      requires b.Linked() && b.Holds(current) && edge.to in b.stateToId && b.stateToId[edge.to] in b.stateMap
      requires shouldEnqueueAll || totalRate != 0.0
      modifies this`piHat, b`transitionsToAdd, b.stateMap.Values
      ensures b.Linked() && b.Holds(current)
      ensures current.index in old(b.Snap()).recs
      ensures View() == PPropagate(old(View()), current.index, edge, shouldEnqueueAll, totalRate)
    {
      hide Propagate, IterativeModelBuilder.Snap, IterativeModelBuilder.Linked, IterativeModelBuilder.Holds;
      var sPrime := b.stateToId[edge.to];
      b.HoldsAt(sPrime);
      b.SnapOf(current);
      b.SnapOf(b.stateMap[sPrime]);
      ghost var n := b.Snap();
      var piToAdd := if shouldEnqueueAll then 0.0 else Times(current.pi, Share(edge.rate, totalRate));
      b.PropagateTo(current, edge, shouldEnqueueAll, totalRate);
      PropagateKeepsTerminal(n, current.index, edge, shouldEnqueueAll, totalRate, sPrime);
      b.SnapOf(b.stateMap[sPrime]);
      if sPrime != 0 && !shouldEnqueueAll && b.stateMap[sPrime].terminal {
        piHat := piHat + piToAdd;
      }
    }

    /** The loop over the successors, with the total rate computed before it. */
    method DistributeProbability(current: ProbabilityState, state: CompressedState)
      requires b.Linked() && b.Holds(current) && b.c.problem.src.WellFormed()
      requires Expanding(b.c, b.Snap(), Entry(current.index, state)) && Successors(b.c, b.stateToId, b.c.Succ(state))
      modifies this`piHat, b`transitionsToAdd, b.stateMap.Values
      ensures b.Linked() && b.Holds(current)
      ensures current.index in old(b.Snap()).recs && Exit(b.c.Succ(state)) > 0.0
      ensures var es := b.c.Succ(state);
              View() == PPropagateAll(old(View()), current.index, es, old(current.pi) == 0.0, Exit(es))
    {
      hide IterativeModelBuilder.Snap, IterativeModelBuilder.Linked, IterativeModelBuilder.Holds;
      hide PPropagate, PPropagateAll, Propagate, PropagateAll, Expanding, Successors;
      var es := b.c.Succ(state);
      SuccessorsHaveRates(b.c, b.Snap(), Entry(current.index, state));
      b.SnapOf(current);
      SuccessorsGoToStates(b.c, b.Snap(), Entry(current.index, state));
      var shouldEnqueueAll := current.pi == 0.0;
      var totalRate := 0.0;
      if !shouldEnqueueAll {
        totalRate := TotalRate(es);
      }
      GiveShares(current, es, shouldEnqueueAll, totalRate, Exit(es));
    }

    method GiveShares(current: ProbabilityState, es: seq<Edge>, shouldEnqueueAll: bool, totalRate: real,
                      ghost total: real)
      requires b.Linked() && b.Holds(current) && RowGoesToStates(b.Snap(), es)
      requires total > 0.0 && (shouldEnqueueAll || totalRate == total)
      modifies this`piHat, b`transitionsToAdd, b.stateMap.Values
      ensures b.Linked() && b.Holds(current)
      ensures current.index in old(b.Snap()).recs && AllKnown(old(b.Snap()).ids, es)
      ensures View() == PPropagateAll(old(View()), current.index, es, shouldEnqueueAll, total)
    {
      hide IterativeModelBuilder.Snap, IterativeModelBuilder.Linked, IterativeModelBuilder.Holds;
      hide PPropagate, PPropagateAll, Propagate, PropagateAll;
      ghost var s := View();
      b.SnapOf(current);
      PPropagateAllUnfold(s, current.index, es, 0, shouldEnqueueAll, total);
      for j := 0 to |es|
        invariant b.Linked() && b.Holds(current) && b.stateToId == s.base.ids && b.stateMap == old(b.stateMap)
        invariant View() == PPropagateAll(s, current.index, es[..j], shouldEnqueueAll, total)
      {
        PPropagateAllUnfold(s, current.index, es, j, shouldEnqueueAll, total);
        b.SnapOf(current);
        PropagateTo(current, es[j], shouldEnqueueAll, totalRate);
        PPropagateRate(PPropagateAll(s, current.index, es[..j], shouldEnqueueAll, total), current.index, es[j],
            shouldEnqueueAll, totalRate, total);
        b.SnapOf(current);
      }
      assert es[..|es|] == es;
    }

    /** The end of an expansion. */
    method FinishExpansion(current: ProbabilityState, power: nat -> real)
      requires b.Linked() && b.Holds(current) && current.terminal && b.numberTerminal > 0
      modifies this`piHat, this`windowPower, this`numberOfExploredStates, b`numberTerminal, current
      ensures b.Linked() && current.index in old(b.Snap()).recs && View() == PFinish(old(View()), current.index, power)
    {
      hide Finish, IterativeModelBuilder.Snap, IterativeModelBuilder.Linked, IterativeModelBuilder.Holds;
      b.SnapOf(current);
      if current.terminal && b.numberTerminal > 0 {
        piHat := piHat - current.pi;
      }
      b.FinishExpansion(current);
      windowPower := power(numberOfExploredStates);
      numberOfExploredStates := numberOfExploredStates + 1;
    }

    /** A state with successors is expanded. */
    method ExpandSuccessors(current: ProbabilityState, state: CompressedState, power: nat -> real)
      requires b.Linked() && b.Holds(current) && Primed(b.c, b.Snap(), Entry(current.index, state))
      modifies this`piHat, this`windowPower, this`numberOfExploredStates, b`numberTerminal, b`transitionsToAdd,
               b`stateToId, b`stateMap, b`statesToExplore, b.stateMap.Values
      ensures b.Linked() && fresh(b.stateMap.Values - old(b.stateMap.Values))
      ensures b.c.problem.src.WellFormed() && current.index in old(b.Snap()).recs
      ensures View() == PExpand(b.c, old(View()), Entry(current.index, state), power)
    {
      hide IterativeModelBuilder.Snap, IterativeModelBuilder.Linked, IterativeModelBuilder.Holds;
      hide Primed, Ready, CallBack, PDistribute, PExpand, PFinish, PPropagateAll, Expanding, Successors;
      ghost var s, e := View(), Entry(current.index, state);
      PrimedParts(b.c, s, e);
      PrimedDistributes(b.c, s, e);
      PExpandIs(b.c, s, e, power);
      b.SnapOf(current);
      b.RegisterSuccessors(current, state);
      b.SnapOf(current);
      PDistributeIs(b.c, s, e);
      DistributeProbability(current, state);
      b.SnapOf(current);
      FinishExpansion(current, power);
    }

    /** One round of the loop of buildMatrices. */
    method ExploreTop(power: nat -> real) returns (ghost j: nat)
      requires b.Linked() && PInv(b.c, View()) && b.statesToExplore != []
      modifies this`piHat, this`windowPower, this`numberOfExploredStates, this`held, b`numberTerminal,
               b`transitionsToAdd,
               b`deadlockStateIndices, b`stateToId, b`stateMap, b`statesToExplore, b.stateMap.Values
      ensures b.Linked() && fresh(b.stateMap.Values - old(b.stateMap.Values))
      ensures j < |old(View()).base.work| && old(View()).base.work[j].index in old(View()).base.recs
      ensures b.c.problem.src.WellFormed() && View() == PStep(b.c, old(View()), j, power)
    {
      hide IterativeModelBuilder.Snap, IterativeModelBuilder.Linked, IterativeModelBuilder.Holds;
      hide PInv, Primed, PExpand, PStop, PDeadlock;
      ghost var s := View();
      var current, state;
      current, state, j := TakeTop();
      PrimedIndex(b.c, s, j);
      b.SnapOf(current);
      TopIsOk(b.c, s, j);
      if current.index == 0 {
        assert false;
      }
      if b.c.refine && (!b.c.problem.Phi1(state) || b.c.problem.Phi2(state)) {
        StopAt(current);
        return;
      }
      if b.c.Succ(state) == [] {
        PExpandOfNothing(b.c, View(), Entry(current.index, state), power);
        MarkDeadlock(current);
        return;
      }
      PoppedIsPrimed(b.c, s, j);
      ExpandSuccessors(current, state, power);
    }

    /** The part of buildMatrices before the loop. */
    method Begin()
      requires b.Untouched() && b.localKappa == 0.0 && numberOfExploredStates == 0 && held == map[]
      requires b.c.problem.src.WellFormed() && b.c.problem.src.initial != []
      modifies this`piHat, this`windowPower, b
      ensures b.Linked() && fresh(b.stateMap.Values) && View() == PStart(b.c) && b.statesToExplore != []
    {
      hide IterativeModelBuilder.Snap, IterativeModelBuilder.Linked, Start;
      piHat := 1.0;
      b.SetUpAbsorbingState();
      b.CreateInitialStates();
      b.LeaveFirst();
      windowPower := 0.0;
      StartWork(b.c);
      b.WorkMatches();
    }

    /** The builder while its loop runs, after these choices. */
    ghost predicate RunsBy(picks: seq<nat>, power: nat -> real)
      requires b.c.problem.src.WellFormed()
      reads this, b, b.stateMap.Values
    {
      b.Linked() && View() == Built(b.c, picks, power) && PInv(b.c, View())
    }

    /** One more round. */
    method ExploreAfter(ghost picks: seq<nat>, power: nat -> real) returns (ghost picks': seq<nat>)
      requires b.c.problem.src.WellFormed() && RunsBy(picks, power) && b.statesToExplore != []
      modifies this`piHat, this`windowPower, this`numberOfExploredStates, this`held, b, b.stateMap.Values
      ensures RunsBy(picks', power) && fresh(b.stateMap.Values - old(b.stateMap.Values))
      ensures |picks'| == |picks| + 1 && picks' == picks + [picks'[|picks|]]
      ensures picks'[|picks|] < |Built(b.c, picks, power).base.work|
    {
      hide IterativeModelBuilder.Snap, IterativeModelBuilder.Linked, Built, PStep, PInv;
      ghost var j := ExploreTop(power);
      BuiltMore(b.c, picks, j, power);
      picks' := picks + [j];
    }

    /** buildMatrices: the initial states, then one round and more of them until the queue is empty or
        piHat is small enough; given up after the stated number of rounds, which is not needed if that
        is at least the number of reachable states.  With one initial state, what is left in the queue
        of a finished loop holds at most the window divided by the approximation factor. */
    method BuildMatrices(power: nat -> real, approx: real, rounds: nat) returns (finished: bool, ghost picks: seq<nat>)
      requires b.Untouched() && b.localKappa == 0.0 && numberOfExploredStates == 0 && held == map[]
      requires b.c.problem.src.WellFormed() && b.c.problem.src.initial != [] && approx > 0.0
      modifies this, b
      ensures View() == Built(b.c, picks, power) && EachIsARound(b.c, picks, power) && |picks| <= rounds
      ensures finished
              <==> picks != [] && (View().base.work == [] || View().piHat <= View().windowPower / approx)
      ensures !finished ==> |picks| == rounds
      ensures forall k :: 0 < k < |picks| ==>
                var s := Built(b.c, picks[..k], power);
                s.base.work != [] && s.piHat > s.windowPower / approx
      ensures var e := Expansions(b.c, picks, power);
              numberOfExploredStates == e && windowPower == if e == 0 then 0.0 else power(e - 1)
      ensures forall states :: Encloses(b.c, states) && rounds >= |states| && rounds > 0 ==> finished
      ensures finished ==>
                QueueMass(View().base.recs, View().base.work)
                <= (if View().base.work == [] then 0.0
                    else View().windowPower / approx + (|b.c.problem.src.initial| - 1) as real)
    {
      hide IterativeModelBuilder.Snap, IterativeModelBuilder.Linked, Built, PInv, QueueMass, EachIsARound, Encloses;
      hide Expansions;
      Begin();
      BuiltNothing(b.c, power);
      picks := [];
      var hold, left := true, rounds;
      while (hold || (b.statesToExplore != [] && piHat > windowPower / approx)) && left > 0
        invariant fresh(b.stateMap.Values) && RunsBy(picks, power)
        invariant |picks| == rounds - left && (hold <==> picks == [])
        invariant hold ==> b.statesToExplore != []
        invariant EachIsARound(b.c, picks, power)
        invariant forall k :: 0 < k < |picks| ==> GoesOn(Built(b.c, picks[..k], power), approx)
        decreases left
      {
        b.WorkMatches();
        ghost var before := picks;
        assert before != [] ==> GoesOn(Built(b.c, before, power), approx);
        hold := false;
        picks := ExploreAfter(picks, power);
        MoreRounds(b.c, before, picks, power, approx);
        left := left - 1;
      }
      finished := !hold && !(b.statesToExplore != [] && piHat > windowPower / approx);
      b.WorkMatches();
      forall states | Encloses(b.c, states) && rounds >= |states| && rounds > 0 ensures finished {
        if !finished {
          EnoughRoundsFinish(b.c, picks, power, states);
        }
      }
      if finished {
        FrontierIsSmall(b.c, picks, power, approx);
      }
      BuiltCounts(b.c, picks, power);
    }
  }

  // The guard of the loop after the first round
  predicate GoesOn(s: PState, approx: real)
    requires approx > 0.0
  {
    s.base.work != [] && s.piHat > s.windowPower / approx
  }

  lemma MoreRounds(c: Config, before: seq<nat>, picks: seq<nat>, power: nat -> real, approx: real)
    requires c.problem.src.WellFormed() && approx > 0.0 && EachIsARound(c, before, power)
    requires |picks| == |before| + 1 && picks == before + [picks[|before|]]
    requires picks[|before|] < |Built(c, before, power).base.work|
    requires forall k :: 0 < k < |before| ==> GoesOn(Built(c, before[..k], power), approx)
    requires before != [] ==> GoesOn(Built(c, before, power), approx)
    ensures EachIsARound(c, picks, power)
    ensures forall k :: 0 < k < |picks| ==> GoesOn(Built(c, picks[..k], power), approx)
  {
    hide Built, GoesOn;
    assert picks[..|before|] == before;
    forall k | 0 <= k < |before| ensures picks[..k] == before[..k] {
    }
  }

  lemma StartWork(c: Config)
    requires c.problem.src.WellFormed() && c.problem.src.initial != []
    ensures Start(c, 0.0).work != []
  {
    StartSums(c, 0.0, c.problem.src.initial);
  }

  lemma EntriesWithout(queue: seq<Item>, k: nat)
    requires k < |queue|
    ensures Entries(queue[..k] + queue[k + 1..]) == Entries(queue)[..k] + Entries(queue)[k + 1..]
  {
    hide Entries;
    var shorter := queue[..k] + queue[k + 1..];
    forall j | 0 <= j < |shorter| ensures Entries(shorter)[j] == (Entries(queue)[..k] + Entries(queue)[k + 1..])[j] {
      assert shorter[j] == queue[if j < k then j else j + 1];
    }
  }

  lemma PropagateKeepsTerminal(n: Snapshot, cur: nat, e: Edge, enqueueAll: bool, total: real, i: nat)
    requires cur in n.recs && e.to in n.ids && i in n.recs && (enqueueAll || total != 0.0)
    ensures i in Propagate(n, cur, e, enqueueAll, total).recs
    ensures Propagate(n, cur, e, enqueueAll, total).recs[i].terminal == n.recs[i].terminal
  {
  }

  ghost predicate RowGoesToStates(n: Snapshot, es: seq<Edge>) {
    forall j :: 0 <= j < |es| ==> es[j].to in n.ids && n.ids[es[j].to] in n.recs
  }

  lemma SuccessorsGoToStates(c: Config, n: Snapshot, e: Entry)
    requires Expanding(c, n, e) && Successors(c, n.ids, c.Succ(e.state))
    ensures RowGoesToStates(n, c.Succ(e.state)) && AllKnown(n.ids, c.Succ(e.state))
  {
    forall j | 0 <= j < |c.Succ(e.state)|
      ensures c.Succ(e.state)[j].to in n.ids && n.ids[c.Succ(e.state)[j].to] in n.recs
    {
      SuccessorRegistered(c, n, e, j);
    }
  }

  lemma PPropagateAllUnfold(s: PState, cur: nat, es: seq<Edge>, j: nat, enqueueAll: bool, total: real)
    requires cur in s.base.recs && j <= |es| && AllKnown(s.base.ids, es) && (enqueueAll || total != 0.0)
    ensures PPropagateAll(s, cur, es[..0], enqueueAll, total) == s
    ensures PPropagateAll(s, cur, es[..j], enqueueAll, total).base.ids == s.base.ids
    ensures cur in PPropagateAll(s, cur, es[..j], enqueueAll, total).base.recs
    ensures j < |es| ==>
              PPropagateAll(s, cur, es[..j + 1], enqueueAll, total)
              == PPropagate(PPropagateAll(s, cur, es[..j], enqueueAll, total), cur, es[j], enqueueAll, total)
  {
    if j < |es| {
      assert es[..j + 1][..j] == es[..j] && es[..j + 1][j] == es[j];
    }
  }

  // The rate matters only if probability is moved
  lemma PPropagateRate(s: PState, cur: nat, e: Edge, enqueueAll: bool, total: real, total': real)
    requires cur in s.base.recs && e.to in s.base.ids && (enqueueAll || (total == total' && total != 0.0))
    ensures PPropagate(s, cur, e, enqueueAll, total) == PPropagate(s, cur, e, enqueueAll, total')
  {
  }

  lemma PrimedParts(c: Config, s: PState, e: Entry)
    requires Primed(c, s.base, e)
    ensures c.problem.src.WellFormed() && Ready(c, s.base, e) && e.index in s.base.recs && c.Succ(e.state) != []
    ensures var b := CallBack(c, s.base, e);
            && Expanding(c, b, e) && Successors(c, b.ids, c.Succ(e.state))
  {
    CallBackEffect(c, s.base, e);
  }

  lemma PDistributeIs(c: Config, s: PState, e: Entry)
    requires Primed(c, s.base, e)
    ensures var m := CallBack(c, s.base, e);
            && Successors(c, m.ids, c.Succ(e.state)) && Exit(c.Succ(e.state)) > 0.0
            && PDistribute(c, s, e)
               == PPropagateAll(s.(base := m), e.index, c.Succ(e.state),
                                m.recs[e.index].pi == 0.0, Exit(c.Succ(e.state)))
  {
    CallBackEffect(c, s.base, e);
    PRegisterAllIsRegisterAll(s.base, e.index, c.Succ(e.state));
    assert c.problem.src.PositiveRates(e.state);
    ExitNonNegative(c.Succ(e.state));
  }

  lemma TopIsOk(c: Config, s: PState, j: nat)
    requires PInv(c, s) && j < |s.base.work|
    ensures s.base.work[j].index != 0
  {
    assert EntryOk(s.base, s.base.work[j]);
  }

  lemma BuiltNothing(c: Config, power: nat -> real)
    requires c.problem.src.WellFormed()
    ensures Built(c, [], power) == PStart(c) && PInv(c, PStart(c)) && EachIsARound(c, [], power)
  {
    PStartKeeps(c);
  }

  lemma BuiltMore(c: Config, picks: seq<nat>, j: nat, power: nat -> real)
    requires c.problem.src.WellFormed() && j < |Built(c, picks, power).base.work|
    ensures PInv(c, Built(c, picks, power))
            && Built(c, picks, power).base.work[j].index in Built(c, picks, power).base.recs
    ensures Built(c, picks + [j], power) == PStep(c, Built(c, picks, power), j, power)
    ensures PInv(c, Built(c, picks + [j], power))
  {
    hide PInv, PStep;
    PStartKeeps(c);
    assert (picks + [j])[..|picks|] == picks;
    PStepKeeps(c, Built(c, picks, power), j, power);
  }
}
