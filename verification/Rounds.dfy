/** One round of the exploration loop, told by the chain and the record of the state it treats. */
module Rounds {
  import opened SourceChain
  import opened TruncatedModel
  import opened Exploration
  import opened Invariant
  import opened Iterations
  import opened ReExploring
  import opened Callbacks

  ghost predicate SameRowsBut(a: Snapshot, b: Snapshot, i: nat) {
    forall k: nat :: k != i ==> Row(a.table, k) == Row(b.table, k)
  }

  // The state whose turn it is decides the property, and property refinement is on
  predicate MeetsDecided(c: Config, n: Snapshot)
    requires n.work != []
  {
    c.refine && !c.problem.Live(n.work[0].state)
  }

  // Its probability is below the threshold, and it was not expanded
  predicate MeetsSmall(n: Snapshot)
    requires n.work != [] && n.work[0].index in n.recs
  {
    n.recs[n.work[0].index].terminal && n.recs[n.work[0].index].pi < n.kappa
  }

  lemma FrontState(c: Config, n: Snapshot)
    requires Valid(c, n) && n.work != []
    ensures c.problem.src.WellFormed() && EntryOk(n, n.work[0]) && StateOk(c, n, n.work[0], 0)
  {
    assert EntryOk(n, n.work[0]);
    assert Known(c.problem, n.ids, n.work[0].state);
  }

  /** A state that decides the property gets a self-loop as its row and is terminal. */
  lemma DecidedRound(c: Config, n: Snapshot)
    requires Valid(c, n) && n.work != [] && MeetsDecided(c, n)
    ensures EntryOk(n, n.work[0])
    ensures var i, m := n.work[0].index, Step(c, n);
            && m == n.(work := n.work[1..], recs := n.recs[i := n.recs[i].(terminal := true)], table := m.table,
                       numberTerminal := n.numberTerminal + 1)
            && Row(m.table, i) == SelfLoop(i) && SameRowsBut(n, m, i)
  {
    hide Valid;
    var e := n.work[0];
    FrontState(c, n);
    CreateRow(n.table, e.index, e.index, 1.0);
    assert [] + SelfLoop(e.index) == SelfLoop(e.index);
  }

  /** A terminal state below the threshold is flagged and, unless it was flagged, appended to the
      perimeter queue. */
  lemma SmallRound(c: Config, n: Snapshot)
    requires Valid(c, n) && n.work != [] && !MeetsDecided(c, n)
    ensures EntryOk(n, n.work[0])
    ensures MeetsSmall(n) ==>
              var e := n.work[0];
              Step(c, n) == n.(work := n.work[1..], recs := n.recs[e.index := n.recs[e.index].(inQueue := true)],
                               perimeter := if n.recs[e.index].inQueue then n.perimeter else n.perimeter + [e])
  {
    assert EntryOk(n, n.work[0]);
  }

  /** A state without successors gets a self-loop and is a deadlock from now on. */
  lemma DeadlockRound(c: Config, n: Snapshot)
    requires Valid(c, n) && n.work != [] && !MeetsDecided(c, n) && c.Succ(n.work[0].state) == []
    ensures EntryOk(n, n.work[0])
    ensures !MeetsSmall(n) ==>
              var i, m := n.work[0].index, Step(c, n);
              && m == n.(work := n.work[1..],
                         recs := n.recs[i := n.recs[i].(inQueue := false, deadlock := true)], table := m.table,
                         deadlocks := if n.recs[i].deadlock then n.deadlocks else n.deadlocks + [i])
              && Row(m.table, i) == SelfLoop(i) && SameRowsBut(n, m, i)
  {
    hide Valid;
    var e := n.work[0];
    FrontState(c, n);
    CreateRow(n.table, e.index, e.index, 1.0);
    assert [] + SelfLoop(e.index) == SelfLoop(e.index);
  }

  /** Any other state is expanded: it has given everything away and is no longer terminal, all its
      successors are registered, its row has an entry for each of them, and what it does not lead to
      keeps its record, its row and its place. */
  ghost predicate Expansion(c: Config, n: Snapshot, e: Entry, m: Snapshot)
    requires e.index in n.recs
  {
    && e.index in m.recs
    && m.recs[e.index] == n.recs[e.index].(pi := 0.0, terminal := false, isNew := false, inQueue := false,
                                           lastSeen := m.recs[e.index].lastSeen)
    && SubNumbering(n.ids, m.ids)
    && AllKnown(m.ids, c.Succ(e.state))
    && Row(m.table, e.index) == KnownPart(m.ids, e.index, c.Succ(e.state))
    && SameRowsBut(n, m, e.index)
    && m.perimeter == n.perimeter && m.deadlocks == n.deadlocks
    && m.kappa == n.kappa && m.iteration == n.iteration
  }

  lemma FinishExpands(c: Config, n: Snapshot, b: Snapshot, d: Snapshot, e: Entry)
    requires EntryOk(n, e) && e.index in n.recs && Registered(Unflagged(n, e.index), b)
    requires Expanding(c, b, e) && AllKnown(b.ids, c.Succ(e.state)) && Propagated(b, d, e.index, c.Succ(e.state))
    ensures Expansion(c, n, e, Finish(d, e.index))
  {
    assert Unflagged(n, e.index).recs[e.index] == n.recs[e.index].(inQueue := false);
  }

  lemma ExpandedRound(c: Config, n: Snapshot)
    requires Valid(c, n) && n.work != [] && !MeetsDecided(c, n) && c.Succ(n.work[0].state) != []
    ensures EntryOk(n, n.work[0])
    ensures !MeetsSmall(n) ==> Expansion(c, n, n.work[0], Step(c, n))
  {
    hide Expand, Valid;
    FrontIsReady(c, n);
    if !MeetsSmall(n) {
      ExpandExpands(c, Pop(n), n.work[0]);
      ExpansionIgnoresWork(c, n, Pop(n), n.work[0], Step(c, n));
    }
  }

  lemma ExpansionIgnoresWork(c: Config, n: Snapshot, n': Snapshot, e: Entry, m: Snapshot)
    requires n' == n.(work := n'.work) && e.index in n.recs && Expansion(c, n', e, m)
    ensures Expansion(c, n, e, m)
  {
  }

  lemma ExpandExpands(c: Config, n: Snapshot, e: Entry)
    requires Ready(c, n, e)
    ensures Expansion(c, n, e, Expand(c, n, e))
  {
    hide CallBack, Distribute, Expanding, Ready, Registered, Propagated, Expansion, Finish;
    ReadyParts(c, n, e);
    var b := CallBack(c, n, e);
    CallBackEffect(c, n, e);
    DistributeEffect(c, b, e);
    FinishExpands(c, n, b, Distribute(c, b, e), e);
  }

  lemma ReadyParts(c: Config, n: Snapshot, e: Entry)
    requires Ready(c, n, e)
    ensures EntryOk(n, e) && c.Succ(e.state) != [] && c.problem.src.WellFormed()
  {
  }

  /** The record of a state other than the expanded one: a successor is marked as seen, or gets its
      record now; any other state is as before, with its probability. */
  ghost predicate Marks(n: Snapshot, m: Snapshot, es: seq<Edge>, t: CompressedState) {
    t in m.ids && m.ids[t] in m.recs ==>
      var i := m.ids[t];
      if !Among(es, t) then i in n.recs && m.recs[i] == n.recs[i]
      else if t in n.ids then i in n.recs && m.recs[i] == n.recs[i].(lastSeen := n.iteration, pi := m.recs[i].pi)
      else m.recs[i] == Record(m.recs[i].pi, true, n.iteration, true, false, false)
  }

  /** What an expansion does to the numbering, the worklist, the other records and the counter. */
  ghost predicate Visits(c: Config, n: Snapshot, e: Entry, m: Snapshot)
    requires e.index in n.recs
  {
    var es := c.Succ(e.state);
    && Numbers(n.ids, m.ids, es)
    && n.work <= m.work && Enqueues(n, m.ids, es, m.work[|n.work|..])
    && (forall t :: t != e.state ==> Marks(n, m, es, t))
    && e.index in m.recs
    && m.recs[e.index].lastSeen == (if Among(es, e.state) then n.iteration else n.recs[e.index].lastSeen)
    && var count := n.numberTerminal + |m.ids| - |n.ids|;
       m.numberTerminal == if n.recs[e.index].terminal && count > 0 then count - 1 else count
  }

  lemma FinishMarks(c: Config, n: Snapshot, b: Snapshot, d: Snapshot, e: Entry, t: CompressedState)
    requires EntryOk(n, e) && Meets(Unflagged(n, e.index), b, c.Succ(e.state), t) && t != e.state
    requires EntryOk(b, e) && ProperNumbering(c.problem, b.ids) && SubNumbering(n.ids, b.ids)
    requires forall s :: Known(c.problem, n.ids, s) ==> n.ids[s] in n.recs
    requires Propagated(b, d, e.index, c.Succ(e.state)) && b.ids[c.problem.src.Absorbing()] !in b.recs
    requires t in b.ids && b.ids[t] in b.recs && !Among(c.Succ(e.state), t) ==>
               d.recs[b.ids[t]].pi == b.recs[b.ids[t]].pi
    ensures Marks(n, Finish(d, e.index), c.Succ(e.state), t)
  {
    var u := Unflagged(n, e.index);
    if t in b.ids && b.ids[t] in b.recs {
      assert Known(c.problem, b.ids, t);
      assert b.ids[t] != e.index;
      assert d.recs[b.ids[t]] == b.recs[b.ids[t]].(pi := d.recs[b.ids[t]].pi);
      assert t in n.ids ==> u.recs[n.ids[t]] == n.recs[n.ids[t]];
    }
  }

  lemma NotAmongKeepsPi(c: Config, b: Snapshot, e: Entry, t: CompressedState)
    requires c.problem.src.WellFormed() && Expanding(c, b, e) && Successors(c, b.ids, c.Succ(e.state))
    requires t in b.ids && b.ids[t] in b.recs && !Among(c.Succ(e.state), t)
    ensures Distribute(c, b, e).recs[b.ids[t]].pi == b.recs[b.ids[t]].pi
  {
    var es := c.Succ(e.state);
    assert c.problem.src.PositiveRates(e.state);
    ExitNonNegative(es);
    assert AllKnown(b.ids, es) && ProperNumbering(c.problem, b.ids);
    forall j | 0 <= j < |es| ensures b.ids[es[j].to] != b.ids[t] {
      assert es[j].to in b.ids;
    }
    PropagateElsewhere(b, e.index, es, b.recs[e.index].pi == 0.0, Exit(es), b.ids[t]);
  }

  lemma CallBackIsExact(c: Config, n: Snapshot, e: Entry)
    requires Ready(c, n, e)
    ensures Called(Unflagged(n, e.index), CallBack(c, n, e), c.Succ(e.state))
  {
    hide Called, Expanding, Inv, Charged;
    NoMassIsClosed(c, n, e);
    RegisterAllIsExact(c, Unflagged(n, e.index), e, c.Succ(e.state));
  }

  lemma ExpandingParts(c: Config, n: Snapshot, e: Entry)
    requires Expanding(c, n, e)
    ensures EntryOk(n, e) && ProperNumbering(c.problem, n.ids) && n.ids[c.problem.src.Absorbing()] !in n.recs
  {
  }

  lemma KnownHaveRecords(c: Config, n: Snapshot, e: Entry)
    requires Ready(c, n, e)
    ensures forall s :: Known(c.problem, n.ids, s) ==> n.ids[s] in n.recs
  {
  }

  lemma EnqueuesUnflagged(n: Snapshot, i: nat, ids: Numbering, es: seq<Edge>, added: seq<Entry>)
    requires i in n.recs && Enqueues(Unflagged(n, i), ids, es, added)
    ensures Enqueues(n, ids, es, added)
  {
    assert forall t :: Unmet(n, t) <==> Unmet(Unflagged(n, i), t);
  }

  /** The callbacks of an expansion and the loop over its successors, seen from outside. */
  lemma ExpandVisits(c: Config, n: Snapshot, e: Entry)
    requires Ready(c, n, e)
    ensures Visits(c, n, e, Expand(c, n, e))
  {
    hide CallBack, Distribute, Expanding, Ready, Registered, Enqueues, Numbers, Meets, Marks, Successors, Among;
    ReadyParts(c, n, e);
    CallBackEffect(c, n, e);
    CallBackIsExact(c, n, e);
    KnownHaveRecords(c, n, e);
    var es, u, b := c.Succ(e.state), Unflagged(n, e.index), CallBack(c, n, e);
    DistributeEffect(c, b, e);
    ExpandingParts(c, b, e);
    var d := Distribute(c, b, e);
    var m := Finish(d, e.index);
    EnqueuesUnflagged(n, e.index, b.ids, es, b.work[|n.work|..]);
    forall t | t != e.state ensures Marks(n, m, es, t) {
      ExpandMarks(c, n, e, t);
    }
    assert Meets(u, b, es, e.state);
    ExpandedMark(n, b, e, es);
  }

  lemma ExpandMarks(c: Config, n: Snapshot, e: Entry, t: CompressedState)
    requires Ready(c, n, e) && t != e.state
    ensures Marks(n, Expand(c, n, e), c.Succ(e.state), t)
  {
    hide CallBack, Distribute, Expanding, Ready, Registered, Enqueues, Numbers, Meets, Marks, Successors, Among, Finish;
    ReadyParts(c, n, e);
    CallBackEffect(c, n, e);
    CallBackIsExact(c, n, e);
    KnownHaveRecords(c, n, e);
    var es, b := c.Succ(e.state), CallBack(c, n, e);
    DistributeEffect(c, b, e);
    ExpandingParts(c, b, e);
    NumbersGrow(n.ids, b.ids, es);
    if t in b.ids && b.ids[t] in b.recs && !Among(es, t) {
      NotAmongKeepsPi(c, b, e, t);
    }
    assert Meets(Unflagged(n, e.index), b, es, t);
    FinishMarks(c, n, b, Distribute(c, b, e), e, t);
  }

  lemma NumbersGrow(a: Numbering, b: Numbering, es: seq<Edge>)
    requires Numbers(a, b, es)
    ensures SubNumbering(a, b)
  {
  }

  lemma ExpandedMark(n: Snapshot, b: Snapshot, e: Entry, es: seq<Edge>)
    requires EntryOk(n, e) && EntryOk(b, e) && Meets(Unflagged(n, e.index), b, es, e.state)
    ensures b.recs[e.index].lastSeen == (if Among(es, e.state) then n.iteration else n.recs[e.index].lastSeen)
    ensures b.recs[e.index].terminal == n.recs[e.index].terminal
  {
  }

  /** So in a round that expands a state exactly its successors that have no index get one, those that
      were not met in this iteration are put behind the rest of the worklist, both in their order, and
      nobody else is touched. */
  lemma RoundVisits(c: Config, n: Snapshot)
    requires Valid(c, n) && n.work != [] && !MeetsDecided(c, n) && c.Succ(n.work[0].state) != []
    ensures EntryOk(n, n.work[0])
    ensures !MeetsSmall(n) ==> Visits(c, n.(work := n.work[1..]), n.work[0], Step(c, n))
  {
    hide Expand, Valid, Ready, Visits;
    FrontIsReady(c, n);
    if !MeetsSmall(n) {
      assert Step(c, n) == Expand(c, Pop(n), n.work[0]);
      ExpandVisits(c, Pop(n), n.work[0]);
    }
  }

  // ----- Shares ------------------------------------------------------------------------------------------------

  lemma TargetsDiffer(c: Config, ids: Numbering, es: seq<Edge>, j: nat, k: nat)
    requires ProperNumbering(c.problem, ids) && Successors(c, ids, es) && j < |es| && k < |es| && j != k
    ensures ids[es[j].to] != ids[es[k].to]
  {
    assert es[j].to in ids && es[k].to in ids;
  }

  /** The loop over the successors es of the state with index cur may begin. */
  ghost predicate Giving(c: Config, n: Snapshot, cur: nat, es: seq<Edge>, total: real) {
    && Shape(c, n) && cur in n.recs && Successors(c, n.ids, es) && AllKnown(n.ids, es) && NonNegative(n) && total > 0.0
    && (n.recs[cur].isNew ==> Row(n.table, cur) == [])
  }

  lemma PropagatedShape(c: Config, n: Snapshot, m: Snapshot, cur: nat, es: seq<Edge>)
    requires Shape(c, n) && cur in n.recs && cur != 0 && Propagated(n, m, cur, es)
    ensures Shape(c, m)
  {
    forall j | 0 <= j < |m.work| ensures EntryOk(m, m.work[j]) {
      assert EntryOk(n, n.work[j]);
    }
    forall j | 0 <= j < |m.perimeter| ensures EntryOk(m, m.perimeter[j]) {
      assert EntryOk(n, n.perimeter[j]);
    }
  }

  // It may also begin with fewer successors, and after any of them the next may be treated
  lemma GivingRest(c: Config, n: Snapshot, cur: nat, es: seq<Edge>, total: real)
    requires Giving(c, n, cur, es, total) && es != []
    ensures Giving(c, n, cur, es[..|es| - 1], total)
    ensures var m := PropagateAll(n, cur, es[..|es| - 1], false, total);
            && m.ids == n.ids && m.recs.Keys == n.recs.Keys && Shape(c, m)
    ensures ProperNumbering(c.problem, n.ids) && Successors(c, n.ids, es)
  {
    hide PropagateAll;
    var rest := es[..|es| - 1];
    assert Successors(c, n.ids, rest);
    PropagateAllEffect(c, n, cur, rest, false, total);
    PropagatedShape(c, n, PropagateAll(n, cur, rest, false, total), cur, rest);
  }

  lemma {:induction false} PropagateElsewhere(n: Snapshot, cur: nat, es: seq<Edge>, enqueueAll: bool, total: real,
                                              i: nat)
    requires cur in n.recs && AllKnown(n.ids, es) && (enqueueAll || total != 0.0) && i in n.recs
    requires enqueueAll || forall j :: 0 <= j < |es| ==> n.ids[es[j].to] != i
    ensures PropagateAll(n, cur, es, enqueueAll, total).recs[i].pi == n.recs[i].pi
  {
    if es != [] {
      var rest := es[..|es| - 1];
      forall j | 0 <= j < |rest| ensures rest[j].to in n.ids && (enqueueAll || n.ids[rest[j].to] != i) {
        assert rest[j] == es[j];
      }
      PropagateElsewhere(n, cur, rest, enqueueAll, total, i);
    }
  }

  // What one state has to give to the next of its successors, if its own edge is number loop
  function Carried(pi: real, es: seq<Edge>, loop: nat, total: real): real
    requires total != 0.0
  {
    if loop < |es| then pi + pi * es[loop].rate / total else pi
  }

  // Edge number loop is the only one that leads back to index i; behind the end there is none
  ghost predicate LoopIs(ids: Numbering, es: seq<Edge>, i: nat, loop: nat)
    requires AllKnown(ids, es)
  {
    forall j :: 0 <= j < |es| ==> (ids[es[j].to] == i <==> j == loop)
  }

  lemma ShareIs(pi: real, rate: real, total: real)
    requires total != 0.0
    ensures Times(pi, Share(rate, total)) == pi * rate / total
  {
    var x := rate / total;
    assert pi * x == pi * rate / total by {
      assert pi * x * total == pi * rate;
    }
  }

  lemma LoopOfRest(ids: Numbering, es: seq<Edge>, i: nat, loop: nat)
    requires es != [] && AllKnown(ids, es) && LoopIs(ids, es, i, loop)
    ensures AllKnown(ids, es[..|es| - 1]) && LoopIs(ids, es[..|es| - 1], i, loop)
  {
    var rest := es[..|es| - 1];
    forall j | 0 <= j < |rest| ensures rest[j].to in ids && (ids[rest[j].to] == i <==> j == loop) {
      assert rest[j] == es[j] && es[j].to in ids;
    }
  }

  lemma PropagateOne(c: Config, m: Snapshot, cur: nat, es: seq<Edge>, total: real, i: nat)
    requires Shape(c, m) && Successors(c, m.ids, es) && es != [] && cur in m.recs && i in m.recs && total != 0.0
    ensures Propagate(m, cur, es[|es| - 1], false, total).recs[i].pi
            == m.recs[i].pi
               + (if m.ids[es[|es| - 1].to] == i then m.recs[cur].pi * es[|es| - 1].rate / total else 0.0)
  {
    var e := es[|es| - 1];
    assert e.to in m.ids && Known(c.problem, m.ids, e.to);
    ShareIs(m.recs[cur].pi, e.rate, total);
  }

  lemma {:induction false} CarriedIs(c: Config, n: Snapshot, cur: nat, es: seq<Edge>, total: real, loop: nat)
    requires Giving(c, n, cur, es, total) && LoopIs(n.ids, es, cur, loop)
    ensures PropagateAll(n, cur, es, false, total).recs[cur].pi == Carried(n.recs[cur].pi, es, loop, total)
  {
    hide Propagate, Shape, Successors, NonNegative;
    if es != [] {
      var e, rest := es[|es| - 1], es[..|es| - 1];
      GivingRest(c, n, cur, es, total);
      LoopOfRest(n.ids, es, cur, loop);
      CarriedIs(c, n, cur, rest, total, loop);
      PropagateOne(c, PropagateAll(n, cur, rest, false, total), cur, es, total, cur);
      assert loop < |es| - 1 ==> rest[loop] == es[loop];
    }
  }

  /** What the target of edge j gets is in proportion to the rate of that edge; a self-loop among the
      edges before it raises what there is to give. */
  lemma {:induction false} SharesAreExact(c: Config, n: Snapshot, cur: nat, es: seq<Edge>, total: real, loop: nat,
                                          j: nat)
    requires Giving(c, n, cur, es, total) && LoopIs(n.ids, es, cur, loop)
    requires j < |es| && j != loop && n.ids[es[j].to] in n.recs
    ensures PropagateAll(n, cur, es, false, total).recs[n.ids[es[j].to]].pi
            == n.recs[n.ids[es[j].to]].pi + Carried(n.recs[cur].pi, es[..j], loop, total) * es[j].rate / total
  {
    hide Propagate, Shape, Successors, NonNegative, LoopIs;
    var e, rest := es[|es| - 1], es[..|es| - 1];
    GivingRest(c, n, cur, es, total);
    LoopOfRest(n.ids, es, cur, loop);
    PropagateOne(c, PropagateAll(n, cur, rest, false, total), cur, es, total, n.ids[es[j].to]);
    if j == |es| - 1 {
      forall k | 0 <= k < |rest| ensures n.ids[rest[k].to] != n.ids[e.to] {
        TargetsDiffer(c, n.ids, es, k, j);
      }
      PropagateElsewhere(n, cur, rest, false, total, n.ids[e.to]);
      CarriedIs(c, n, cur, rest, total, loop);
    } else {
      assert rest[j] == es[j] && rest[..j] == es[..j];
      SharesAreExact(c, n, cur, rest, total, loop, j);
      TargetsDiffer(c, n.ids, es, j, |es| - 1);
    }
  }

  // What a state held before it was registered is nothing
  function HeldBefore(n: Snapshot, t: CompressedState): real {
    if t in n.ids && n.ids[t] in n.recs then n.recs[n.ids[t]].pi else 0.0
  }

  // The part of edge j
  function Portion(pi: real, es: seq<Edge>, loop: nat, j: nat): real
    requires j < |es| && Exit(es) > 0.0
  {
    Carried(pi, es[..j], loop, Exit(es)) * es[j].rate / Exit(es)
  }

  lemma DistributeShares(c: Config, b: Snapshot, e: Entry, loop: nat, j: nat)
    requires c.problem.src.WellFormed() && Expanding(c, b, e) && Successors(c, b.ids, c.Succ(e.state))
    requires LoopIs(b.ids, c.Succ(e.state), e.index, loop) && j < |c.Succ(e.state)| && j != loop
    ensures var es := c.Succ(e.state);
            && Exit(es) > 0.0 && b.ids[es[j].to] in b.recs && b.ids[es[j].to] != e.index
            && Distribute(c, b, e).recs[b.ids[es[j].to]].pi
               == b.recs[b.ids[es[j].to]].pi + Portion(b.recs[e.index].pi, es, loop, j)
  {
    hide PropagateAll, Carried, Exit, Portion;
    var es, total := c.Succ(e.state), Exit(c.Succ(e.state));
    assert c.problem.src.PositiveRates(e.state);
    ExitNonNegative(es);
    RecordsNonNegative(c, b, e);
    assert es[j].to in b.ids && Known(c.problem, b.ids, es[j].to);
    if b.recs[e.index].pi == 0.0 {
      PropagateElsewhere(b, e.index, es, true, total, b.ids[es[j].to]);
      NoPortion(es, loop, j);
    } else {
      SharesAreExact(c, b, e.index, es, total, loop, j);
      PortionIs(b.recs[e.index].pi, es, loop, j);
    }
  }

  lemma PortionIs(pi: real, es: seq<Edge>, loop: nat, j: nat)
    requires j < |es| && Exit(es) > 0.0
    ensures Portion(pi, es, loop, j) == Carried(pi, es[..j], loop, Exit(es)) * es[j].rate / Exit(es)
  {
    hide Carried, Exit;
  }

  lemma NoPortion(es: seq<Edge>, loop: nat, j: nat)
    requires j < |es| && Exit(es) > 0.0
    ensures Portion(0.0, es, loop, j) == 0.0
  {
    CarriedNothing(es[..j], loop, Exit(es), es[j].rate);
  }

  lemma CarriedNothing(es: seq<Edge>, loop: nat, total: real, rate: real)
    requires total != 0.0
    ensures Carried(0.0, es, loop, total) * rate / total == 0.0
  {
    if loop < |es| {
      assert 0.0 * es[loop].rate == 0.0;
    }
  }

  lemma CallBackHolds(c: Config, n: Snapshot, e: Entry, j: nat)
    requires Ready(c, n, e) && j < |c.Succ(e.state)|
    ensures var b, t := CallBack(c, n, e), c.Succ(e.state)[j].to;
            && t in b.ids && b.ids[t] in b.recs && b.recs[e.index].pi == n.recs[e.index].pi
            && (t != e.state ==> b.recs[b.ids[t]].pi == HeldBefore(n, t))
  {
    CallBackEffect(c, n, e);
    var b, u, t := CallBack(c, n, e), Unflagged(n, e.index), c.Succ(e.state)[j].to;
    assert Registered(u, b) && t in b.ids;
    assert b.recs[e.index].pi == u.recs[e.index].pi == n.recs[e.index].pi;
    if t in n.ids {
      assert b.ids[t] == n.ids[t] && Known(c.problem, b.ids, t);
      assert n.ids[t] in n.recs && u.recs.Keys == n.recs.Keys;
      assert u.recs[n.ids[t]].pi == n.recs[n.ids[t]].pi;
    }
  }

  lemma CallBackLoop(c: Config, n: Snapshot, e: Entry, loop: nat)
    requires Ready(c, n, e)
    requires forall k :: 0 <= k < |c.Succ(e.state)| ==> (c.Succ(e.state)[k].to == e.state <==> k == loop)
    ensures AllKnown(CallBack(c, n, e).ids, c.Succ(e.state))
    ensures LoopIs(CallBack(c, n, e).ids, c.Succ(e.state), e.index, loop)
  {
    CallBackEffect(c, n, e);
    var b := CallBack(c, n, e);
    assert Expanding(c, b, e) && EntryOk(b, e) && ProperNumbering(c.problem, b.ids);
    forall k | 0 <= k < |c.Succ(e.state)| ensures b.ids[c.Succ(e.state)[k].to] == e.index <==> k == loop {
      assert c.Succ(e.state)[k].to in b.ids;
    }
  }

  lemma ExpandShares(c: Config, n: Snapshot, e: Entry, loop: nat, j: nat)
    requires Ready(c, n, e) && j < |c.Succ(e.state)| && j != loop
    requires forall k :: 0 <= k < |c.Succ(e.state)| ==> (c.Succ(e.state)[k].to == e.state <==> k == loop)
    ensures var es, m := c.Succ(e.state), Expand(c, n, e);
            && Exit(es) > 0.0 && es[j].to in m.ids && m.ids[es[j].to] in m.recs
            && m.recs[m.ids[es[j].to]].pi
               == HeldBefore(n, es[j].to) + Portion(n.recs[e.index].pi, es, loop, j)
  {
    hide CallBack, Distribute, Ready, Expanding, Successors, LoopIs, HeldBefore, Portion, Finish, Exit, Registered;
    ReadyParts(c, n, e);
    var b, es := CallBack(c, n, e), c.Succ(e.state);
    CallBackEffect(c, n, e);
    CallBackLoop(c, n, e, loop);
    CallBackHolds(c, n, e, j);
    DistributeShares(c, b, e, loop, j);
    ExpandIsFinish(c, n, e, b.ids[es[j].to]);
  }

  lemma ExpandIsFinish(c: Config, n: Snapshot, e: Entry, i: nat)
    requires Ready(c, n, e) && i in CallBack(c, n, e).recs && i != e.index
    ensures c.problem.src.WellFormed() && Successors(c, CallBack(c, n, e).ids, c.Succ(e.state))
    ensures var m, d := Expand(c, n, e), Distribute(c, CallBack(c, n, e), e);
            m.ids == CallBack(c, n, e).ids && i in m.recs && i in d.recs && m.recs[i] == d.recs[i]
  {
    hide CallBack, Distribute, Ready, Expanding, Successors, Registered;
    ReadyParts(c, n, e);
    CallBackEffect(c, n, e);
    DistributeEffect(c, CallBack(c, n, e), e);
  }

  /** Probability goes out in proportion to the rates: a round that expands a state gives each of its
      other successors the share of its edge, and what stays in the state through a self-loop is given
      to the successors behind it. */
  lemma RoundShares(c: Config, n: Snapshot, loop: nat, j: nat)
    requires Valid(c, n) && n.work != [] && !MeetsDecided(c, n) && j < |c.Succ(n.work[0].state)| && j != loop
    requires forall k :: 0 <= k < |c.Succ(n.work[0].state)| ==>
               (c.Succ(n.work[0].state)[k].to == n.work[0].state <==> k == loop)
    ensures EntryOk(n, n.work[0])
    ensures !MeetsSmall(n) ==>
              var es, m := c.Succ(n.work[0].state), Step(c, n);
              && Exit(es) > 0.0 && es[j].to in m.ids && m.ids[es[j].to] in m.recs
              && m.recs[m.ids[es[j].to]].pi
                 == HeldBefore(n, es[j].to) + Portion(n.recs[n.work[0].index].pi, es, loop, j)
  {
    hide Expand, Valid, Portion, Ready;
    FrontIsReady(c, n);
    if !MeetsSmall(n) {
      assert Step(c, n) == Expand(c, Pop(n), n.work[0]);
      ExpandShares(c, Pop(n), n.work[0], loop, j);
    }
  }

  // ----- Between two iterations --------------------------------------------------------------------------------

  ghost predicate Flagged(n: Snapshot, e: Entry) {
    e.index in n.recs && n.recs[e.index].inQueue
  }

  /** Exactly the flagged entries of the queue, in their order. */
  ghost predicate TakesFlagged(n: Snapshot, queue: seq<Entry>, added: seq<Entry>) {
    && (forall e :: e in added <==> e in queue && Flagged(n, e))
    && (forall k, l :: 0 <= k < l < |added| ==> Follows(queue, added[k], added[l]))
  }

  ghost predicate Follows(queue: seq<Entry>, e: Entry, f: Entry) {
    forall i, j :: 0 <= i < |queue| && 0 <= j < |queue| && queue[i] == e && queue[j] == f ==> i < j
  }

  // No state has two entries
  ghost predicate OncePerState(queue: seq<Entry>) {
    forall j, k :: 0 <= j < k < |queue| ==> queue[j].index != queue[k].index
  }

  lemma FollowsLater(queue: seq<Entry>, e: Entry, f: Entry)
    requires queue != [] && OncePerState(queue) && Follows(queue[1..], e, f) && e in queue[1..] && f in queue[1..]
    ensures Follows(queue, e, f)
  {
    var rest := queue[1..];
    forall i, j | 0 <= i < |queue| && 0 <= j < |queue| && queue[i] == e && queue[j] == f ensures i < j {
      var k :| 0 <= k < |rest| && rest[k] == e;
      var l :| 0 <= l < |rest| && rest[l] == f;
      assert queue[k + 1] == e && queue[l + 1] == f;
      assert i > 0 && rest[i - 1] == e;
      assert j > 0 && rest[j - 1] == f;
    }
  }

  lemma FrontFollows(queue: seq<Entry>, f: Entry)
    requires queue != [] && OncePerState(queue) && f in queue[1..]
    ensures Follows(queue, queue[0], f)
  {
    var rest := queue[1..];
    var l :| 0 <= l < |rest| && rest[l] == f;
    assert queue[l + 1] == f;
  }

  lemma TakesOne(n: Snapshot, m: Snapshot, added: seq<Entry>)
    requires n.perimeter != [] && OncePerState(n.perimeter) && n.perimeter[0].index in n.recs && m == FlushOne(n)
    requires TakesFlagged(m, n.perimeter[1..], added)
    ensures TakesFlagged(n, n.perimeter, FrontIfFlagged(n) + added)
  {
    var e, rest := n.perimeter[0], n.perimeter[1..];
    var all := FrontIfFlagged(n) + added;
    assert n.perimeter == [e] + rest;
    forall f ensures f in all <==> f in n.perimeter && Flagged(n, f) {
      if f in rest {
        var k :| 0 <= k < |rest| && rest[k] == f;
        assert n.perimeter[k + 1] == f;
      }
    }
    forall k, l | 0 <= k < l < |all| ensures Follows(n.perimeter, all[k], all[l]) {
      InOrderWithFront(n.perimeter, FrontIfFlagged(n), added, k, l);
    }
  }

  lemma InOrderWithFront(queue: seq<Entry>, first: seq<Entry>, added: seq<Entry>, k: nat, l: nat)
    requires queue != [] && OncePerState(queue) && (first == [] || first == [queue[0]])
    requires forall e :: e in added ==> e in queue[1..]
    requires forall i, j :: 0 <= i < j < |added| ==> Follows(queue[1..], added[i], added[j])
    requires k < l < |first + added|
    ensures Follows(queue, (first + added)[k], (first + added)[l])
  {
    hide Follows, OncePerState;
    var all := first + added;
    assert all[l] == added[l - |first|] && all[l] in added;
    if k < |first| {
      FrontFollows(queue, all[l]);
    } else {
      assert all[k] == added[k - |first|] && all[k] in added;
      FollowsLater(queue, all[k], all[l]);
    }
  }

  /** The flush puts the flagged entries of the perimeter queue behind the worklist, in their order, and
      clears their flags; the other entries are dropped, and nothing else changes. */
  lemma {:induction false} FlushIsExact(c: Config, n: Snapshot) returns (added: seq<Entry>)
    requires Valid(c, n)
    ensures TakesFlagged(n, n.perimeter, added)
    ensures var m := Flush(c, n); m == n.(work := n.work + added, recs := m.recs, perimeter := [])
    ensures Flush(c, n).recs.Keys == n.recs.Keys
    ensures forall i: nat :: i in n.recs ==> Flush(c, n).recs[i] == AfterFlush(n, i)
    decreases |n.perimeter|
  {
    added := [];
    if n.perimeter == [] {
      FlushNothing(c, n);
    } else {
      hide Valid, Flush, FlushOne, TakesFlagged, OncePerState, AfterFlush, Flagged;
      PerimeterOnce(c, n);
      FlushOneKeepsValid(c, n);
      FlushUnfold(c, n);
      var later := FlushIsExact(c, FlushOne(n));
      FlushOneIs(n);
      TakesOne(n, FlushOne(n), later);
      added := FrontIfFlagged(n) + later;
      FlushJoins(n, FlushOne(n), Flush(c, n), later);
      forall i: nat | i in n.recs ensures Flush(c, n).recs[i] == AfterFlush(n, i) {
        AfterFlushOne(n, i);
      }
    }
  }

  function FrontIfFlagged(n: Snapshot): seq<Entry>
    requires n.perimeter != [] && n.perimeter[0].index in n.recs
  {
    if n.recs[n.perimeter[0].index].inQueue then [n.perimeter[0]] else []
  }

  lemma FlushJoins(n: Snapshot, m: Snapshot, r: Snapshot, later: seq<Entry>)
    requires n.perimeter != [] && n.perimeter[0].index in n.recs
    requires m == n.(perimeter := n.perimeter[1..], work := n.work + FrontIfFlagged(n), recs := m.recs)
    requires r == m.(work := m.work + later, recs := r.recs, perimeter := [])
    ensures r == n.(work := n.work + (FrontIfFlagged(n) + later), recs := r.recs, perimeter := [])
  {
    assert n.work + FrontIfFlagged(n) + later == n.work + (FrontIfFlagged(n) + later);
  }

  lemma AfterFlushOne(n: Snapshot, i: nat)
    requires n.perimeter != [] && n.perimeter[0].index in n.recs && i in n.recs
    ensures i in FlushOne(n).recs && AfterFlush(FlushOne(n), i) == AfterFlush(n, i)
  {
    OwesFront(n.perimeter, i);
  }

  lemma FlushNothing(c: Config, n: Snapshot)
    requires Valid(c, n) && n.perimeter == []
    ensures Flush(c, n) == n.(work := n.work + []) && TakesFlagged(n, n.perimeter, [])
    ensures forall i: nat :: i in n.recs ==> AfterFlush(n, i) == n.recs[i]
  {
    hide Valid;
    assert n.work + [] == n.work;
  }

  // The record of a state once its entry, if it has one, has left the perimeter queue
  ghost function AfterFlush(n: Snapshot, i: nat): Record
    requires i in n.recs
  {
    if Owes(n.perimeter, i) && n.recs[i].inQueue then n.recs[i].(inQueue := false, isNew := true) else n.recs[i]
  }

  // The queue has an entry for this index
  ghost predicate Owes(queue: seq<Entry>, i: nat) {
    exists k :: 0 <= k < |queue| && queue[k].index == i
  }

  lemma OwesFront(queue: seq<Entry>, i: nat)
    requires queue != []
    ensures Owes(queue, i) <==> queue[0].index == i || Owes(queue[1..], i)
  {
    var rest := queue[1..];
    if k :| 0 <= k < |queue| && queue[k].index == i {
      assert k > 0 ==> rest[k - 1].index == i;
    }
    if k :| 0 <= k < |rest| && rest[k].index == i {
      assert queue[k + 1].index == i;
    }
  }

  lemma PerimeterOnce(c: Config, n: Snapshot)
    requires Valid(c, n)
    ensures OncePerState(n.perimeter)
  {
  }

  lemma FlushUnfold(c: Config, n: Snapshot)
    requires Valid(c, n) && n.perimeter != []
    ensures n.perimeter[0].index in n.recs && Valid(c, FlushOne(n)) && Flush(c, n) == Flush(c, FlushOne(n))
  {
    hide FlushOne, Valid;
    FlushOneKeepsValid(c, n);
  }

  lemma FlushOneIs(n: Snapshot)
    requires n.perimeter != [] && n.perimeter[0].index in n.recs
    ensures var m := FlushOne(n);
            && m == n.(perimeter := n.perimeter[1..], work := m.work, recs := m.recs) && m.recs.Keys == n.recs.Keys
            && m.work == n.work + FrontIfFlagged(n)
  {
    assert n.work + [] == n.work;
  }
}
