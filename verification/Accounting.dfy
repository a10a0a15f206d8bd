/** Sums over the registered states that the exploration keeps or changes in a controlled way:
    the probability mass, the number of terminal states, and the number of states seen in the
    current iteration. */
module Accounting {
  import opened SourceChain
  import opened TruncatedModel
  import opened Exploration
  import opened Invariant

  datatype Measure = Mass | Terminals | TerminalMass | SeenIn(iteration: nat)

  function Amount(k: Measure, r: Record): real {
    match k
    case Mass => r.pi
    case Terminals => if r.terminal then 1.0 else 0.0
    case TerminalMass => if r.terminal then r.pi else 0.0
    case SeenIn(iteration) => if r.lastSeen == iteration then 1.0 else 0.0
  }

  /** The sum over the records with an index below size. */
  function Total(k: Measure, recs: map<nat, Record>, size: nat): real {
    if size == 0 then 0.0
    else Total(k, recs, size - 1) + (if size - 1 in recs then Amount(k, recs[size - 1]) else 0.0)
  }

  function AmountAt(k: Measure, recs: map<nat, Record>, i: nat): real {
    if i in recs then Amount(k, recs[i]) else 0.0
  }

  lemma {:induction false} TotalSame(k: Measure, a: map<nat, Record>, b: map<nat, Record>, size: nat)
    requires forall i: nat :: i < size ==> AmountAt(k, a, i) == AmountAt(k, b, i)
    ensures Total(k, a, size) == Total(k, b, size)
  {
    if size > 0 {
      assert AmountAt(k, a, size - 1) == AmountAt(k, b, size - 1);
      TotalSame(k, a, b, size - 1);
    }
  }

  /** Changing one record changes the sum by the difference of its amounts. */
  lemma {:induction false} TotalUpdate(k: Measure, recs: map<nat, Record>, i: nat, r: Record, size: nat)
    ensures Total(k, recs[i := r], size)
            == Total(k, recs, size) + (if i < size then Amount(k, r) - AmountAt(k, recs, i) else 0.0)
  {
    if size > 0 {
      TotalUpdate(k, recs, i, r, size - 1);
    }
  }

  lemma {:induction false} TotalBounds(k: Measure, recs: map<nat, Record>, size: nat)
    requires !k.Mass? && !k.TerminalMass? && 0 !in recs
    ensures 0.0 <= Total(k, recs, size) <= (if size == 0 then 0 else size - 1) as real
  {
    if size > 1 {
      TotalBounds(k, recs, size - 1);
    }
  }

  /** No single amount exceeds the sum. */
  lemma {:induction false} TotalCovers(k: Measure, recs: map<nat, Record>, size: nat, i: nat)
    requires forall j: nat :: j in recs ==> Amount(k, recs[j]) >= 0.0
    requires i < size
    ensures AmountAt(k, recs, i) <= Total(k, recs, size) && 0.0 <= Total(k, recs, size)
    decreases size
  {
    if i < size - 1 {
      TotalCovers(k, recs, size - 1, i);
    } else if size > 1 {
      TotalCovers(k, recs, size - 1, 0);
    }
  }

  /** The sum over all registered states. */
  function Sum(k: Measure, n: Snapshot): real {
    Total(k, n.recs, |n.ids|)
  }

  // ----- Registering -------------------------------------------------------------------------------

  lemma RegisterSum(c: Config, k: Measure, n: Snapshot, cur: nat, s: CompressedState)
    requires Shape(c, n) && cur in n.recs && s != c.problem.src.Absorbing()
    requires n.recs[cur].pi == 0.0 ==> s in n.ids
    ensures var m := Register(n, cur, s);
            match k
            case Mass => Sum(k, m) == Sum(k, n)
            case TerminalMass => Sum(k, m) == Sum(k, n)
            case Terminals => Sum(k, m) - m.numberTerminal as real == Sum(k, n) - n.numberTerminal as real
            case SeenIn(it) => it == n.iteration ==> Sum(k, m) - |m.work| as real == Sum(k, n) - |n.work| as real
  {
    var i, m := IndexFor(n.ids, s), Register(n, cur, s);
    assert s in n.ids ==> Known(c.problem, n.ids, s);
    assert s !in n.ids ==> i == |n.ids|;
    RegisterNumbering(c.problem, n.ids, s);
    if s in n.ids {
      assert m.ids == n.ids;
      TotalUpdate(k, n.recs, i, m.recs[i], |n.ids|);
    } else {
      assert m.recs == n.recs[i := m.recs[i]];
      TotalUpdate(k, n.recs, i, m.recs[i], |n.ids| + 1);
    }
  }

  lemma {:induction false} RegisterAllSum(c: Config, k: Measure, n: Snapshot, e: Entry, es: seq<Edge>)
    requires Expanding(c, n, e) && es <= c.Succ(e.state) && c.problem.src.AvoidsAbsorbing(e.state)
    requires n.recs[e.index].pi == 0.0 ==> AllKnown(n.ids, c.Succ(e.state))
    ensures var m := RegisterAll(n, e.index, es);
            match k
            case Mass => Sum(k, m) == Sum(k, n)
            case TerminalMass => Sum(k, m) == Sum(k, n)
            case Terminals => Sum(k, m) - m.numberTerminal as real == Sum(k, n) - n.numberTerminal as real
            case SeenIn(it) => it == n.iteration ==> Sum(k, m) - |m.work| as real == Sum(k, n) - |n.work| as real
  {
    hide Register, Sum;
    if es != [] {
      var m := RegisterAll(n, e.index, es[..|es| - 1]);
      RegisterAllSum(c, k, n, e, es[..|es| - 1]);
      RegisterAllKeepsExpanding(c, n, e, es[..|es| - 1]);
      assert c.Succ(e.state)[|es| - 1] == es[|es| - 1];
      RegisterSum(c, k, m, e.index, es[|es| - 1].to);
    }
  }

  /** Calling back neither moves probability nor miscounts, and everything it enqueues is marked. */
  lemma CallBackSum(c: Config, k: Measure, n: Snapshot, e: Entry)
    requires Ready(c, n, e)
    ensures var m := CallBack(c, n, e);
            match k
            case Mass => Sum(k, m) == Sum(k, n)
            case TerminalMass => Sum(k, m) == Sum(k, n)
            case Terminals => Sum(k, m) - m.numberTerminal as real == Sum(k, n) - n.numberTerminal as real
            case SeenIn(it) => it == n.iteration ==> Sum(k, m) - |m.work| as real == Sum(k, n) - |n.work| as real
  {
    NoMassIsClosed(c, n, e);
    assert c.problem.src.AvoidsAbsorbing(e.state);
    RegisterAllSum(c, k, Unflagged(n, e.index), e, c.Succ(e.state));
    TotalUpdate(k, n.recs, e.index, n.recs[e.index].(inQueue := false), |n.ids|);
  }

  // ----- Distributing ------------------------------------------------------------------------------

  ghost predicate SelfLoops(c: Config, s: CompressedState) {
    exists j :: 0 <= j < |c.Succ(s)| && c.Succ(s)[j].to == s
  }

  /** Moving probability leaves every count alone. */
  lemma DistributeCounts(c: Config, k: Measure, n: Snapshot, e: Entry)
    requires c.problem.src.WellFormed() && Expanding(c, n, e) && Successors(c, n.ids, c.Succ(e.state)) && !k.Mass?
             && !k.TerminalMass?
    ensures Sum(k, Distribute(c, n, e)) == Sum(k, n)
  {
    DistributeEffect(c, n, e);
    TotalSame(k, n.recs, Distribute(c, n, e).recs, |n.ids|);
  }

  lemma PropagateMass(c: Config, n: Snapshot, cur: nat, e: Edge, total: real)
    requires Shape(c, n) && cur in n.recs && Known(c.problem, n.ids, e.to) && total > 0.0
    ensures Sum(Mass, Propagate(n, cur, e, false, total)) == Sum(Mass, n) + Times(n.recs[cur].pi, Share(e.rate, total))
    ensures var m := Propagate(n, cur, e, false, total);
            m.recs[cur].pi
            == n.recs[cur].pi + (if n.ids[e.to] == cur then Times(n.recs[cur].pi, Share(e.rate, total)) else 0.0)
  {
    var i := n.ids[e.to];
    TotalUpdate(Mass, n.recs, i, n.recs[i].(pi := n.recs[i].pi + Times(n.recs[cur].pi, Share(e.rate, total))), |n.ids|);
  }

  /** What the loop over the edges es has given away of the probability pi.  Without a self-loop it
      is the share of es.  A self-loop makes the probability of the state itself grow in the middle
      of the loop, by the factor 1 + share, so that the edges behind it receive more. */
  ghost predicate GivenAway(pi: real, now: real, given: real, share: real, loop: real) {
    && 0.0 <= loop <= share
    && now == pi * (1.0 + loop)
    && given <= pi * (1.0 + loop) * (share - loop)
    && (loop == 0.0 ==> given == pi * share)
  }

  lemma NothingGiven(pi: real)
    ensures GivenAway(pi, pi, 0.0, 0.0, 0.0)
  {
  }

  lemma GiveToOther(pi: real, now: real, given: real, share: real, loop: real, more: real)
    requires GivenAway(pi, now, given, share, loop) && more > 0.0 && pi >= 0.0
    ensures GivenAway(pi, now, given + Times(now, more), share + more, loop)
  {
    assert pi * (1.0 + loop) * (share + more - loop) == pi * (1.0 + loop) * (share - loop) + now * more;
    assert loop == 0.0 ==> now == pi;
    assert pi * (share + more) == pi * share + pi * more;
  }

  lemma GiveToSelf(pi: real, now: real, given: real, share: real, more: real)
    requires GivenAway(pi, now, given, share, 0.0) && more > 0.0 && pi >= 0.0
    ensures GivenAway(pi, now + Times(now, more), given, share + more, more)
  {
    assert now == pi;
    assert now + Times(now, more) == pi * (1.0 + more);
    assert pi * (1.0 + more) * (share + more - more) == pi * share + pi * more * share;
    assert pi * more >= 0.0;
    assert pi * more * share >= 0.0;
  }

  /** The share of the self-loop among the edges. */
  function LoopShare(ids: Numbering, cur: nat, es: seq<Edge>, total: real): real
    requires total != 0.0
  {
    if es == [] then 0.0
    else
      var e := es[|es| - 1];
      LoopShare(ids, cur, es[..|es| - 1], total)
      + (if IndexOrAbsorbing(ids, e.to) == cur then Share(e.rate, total) else 0.0)
  }

  lemma {:induction false} NoLoopShare(ids: Numbering, cur: nat, es: seq<Edge>, total: real)
    requires total != 0.0 && forall j :: 0 <= j < |es| ==> IndexOrAbsorbing(ids, es[j].to) != cur
    ensures LoopShare(ids, cur, es, total) == 0.0
  {
    if es != [] {
      NoLoopShare(ids, cur, es[..|es| - 1], total);
    }
  }

  lemma DivideSum(x: real, y: real, total: real)
    requires total > 0.0
    ensures (x + y) / total == x / total + y / total
  {
    var a, b := x / total, y / total;
    assert a * total == x && b * total == y;
    assert (a + b) * total == x + y;
  }

  lemma SharePositive(rate: real, total: real)
    requires rate > 0.0 && total > 0.0
    ensures Share(rate, total) > 0.0
  {
  }

  lemma ShareOfExit(es: seq<Edge>, total: real)
    requires es != [] && total > 0.0
    ensures Share(Exit(es), total) == Share(Exit(es[..|es| - 1]), total) + Share(es[|es| - 1].rate, total)
  {
    DivideSum(Exit(es[..|es| - 1]), es[|es| - 1].rate, total);
  }

  lemma NoLoopBefore(c: Config, ids: Numbering, cur: nat, es: seq<Edge>, total: real)
    requires ProperNumbering(c.problem, ids) && es != [] && Successors(c, ids, es) && total > 0.0
    requires ids[es[|es| - 1].to] == cur
    ensures LoopShare(ids, cur, es[..|es| - 1], total) == 0.0
  {
    var rest := es[..|es| - 1];
    forall j | 0 <= j < |rest| ensures IndexOrAbsorbing(ids, rest[j].to) != cur {
      assert rest[j] == es[j] && es[j].to in ids && es[|es| - 1].to in ids;
    }
    NoLoopShare(ids, cur, rest, total);
  }

  // The probability outside of the state that is expanded
  function Elsewhere(n: Snapshot, cur: nat): real
    requires cur in n.recs
  {
    Sum(Mass, n) - n.recs[cur].pi
  }

  lemma PropagateGives(c: Config, n: Snapshot, m: Snapshot, cur: nat, es: seq<Edge>, total: real)
    requires Shape(c, m) && m.ids == n.ids && cur in m.recs && cur in n.recs
    requires es != [] && Successors(c, n.ids, es) && total > 0.0 && n.recs[cur].pi >= 0.0
    requires GivenAway(n.recs[cur].pi, m.recs[cur].pi, Elsewhere(m, cur) - Elsewhere(n, cur),
                       Share(Exit(es[..|es| - 1]), total), LoopShare(n.ids, cur, es[..|es| - 1], total))
    ensures var m' := Propagate(m, cur, es[|es| - 1], false, total);
            GivenAway(n.recs[cur].pi, m'.recs[cur].pi, Elsewhere(m', cur) - Elsewhere(n, cur),
                      Share(Exit(es), total), LoopShare(n.ids, cur, es, total))
  {
    hide Sum, Propagate, GivenAway, Share, Times;
    var pi, rest, e := n.recs[cur].pi, es[..|es| - 1], es[|es| - 1];
    assert e.to in n.ids && Known(c.problem, n.ids, e.to);
    PropagateMass(c, m, cur, e, total);
    ShareOfExit(es, total);
    var given, share, loop := Elsewhere(m, cur) - Elsewhere(n, cur), Share(Exit(rest), total),
        LoopShare(n.ids, cur, rest, total);
    SharePositive(e.rate, total);
    if n.ids[e.to] == cur {
      NoLoopBefore(c, n.ids, cur, es, total);
      GiveToSelf(pi, m.recs[cur].pi, given, share, Share(e.rate, total));
    } else {
      GiveToOther(pi, m.recs[cur].pi, given, share, loop, Share(e.rate, total));
    }
  }

  lemma PropagatedShape(c: Config, n: Snapshot, m: Snapshot, cur: nat, es: seq<Edge>)
    requires Shape(c, n) && cur in n.recs && cur != 0 && Propagated(n, m, cur, es)
    ensures Shape(c, m)
  {
    forall j | 0 <= j < |m.work| ensures EntryOk(m, m.work[j]) {
      assert EntryOk(n, n.work[j]);
    }
    forall j | 0 <= j < |m.perimeter| ensures EntryOk(m, m.perimeter[j]) {
      assert EntryOk(n, n.perimeter[j]);
    }
  }

  lemma {:induction false} PropagateAllMass(c: Config, n: Snapshot, cur: nat, es: seq<Edge>, total: real)
    requires Shape(c, n) && cur in n.recs && Successors(c, n.ids, es)
    requires NonNegative(n) && total > 0.0
    requires n.recs[cur].isNew ==> Row(n.table, cur) == []
    ensures var m := PropagateAll(n, cur, es, false, total);
            GivenAway(n.recs[cur].pi, m.recs[cur].pi, Elsewhere(m, cur) - Elsewhere(n, cur),
                      Share(Exit(es), total), LoopShare(n.ids, cur, es, total))
  {
    hide Sum, Propagate, GivenAway;
    if es == [] {
      assert Share(Exit(es), total) == 0.0;
      NothingGiven(n.recs[cur].pi);
    } else {
      var rest := es[..|es| - 1];
      PropagateAllMass(c, n, cur, rest, total);
      PropagateAllEffect(c, n, cur, rest, false, total);
      PropagatedShape(c, n, PropagateAll(n, cur, rest, false, total), cur, rest);
      PropagateGives(c, n, PropagateAll(n, cur, rest, false, total), cur, es, total);
    }
  }

  lemma {:induction false} LoopSharePositive(ids: Numbering, cur: nat, es: seq<Edge>, total: real)
    requires total > 0.0 && forall j :: 0 <= j < |es| ==> es[j].rate > 0.0
    ensures LoopShare(ids, cur, es, total) >= 0.0
    ensures (exists j :: 0 <= j < |es| && IndexOrAbsorbing(ids, es[j].to) == cur) ==>
              LoopShare(ids, cur, es, total) > 0.0
  {
    if es != [] {
      LoopSharePositive(ids, cur, es[..|es| - 1], total);
      SharePositive(es[|es| - 1].rate, total);
      if j :| 0 <= j < |es| && IndexOrAbsorbing(ids, es[j].to) == cur {
        assert j < |es| - 1 ==> es[..|es| - 1][j] == es[j];
      }
    }
  }

  lemma LoopShareMeaning(c: Config, n: Snapshot, e: Entry)
    requires c.problem.src.WellFormed() && EntryOk(n, e) && Shape(c, n) && Successors(c, n.ids, c.Succ(e.state))
    requires c.Succ(e.state) != []
    ensures Exit(c.Succ(e.state)) > 0.0
    ensures LoopShare(n.ids, e.index, c.Succ(e.state), Exit(c.Succ(e.state))) >= 0.0
    ensures LoopShare(n.ids, e.index, c.Succ(e.state), Exit(c.Succ(e.state))) == 0.0 <==> !SelfLoops(c, e.state)
  {
    var es := c.Succ(e.state);
    ExitNonNegative(es);
    LoopSharePositive(n.ids, e.index, es, Exit(es));
    if SelfLoops(c, e.state) {
      var j :| 0 <= j < |es| && es[j].to == e.state;
      assert IndexOrAbsorbing(n.ids, es[j].to) == e.index;
    } else {
      forall j | 0 <= j < |es| ensures IndexOrAbsorbing(n.ids, es[j].to) != e.index {
        assert es[j].to in n.ids;
      }
      NoLoopShare(n.ids, e.index, es, Exit(es));
    }
  }

  lemma ProductPositive(x: real, y: real)
    requires x > 0.0 && y > 0.0
    ensures x * y > 0.0 && Times(x, y) > 0.0
  {
  }

  lemma LoopIdentity(pi: real, loop: real)
    ensures pi * (1.0 + loop) * (1.0 - loop) == pi - (pi * loop) * loop
  {
  }

  lemma LoopLoss(pi: real, loop: real, bound: real)
    requires pi > 0.0 && loop >= 0.0 && bound == pi * (1.0 + loop) * (1.0 - loop)
    ensures bound <= pi && (loop > 0.0 ==> bound < pi)
  {
    LoopIdentity(pi, loop);
    if loop > 0.0 {
      ProductPositive(pi, loop);
      ProductPositive(pi * loop, loop);
    }
  }

  lemma GivenInAll(pi: real, now: real, given: real, loop: real)
    requires GivenAway(pi, now, given, 1.0, loop) && pi > 0.0
    ensures given <= pi && (given == pi <==> loop == 0.0)
  {
    var bound := pi * (1.0 + loop) * (1.0 - loop);
    assert given <= bound;
    LoopLoss(pi, loop, bound);
    assert loop == 0.0 ==> given == pi;
  }

  lemma FinishSum(k: Measure, n: Snapshot, i: nat)
    requires i in n.recs && i < |n.ids|
    ensures Sum(k, Finish(n, i)) == Sum(k, n) - Amount(k, n.recs[i]) + Amount(k, Finish(n, i).recs[i])
  {
    TotalUpdate(k, n.recs, i, n.recs[i].(isNew := false, terminal := false, pi := 0.0), |n.ids|);
  }

  lemma ShareOfAll(total: real)
    requires total > 0.0
    ensures Share(total, total) == 1.0
  {
  }

  lemma DistributeMass(c: Config, n: Snapshot, e: Entry)
    requires c.problem.src.WellFormed() && Expanding(c, n, e) && Successors(c, n.ids, c.Succ(e.state))
             && n.recs[e.index].pi > 0.0
    ensures var m := Distribute(c, n, e);
            && Elsewhere(m, e.index) <= Sum(Mass, n)
            && (Elsewhere(m, e.index) == Sum(Mass, n) <==> !SelfLoops(c, e.state))
  {
    hide Sum, GivenAway;
    var es, total := c.Succ(e.state), Exit(c.Succ(e.state));
    LoopShareMeaning(c, n, e);
    RecordsNonNegative(c, n, e);
    PropagateAllMass(c, n, e.index, es, total);
    ShareOfAll(total);
    var m := Distribute(c, n, e);
    GivenInAll(n.recs[e.index].pi, m.recs[e.index].pi, Elsewhere(m, e.index) - Elsewhere(n, e.index),
        LoopShare(n.ids, e.index, es, total));
  }

  lemma DistributeNothing(c: Config, n: Snapshot, e: Entry)
    requires c.problem.src.WellFormed() && Expanding(c, n, e) && Successors(c, n.ids, c.Succ(e.state))
             && n.recs[e.index].pi == 0.0
    ensures Sum(Mass, Distribute(c, n, e)) == Sum(Mass, n) && Distribute(c, n, e).recs[e.index].pi == 0.0
  {
    PropagateAllNothing(n, e.index, c.Succ(e.state), Exit(c.Succ(e.state)));
  }

  lemma {:induction false} PropagateAllNothing(n: Snapshot, cur: nat, es: seq<Edge>, total: real)
    requires cur in n.recs && (forall j :: 0 <= j < |es| ==> es[j].to in n.ids)
    ensures PropagateAll(n, cur, es, true, total).recs == n.recs
  {
    if es != [] {
      PropagateAllNothing(n, cur, es[..|es| - 1], total);
    }
  }

  // Whether the turn of e distributes probability over successors
  ghost predicate Spreads(c: Config, n: Snapshot, e: Entry)
    requires e.index in n.recs
  {
    && !c.Stops(e.state) && c.Succ(e.state) != []
    && !(n.recs[e.index].terminal && n.recs[e.index].pi < n.kappa)
    && n.recs[e.index].pi > 0.0
  }

  lemma ExpandMass(c: Config, n: Snapshot, e: Entry)
    requires Ready(c, n, e)
    ensures Sum(Mass, Expand(c, n, e)) <= Sum(Mass, n)
    ensures Sum(Mass, Expand(c, n, e)) == Sum(Mass, n) <==> !(n.recs[e.index].pi > 0.0 && SelfLoops(c, e.state))
  {
    hide Sum;
    var m := CallBack(c, n, e);
    NoMassIsClosed(c, n, e);
    CallBackEffect(c, n, e);
    CallBackSum(c, Mass, n, e);
    assert m.recs[e.index].pi == Unflagged(n, e.index).recs[e.index].pi;
    DistributeEffect(c, m, e);
    FinishSum(Mass, Distribute(c, m, e), e.index);
    if n.recs[e.index].pi > 0.0 {
      DistributeMass(c, m, e);
    } else {
      DistributeNothing(c, m, e);
    }
  }

  lemma DeadlockTurn(c: Config, n: Snapshot, e: Entry)
    requires c.problem.src.WellFormed() && e.index in n.recs && c.Succ(e.state) == []
    ensures Expand(c, n, e) == Deadlock(Unflagged(n, e.index), e.index)
  {
    assert CallBack(c, n, e) == Unflagged(n, e.index);
  }

  /** Mass.  No round of the loop creates probability; and a round loses some exactly if it expands
      a state that carries probability and has a self-loop. */
  lemma StepMass(c: Config, n: Snapshot)
    requires Valid(c, n) && n.work != []
    ensures EntryOk(n, n.work[0])
    ensures Sum(Mass, Step(c, n)) <= Sum(Mass, n)
    ensures Sum(Mass, Step(c, n)) == Sum(Mass, n) <==> !(Spreads(c, n, n.work[0]) && SelfLoops(c, n.work[0].state))
  {
    hide Expand;
    PopKeepsInv(c, n);
    var e, m := n.work[0], Pop(n);
    assert EntryOk(n, n.work[0]);
    if c.Stops(e.state) || (m.recs[e.index].terminal && m.recs[e.index].pi < m.kappa) {
      TotalSame(Mass, n.recs, Step(c, n).recs, |n.ids|);
    } else if c.Succ(e.state) == [] {
      DeadlockTurn(c, m, e);
      TotalSame(Mass, n.recs, Step(c, n).recs, |n.ids|);
    } else {
      ExpandMass(c, m, e);
    }
  }
}
