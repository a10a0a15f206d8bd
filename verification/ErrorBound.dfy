/** How wide the window can be: probability mass and window are joined.  The probability of leaking
    out of the truncation is, from every expanded state, at most the average of what it is from its
    successors; so moving probability along the transitions never lowers the leak it stands for. */
module ErrorBound {
  import opened SourceChain
  import opened Truncation
  import opened TruncatedModel
  import opened Exploration
  import opened Invariant
  import opened Iterations
  import opened Accounting
  import opened Runs
  import opened Termination
  import opened KappaLoop
  import opened ReExploring
  import opened Finalization
  import opened Emission
  import opened Soundness
  import opened PerimeterMass

  // ----- The leak on the truncation ---------------------------------------------------------------------------

  function LeakOut(p: Problem, q: PosReal, known: KnownSet, f: StateValue, s: CompressedState): real {
    if p.Live(s) then Uniformized(q, f(s), WeighCut(p.src.Succ(s), known, 1.0, f), Exit(p.src.Succ(s))) else 0.0
  }

  /** The probability of leaving the known states within k steps through states that are neither won
      nor lost. */
  function Leak(p: Problem, q: PosReal, known: KnownSet, k: nat): StateValue {
    if k == 0 then
      (s: CompressedState) => 0.0
    else
      var f := Leak(p, q, known, k - 1);
      (s: CompressedState) => LeakOut(p, q, known, f, s)
  }

  lemma {:induction false} WeighCutDifference(es: seq<Edge>, known: KnownSet, hi: StateValue, lo: StateValue,
                                              f: StateValue)
    requires forall s: CompressedState :: hi(s) - lo(s) == f(s)
    ensures WeighCut(es, known, 1.0, hi) - WeighCut(es, known, 0.0, lo) == WeighCut(es, known, 1.0, f)
  {
    if es != [] {
      WeighCutDifference(es[..|es| - 1], known, hi, lo, f);
      var t := es[|es| - 1].to;
      assert hi(t) - lo(t) == f(t);
      TimesDifference(es[|es| - 1].rate, hi(t), lo(t));
    }
  }

  lemma TimesDifference(x: real, y: real, z: real)
    ensures Times(x, y) - Times(x, z) == Times(x, y - z)
  {
  }

  lemma LeakStepIsWindow(p: Problem, q: PosReal, known: KnownSet, hi: StateValue, lo: StateValue, f: StateValue,
                         s: CompressedState)
    requires forall t: CompressedState :: hi(t) - lo(t) == f(t)
    ensures CutStep(p, q, known, 1.0, hi, s) - CutStep(p, q, known, 0.0, lo, s) == LeakOut(p, q, known, f, s)
  {
    hide Uniformized;
    if p.Live(s) {
      var es := p.src.Succ(s);
      WeighCutDifference(es, known, hi, lo, f);
      assert hi(s) - lo(s) == f(s);
      UniformizedDifference(q, Exit(es), hi(s), WeighCut(es, known, 1.0, hi), lo(s), WeighCut(es, known, 0.0, lo));
    }
  }

  /** The window of a truncation is its leak. */
  lemma {:induction false} LeakIsWindow(p: Problem, q: PosReal, known: KnownSet, k: nat)
    ensures forall s: CompressedState ::
              CutValue(p, q, known, 1.0, k)(s) - CutValue(p, q, known, 0.0, k)(s) == Leak(p, q, known, k)(s)
    decreases k
  {
    if k > 0 {
      LeakIsWindow(p, q, known, k - 1);
      forall s: CompressedState
        ensures CutValue(p, q, known, 1.0, k)(s) - CutValue(p, q, known, 0.0, k)(s) == Leak(p, q, known, k)(s)
      {
        LeakStepIsWindow(p, q, known, CutValue(p, q, known, 1.0, k - 1), CutValue(p, q, known, 0.0, k - 1),
                         Leak(p, q, known, k - 1), s);
      }
    }
  }

  /** q is at least every exit rate of the truncated chain that matters. */
  ghost predicate Covers(p: Problem, q: real, known: KnownSet) {
    forall s :: s in known && p.Live(s) ==> Exit(p.src.Succ(s)) <= q
  }

  /** Whatever is registered, there is such a constant. */
  lemma CoveringConstantExists(p: Problem, ids: Numbering) returns (q: PosReal)
    ensures Covers(p, q, KnownStates(p, ids))
  {
    q := CoveringStates(p, ids.Keys);
  }

  lemma {:induction false} CoveringStates(p: Problem, states: set<CompressedState>) returns (q: PosReal)
    ensures forall s :: s in states ==> Exit(p.src.Succ(s)) <= q
  {
    q := 1.0;
    if states != {} {
      var s :| s in states;
      q := CoveringStates(p, states - {s});
      if q < Exit(p.src.Succ(s)) {
        q := Exit(p.src.Succ(s));
      }
    }
  }

  ghost predicate BelowOn(known: KnownSet, f: StateValue, g: StateValue) {
    forall s :: s in known ==> f(s) <= g(s)
  }

  lemma LeakOutMonotone(p: Problem, q: PosReal, known: KnownSet, f: StateValue, g: StateValue, s: CompressedState)
    requires p.src.WellFormed() && Covers(p, q, known) && s in known && BelowOn(known, f, g)
    ensures LeakOut(p, q, known, f, s) <= LeakOut(p, q, known, g, s)
  {
    if p.Live(s) {
      var es := p.src.Succ(s);
      assert p.src.PositiveRates(s);
      ExitNonNegative(es);
      WeighCutMonotone(es, known, 1.0, f, known, 1.0, g);
      AverageMonotone(q, Exit(es), f(s), g(s), WeighCut(es, known, 1.0, f), WeighCut(es, known, 1.0, g));
    }
  }

  lemma {:induction false} WeighCutOfOne(es: seq<Edge>, known: KnownSet)
    ensures WeighCut(es, known, 1.0, _ => 1.0) == Exit(es)
  {
    if es != [] {
      WeighCutOfOne(es[..|es| - 1], known);
    }
  }

  lemma {:induction false} WeighCutNonNegative(es: seq<Edge>, known: KnownSet, f: StateValue)
    requires forall i :: 0 <= i < |es| ==> es[i].rate > 0.0
    requires forall s :: s in known ==> f(s) >= 0.0
    ensures WeighCut(es, known, 1.0, f) >= 0.0
  {
    if es != [] {
      var e := es[|es| - 1];
      WeighCutNonNegative(es[..|es| - 1], known, f);
      ScaleMonotone(e.rate, 0.0, EdgeValue(e, known, 1.0, f));
    }
  }

  /** The leak is a probability. */
  lemma {:induction false} LeakBounded(p: Problem, q: PosReal, known: KnownSet, k: nat)
    requires p.src.WellFormed() && Covers(p, q, known)
    ensures BelowOn(known, _ => 0.0, Leak(p, q, known, k)) && BelowOn(known, Leak(p, q, known, k), _ => 1.0)
    decreases k
  {
    if k > 0 {
      var f := Leak(p, q, known, k - 1);
      LeakBounded(p, q, known, k - 1);
      forall s | s in known ensures 0.0 <= LeakOut(p, q, known, f, s) <= 1.0 {
        if p.Live(s) {
          LeakOutBounded(p, q, known, f, s);
        }
      }
    }
  }

  lemma LeakOutBounded(p: Problem, q: PosReal, known: KnownSet, f: StateValue, s: CompressedState)
    requires p.src.WellFormed() && Covers(p, q, known) && s in known && p.Live(s)
    requires BelowOn(known, _ => 0.0, f) && BelowOn(known, f, _ => 1.0)
    ensures 0.0 <= LeakOut(p, q, known, f, s) <= 1.0
  {
    var es := p.src.Succ(s);
    assert p.src.PositiveRates(s);
    ExitNonNegative(es);
    LeakOutMonotone(p, q, known, f, _ => 1.0, s);
    WeighCutOfOne(es, known);
    assert f(s) >= 0.0 by {
      ZeroBelow(known, f, s);
    }
    forall t | t in known ensures f(t) >= 0.0 {
      ZeroBelow(known, f, t);
    }
    WeighCutNonNegative(es, known, f);
    AverageMonotone(q, Exit(es), 0.0, f(s), 0.0, WeighCut(es, known, 1.0, f));
  }

  lemma ZeroBelow(known: KnownSet, f: StateValue, s: CompressedState)
    requires BelowOn(known, _ => 0.0, f) && s in known
    ensures f(s) >= 0.0
  {
    var zero: StateValue := _ => 0.0;
    assert zero(s) <= f(s);
  }

  /** More steps leak no less. */
  lemma {:induction false} LeakGrows(p: Problem, q: PosReal, known: KnownSet, k: nat)
    requires p.src.WellFormed() && Covers(p, q, known)
    ensures BelowOn(known, Leak(p, q, known, k), Leak(p, q, known, k + 1))
    decreases k
  {
    var f, g := Leak(p, q, known, k), Leak(p, q, known, k + 1);
    if k == 0 {
      LeakBounded(p, q, known, 1);
      forall s | s in known ensures f(s) <= g(s) {
        ZeroBelow(known, g, s);
      }
    } else {
      LeakGrows(p, q, known, k - 1);
      forall s | s in known ensures f(s) <= g(s) {
        LeakOutMonotone(p, q, known, Leak(p, q, known, k - 1), f, s);
      }
    }
  }

  lemma AverageStep(q: PosReal, out: real, x: real, inflow: real)
    requires 0.0 <= out <= q && Times(out, x) <= inflow
    ensures Times(out, Uniformized(q, x, inflow, out)) <= inflow
  {
    var d := inflow - out * x;
    var y := d / q;
    assert y * q == d && y >= 0.0;
    ScaleMonotone(y, out, q);
    assert out * (x + y) == out * x + out * y;
  }

  /** From an expanded state the leak is at most the average of what it is from the successors. */
  lemma {:induction false} LeakIsSubharmonic(p: Problem, q: PosReal, known: KnownSet, k: nat, s: CompressedState)
    requires p.src.WellFormed() && Covers(p, q, known) && s in known
    ensures Times(Exit(p.src.Succ(s)), Leak(p, q, known, k)(s))
            <= WeighCut(p.src.Succ(s), known, 1.0, Leak(p, q, known, k))
    decreases k
  {
    hide Uniformized, Times;
    var es, f := p.src.Succ(s), Leak(p, q, known, k);
    assert p.src.PositiveRates(s);
    ExitNonNegative(es);
    LeakBounded(p, q, known, k);
    forall t | t in known ensures f(t) >= 0.0 {
      ZeroBelow(known, f, t);
    }
    WeighCutNonNegative(es, known, f);
    if k == 0 || !p.Live(s) {
      assert f(s) == 0.0;
      TimesZero(Exit(es));
    } else {
      var g := Leak(p, q, known, k - 1);
      LeakIsSubharmonic(p, q, known, k - 1, s);
      LeakGrows(p, q, known, k - 1);
      WeighCutMonotone(es, known, 1.0, g, known, 1.0, f);
      AverageStep(q, Exit(es), g(s), WeighCut(es, known, 1.0, g));
    }
  }

  lemma TimesZero(x: real)
    ensures Times(x, 0.0) == 0.0
  {
  }

  // ----- Weighted probability ----------------------------------------------------------------------------------

  function WeightAt(ws: seq<real>, i: nat): real {
    if i < |ws| then ws[i] else 0.0
  }

  function PiAt(recs: map<nat, Record>, i: nat): real {
    if i in recs then recs[i].pi else 0.0
  }

  /** The sum of pi times weight over the records with an index below size. */
  function Weighted(recs: map<nat, Record>, ws: seq<real>, size: nat): real {
    if size == 0 then 0.0 else Weighted(recs, ws, size - 1) + Times(PiAt(recs, size - 1), WeightAt(ws, size - 1))
  }

  lemma {:induction false} WeightedSame(a: map<nat, Record>, b: map<nat, Record>, ws: seq<real>, size: nat)
    requires forall i: nat :: i < size ==> PiAt(a, i) == PiAt(b, i)
    ensures Weighted(a, ws, size) == Weighted(b, ws, size)
  {
    if size > 0 {
      WeightedSame(a, b, ws, size - 1);
      assert PiAt(a, size - 1) == PiAt(b, size - 1);
    }
  }

  lemma {:induction false} WeightedUpdate(recs: map<nat, Record>, ws: seq<real>, i: nat, r: Record, size: nat)
    requires i < size
    ensures Weighted(recs[i := r], ws, size)
            == Weighted(recs, ws, size) + Times(r.pi, WeightAt(ws, i)) - Times(PiAt(recs, i), WeightAt(ws, i))
  {
    if i < size - 1 {
      WeightedUpdate(recs, ws, i, r, size - 1);
      assert PiAt(recs[i := r], size - 1) == PiAt(recs, size - 1);
    } else {
      forall j: nat | j < size - 1 ensures PiAt(recs[i := r], j) == PiAt(recs, j) {
      }
      WeightedSame(recs[i := r], recs, ws, size - 1);
    }
  }

  lemma {:induction false} WeightedMonotone(recs: map<nat, Record>, ws: seq<real>, ws': seq<real>, size: nat)
    requires forall i: nat :: i in recs ==> recs[i].pi >= 0.0
    requires forall i: nat :: i in recs ==> WeightAt(ws, i) <= WeightAt(ws', i)
    ensures Weighted(recs, ws, size) <= Weighted(recs, ws', size)
  {
    hide Times;
    if size > 0 {
      WeightedMonotone(recs, ws, ws', size - 1);
      if size - 1 in recs {
        TimesMonotone(recs[size - 1].pi, WeightAt(ws, size - 1), WeightAt(ws', size - 1));
      } else {
        NothingTimes(WeightAt(ws, size - 1));
        NothingTimes(WeightAt(ws', size - 1));
      }
    }
  }

  lemma TimesMonotone(x: real, y: real, z: real)
    requires x >= 0.0 && y <= z
    ensures Times(x, y) <= Times(x, z)
  {
    ScaleMonotone(x, y, z);
  }

  // ----- Moving probability along the transitions ----------------------------------------------------------------

  /** Sum of rate times the weight of the target. */
  function WeighIndices(ids: Numbering, es: seq<Edge>, ws: seq<real>): real {
    if es == [] then 0.0
    else
      var e := es[|es| - 1];
      WeighIndices(ids, es[..|es| - 1], ws) + Times(e.rate, WeightAt(ws, IndexOrAbsorbing(ids, e.to)))
  }

  ghost predicate NoLoop(ids: Numbering, cur: nat, es: seq<Edge>) {
    forall j :: 0 <= j < |es| ==> IndexOrAbsorbing(ids, es[j].to) != cur
  }

  lemma ShareOfSum(pi: real, x: real, y: real, total: real)
    requires total > 0.0
    ensures Times(pi, Share(x + y, total)) == Times(pi, Share(x, total)) + Times(pi, Share(y, total))
  {
    DivideSum(x, y, total);
    assert pi * (x / total + y / total) == pi * (x / total) + pi * (y / total);
  }

  lemma ShareOfProduct(pi: real, rate: real, w: real, total: real)
    requires total > 0.0
    ensures Times(Times(pi, Share(rate, total)), w) == Times(pi, Share(Times(rate, w), total))
  {
    var a := rate / total;
    assert a * total == rate;
    assert (a * w) * total == rate * w;
    assert rate * w / total == a * w;
    assert (pi * a) * w == pi * (a * w);
  }

  lemma PropagateWeighted(c: Config, n: Snapshot, cur: nat, e: Edge, total: real, ws: seq<real>, size: nat)
    requires Shape(c, n) && cur in n.recs && Known(c.problem, n.ids, e.to) && total > 0.0 && |n.ids| <= size
    requires n.ids[e.to] != cur
    ensures var m := Propagate(n, cur, e, false, total);
            && m.recs[cur].pi == n.recs[cur].pi
            && Weighted(m.recs, ws, size)
               == Weighted(n.recs, ws, size)
                  + Times(n.recs[cur].pi, Share(Times(e.rate, WeightAt(ws, IndexOrAbsorbing(n.ids, e.to))), total))
  {
    var i := n.ids[e.to];
    var more, w := Times(n.recs[cur].pi, Share(e.rate, total)), WeightAt(ws, i);
    WeightedUpdate(n.recs, ws, i, n.recs[i].(pi := n.recs[i].pi + more), size);
    TimesSum(n.recs[i].pi, more, w);
    ShareOfProduct(n.recs[cur].pi, e.rate, w, total);
  }

  lemma TimesSum(x: real, y: real, w: real)
    ensures Times(x + y, w) == Times(x, w) + Times(y, w)
  {
  }

  /** Without a self-loop the loop over the successors adds exactly their share, weighted. */
  lemma {:induction false} PropagateAllWeighted(c: Config, n: Snapshot, cur: nat, es: seq<Edge>, total: real,
                                                ws: seq<real>, size: nat)
    requires Shape(c, n) && cur in n.recs && cur != 0 && Successors(c, n.ids, es) && NoLoop(n.ids, cur, es)
    requires NonNegative(n) && total > 0.0 && |n.ids| <= size
    requires n.recs[cur].isNew ==> Row(n.table, cur) == []
    ensures var m := PropagateAll(n, cur, es, false, total);
            && m.recs[cur].pi == n.recs[cur].pi
            && Weighted(m.recs, ws, size)
               == Weighted(n.recs, ws, size) + Times(n.recs[cur].pi, Share(WeighIndices(n.ids, es, ws), total))
  {
    hide Propagate, Weighted, Shape, NonNegative, Share, Times, Propagated;
    if es == [] {
      ShareOfNothing(n.recs[cur].pi, total);
    } else {
      var rest, e := es[..|es| - 1], es[|es| - 1];
      var m := PropagateAll(n, cur, rest, false, total);
      PropagateAllWeighted(c, n, cur, rest, total, ws, size);
      PropagateAllEffect(c, n, cur, rest, false, total);
      PropagatedShape(c, n, m, cur, rest);
      assert e.to in n.ids && Known(c.problem, m.ids, e.to);
      PropagateWeighted(c, m, cur, e, total, ws, size);
      ShareOfSum(n.recs[cur].pi, WeighIndices(n.ids, rest, ws),
          Times(e.rate, WeightAt(ws, IndexOrAbsorbing(n.ids, e.to))), total);
    }
  }

  lemma ShareOfNothing(pi: real, total: real)
    requires total > 0.0
    ensures Times(pi, Share(0.0, total)) == 0.0
  {
  }

  // ----- Expanding never lowers the weighted probability ------------------------------------------------------------

  /** Every state whose successors are all known weighs at most the average of them. */
  ghost predicate Subharmonic(c: Config, ids: Numbering, ws: seq<real>) {
    forall s {:trigger Known(c.problem, ids, s)} ::
      Known(c.problem, ids, s) && c.Succ(s) != [] && AllKnown(ids, c.Succ(s)) ==>
        Times(Exit(c.Succ(s)), WeightAt(ws, ids[s])) <= WeighIndices(ids, c.Succ(s), ws)
  }

  lemma {:induction false} WeighIndicesStable(a: Numbering, b: Numbering, es: seq<Edge>, ws: seq<real>)
    requires SubNumbering(a, b) && AllKnown(a, es)
    ensures WeighIndices(a, es, ws) == WeighIndices(b, es, ws)
  {
    if es != [] {
      WeighIndicesStable(a, b, es[..|es| - 1], ws);
      assert es[|es| - 1].to in a;
    }
  }

  lemma AverageCovers(pi: real, w: real, inflow: real, total: real)
    requires pi >= 0.0 && total > 0.0 && Times(total, w) <= inflow
    ensures Times(pi, w) <= Times(pi, Share(inflow, total))
  {
    var a := inflow / total;
    assert a * total == inflow;
    if a < w {
      ProductPositive(total, w - a);
    }
    ScaleMonotone(pi, w, a);
  }

  lemma DistributeWeighted(c: Config, n: Snapshot, e: Entry, ids: Numbering, ws: seq<real>)
    requires c.problem.src.WellFormed() && Expanding(c, n, e) && Successors(c, n.ids, c.Succ(e.state))
    requires !SelfLoops(c, e.state) && SubNumbering(n.ids, ids) && |n.ids| <= |ids| && Subharmonic(c, ids, ws)
    requires ProperNumbering(c.problem, ids)
    ensures var m := Distribute(c, n, e);
            && e.index in m.recs
            && Weighted(n.recs, ws, |ids|) <= Weighted(Finish(m, e.index).recs, ws, |ids|)
  {
    hide Weighted, Subharmonic, Share, Times;
    var es := c.Succ(e.state);
    RecordsNonNegative(c, n, e);
    LoopShareMeaning(c, n, e);
    ExpandedIndex(c, n, e, ids);
    NoSelfLoop(c, n, e);
    DistributeEffect(c, n, e);
    SuccessorsBalance(c, n, e, ids, ws);
    var m, pi := Distribute(c, n, e), n.recs[e.index].pi;
    if pi > 0.0 {
      PropagateAllWeighted(c, n, e.index, es, Exit(es), ws, |ids|);
      AverageCovers(pi, WeightAt(ws, e.index), WeighIndices(n.ids, es, ws), Exit(es));
    } else {
      DistributeNothing(c, n, e);
      PropagateAllNothing(n, e.index, es, Exit(es));
      NothingTimes(WeightAt(ws, e.index));
    }
    NothingTimes(WeightAt(ws, e.index));
    WeightedUpdate(m.recs, ws, e.index, m.recs[e.index].(isNew := false, terminal := false, pi := 0.0), |ids|);
  }

  lemma NothingTimes(w: real)
    ensures Times(0.0, w) == 0.0
  {
  }

  lemma ExpandedIndex(c: Config, n: Snapshot, e: Entry, ids: Numbering)
    requires Expanding(c, n, e) && |n.ids| <= |ids|
    ensures e.index != 0 && e.index in n.recs && e.index < |ids| && n.recs[e.index].pi >= 0.0 && Shape(c, n)
    ensures n.recs[e.index].isNew ==> Row(n.table, e.index) == []
  {
  }

  lemma NoSelfLoop(c: Config, n: Snapshot, e: Entry)
    requires Expanding(c, n, e) && Successors(c, n.ids, c.Succ(e.state)) && !SelfLoops(c, e.state)
    ensures NoLoop(n.ids, e.index, c.Succ(e.state))
  {
    forall j | 0 <= j < |c.Succ(e.state)| ensures IndexOrAbsorbing(n.ids, c.Succ(e.state)[j].to) != e.index {
      assert c.Succ(e.state)[j].to in n.ids;
    }
  }

  lemma SuccessorsBalance(c: Config, n: Snapshot, e: Entry, ids: Numbering, ws: seq<real>)
    requires Expanding(c, n, e) && Successors(c, n.ids, c.Succ(e.state)) && SubNumbering(n.ids, ids)
    requires Subharmonic(c, ids, ws) && ProperNumbering(c.problem, ids)
    ensures Times(Exit(c.Succ(e.state)), WeightAt(ws, e.index)) <= WeighIndices(n.ids, c.Succ(e.state), ws)
  {
    assert Known(c.problem, ids, e.state) && ids[e.state] == e.index;
    assert AllKnown(ids, c.Succ(e.state));
    WeighIndicesStable(n.ids, ids, c.Succ(e.state), ws);
  }

  lemma CallBackWeighted(c: Config, n: Snapshot, e: Entry, ws: seq<real>, size: nat)
    requires Ready(c, n, e)
    ensures Weighted(CallBack(c, n, e).recs, ws, size) == Weighted(n.recs, ws, size)
  {
    var m := CallBack(c, n, e);
    CallBackEffect(c, n, e);
    forall i: nat | i < size ensures PiAt(m.recs, i) == PiAt(n.recs, i) {
      if i in n.recs {
        assert Unflagged(n, e.index).recs[i].pi == n.recs[i].pi;
      } else if i in m.recs {
        var j := NewIndexIsSuccessor(c, n, e, i);
      }
    }
    WeightedSame(m.recs, n.recs, ws, size);
  }

  lemma ExpandWeighted(c: Config, n: Snapshot, e: Entry, ids: Numbering, ws: seq<real>)
    requires Ready(c, n, e) && !SelfLoops(c, e.state)
    requires SubNumbering(Expand(c, n, e).ids, ids) && |Expand(c, n, e).ids| <= |ids|
    requires Subharmonic(c, ids, ws) && ProperNumbering(c.problem, ids)
    ensures Weighted(n.recs, ws, |ids|) <= Weighted(Expand(c, n, e).recs, ws, |ids|)
  {
    hide CallBack, Weighted, Subharmonic, Ready, Expanding, Successors, ProperNumbering, SelfLoops, SubNumbering;
    CallBackEffect(c, n, e);
    ReadyHas(c, n, e);
    CallBackWeighted(c, n, e, ws, |ids|);
    DistributeWeighted(c, CallBack(c, n, e), e, ids, ws);
  }

  lemma ReadyHas(c: Config, n: Snapshot, e: Entry)
    requires Ready(c, n, e)
    ensures c.problem.src.WellFormed() && c.Succ(e.state) != [] && e.index in n.recs
  {
  }

  // ----- Whole builds --------------------------------------------------------------------------------------------

  ghost predicate NoSelfLoops(c: Config) {
    forall s :: !SelfLoops(c, s)
  }

  lemma StepWeighted(c: Config, n: Snapshot, ids: Numbering, ws: seq<real>)
    requires Valid(c, n) && n.work != [] && NoSelfLoops(c)
    requires EntryOk(n, n.work[0]) && SubNumbering(Step(c, n).ids, ids) && |Step(c, n).ids| <= |ids|
    requires Subharmonic(c, ids, ws) && ProperNumbering(c.problem, ids)
    ensures Weighted(n.recs, ws, |ids|) <= Weighted(Step(c, n).recs, ws, |ids|)
  {
    hide Expand, Weighted, Subharmonic, ProperNumbering, SelfLoops, SubNumbering;
    PopKeepsInv(c, n);
    var e, m := n.work[0], Pop(n);
    if c.Stops(e.state) || (m.recs[e.index].terminal && m.recs[e.index].pi < m.kappa) {
      WeightedSame(n.recs, Step(c, n).recs, ws, |ids|);
    } else if c.Succ(e.state) == [] {
      DeadlockTurn(c, m, e);
      WeightedSame(n.recs, Step(c, n).recs, ws, |ids|);
    } else {
      assert !SelfLoops(c, e.state);
      ExpandWeighted(c, m, e, ids, ws);
    }
  }

  lemma RunSizes(c: Config, n: Snapshot, rounds: nat)
    requires Valid(c, n)
    ensures SubNumbering(n.ids, Run(c, n, rounds).ids) && |n.ids| <= |Run(c, n, rounds).ids|
  {
    RunGrows(c, n, rounds);
    SubNumberingSize(n.ids, Run(c, n, rounds).ids);
  }

  lemma SubNumberingSize(a: Numbering, b: Numbering)
    requires SubNumbering(a, b)
    ensures |a| <= |b|
  {
    SubsetSize(a.Keys, b.Keys);
    assert |a.Keys| == |a| && |b.Keys| == |b|;
  }

  lemma SubNumberingTransitive(a: Numbering, b: Numbering, d: Numbering)
    requires SubNumbering(a, b) && SubNumbering(b, d)
    ensures SubNumbering(a, d)
  {
  }

  /** Over a run the weighted probability never falls. */
  lemma {:induction false} RunWeighted(c: Config, n: Snapshot, rounds: nat, ids: Numbering, ws: seq<real>)
    requires Valid(c, n) && NoSelfLoops(c)
    requires SubNumbering(Run(c, n, rounds).ids, ids) && |Run(c, n, rounds).ids| <= |ids|
    requires Subharmonic(c, ids, ws) && ProperNumbering(c.problem, ids)
    ensures Weighted(n.recs, ws, |ids|) <= Weighted(Run(c, n, rounds).recs, ws, |ids|)
    decreases rounds
  {
    hide Step, Valid, NoSelfLoops, Weighted, Subharmonic, ProperNumbering, SubNumbering;
    if rounds != 0 && n.work != [] {
      FrontIsReady(c, n);
      StepKeepsValid(c, n);
      RunSizes(c, Step(c, n), rounds - 1);
      SubNumberingTransitive(Step(c, n).ids, Run(c, Step(c, n), rounds - 1).ids, ids);
      StepWeighted(c, n, ids, ws);
      RunWeighted(c, Step(c, n), rounds - 1, ids, ws);
    }
  }

  lemma {:induction false} FlushWeighted(c: Config, n: Snapshot, ws: seq<real>, size: nat)
    requires Valid(c, n)
    ensures Weighted(Flush(c, n).recs, ws, size) == Weighted(n.recs, ws, size)
    decreases |n.perimeter|
  {
    hide Weighted;
    if n.perimeter != [] {
      FlushOneKeepsValid(c, n);
      WeightedSame(FlushOne(n).recs, n.recs, ws, size);
      FlushWeighted(c, FlushOne(n), ws, size);
    }
  }

  lemma RestartWeighted(c: Config, n: Snapshot, reduceKappa: real, ws: seq<real>, size: nat)
    requires Valid(c, n) && reduceKappa >= 1.0
    ensures Weighted(Restart(c, n, reduceKappa).recs, ws, size) == Weighted(n.recs, ws, size)
  {
    hide Valid, Weighted;
    EndIterationKeepsValid(c, n, reduceKappa);
    FlushWeighted(c, EndIteration(n, reduceKappa), ws, size);
  }

  /** And so over all inner iterations. */
  lemma {:induction false} IterationWeighted(c: Config, kappa: real, reduceKappa: real, rounds: nat, k: nat,
                                             ids: Numbering, ws: seq<real>)
    requires c.problem.src.WellFormed() && kappa >= 0.0 && reduceKappa >= 1.0 && NoSelfLoops(c)
    requires SubNumbering(Iteration(c, kappa, reduceKappa, rounds, k).ids, ids)
    requires Subharmonic(c, ids, ws) && ProperNumbering(c.problem, ids)
    ensures Weighted(Start(c, kappa).recs, ws, |ids|)
            <= Weighted(Iteration(c, kappa, reduceKappa, rounds, k).recs, ws, |ids|)
    decreases k
  {
    hide Run, Restart, Start, Valid, NoSelfLoops, Weighted, Subharmonic, ProperNumbering, SubNumbering, Iteration,
         IterationStart;
    IterationIsRun(c, kappa, reduceKappa, rounds, k);
    var n := IterationStart(c, kappa, reduceKappa, rounds, k);
    IterationStartIs(c, kappa, reduceKappa, rounds, k);
    SubNumberingSize(Run(c, n, rounds).ids, ids);
    RunWeighted(c, n, rounds, ids, ws);
    if k > 0 {
      var before := Iteration(c, kappa, reduceKappa, rounds, k - 1);
      RestartKeepsValid(c, before, reduceKappa);
      RunSizes(c, n, rounds);
      SubNumberingTransitive(before.ids, Run(c, n, rounds).ids, ids);
      IterationWeighted(c, kappa, reduceKappa, rounds, k - 1, ids, ws);
      RestartWeighted(c, before, reduceKappa, ws, |ids|);
    }
  }

  lemma IterationStartIs(c: Config, kappa: real, reduceKappa: real, rounds: nat, k: nat)
    requires c.problem.src.WellFormed() && kappa >= 0.0 && reduceKappa >= 1.0
    ensures k == 0 ==> IterationStart(c, kappa, reduceKappa, rounds, k) == Start(c, kappa)
    ensures k > 0 ==>
              && Valid(c, Iteration(c, kappa, reduceKappa, rounds, k - 1))
              && IterationStart(c, kappa, reduceKappa, rounds, k)
                 == Restart(c, Iteration(c, kappa, reduceKappa, rounds, k - 1), reduceKappa)
  {
    hide Start, Restart, Iteration, Valid;
  }

  // ----- The leak as a weight --------------------------------------------------------------------------------------

  // The weight of each index is the value of its state
  ghost predicate Weighs(p: Problem, ids: Numbering, ws: seq<real>, f: StateValue) {
    |ws| == |ids| && forall s {:trigger Known(p, ids, s)} :: Known(p, ids, s) ==> ids[s] < |ws| && ws[ids[s]] == f(s)
  }

  ghost function WeightsOf(p: Problem, ids: Numbering, f: StateValue): (ws: seq<real>)
    requires ProperNumbering(p, ids)
    ensures Weighs(p, ids, ws, f)
  {
    var ws := seq(|ids|, i requires 0 <= i < |ids| && IsIndex(ids, i) => f(StateOf(ids, i)));
    assert Weighs(p, ids, ws, f) by {
      forall s | Known(p, ids, s) ensures ids[s] < |ws| && ws[ids[s]] == f(s) {
        assert IsIndex(ids, ids[s]);
        assert StateOf(ids, ids[s]) == s;
      }
    }
    ws
  }

  lemma {:induction false} WeighIndicesIsWeighCut(c: Config, ids: Numbering, es: seq<Edge>, ws: seq<real>,
                                                  f: StateValue)
    requires AllKnown(ids, es) && Weighs(c.problem, ids, ws, f)
    requires forall j :: 0 <= j < |es| ==> es[j].to != c.problem.src.Absorbing()
    ensures WeighIndices(ids, es, ws) == WeighCut(es, KnownStates(c.problem, ids), 1.0, f)
  {
    if es != [] {
      var e := es[|es| - 1];
      WeighIndicesIsWeighCut(c, ids, es[..|es| - 1], ws, f);
      assert e.to in ids && Known(c.problem, ids, e.to);
    }
  }

  lemma LeakIsWeight(c: Config, ids: Numbering, q: PosReal, k: nat)
    requires c.problem.src.WellFormed() && ProperNumbering(c.problem, ids)
    requires Covers(c.problem, q, KnownStates(c.problem, ids))
    ensures Subharmonic(c, ids, WeightsOf(c.problem, ids, Leak(c.problem, q, KnownStates(c.problem, ids), k)))
  {
    var known, f := KnownStates(c.problem, ids), Leak(c.problem, q, KnownStates(c.problem, ids), k);
    var ws := WeightsOf(c.problem, ids, f);
    forall s | Known(c.problem, ids, s) && c.Succ(s) != [] && AllKnown(ids, c.Succ(s))
      ensures Times(Exit(c.Succ(s)), WeightAt(ws, ids[s])) <= WeighIndices(ids, c.Succ(s), ws)
    {
      assert c.problem.src.AvoidsAbsorbing(s);
      WeighIndicesIsWeighCut(c, ids, c.Succ(s), ws, f);
      LeakIsSubharmonic(c.problem, q, known, k, s);
    }
  }

  /** A state that settles the property or has no successors leaks nothing. */
  lemma {:induction false} ClosedLeaksNothing(p: Problem, q: PosReal, known: KnownSet, k: nat, s: CompressedState)
    requires !p.Live(s) || p.src.Succ(s) == []
    ensures Leak(p, q, known, k)(s) == 0.0
    decreases k
  {
    if k > 0 {
      ClosedLeaksNothing(p, q, known, k - 1, s);
    }
  }

  // ----- The bound -------------------------------------------------------------------------------------------------

  // 1 for a state from which the chain can still go on, 0 for any other
  function Openness(p: Problem): StateValue {
    (s: CompressedState) => if p.Live(s) && p.src.Succ(s) != [] then 1.0 else 0.0
  }

  /** The probability held by the registered states that neither settle the property nor lack
      successors. */
  ghost function OpenMass(c: Config, n: Snapshot): real
    requires ProperNumbering(c.problem, n.ids)
  {
    Weighted(n.recs, WeightsOf(c.problem, n.ids, Openness(c.problem)), |n.ids|)
  }

  ghost predicate AreKnown(c: Config, n: Snapshot, states: seq<CompressedState>) {
    forall j :: 0 <= j < |states| ==> Known(c.problem, n.ids, states[j])
  }

  /** The upper less the lower probability that are reported, summed over these states. */
  ghost function WindowSum(c: Config, n: Snapshot, q: PosReal, k: nat, states: seq<CompressedState>): real
    requires Closing(c, n) && c.problem.prop.path.upper.Some? && AreKnown(c, n, states)
  {
    if states == [] then 0.0
    else
      var s := states[|states| - 1];
      WindowSum(c, n, q, k, states[..|states| - 1]) + (Reported(c, n, false, q, k, s) - Reported(c, n, true, q, k, s))
  }

  lemma ReportedWindowIsLeak(c: Config, n: Snapshot, q: PosReal, k: nat, s: CompressedState)
    requires Closing(c, n) && Known(c.problem, n.ids, s) && c.problem.prop.path.upper.Some?
    ensures Reported(c, n, false, q, k, s) - Reported(c, n, true, q, k, s)
            == Leak(c.problem, q, KnownStates(c.problem, n.ids), k)(s)
  {
    ReportedIsCutValue(c, n, true, q, k, s);
    ReportedIsCutValue(c, n, false, q, k, s);
    LeakIsWindow(c.problem, q, KnownStates(c.problem, n.ids), k);
  }

  lemma {:induction false} NothingWeighted(ws: seq<real>, size: nat)
    ensures Weighted(map[], ws, size) == 0.0
  {
    if size > 0 {
      NothingWeighted(ws, size - 1);
    }
  }

  lemma RegisterInitialWeighted(n: Snapshot, s: CompressedState, ws: seq<real>, size: nat)
    requires s !in n.ids && |n.ids| < size && |n.ids| !in n.recs
    ensures Weighted(RegisterInitial(n, s).recs, ws, size) == Weighted(n.recs, ws, size) + WeightAt(ws, |n.ids|)
  {
    WeightedUpdate(n.recs, ws, |n.ids|, Record(1.0, true, n.iteration, true, false, false), size);
  }

  /** At the start the weighted probability is the window, summed over the initial states. */
  lemma {:induction false} StartWeighted(c: Config, kappa: real, n: Snapshot, q: PosReal, k: nat, ws: seq<real>,
                                         states: seq<CompressedState>)
    requires Closing(c, n) && c.problem.prop.path.upper.Some? && AreKnown(c, n, states)
    requires c.problem.src.WellFormed() && states <= c.problem.src.initial
    requires forall j :: 0 <= j < |states| ==> n.ids[states[j]] == j + 1
    requires Weighs(c.problem, n.ids, ws, Leak(c.problem, q, KnownStates(c.problem, n.ids), k))
    ensures Weighted(RegisterInitials(Fresh(c, kappa), states).recs, ws, |n.ids|) == WindowSum(c, n, q, k, states)
  {
    hide Closing, Reported, Weighted;
    if states == [] {
      NothingWeighted(ws, |n.ids|);
    } else {
      var rest, s := states[..|states| - 1], states[|states| - 1];
      assert AreKnown(c, n, rest);
      StartWeighted(c, kappa, n, q, k, ws, rest);
      RegisterInitialsShape(c, kappa, rest);
      NewIndexUnused(c, kappa, rest);
      InitialIsNew(c, kappa, states);
      assert Known(c.problem, n.ids, s);
      RegisterInitialWeighted(RegisterInitials(Fresh(c, kappa), rest), s, ws, |n.ids|);
      ReportedWindowIsLeak(c, n, q, k, s);
    }
  }

  lemma {:induction false} IterationKeepsStart(c: Config, kappa: real, reduceKappa: real, rounds: nat, k: nat)
    requires c.problem.src.WellFormed() && kappa >= 0.0 && reduceKappa >= 1.0
    ensures SubNumbering(Start(c, kappa).ids, Iteration(c, kappa, reduceKappa, rounds, k).ids)
  {
    hide Run, Restart, Start, Valid, SubNumbering, Iteration, IterationStart;
    IterationIsRun(c, kappa, reduceKappa, rounds, k);
    IterationStartIs(c, kappa, reduceKappa, rounds, k);
    var n := IterationStart(c, kappa, reduceKappa, rounds, k);
    RunGrows(c, n, rounds);
    if k > 0 {
      var before := Iteration(c, kappa, reduceKappa, rounds, k - 1);
      RestartKeepsValid(c, before, reduceKappa);
      IterationKeepsStart(c, kappa, reduceKappa, rounds, k - 1);
      SubNumberingTransitive(Start(c, kappa).ids, before.ids, Run(c, n, rounds).ids);
    }
  }

  lemma IterationKnowsInitials(c: Config, kappa: real, reduceKappa: real, rounds: nat, k: nat)
    requires c.problem.src.WellFormed() && kappa >= 0.0 && reduceKappa >= 1.0
    ensures var n, states := Iteration(c, kappa, reduceKappa, rounds, k), c.problem.src.initial;
            AreKnown(c, n, states) && forall j :: 0 <= j < |states| ==> n.ids[states[j]] == j + 1
  {
    hide Iteration;
    IterationKeepsStart(c, kappa, reduceKappa, rounds, k);
    RegisterInitialsNumbered(c, kappa, c.problem.src.initial);
  }

  lemma ValidIsNonNegative(c: Config, n: Snapshot)
    requires Valid(c, n)
    ensures NonNegative(n) && ProperNumbering(c.problem, n.ids)
  {
    forall i: nat | i in n.recs ensures n.recs[i].pi >= 0.0 {
      assert IsIndex(n.ids, i);
      var s :| s in n.ids && n.ids[s] == i;
      assert Known(c.problem, n.ids, s) && StateOk(c, n, Entry(n.ids[s], s), 0);
    }
  }

  lemma LeakIsOpen(c: Config, n: Snapshot, q: PosReal, k: nat, ws: seq<real>, i: nat)
    requires Valid(c, n) && Covers(c.problem, q, KnownStates(c.problem, n.ids)) && i in n.recs
    requires Weighs(c.problem, n.ids, ws, Leak(c.problem, q, KnownStates(c.problem, n.ids), k))
    ensures ProperNumbering(c.problem, n.ids)
    ensures WeightAt(ws, i) <= WeightAt(WeightsOf(c.problem, n.ids, Openness(c.problem)), i)
  {
    var known := KnownStates(c.problem, n.ids);
    assert IsIndex(n.ids, i);
    var s :| s in n.ids && n.ids[s] == i;
    assert Known(c.problem, n.ids, s) && s in known;
    LeakBounded(c.problem, q, known, k);
    if !(c.problem.Live(s) && c.Succ(s) != []) {
      ClosedLeaksNothing(c.problem, q, known, k, s);
    }
    assert Openness(c.problem)(s) == if c.problem.Live(s) && c.Succ(s) != [] then 1.0 else 0.0;
  }

  lemma LeakIsBelowOpenMass(c: Config, n: Snapshot, q: PosReal, k: nat, ws: seq<real>)
    requires Valid(c, n) && Covers(c.problem, q, KnownStates(c.problem, n.ids))
    requires Weighs(c.problem, n.ids, ws, Leak(c.problem, q, KnownStates(c.problem, n.ids), k))
    ensures ProperNumbering(c.problem, n.ids) && Weighted(n.recs, ws, |n.ids|) <= OpenMass(c, n)
  {
    hide Valid, Covers, Weighs, Weighted, ProperNumbering;
    ValidIsNonNegative(c, n);
    var open := WeightsOf(c.problem, n.ids, Openness(c.problem));
    forall i: nat | i in n.recs ensures WeightAt(ws, i) <= WeightAt(open, i) {
      LeakIsOpen(c, n, q, k, ws, i);
    }
    WeightedMonotone(n.recs, ws, open, |n.ids|);
  }

  /** The window is bounded by the probability that is left: in a chain without self-loops, after every
      inner iteration that ended, for every number of steps, the window that is reported for the initial
      states together is at most the probability held by the registered states that neither settle the
      property nor lack successors. */
  lemma WindowIsBoundedByMass(c: Config, kappa: real, reduceKappa: real, rounds: nat, i: nat, q: PosReal, k: nat)
    requires c.problem.src.WellFormed() && kappa >= 0.0 && reduceKappa >= 1.0 && NoSelfLoops(c)
    requires c.problem.prop.path.upper.Some? && Iteration(c, kappa, reduceKappa, rounds, i).work == []
    requires Covers(c.problem, q, KnownStates(c.problem, Iteration(c, kappa, reduceKappa, rounds, i).ids))
    ensures var n := Iteration(c, kappa, reduceKappa, rounds, i);
            && Closing(c, n) && AreKnown(c, n, c.problem.src.initial) && ProperNumbering(c.problem, n.ids)
            && WindowSum(c, n, q, k, c.problem.src.initial) <= OpenMass(c, n)
  {
    hide Iteration, Valid, Closing, Covers, Subharmonic, Weighted, WindowSum, OpenMass, Weighs, WeightsOf,
         ProperNumbering, NoSelfLoops;
    var n := Iteration(c, kappa, reduceKappa, rounds, i);
    ValidIsNonNegative(c, n);
    ClosingStarts(c, n);
    IterationKnowsInitials(c, kappa, reduceKappa, rounds, i);
    var ws := WeightsOf(c.problem, n.ids, Leak(c.problem, q, KnownStates(c.problem, n.ids), k));
    LeakIsWeight(c, n.ids, q, k);
    StartIsRegistered(c, kappa);
    StartWeighted(c, kappa, n, q, k, ws, c.problem.src.initial);
    IterationWeighted(c, kappa, reduceKappa, rounds, i, n.ids, ws);
    LeakIsBelowOpenMass(c, n, q, k, ws);
  }

  // ----- The precision that was asked for --------------------------------------------------------------------------

  lemma {:induction false} WeightedBelowFlagged(recs: map<nat, Record>, ws: seq<real>, size: nat)
    requires forall i: nat :: Times(PiAt(recs, i), WeightAt(ws, i)) <= FlaggedAt(recs, 0, i)
    ensures Weighted(recs, ws, size) <= FlaggedMass(recs, 0, size)
  {
    if size > 0 {
      WeightedBelowFlagged(recs, ws, size - 1);
      assert Times(PiAt(recs, size - 1), WeightAt(ws, size - 1)) <= FlaggedAt(recs, 0, size - 1);
    }
  }

  lemma OpenIsFlagged(c: Config, n: Snapshot, i: nat)
    requires Valid(c, n) && n.work == [] && Spent(c, n)
    ensures ProperNumbering(c.problem, n.ids)
    ensures Times(PiAt(n.recs, i), WeightAt(WeightsOf(c.problem, n.ids, Openness(c.problem)), i))
            <= FlaggedAt(n.recs, 0, i)
  {
    if i in n.recs {
      assert IsIndex(n.ids, i);
      var s :| s in n.ids && n.ids[s] == i;
      assert Known(c.problem, n.ids, s) && StateOk(c, n, Entry(n.ids[s], s), 0);
      assert Openness(c.problem)(s) == if c.problem.Live(s) && c.Succ(s) != [] then 1.0 else 0.0;
      assert i != 0;
    }
  }

  lemma OpenMassIsFlagged(c: Config, n: Snapshot)
    requires Valid(c, n) && n.work == [] && Spent(c, n)
    ensures ProperNumbering(c.problem, n.ids) && OpenMass(c, n) <= FlaggedMass(n.recs, 0, |n.ids|)
  {
    hide Valid, Spent, ProperNumbering, FlaggedAt, FlaggedMass, PiAt, WeightAt, Weighted;
    ValidIsNonNegative(c, n);
    forall i: nat
      ensures Times(PiAt(n.recs, i), WeightAt(WeightsOf(c.problem, n.ids, Openness(c.problem)), i))
              <= FlaggedAt(n.recs, 0, i)
    {
      OpenIsFlagged(c, n, i);
    }
    WeightedBelowFlagged(n.recs, WeightsOf(c.problem, n.ids, Openness(c.problem)), |n.ids|);
  }

  /** In a chain without confluence and self-loops piHat itself bounds the window: when the kappa loop
      is left, the window of the initial states is below the precision that was asked for. */
  lemma PrecisionIsReached(c: Config, kappa: real, reduceKappa: real, window: real, rounds: nat, iterations: nat,
                           i: nat, q: PosReal, k: nat)
    requires c.problem.src.WellFormed() && kappa >= 0.0 && reduceKappa >= 1.0 && NoSelfLoops(c) && WithoutConfluence(c)
    requires c.problem.prop.path.upper.Some? && LeavesAfter(c, kappa, reduceKappa, window, rounds, iterations, i)
    requires Covers(c.problem, q, KnownStates(c.problem, Iteration(c, kappa, reduceKappa, rounds, i).ids))
    ensures var n := Iteration(c, kappa, reduceKappa, rounds, i);
            && Closing(c, n) && AreKnown(c, n, c.problem.src.initial)
            && WindowSum(c, n, q, k, c.problem.src.initial) <= PiHat(n) < window
  {
    hide Iteration, Valid, Closing, Covers, Spent, WindowSum, OpenMass, ProperNumbering, NoSelfLoops,
         WithoutConfluence;
    hide FlaggedMass, LiveMass;
    WindowIsBoundedByMass(c, kappa, reduceKappa, rounds, i, q, k);
    IterationIsSpent(c, kappa, reduceKappa, rounds, i);
    OpenMassIsFlagged(c, Iteration(c, kappa, reduceKappa, rounds, i));
    PerimeterStaysBelowPiHat(c, kappa, reduceKappa, rounds, i);
  }
}
