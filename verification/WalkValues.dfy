/** What the values of an until property mean: each of them is the probability of the walks that win.
    Nothing here but the proofs knows how a step of a uniformized chain is computed. */
module WalkValues {
  import opened Csl
  import opened SourceChain
  import opened Truncation
  import opened TruncatedModel
  import opened Walks

  function EdgeArrows(es: seq<Edge>): seq<Arrow<CompressedState>> {
    seq(|es|, (j: nat) requires j < |es| => Arrow(es[j].to, es[j].rate))
  }

  function RowArrows(row: seq<Transition>): seq<Arrow<nat>> {
    seq(|row|, (j: nat) requires j < |row| => Arrow(row[j].to, row[j].rate))
  }

  /** The source chain, with the two sides of the property it is explored for. */
  function SourceOf(p: Problem): Chain<CompressedState> {
    Chain((s: CompressedState) => EdgeArrows(p.src.succ(s)),
          (s: CompressedState) => Sat(p.prop.path.left, p.src.labels(s)),
          (s: CompressedState) => Sat(p.prop.path.right, p.src.labels(s)))
  }

  /** A finite chain, with the two sides of a path formula. */
  function ModelOf(m: Model, path: PathFormula): Chain<nat> {
    Chain((i: nat) => RowArrows(RowOf(m.entries, i)),
          (i: nat) => Sat(path.left, m.LabelsOf(i)),
          (i: nat) => Sat(path.right, m.LabelsOf(i)))
  }

  /** A finite chain, with index 0 as the goal, to be reached through undecided states. */
  function LeakOf(m: Model, path: PathFormula): Chain<nat> {
    Chain((i: nat) => RowArrows(RowOf(m.entries, i)),
          (i: nat) => Sat(path.left, m.LabelsOf(i)) && !Sat(path.right, m.LabelsOf(i)),
          (i: nat) => i == 0)
  }

  /** The row of i consists of the entries of i, each as often as it was emitted. */
  lemma {:induction false} RowOfIsExact(entries: seq<Transition>, i: nat, t: Transition)
    ensures multiset(RowOf(entries, i))[t] == if t.from == i then multiset(entries)[t] else 0
  {
    if entries != [] {
      RowOfIsExact(entries[..|entries| - 1], i, t);
      assert entries == entries[..|entries| - 1] + [entries[|entries| - 1]];
    }
  }

  // ----- One step -------------------------------------------------------------------------------------------

  lemma TimesDivides(x: real, y: real, q: PosReal)
    ensures Times(x, y) / q == Times(x / q, y)
  {
    var a := x / q;
    assert Times(x, y) == (a * y) * q;
  }

  lemma UniformizedIsAverage(q: PosReal, x: real, inflow: real, out: real)
    ensures Uniformized(q, x, inflow, out) == Times(1.0 - out / q, x) + inflow / q
  {
    var a := out / q;
    assert Uniformized(q, x, inflow, out) == x + (inflow + (-Times(out, x))) / q;
    DivideAdds(inflow, -Times(out, x), q);
    TimesDivides(out, x, q);
    DivideAdds(Times(out, x), -Times(out, x), q);
    assert Times(1.0 - a, x) == x - Times(a, x);
  }

  lemma {:induction false} OutOfEdges(es: seq<Edge>)
    ensures Out(EdgeArrows(es)) == Exit(es)
  {
    if es != [] {
      OutOfEdges(es[..|es| - 1]);
      assert EdgeArrows(es)[..|es| - 1] == EdgeArrows(es[..|es| - 1]);
    }
  }

  lemma {:induction false} OutOfRow(row: seq<Transition>)
    ensures Out(RowArrows(row)) == OutRate(row)
  {
    if row != [] {
      OutOfRow(row[..|row| - 1]);
      assert RowArrows(row)[..|row| - 1] == RowArrows(row[..|row| - 1]);
    }
  }

  lemma {:induction false} WeighIsArrowSum(p: Problem, q: PosReal, k: nat, s: CompressedState, f: StateValue, n: nat)
    requires n <= |p.src.Succ(s)|
    requires forall t :: f(t) == WalkValue(SourceOf(p), q, k, t)
    ensures ArrowSum(SourceOf(p), q, k, s, n) == Weigh(p.src.Succ(s)[..n], f) / q
  {
    hide WalkValue;
    if n > 0 {
      var es := p.src.Succ(s);
      WeighIsArrowSum(p, q, k, s, f, n - 1);
      assert es[..n][..n - 1] == es[..n - 1];
      DivideAdds(Weigh(es[..n - 1], f), Times(es[n - 1].rate, f(es[n - 1].to)), q);
      TimesDivides(es[n - 1].rate, f(es[n - 1].to), q);
    }
  }

  lemma {:induction false} FlowIsArrowSum(ch: Chain<nat>, q: PosReal, k: nat, i: nat, row: seq<Transition>,
                                          f: IndexValue, n: nat)
    requires ch.arrows(i) == RowArrows(row) && n <= |row|
    requires forall j: nat :: f(j) == WalkValue(ch, q, k, j)
    ensures ArrowSum(ch, q, k, i, n) == Flow(row[..n], f) / q
  {
    hide WalkValue;
    if n > 0 {
      FlowIsArrowSum(ch, q, k, i, row, f, n - 1);
      assert row[..n][..n - 1] == row[..n - 1];
      DivideAdds(Flow(row[..n - 1], f), Times(row[n - 1].rate, f(row[n - 1].to)), q);
      TimesDivides(row[n - 1].rate, f(row[n - 1].to), q);
    }
  }

  lemma MoveIsStep(ch: Chain<nat>, m: Model, q: PosReal, k: nat, i: nat, f: IndexValue)
    requires ch.arrows(i) == RowArrows(RowOf(m.entries, i))
    requires ch.left(i) && !ch.right(i)
    requires forall j: nat :: f(j) == WalkValue(ch, q, k, j)
    ensures WalkValue(ch, q, k + 1, i) == Move(m, q, f, i)
  {
    hide WalkValue, Uniformized, Times, ArrowSum, Out, Flow, OutRate;
    var row := RowOf(m.entries, i);
    WalkRecursion(ch, q, k + 1, i);
    FlowIsArrowSum(ch, q, k, i, row, f, |row|);
    assert row[..|row|] == row && |ch.arrows(i)| == |row|;
    OutOfRow(row);
    UniformizedIsAverage(q, f(i), Flow(row, f), OutRate(row));
  }

  // ----- The values -----------------------------------------------------------------------------------------

  /** The k-step until value of a state is the sum over its k-step walks that win, each with the
      product of the probabilities of its jumps and stays. */
  lemma {:induction false} UntilValueIsWalks(p: Problem, q: PosReal, k: nat)
    ensures forall s :: UntilValue(p, q, k)(s) == WalkValue(SourceOf(p), q, k, s)
    decreases k
  {
    hide WalkValue, Uniformized, Times, ArrowSum, Out, Weigh, Exit;
    if k > 0 {
      UntilValueIsWalks(p, q, k - 1);
    }
    forall s ensures UntilValue(p, q, k)(s) == WalkValue(SourceOf(p), q, k, s) {
      var es := p.src.Succ(s);
      WalkRecursion(SourceOf(p), q, k, s);
      if k > 0 {
        var f := UntilValue(p, q, k - 1);
        WeighIsArrowSum(p, q, k - 1, s, f, |es|);
        assert es[..|es|] == es;
        OutOfEdges(es);
        UniformizedIsAverage(q, f(s), Weigh(es, f), Exit(es));
      }
    }
  }

  /** So is what the solver computes for an index of the finite chain. */
  lemma {:induction false} ModelValueIsWalks(m: Model, path: PathFormula, q: PosReal, k: nat)
    ensures forall i: nat :: ModelValue(m, path, q, k)(i) == WalkValue(ModelOf(m, path), q, k, i)
    decreases k
  {
    hide WalkValue, Move;
    var ch := ModelOf(m, path);
    if k > 0 {
      ModelValueIsWalks(m, path, q, k - 1);
    }
    forall i: nat ensures ModelValue(m, path, q, k)(i) == WalkValue(ch, q, k, i) {
      WalkRecursion(ch, q, k, i);
      if k > 0 && ch.left(i) && !ch.right(i) {
        MoveIsStep(ch, m, q, k - 1, i, ModelValue(m, path, q, k - 1));
      }
    }
  }

  /** And the leak is the sum over the walks that get to index 0 undecided. */
  lemma {:induction false} LeakValueIsWalks(m: Model, path: PathFormula, q: PosReal, k: nat)
    ensures forall i: nat :: LeakValue(m, path, q, k)(i) == WalkValue(LeakOf(m, path), q, k, i)
    decreases k
  {
    hide WalkValue, Move;
    var ch := LeakOf(m, path);
    if k > 0 {
      LeakValueIsWalks(m, path, q, k - 1);
    }
    forall i: nat ensures LeakValue(m, path, q, k)(i) == WalkValue(ch, q, k, i) {
      WalkRecursion(ch, q, k, i);
      if k > 0 && ch.left(i) && !ch.right(i) {
        MoveIsStep(ch, m, q, k - 1, i, LeakValue(m, path, q, k - 1));
      }
    }
  }

  // ----- The truncation ---------------------------------------------------------------------------------------

  /** The source chain cut off at the states that are not known: they are won or lost at once. */
  ghost function CutOf(p: Problem, known: KnownSet, won: bool): Chain<CompressedState> {
    Chain((s: CompressedState) => EdgeArrows(p.src.succ(s)),
          (s: CompressedState) => s in known && Sat(p.prop.path.left, p.src.labels(s)),
          (s: CompressedState) => if s in known then Sat(p.prop.path.right, p.src.labels(s)) else won)
  }

  lemma {:induction false} WeighCutIsArrowSum(p: Problem, known: KnownSet, won: bool, q: PosReal, k: nat,
                                              s: CompressedState, f: StateValue, n: nat)
    requires n <= |p.src.Succ(s)|
    requires forall t :: t in known ==> f(t) == WalkValue(CutOf(p, known, won), q, k, t)
    ensures ArrowSum(CutOf(p, known, won), q, k, s, n)
            == WeighCut(p.src.Succ(s)[..n], known, if won then 1.0 else 0.0, f) / q
  {
    hide WalkValue;
    if n > 0 {
      var es, c := p.src.Succ(s), if won then 1.0 else 0.0;
      var e := es[n - 1];
      WeighCutIsArrowSum(p, known, won, q, k, s, f, n - 1);
      assert es[..n][..n - 1] == es[..n - 1];
      WalkRecursion(CutOf(p, known, won), q, k, e.to);
      DivideAdds(WeighCut(es[..n - 1], known, c, f), Times(e.rate, if e.to in known then f(e.to) else c), q);
      TimesDivides(e.rate, if e.to in known then f(e.to) else c, q);
    }
  }

  /** The value of a truncation is the sum over the walks that win before they leave the known states,
      and with won also over those that leave them undecided. */
  lemma {:induction false} CutValueIsWalks(p: Problem, known: KnownSet, won: bool, q: PosReal, k: nat)
    ensures forall s :: s in known ==>
              CutValue(p, q, known, if won then 1.0 else 0.0, k)(s) == WalkValue(CutOf(p, known, won), q, k, s)
    decreases k
  {
    hide WalkValue, Uniformized, Times, ArrowSum, Out, WeighCut, Exit;
    var ch, c := CutOf(p, known, won), if won then 1.0 else 0.0;
    if k > 0 {
      CutValueIsWalks(p, known, won, q, k - 1);
    }
    forall s | s in known ensures CutValue(p, q, known, c, k)(s) == WalkValue(ch, q, k, s) {
      var es := p.src.Succ(s);
      WalkRecursion(ch, q, k, s);
      if k > 0 {
        var f := CutValue(p, q, known, c, k - 1);
        WeighCutIsArrowSum(p, known, won, q, k - 1, s, f, |es|);
        assert es[..|es|] == es;
        OutOfEdges(es);
        UniformizedIsAverage(q, f(s), WeighCut(es, known, c, f), Exit(es));
      }
    }
  }

  // ----- The usual property -----------------------------------------------------------------------------------

  /** A state that satisfies the right side of the property is visited. */
  ghost predicate Reaches(p: Problem, s: CompressedState, w: Walk)
    requires IsWalk(SourceOf(p), s, w)
  {
    exists i :: 0 <= i <= |w| && p.Phi2(StateAt(SourceOf(p), s, w, i))
  }

  /** If the left side is the literal true, a walk wins as soon as it gets to a state that satisfies
      the right side, and exploration is stopped there and nowhere else; if it is false, a walk wins at
      once or never, and exploration is stopped everywhere. */
  lemma LiteralSides(p: Problem, s: CompressedState, w: Walk)
    requires IsWalk(SourceOf(p), s, w)
    ensures p.prop.path.left == Literal(true) ==>
              (Wins(SourceOf(p), s, w) <==> Reaches(p, s, w)) && (p.Live(s) <==> !p.Phi2(s))
    ensures p.prop.path.left == Literal(false) ==>
              (Wins(SourceOf(p), s, w) <==> p.Phi2(s)) && !p.Live(s)
  {
    var ch := SourceOf(p);
    if p.prop.path.left == Literal(true) && Reaches(p, s, w) {
      var i :| 0 <= i <= |w| && p.Phi2(StateAt(ch, s, w, i));
      assert LeftUntil(ch, s, w, i);
      assert ch.right(StateAt(ch, s, w, i));
    }
    if p.Phi2(s) {
      WinsAtOnce(ch, s, w);
    } else {
      WinsLater(ch, s, w);
    }
    if Wins(ch, s, w) {
      var i :| 0 <= i <= |w| && ch.right(StateAt(ch, s, w, i)) && LeftUntil(ch, s, w, i);
      assert p.Phi2(StateAt(ch, s, w, i));
    }
  }
}
