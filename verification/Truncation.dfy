/** Truncating a chain at a set of known states: every edge that leaves the set is redirected to one
    absorbing state whose value is fixed.  With that value 0 the result is a lower bound, with 1 an
    upper bound, and both get tighter when the set grows. */
module Truncation {
  import opened SourceChain

  type KnownSet = iset<CompressedState>

  /** Sum of rate times value, where a state that is not known has the value c. */
  function WeighCut(es: seq<Edge>, known: KnownSet, c: real, f: StateValue): real {
    if es == [] then 0.0
    else
      var e := es[|es| - 1];
      WeighCut(es[..|es| - 1], known, c, f) + Times(e.rate, if e.to in known then f(e.to) else c)
  }

  function CutStep(p: Problem, q: PosReal, known: KnownSet, c: real, f: StateValue, s: CompressedState): real {
    if p.Phi2(s) then 1.0
    else if !p.Phi1(s) then 0.0
    else Uniformized(q, f(s), WeighCut(p.src.Succ(s), known, c, f), Exit(p.src.Succ(s)))
  }

  function CutValue(p: Problem, q: PosReal, known: KnownSet, c: real, k: nat): StateValue {
    if k == 0 then
      (s: CompressedState) => if p.Phi2(s) then 1.0 else 0.0
    else
      var f := CutValue(p, q, known, c, k - 1);
      (s: CompressedState) => CutStep(p, q, known, c, f, s)
  }

  // The value an edge contributes: its target's value, or c if the target is unknown
  function EdgeValue(e: Edge, known: KnownSet, c: real, f: StateValue): real {
    if e.to in known then f(e.to) else c
  }

  lemma ScaleMonotone(rate: real, x: real, y: real)
    requires rate >= 0.0 && x <= y
    ensures rate * x <= rate * y
  {
  }

  /** A step is a weighted average with non-negative weights, hence monotone. */
  lemma AverageMonotone(q: PosReal, out: real, x: real, y: real, inX: real, inY: real)
    requires 0.0 <= out <= q && x <= y && inX <= inY
    ensures Uniformized(q, x, inX, out) <= Uniformized(q, y, inY, out)
  {
    var gap := y - x;
    ScaleMonotone(gap, out, q);
    assert (inY - out * y) - (inX - out * x) == (inY - inX) - out * gap;
    assert out * gap <= q * gap;
    var d := (inY - out * y) - (inX - out * x) + q * gap;
    assert d >= 0.0;
    assert (inY - out * y) / q - (inX - out * x) / q + gap == d / q;
  }

  lemma {:induction false} WeighCutMonotone(es: seq<Edge>, a: KnownSet, c: real, f: StateValue, b: KnownSet, d: real,
                                            g: StateValue)
    requires forall i :: 0 <= i < |es| ==> es[i].rate > 0.0
    requires forall i :: 0 <= i < |es| ==> EdgeValue(es[i], a, c, f) <= EdgeValue(es[i], b, d, g)
    ensures WeighCut(es, a, c, f) <= WeighCut(es, b, d, g)
  {
    if es != [] {
      var e := es[|es| - 1];
      WeighCutMonotone(es[..|es| - 1], a, c, f, b, d, g);
      ScaleMonotone(e.rate, EdgeValue(e, a, c, f), EdgeValue(e, b, d, g));
    }
  }

  lemma {:induction false} WeighConstant(es: seq<Edge>, c: real)
    ensures WeighCut(es, iset{}, c, _ => c) == c * Exit(es)
  {
    if es != [] {
      WeighConstant(es[..|es| - 1], c);
    }
  }

  /** Comparing one step of two cuts edge by edge. */
  lemma CutStepMonotone(p: Problem, q: PosReal, a: KnownSet, c: real, f: StateValue, b: KnownSet, d: real,
                        g: StateValue, s: CompressedState)
    requires p.src.PositiveRates(s) && (p.Live(s) ==> Exit(p.src.Succ(s)) <= q)
    requires p.Live(s) ==> f(s) <= g(s)
    requires p.Live(s) ==>
               forall i :: 0 <= i < |p.src.Succ(s)| ==>
                 EdgeValue(p.src.Succ(s)[i], a, c, f) <= EdgeValue(p.src.Succ(s)[i], b, d, g)
    ensures CutStep(p, q, a, c, f, s) <= CutStep(p, q, b, d, g, s)
  {
    if p.Live(s) {
      var es := p.src.Succ(s);
      ExitNonNegative(es);
      WeighCutMonotone(es, a, c, f, b, d, g);
      AverageMonotone(q, Exit(es), f(s), g(s), WeighCut(es, a, c, f), WeighCut(es, b, d, g));
    }
  }

  lemma CutStepConstant(p: Problem, q: PosReal, c: real, s: CompressedState)
    ensures p.Live(s) ==> CutStep(p, q, iset{}, c, _ => c, s) == c
  {
    WeighConstant(p.src.Succ(s), c);
  }

  lemma CutValueUnfold(p: Problem, q: PosReal, known: KnownSet, c: real, k: nat, s: CompressedState)
    requires k > 0
    ensures CutValue(p, q, known, c, k)(s) == CutStep(p, q, known, c, CutValue(p, q, known, c, k - 1), s)
  {
  }

  /** Every cut value with c in [0, 1] is a probability. */
  lemma {:induction false} CutValueBounded(p: Problem, q: PosReal, known: KnownSet, c: real, k: nat, s: CompressedState)
    requires p.src.WellFormed() && 0.0 <= c <= 1.0
    requires RatesWithin(p, q, k, s)
    ensures 0.0 <= CutValue(p, q, known, c, k)(s) <= 1.0
    decreases k
  {
    if k > 0 {
      CutValueUnfold(p, q, known, c, k, s);
      if p.Live(s) {
        var f := CutValue(p, q, known, c, k - 1);
        assert p.src.PositiveRates(s);
        CutValueBounded(p, q, known, c, k - 1, s);
        forall i | 0 <= i < |p.src.Succ(s)| ensures 0.0 <= EdgeValue(p.src.Succ(s)[i], known, c, f) <= 1.0 {
          CutValueBounded(p, q, known, c, k - 1, p.src.Succ(s)[i].to);
        }
        CutStepConstant(p, q, 0.0, s);
        CutStepConstant(p, q, 1.0, s);
        CutStepMonotone(p, q, iset{}, 0.0, _ => 0.0, known, c, f, s);
        CutStepMonotone(p, q, known, c, f, iset{}, 1.0, _ => 1.0, s);
      }
    }
  }

  /** Refinement: with more known states the lower value never falls and the upper value never
      rises, at every state that was known already. */
  lemma {:induction false} CutValueRefines(p: Problem, q: PosReal, known: KnownSet, known': KnownSet, k: nat,
                                           s: CompressedState)
    requires p.src.WellFormed() && known <= known' && s in known
    requires RatesWithin(p, q, k, s)
    ensures CutValue(p, q, known, 0.0, k)(s) <= CutValue(p, q, known', 0.0, k)(s)
    ensures CutValue(p, q, known', 1.0, k)(s) <= CutValue(p, q, known, 1.0, k)(s)
    decreases k
  {
    if k > 0 {
      var lo, lo' := CutValue(p, q, known, 0.0, k - 1), CutValue(p, q, known', 0.0, k - 1);
      var hi, hi' := CutValue(p, q, known, 1.0, k - 1), CutValue(p, q, known', 1.0, k - 1);
      if p.Live(s) {
        CutValueRefines(p, q, known, known', k - 1, s);
        forall i | 0 <= i < |p.src.Succ(s)|
          ensures EdgeValue(p.src.Succ(s)[i], known, 0.0, lo) <= EdgeValue(p.src.Succ(s)[i], known', 0.0, lo')
          ensures EdgeValue(p.src.Succ(s)[i], known', 1.0, hi') <= EdgeValue(p.src.Succ(s)[i], known, 1.0, hi)
        {
          var t := p.src.Succ(s)[i].to;
          if t in known {
            CutValueRefines(p, q, known, known', k - 1, t);
          } else {
            CutValueBounded(p, q, known', 0.0, k - 1, t);
            CutValueBounded(p, q, known', 1.0, k - 1, t);
          }
        }
      }
      assert p.src.PositiveRates(s);
      CutStepMonotone(p, q, known, 0.0, lo, known', 0.0, lo', s);
      CutStepMonotone(p, q, known', 1.0, hi', known, 1.0, hi, s);
      CutValueUnfold(p, q, known, 0.0, k, s);
      CutValueUnfold(p, q, known', 0.0, k, s);
      CutValueUnfold(p, q, known, 1.0, k, s);
      CutValueUnfold(p, q, known', 1.0, k, s);
    }
  }

  ghost function EveryState(): KnownSet {
    iset s: CompressedState | |s| >= 0
  }

  lemma {:induction false} WeighCutNothing(es: seq<Edge>, c: real, f: StateValue, g: StateValue)
    requires forall i :: 0 <= i < |es| ==> f(es[i].to) == g(es[i].to)
    ensures WeighCut(es, EveryState(), c, f) == Weigh(es, g)
  {
    if es != [] {
      WeighCutNothing(es[..|es| - 1], c, f, g);
    }
  }

  lemma CutStepOfEverything(p: Problem, q: PosReal, c: real, f: StateValue, g: StateValue, s: CompressedState)
    requires forall t: CompressedState :: f(t) == g(t)
    ensures CutStep(p, q, EveryState(), c, f, s) == UntilStep(p, q, g, s)
  {
    WeighCutNothing(p.src.Succ(s), c, f, g);
  }

  /** Cutting nothing off gives the until value of the chain itself. */
  lemma {:induction false} CutValueOfEverything(p: Problem, q: PosReal, c: real, k: nat)
    ensures forall s: CompressedState :: CutValue(p, q, EveryState(), c, k)(s) == UntilValue(p, q, k)(s)
    decreases k
  {
    if k > 0 {
      var f, g := CutValue(p, q, EveryState(), c, k - 1), UntilValue(p, q, k - 1);
      CutValueOfEverything(p, q, c, k - 1);
      forall s: CompressedState
        ensures CutValue(p, q, EveryState(), c, k)(s) == UntilValue(p, q, k)(s)
      {
        CutStepOfEverything(p, q, c, f, g, s);
      }
    }
  }

  /** Soundness of truncation: whatever set of states is known, the two cut values bracket the
      true value. */
  lemma CutValueBrackets(p: Problem, q: PosReal, known: KnownSet, k: nat, s: CompressedState)
    requires p.src.WellFormed() && s in known
    requires RatesWithin(p, q, k, s)
    ensures CutValue(p, q, known, 0.0, k)(s) <= UntilValue(p, q, k)(s) <= CutValue(p, q, known, 1.0, k)(s)
  {
    CutValueRefines(p, q, known, EveryState(), k, s);
    CutValueOfEverything(p, q, 0.0, k);
    CutValueOfEverything(p, q, 1.0, k);
  }
}
