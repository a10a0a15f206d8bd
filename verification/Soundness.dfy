/** The guarantees of a finished exploration for the property it was run for. */
module Soundness {
  import opened Csl
  import opened SourceChain
  import opened Truncation
  import opened TruncatedModel
  import opened Walks
  import opened WalkValues
  import opened Exploration
  import opened Invariant
  import opened Iterations
  import opened Finalization
  import opened Emission

  // The probability the solver reports for a registered state, under one of the two properties
  ghost function Reported(c: Config, n: Snapshot, isMin: bool, q: PosReal, k: nat, s: CompressedState): real
    requires Closing(c, n) && Known(c.problem, n.ids, s) && c.problem.prop.path.upper.Some?
  {
    ModelValue(BuiltModel(c, n), ModifyProperty(c.problem.prop, isMin).value.path, q, k)(n.ids[s])
  }

  lemma ReportedIsCutValue(c: Config, n: Snapshot, isMin: bool, q: PosReal, k: nat, s: CompressedState)
    requires Closing(c, n) && Known(c.problem, n.ids, s) && c.problem.prop.path.upper.Some?
    ensures Reported(c, n, isMin, q, k, s)
            == CutValue(c.problem, q, KnownStates(c.problem, n.ids), if isMin then 0.0 else 1.0, k)(s)
  {
    BuiltModelRepresents(c, n);
    ModelValueIsCutValue(c.problem, n.ids, BuiltModel(c, n), isMin, q, k);
  }

  /** Soundness of truncation.  Whatever the chain, whenever the exploration of it finished, for
      every registered state and every step bound the lower probability of the truncated chain is
      at most the true probability, and that is at most the upper one. */
  lemma TruncationIsSound(c: Config, n: Snapshot, q: PosReal, k: nat, s: CompressedState)
    requires Closing(c, n) && Known(c.problem, n.ids, s) && c.problem.prop.path.upper.Some?
    requires RatesWithin(c.problem, q, k, s)
    ensures Reported(c, n, true, q, k, s) <= UntilValue(c.problem, q, k)(s) <= Reported(c, n, false, q, k, s)
  {
    ReportedIsCutValue(c, n, true, q, k, s);
    ReportedIsCutValue(c, n, false, q, k, s);
    CutValueBrackets(c.problem, q, KnownStates(c.problem, n.ids), k, s);
  }

  /** All of that about one finite chain m, whose states are numbered by ids, and in terms of walks: the
      walks on m that win under the lower version of the property are at most as probable as those of
      the source that win, and these at most as those on m that win under the upper version. */
  ghost predicate Brackets(p: Problem, ids: Numbering, m: Model) {
    p.prop.path.upper.Some? &&
    forall q: PosReal, k: nat, s :: Known(p, ids, s) && RatesWithin(p, q, k, s) ==>
      WalkValue(ModelOf(m, ModifyProperty(p.prop, true).value.path), q, k, ids[s])
      <= WalkValue(SourceOf(p), q, k, s)
      <= WalkValue(ModelOf(m, ModifyProperty(p.prop, false).value.path), q, k, ids[s])
  }

  lemma BuiltModelBrackets(c: Config, n: Snapshot)
    requires Closing(c, n) && c.problem.prop.path.upper.Some?
    ensures Brackets(c.problem, n.ids, BuiltModel(c, n))
  {
    hide WalkValue, ModelValue, UntilValue, RatesWithin;
    var p, m := c.problem, BuiltModel(c, n);
    var lower, upper := ModifyProperty(p.prop, true).value.path, ModifyProperty(p.prop, false).value.path;
    forall q: PosReal, k: nat, s | Known(p, n.ids, s) && RatesWithin(p, q, k, s)
      ensures WalkValue(ModelOf(m, lower), q, k, n.ids[s])
              <= WalkValue(SourceOf(p), q, k, s)
              <= WalkValue(ModelOf(m, upper), q, k, n.ids[s])
    {
      TruncationIsSound(c, n, q, k, s);
      ModelValueIsWalks(m, lower, q, k);
      ModelValueIsWalks(m, upper, q, k);
      UntilValueIsWalks(p, q, k);
    }
  }

  /** The window between the two is the probability of leaking into the absorbing state through
      states that are neither won nor lost. */
  lemma WindowIsTheLeak(c: Config, n: Snapshot, q: PosReal, k: nat, s: CompressedState)
    requires Closing(c, n) && Known(c.problem, n.ids, s) && c.problem.prop.path.upper.Some?
    ensures Reported(c, n, false, q, k, s) - Reported(c, n, true, q, k, s)
            == LeakValue(BuiltModel(c, n), c.problem.prop.path, q, k)(n.ids[s])
  {
    BuiltModelRepresents(c, n);
    WindowIsLeak(BuiltModel(c, n), c.problem.prop, q, k);
  }

  /** Exploring further never loosens a bound: connecting the perimeter of a later snapshot n' in
      place of that of n never lowers the lower and never raises the upper probability. */
  lemma RefinementIsMonotone(c: Config, n: Snapshot, n': Snapshot, q: PosReal, k: nat, s: CompressedState)
    requires Closing(c, n) && Closing(c, n') && SubNumbering(n.ids, n'.ids)
    requires Known(c.problem, n.ids, s) && c.problem.prop.path.upper.Some?
    requires RatesWithin(c.problem, q, k, s)
    ensures Known(c.problem, n'.ids, s)
    ensures Reported(c, n, true, q, k, s) <= Reported(c, n', true, q, k, s)
    ensures Reported(c, n', false, q, k, s) <= Reported(c, n, false, q, k, s)
  {
    ReportedIsCutValue(c, n, true, q, k, s);
    ReportedIsCutValue(c, n, false, q, k, s);
    ReportedIsCutValue(c, n', true, q, k, s);
    ReportedIsCutValue(c, n', false, q, k, s);
    CutValueRefines(c.problem, q, KnownStates(c.problem, n.ids), KnownStates(c.problem, n'.ids), k, s);
  }

  /** In particular from one inner iteration to the next. */
  lemma NextIterationTightens(c: Config, n: Snapshot, reduceKappa: real, rounds: nat, q: PosReal, k: nat,
                              s: CompressedState)
    requires Valid(c, n) && n.work == [] && reduceKappa >= 1.0 && NextIteration(c, n, reduceKappa, rounds).work == []
    requires Known(c.problem, n.ids, s) && c.problem.prop.path.upper.Some?
    requires RatesWithin(c.problem, q, k, s)
    ensures Closing(c, n) && Closing(c, NextIteration(c, n, reduceKappa, rounds))
    ensures Known(c.problem, NextIteration(c, n, reduceKappa, rounds).ids, s)
    ensures Reported(c, n, true, q, k, s) <= Reported(c, NextIteration(c, n, reduceKappa, rounds), true, q, k, s)
    ensures Reported(c, NextIteration(c, n, reduceKappa, rounds), false, q, k, s) <= Reported(c, n, false, q, k, s)
  {
    hide NextIteration, Reported, Closing, Valid;
    var n' := NextIteration(c, n, reduceKappa, rounds);
    NextIterationGrows(c, n, reduceKappa, rounds);
    ClosingStarts(c, n);
    ClosingStarts(c, n');
    RefinementIsMonotone(c, n, n', q, k, s);
  }

  // ----- Time bounds ---------------------------------------------------------------------------------

  // A weighted sum of the values for 0, 1, 2, ... steps, such as the one with Poisson weights that
  // gives the probability of an until with a time bound
  function Mixture(weights: seq<real>, values: seq<real>): real
    requires |weights| == |values|
  {
    if weights == [] then 0.0
    else Mixture(weights[..|weights| - 1], values[..|values| - 1]) + Times(weights[|weights| - 1], values[|values| - 1])
  }

  lemma {:induction false} MixtureMonotone(weights: seq<real>, lo: seq<real>, hi: seq<real>)
    requires |weights| == |lo| == |hi|
    requires forall k :: 0 <= k < |weights| ==> weights[k] >= 0.0 && lo[k] <= hi[k]
    ensures Mixture(weights, lo) <= Mixture(weights, hi)
  {
    if weights != [] {
      var k := |weights| - 1;
      MixtureMonotone(weights[..k], lo[..k], hi[..k]);
      ScaleMonotone(weights[k], lo[k], hi[k]);
    }
  }

  /** Each weight goes with the value at its place. */
  lemma {:induction false} MixtureAdds(weights: seq<real>, values: seq<real>, weights': seq<real>, values': seq<real>,
                                       w: real, v: real)
    requires |weights| == |values| && |weights'| == |values'|
    ensures Mixture(weights + weights', values + values') == Mixture(weights, values) + Mixture(weights', values')
    ensures Mixture([w], [v]) == w * v
  {
    if weights' == [] {
      assert weights + weights' == weights && values + values' == values;
    } else {
      var k := |weights'| - 1;
      MixtureAdds(weights, values, weights'[..k], values'[..k], w, v);
      assert (weights + weights')[..|weights| + k] == weights + weights'[..k];
      assert (values + values')[..|values| + k] == values + values'[..k];
    }
    assert [w][..0] == [] && [v][..0] == [];
  }

  ghost function ReportedSteps(c: Config, n: Snapshot, isMin: bool, q: PosReal, count: nat,
                               s: CompressedState): seq<real>
    requires Closing(c, n) && Known(c.problem, n.ids, s) && c.problem.prop.path.upper.Some?
  {
    seq(count, k requires k >= 0 && Closing(c, n) && Known(c.problem, n.ids, s) && c.problem.prop.path.upper.Some? =>
      Reported(c, n, isMin, q, k, s))
  }

  ghost function TrueSteps(p: Problem, q: PosReal, count: nat, s: CompressedState): seq<real> {
    seq(count, k requires k >= 0 => UntilValue(p, q, k)(s))
  }

  /** The bracket carries over to every sum with non-negative weights over the step bounds. */
  lemma TimeBoundedBracket(c: Config, n: Snapshot, q: PosReal, weights: seq<real>, s: CompressedState)
    requires Closing(c, n) && Known(c.problem, n.ids, s) && c.problem.prop.path.upper.Some?
    requires forall k :: 0 <= k < |weights| ==> weights[k] >= 0.0 && RatesWithin(c.problem, q, k, s)
    ensures Mixture(weights, ReportedSteps(c, n, true, q, |weights|, s))
            <= Mixture(weights, TrueSteps(c.problem, q, |weights|, s))
            <= Mixture(weights, ReportedSteps(c, n, false, q, |weights|, s))
  {
    var lo, hi := ReportedSteps(c, n, true, q, |weights|, s), ReportedSteps(c, n, false, q, |weights|, s);
    var exact := TrueSteps(c.problem, q, |weights|, s);
    forall k | 0 <= k < |weights| ensures lo[k] <= exact[k] <= hi[k] {
      TruncationIsSound(c, n, q, k, s);
    }
    MixtureMonotone(weights, lo, exact);
    MixtureMonotone(weights, exact, hi);
  }
}
