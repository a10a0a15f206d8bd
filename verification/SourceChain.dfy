/** The continuous-time Markov chain that is being truncated, and the value of an until property
    on it.  The chain may be infinite; each state has finitely many successors. */
module SourceChain {
  import opened Csl

  // storm::storage::BitVector
  type CompressedState = seq<bool>

  type PosReal = x: real | x > 0.0 witness 1.0

  datatype Edge = Edge(to: CompressedState, rate: real)

  /** What the next-state generator answers: initial states, successors with their rates, and the
      labels of a state.  A state without successors is a deadlock. */
  datatype Source = Source(
    bits: nat,
    initial: seq<CompressedState>,
    succ: CompressedState -> seq<Edge>,
    labels: CompressedState -> set<string>)
  {
    // The reserved bit pattern with every bit set
    function Absorbing(): CompressedState {
      seq(bits, _ => true)
    }

    function Succ(s: CompressedState): seq<Edge> {
      succ(s)
    }

    ghost predicate DistinctTargets(s: CompressedState) {
      forall i, j :: 0 <= i < j < |Succ(s)| ==> Succ(s)[i].to != Succ(s)[j].to
    }

    ghost predicate PositiveRates(s: CompressedState) {
      forall i :: 0 <= i < |Succ(s)| ==> Succ(s)[i].rate > 0.0
    }

    ghost predicate AvoidsAbsorbing(s: CompressedState) {
      forall i :: 0 <= i < |Succ(s)| ==> Succ(s)[i].to != Absorbing()
    }

    /** What the generator guarantees.  No state is encoded as the reserved pattern (the builder
        aborts if one is), and no state of the model is labelled "Absorbing" (adding that label to
        a labelling that has it already is an error). */
    ghost predicate WellFormed() {
      && (forall s :: DistinctTargets(s) && PositiveRates(s) && AvoidsAbsorbing(s))
      && (forall s :: s != Absorbing() ==> ABSORBING !in labels(s))
      && (forall i :: 0 <= i < |initial| ==> initial[i] != Absorbing())
      && (forall i, j :: 0 <= i < j < |initial| ==> initial[i] != initial[j])
    }
  }

  /** A source together with the until property it is explored for. */
  datatype Problem = Problem(src: Source, prop: Property) {
    predicate Phi1(s: CompressedState) {
      Sat(prop.path.left, src.labels(s))
    }

    predicate Phi2(s: CompressedState) {
      Sat(prop.path.right, src.labels(s))
    }

    // Whether a path may still go on from this state: neither lost nor won
    predicate Live(s: CompressedState) {
      Phi1(s) && !Phi2(s)
    }
  }

  function Exit(es: seq<Edge>): (r: real) {
    if es == [] then 0.0 else Exit(es[..|es| - 1]) + es[|es| - 1].rate
  }

  // Some edge leads to t
  ghost predicate Among(es: seq<Edge>, t: CompressedState) {
    exists j :: 0 <= j < |es| && es[j].to == t
  }

  // ----- The until value on the whole chain ------------------------------------------------

  type StateValue = CompressedState -> real

  function Times(x: real, y: real): real {
    x * y
  }

  lemma TimesOne(x: real)
    ensures Times(x, 1.0) == x
  {
  }

  lemma TimesAdds(x: real, y: real, z: real)
    ensures Times(x, y + z) == Times(x, y) + Times(x, z) && Times(x, 0.0) == 0.0
  {
  }

  /** Sum of rate times value over the edges. */
  function Weigh(es: seq<Edge>, f: StateValue): real {
    if es == [] then 0.0 else Weigh(es[..|es| - 1], f) + Times(es[|es| - 1].rate, f(es[|es| - 1].to))
  }

  /** One step from a state worth x, uniformized with constant q: each edge is taken with
      probability rate/q, and with the remaining probability the chain stays. */
  function Uniformized(q: PosReal, x: real, inflow: real, out: real): real {
    x + (inflow - out * x) / q
  }

  function UntilStep(p: Problem, q: PosReal, f: StateValue, s: CompressedState): real {
    if p.Phi2(s) then 1.0
    else if !p.Phi1(s) then 0.0
    else Uniformized(q, f(s), Weigh(p.src.Succ(s), f), Exit(p.src.Succ(s)))
  }

  /** The probability that, within k steps of the uniformized chain, a phi2 state is reached
      through phi1 states. */
  function UntilValue(p: Problem, q: PosReal, k: nat): StateValue {
    if k == 0 then
      (s: CompressedState) => if p.Phi2(s) then 1.0 else 0.0
    else
      var f := UntilValue(p, q, k - 1);
      (s: CompressedState) => UntilStep(p, q, f, s)
  }

  /** q is at least every exit rate met within k steps from s, which is what uniformization needs.
      In a chain whose rates grow without bound there is still such a q for every k and s. */
  ghost predicate RatesWithin(p: Problem, q: real, k: nat, s: CompressedState) {
    p.Live(s) && k > 0 ==>
      && Exit(p.src.Succ(s)) <= q
      && RatesWithin(p, q, k - 1, s)
      && forall i :: 0 <= i < |p.src.Succ(s)| ==> RatesWithin(p, q, k - 1, p.src.Succ(s)[i].to)
  }

  lemma {:induction false} RatesWithinWeaken(p: Problem, q: real, q': real, k: nat, s: CompressedState)
    requires RatesWithin(p, q, k, s) && q <= q'
    ensures RatesWithin(p, q', k, s)
    decreases k
  {
    if p.Live(s) && k > 0 {
      RatesWithinWeaken(p, q, q', k - 1, s);
      forall i | 0 <= i < |p.src.Succ(s)| ensures RatesWithin(p, q', k - 1, p.src.Succ(s)[i].to) {
        RatesWithinWeaken(p, q, q', k - 1, p.src.Succ(s)[i].to);
      }
    }
  }

  /** Every step bound and every state has a uniformization constant, even if the rates of the
      chain are unbounded. */
  lemma {:induction false} UniformizationConstantExists(p: Problem, k: nat, s: CompressedState) returns (q: PosReal)
    ensures RatesWithin(p, q, k, s)
    decreases k
  {
    q := 1.0;
    if p.Live(s) && k > 0 {
      var es := p.src.Succ(s);
      q := UniformizationConstantExists(p, k - 1, s);
      if q < Exit(es) {
        RatesWithinWeaken(p, q, Exit(es), k - 1, s);
        q := Exit(es);
      }
      var j := 0;
      while j < |es|
        invariant 0 <= j <= |es|
        invariant Exit(es) <= q && RatesWithin(p, q, k - 1, s)
        invariant forall i :: 0 <= i < j ==> RatesWithin(p, q, k - 1, es[i].to)
      {
        var r := UniformizationConstantExists(p, k - 1, es[j].to);
        var m: PosReal := if q < r then r else q;
        RatesWithinWeaken(p, q, m, k - 1, s);
        RatesWithinWeaken(p, r, m, k - 1, es[j].to);
        forall i | 0 <= i < j ensures RatesWithin(p, m, k - 1, es[i].to) {
          RatesWithinWeaken(p, q, m, k - 1, es[i].to);
        }
        q := m;
        j := j + 1;
      }
    }
  }

  lemma {:induction false} ExitNonNegative(es: seq<Edge>)
    requires forall i :: 0 <= i < |es| ==> es[i].rate > 0.0
    ensures Exit(es) >= 0.0
    ensures es != [] ==> Exit(es) > 0.0
  {
    if es != [] {
      ExitNonNegative(es[..|es| - 1]);
    }
  }
}
