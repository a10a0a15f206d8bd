/** The finite chain handed to the solver: transitions between indices and a labelling, where index
    0 is the artificial absorbing state.  Values of the rewritten properties on it. */
module TruncatedModel {
  import opened Csl
  import opened SourceChain
  import opened Truncation

  // StaminaTransitionInfo
  datatype Transition = Transition(from: nat, to: nat, rate: real)

  datatype Model = Model(entries: seq<Transition>, labels: seq<set<string>>) {
    function LabelsOf(i: nat): set<string> {
      if i < |labels| then labels[i] else {}
    }
  }

  type IndexValue = nat -> real

  /** The entries of one row, in the order in which they were emitted. */
  function RowOf(entries: seq<Transition>, i: nat): seq<Transition> {
    if entries == [] then []
    else
      var e := entries[|entries| - 1];
      RowOf(entries[..|entries| - 1], i) + (if e.from == i then [e] else [])
  }

  function Flow(row: seq<Transition>, f: IndexValue): real {
    if row == [] then 0.0 else Flow(row[..|row| - 1], f) + Times(row[|row| - 1].rate, f(row[|row| - 1].to))
  }

  function OutRate(row: seq<Transition>): real {
    if row == [] then 0.0 else OutRate(row[..|row| - 1]) + row[|row| - 1].rate
  }

  // ----- What the solver computes ----------------------------------------------------------

  function Move(m: Model, q: PosReal, f: IndexValue, i: nat): real {
    var row := RowOf(m.entries, i);
    Uniformized(q, f(i), Flow(row, f), OutRate(row))
  }

  function ModelStep(m: Model, path: PathFormula, q: PosReal, f: IndexValue, i: nat): real {
    if Sat(path.right, m.LabelsOf(i)) then 1.0
    else if !Sat(path.left, m.LabelsOf(i)) then 0.0
    else Move(m, q, f, i)
  }

  /** k-step until on the uniformized finite chain. */
  function ModelValue(m: Model, path: PathFormula, q: PosReal, k: nat): IndexValue {
    if k == 0 then
      (i: nat) => if Sat(path.right, m.LabelsOf(i)) then 1.0 else 0.0
    else
      var f := ModelValue(m, path, q, k - 1);
      (i: nat) => ModelStep(m, path, q, f, i)
  }

  // ----- The window is the leak into the absorbing state ------------------------------------

  function LeakStep(m: Model, path: PathFormula, q: PosReal, f: IndexValue, i: nat): real {
    if i == 0 then 1.0
    else if Sat(path.left, m.LabelsOf(i)) && !Sat(path.right, m.LabelsOf(i)) then Move(m, q, f, i)
    else 0.0
  }

  /** The probability of reaching index 0 within k steps through states that satisfy the left and
      violate the right formula of the original property. */
  function LeakValue(m: Model, path: PathFormula, q: PosReal, k: nat): IndexValue {
    if k == 0 then
      (i: nat) => if i == 0 then 1.0 else 0.0
    else
      var f := LeakValue(m, path, q, k - 1);
      (i: nat) => LeakStep(m, path, q, f, i)
  }

  ghost predicate AbsorbingIsZero(m: Model) {
    && |m.labels| > 0
    && (forall i :: 0 <= i < |m.labels| ==> (ABSORBING in m.labels[i] <==> i == 0))
    && RowOf(m.entries, 0) == []
  }

  lemma {:induction false} FlowDifference(row: seq<Transition>, f: IndexValue, g: IndexValue, h: IndexValue)
    requires forall i: nat :: f(i) - g(i) == h(i)
    ensures Flow(row, f) - Flow(row, g) == Flow(row, h)
  {
    if row != [] {
      FlowDifference(row[..|row| - 1], f, g, h);
      var e := row[|row| - 1];
      assert f(e.to) - g(e.to) == h(e.to);
    }
  }

  lemma UniformizedDifference(q: PosReal, out: real, x: real, inX: real, y: real, inY: real)
    ensures Uniformized(q, x, inX, out) - Uniformized(q, y, inY, out) == Uniformized(q, x - y, inX - inY, out)
  {
    var a, b := inX - out * x, inY - out * y;
    assert out * (x - y) == out * x - out * y;
    assert (a / q - b / q) * q == a - b;
  }

  lemma MoveDifference(m: Model, q: PosReal, f: IndexValue, g: IndexValue, h: IndexValue, i: nat)
    requires forall j: nat :: f(j) - g(j) == h(j)
    ensures Move(m, q, f, i) - Move(m, q, g, i) == Move(m, q, h, i)
  {
    hide Uniformized;
    var row := RowOf(m.entries, i);
    FlowDifference(row, f, g, h);
    UniformizedDifference(q, OutRate(row), f(i), Flow(row, f), g(i), Flow(row, g));
  }

  lemma WindowStep(m: Model, prop: Property, q: PosReal, hi: IndexValue, lo: IndexValue, leak: IndexValue, i: nat)
    requires AbsorbingIsZero(m) && prop.path.upper.Some?
    requires forall j: nat :: hi(j) - lo(j) == leak(j)
    requires lo(0) == 0.0
    ensures ModelStep(m, ModifyProperty(prop, false).value.path, q, hi, i)
            - ModelStep(m, ModifyProperty(prop, true).value.path, q, lo, i)
            == LeakStep(m, prop.path, q, leak, i)
    ensures ModelStep(m, ModifyProperty(prop, true).value.path, q, lo, 0) == 0.0
  {
    ModifiedGoal(prop, true, m.LabelsOf(i));
    ModifiedGoal(prop, false, m.LabelsOf(i));
    ModifiedGoal(prop, true, m.LabelsOf(0));
    assert Move(m, q, lo, 0) == 0.0;
    MoveDifference(m, q, hi, lo, leak, i);
  }

  /** Window identity: at every state and for every step bound, the upper minus the lower
      probability is exactly the probability of leaking into the absorbing state. */
  lemma {:induction false} WindowIsLeak(m: Model, prop: Property, q: PosReal, k: nat)
    requires AbsorbingIsZero(m) && prop.path.upper.Some?
    ensures forall i: nat ::
              ModelValue(m, ModifyProperty(prop, false).value.path, q, k)(i)
              - ModelValue(m, ModifyProperty(prop, true).value.path, q, k)(i)
              == LeakValue(m, prop.path, q, k)(i)
    ensures ModelValue(m, ModifyProperty(prop, true).value.path, q, k)(0) == 0.0
    ensures ModelValue(m, ModifyProperty(prop, false).value.path, q, k)(0) == 1.0
    decreases k
  {
    var upper, lower := ModifyProperty(prop, false).value.path, ModifyProperty(prop, true).value.path;
    ModifiedGoal(prop, true, m.LabelsOf(0));
    ModifiedGoal(prop, false, m.LabelsOf(0));
    if k == 0 {
      forall i: nat
        ensures ModelValue(m, upper, q, k)(i) - ModelValue(m, lower, q, k)(i) == LeakValue(m, prop.path, q, k)(i)
      {
        ModifiedGoal(prop, true, m.LabelsOf(i));
        ModifiedGoal(prop, false, m.LabelsOf(i));
      }
    } else {
      WindowIsLeak(m, prop, q, k - 1);
      var hi, lo, leak := ModelValue(m, upper, q, k - 1), ModelValue(m, lower, q, k - 1),
          LeakValue(m, prop.path, q, k - 1);
      forall i: nat
        ensures ModelValue(m, upper, q, k)(i) - ModelValue(m, lower, q, k)(i) == LeakValue(m, prop.path, q, k)(i)
      {
        WindowStep(m, prop, q, hi, lo, leak, i);
      }
      WindowStep(m, prop, q, hi, lo, leak, 0);
    }
  }

  // ----- When the finite chain represents a truncation --------------------------------------

  // stateToId.  The reserved pattern is registered at 0.
  type Numbering = map<CompressedState, nat>

  /** getStateIndexOrAbsorbing. */
  function IndexOrAbsorbing(ids: Numbering, s: CompressedState): nat {
    if s in ids then ids[s] else 0
  }

  /** The edges to known states, one entry each, in generator order. */
  function KnownPart(ids: Numbering, i: nat, es: seq<Edge>): seq<Transition> {
    if es == [] then []
    else
      var e := es[|es| - 1];
      KnownPart(ids, i, es[..|es| - 1])
      + (if IndexOrAbsorbing(ids, e.to) != 0 then [Transition(i, IndexOrAbsorbing(ids, e.to), e.rate)] else [])
  }

  function UnknownRate(ids: Numbering, es: seq<Edge>): real {
    if es == [] then 0.0
    else
      var e := es[|es| - 1];
      UnknownRate(ids, es[..|es| - 1]) + (if IndexOrAbsorbing(ids, e.to) != 0 then 0.0 else e.rate)
  }

  /** The row a state gets when its unknown successors are redirected to the absorbing state. */
  function CutRow(ids: Numbering, i: nat, es: seq<Edge>): seq<Transition> {
    KnownPart(ids, i, es) + (if UnknownRate(ids, es) != 0.0 then [Transition(i, 0, UnknownRate(ids, es))] else [])
  }

  function SelfLoop(i: nat): seq<Transition> {
    [Transition(i, i, 1.0)]
  }

  ghost predicate Known(p: Problem, ids: Numbering, s: CompressedState) {
    s in ids && s != p.src.Absorbing()
  }

  ghost function KnownStates(p: Problem, ids: Numbering): KnownSet {
    iset s | s in ids && s != p.src.Absorbing()
  }

  ghost predicate IsIndex(ids: Numbering, i: nat) {
    exists s :: s in ids && ids[s] == i
  }

  // A bijection between the registered patterns and the indices below |ids|
  ghost predicate ProperNumbering(p: Problem, ids: Numbering) {
    && p.src.Absorbing() in ids && ids[p.src.Absorbing()] == 0
    && (forall s :: Known(p, ids, s) ==> 1 <= ids[s] < |ids|)
    && (forall s, t :: s in ids && t in ids && ids[s] == ids[t] ==> s == t)
    && (forall i: nat :: i < |ids| ==> IsIndex(ids, i))
  }

  ghost predicate Represents(p: Problem, ids: Numbering, m: Model) {
    && ProperNumbering(p, ids)
    && AbsorbingIsZero(m)
    && |m.labels| == |ids|
    && (forall s :: Known(p, ids, s) ==> m.labels[ids[s]] == p.src.labels(s))
    && (forall s :: Known(p, ids, s) && p.Live(s) ==>
          || RowOf(m.entries, ids[s]) == CutRow(ids, ids[s], p.src.Succ(s))
          || (p.src.Succ(s) == [] && RowOf(m.entries, ids[s]) == SelfLoop(ids[s])))
  }

  lemma FlowAppend(row: seq<Transition>, t: Transition, f: IndexValue)
    ensures Flow(row + [t], f) == Flow(row, f) + Times(t.rate, f(t.to))
    ensures OutRate(row + [t]) == OutRate(row) + t.rate
  {
    assert (row + [t])[..|row|] == row;
  }

  // What an index is worth under f is what its state is worth under g, and unknown states share index 0
  ghost predicate Agrees(ids: Numbering, known: KnownSet, f: IndexValue, g: StateValue, t: CompressedState) {
    if t in known then IndexOrAbsorbing(ids, t) != 0 && f(IndexOrAbsorbing(ids, t)) == g(t)
    else IndexOrAbsorbing(ids, t) == 0
  }

  function UnknownWeight(ids: Numbering, es: seq<Edge>, c: real): real {
    if es == [] then 0.0
    else
      var e := es[|es| - 1];
      UnknownWeight(ids, es[..|es| - 1], c) + (if IndexOrAbsorbing(ids, e.to) != 0 then 0.0 else Times(e.rate, c))
  }

  lemma {:induction false} UnknownWeightIsRate(ids: Numbering, es: seq<Edge>, c: real)
    ensures UnknownWeight(ids, es, c) == Times(UnknownRate(ids, es), c)
  {
    if es != [] {
      UnknownWeightIsRate(ids, es[..|es| - 1], c);
    }
  }

  lemma {:induction false} KnownPartFlow(ids: Numbering, known: KnownSet, i: nat, es: seq<Edge>, f: IndexValue,
                                         g: StateValue, c: real)
    requires forall j :: 0 <= j < |es| ==> Agrees(ids, known, f, g, es[j].to)
    ensures Flow(KnownPart(ids, i, es), f) + UnknownWeight(ids, es, c) == WeighCut(es, known, c, g)
  {
    if es != [] {
      var e, rest := es[|es| - 1], es[..|es| - 1];
      assert Agrees(ids, known, f, g, e.to);
      KnownPartFlow(ids, known, i, rest, f, g, c);
      if e.to in known {
        FlowAppend(KnownPart(ids, i, rest), Transition(i, IndexOrAbsorbing(ids, e.to), e.rate), f);
      } else {
        assert KnownPart(ids, i, rest) + [] == KnownPart(ids, i, rest);
      }
    }
  }

  lemma {:induction false} KnownPartRate(ids: Numbering, i: nat, es: seq<Edge>)
    ensures OutRate(KnownPart(ids, i, es)) + UnknownRate(ids, es) == Exit(es)
  {
    if es != [] {
      var e, rest := es[|es| - 1], es[..|es| - 1];
      KnownPartRate(ids, i, rest);
      if IndexOrAbsorbing(ids, e.to) != 0 {
        FlowAppend(KnownPart(ids, i, rest), Transition(i, IndexOrAbsorbing(ids, e.to), e.rate), _ => 0.0);
      } else {
        assert KnownPart(ids, i, rest) + [] == KnownPart(ids, i, rest);
      }
    }
  }

  /** Redirection preserves the exit rate. */
  lemma CutRowRate(ids: Numbering, i: nat, es: seq<Edge>)
    ensures OutRate(CutRow(ids, i, es)) == Exit(es)
  {
    KnownPartRate(ids, i, es);
    if UnknownRate(ids, es) != 0.0 {
      FlowAppend(KnownPart(ids, i, es), Transition(i, 0, UnknownRate(ids, es)), _ => 0.0);
    } else {
      assert CutRow(ids, i, es) == KnownPart(ids, i, es);
    }
  }

  /** Redirecting weighs every unknown successor with the value of the absorbing state. */
  lemma CutRowFlow(ids: Numbering, known: KnownSet, i: nat, es: seq<Edge>, f: IndexValue, g: StateValue)
    requires forall j :: 0 <= j < |es| ==> Agrees(ids, known, f, g, es[j].to)
    ensures Flow(CutRow(ids, i, es), f) == WeighCut(es, known, f(0), g)
  {
    KnownPartFlow(ids, known, i, es, f, g, f(0));
    UnknownWeightIsRate(ids, es, f(0));
    if UnknownRate(ids, es) != 0.0 {
      FlowAppend(KnownPart(ids, i, es), Transition(i, 0, UnknownRate(ids, es)), f);
    } else {
      assert CutRow(ids, i, es) == KnownPart(ids, i, es);
    }
  }

  lemma RepresentedMove(p: Problem, ids: Numbering, m: Model, q: PosReal, f: IndexValue, g: StateValue,
                        s: CompressedState)
    requires p.src.WellFormed() && Represents(p, ids, m) && Known(p, ids, s) && p.Live(s)
    requires forall t :: Known(p, ids, t) ==> f(ids[t]) == g(t)
    ensures Move(m, q, f, ids[s]) == CutStep(p, q, KnownStates(p, ids), f(0), g, s)
  {
    var row, es, known := RowOf(m.entries, ids[s]), p.src.Succ(s), KnownStates(p, ids);
    assert p.src.AvoidsAbsorbing(s);
    if row == CutRow(ids, ids[s], es) {
      forall j | 0 <= j < |es| ensures Agrees(ids, known, f, g, es[j].to) {
        assert Known(p, ids, es[j].to) <==> es[j].to in known;
      }
      CutRowFlow(ids, known, ids[s], es, f, g);
      CutRowRate(ids, ids[s], es);
    } else {
      FlowAppend([], Transition(ids[s], ids[s], 1.0), f);
      assert [] + SelfLoop(ids[s]) == SelfLoop(ids[s]);
    }
  }

  lemma RepresentedStep(p: Problem, ids: Numbering, m: Model, isMin: bool, q: PosReal, f: IndexValue, g: StateValue,
                        s: CompressedState)
    requires p.src.WellFormed() && p.prop.path.upper.Some? && Represents(p, ids, m) && Known(p, ids, s)
    requires forall t :: Known(p, ids, t) ==> f(ids[t]) == g(t)
    ensures ModelStep(m, ModifyProperty(p.prop, isMin).value.path, q, f, ids[s])
            == CutStep(p, q, KnownStates(p, ids), f(0), g, s)
  {
    ModifiedGoal(p.prop, isMin, m.LabelsOf(ids[s]));
    if p.Live(s) {
      RepresentedMove(p, ids, m, q, f, g, s);
    }
  }

  /** The finite chain means what it should: under the rewritten property it has, at every known
      state, the value of the truncation in which all unknown states are worth 0 (lower version) or
      1 (upper version). */
  lemma {:induction false} ModelValueIsCutValue(p: Problem, ids: Numbering, m: Model, isMin: bool, q: PosReal, k: nat)
    requires p.src.WellFormed() && p.prop.path.upper.Some? && Represents(p, ids, m)
    ensures forall s :: Known(p, ids, s) ==>
              ModelValue(m, ModifyProperty(p.prop, isMin).value.path, q, k)(ids[s])
              == CutValue(p, q, KnownStates(p, ids), if isMin then 0.0 else 1.0, k)(s)
    decreases k
  {
    var path, c := ModifyProperty(p.prop, isMin).value.path, if isMin then 0.0 else 1.0;
    if k > 0 {
      ModelValueIsCutValue(p, ids, m, isMin, q, k - 1);
      WindowIsLeak(m, p.prop, q, k - 1);
    }
    forall s | Known(p, ids, s)
      ensures ModelValue(m, path, q, k)(ids[s]) == CutValue(p, q, KnownStates(p, ids), c, k)(s)
    {
      if k == 0 {
        ModifiedGoal(p.prop, isMin, m.LabelsOf(ids[s]));
      } else {
        RepresentedStep(p, ids, m, isMin, q, ModelValue(m, path, q, k - 1),
            CutValue(p, q, KnownStates(p, ids), c, k - 1), s);
        CutValueUnfold(p, q, KnownStates(p, ids), c, k, s);
      }
    }
  }
}
