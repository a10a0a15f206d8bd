/** The truncating exploration on values: the data of a model builder and what each of its
    operations does to that data. */
module Exploration {
  import opened SourceChain
  import opened TruncatedModel

  /** A problem, and whether states that settle the property are left unexplored
      (formulaMatchesExpression && !no_prop_refine). */
  datatype Config = Config(problem: Problem, refine: bool) {
    predicate Stops(s: CompressedState): (r: bool)
      ensures r <==> refine && !problem.Live(s)
    {
      refine && (!problem.Phi1(s) || problem.Phi2(s))
    }

    function Succ(s: CompressedState): seq<Edge> {
      problem.src.Succ(s)
    }
  }

  ghost predicate HasEdge(c: Config, s: CompressedState, t: CompressedState) {
    Among(c.Succ(s), t)
  }

  // The contents of a ProbabilityState; inQueue is wasPutInTerminalQueue
  datatype Record = Record(pi: real, terminal: bool, lastSeen: nat, isNew: bool, inQueue: bool, deadlock: bool)

  datatype Entry = Entry(index: nat, state: CompressedState)

  datatype Snapshot = Snapshot(
    ids: Numbering,                  // stateStorage.stateToId
    recs: map<nat, Record>,          // stateMap
    work: seq<Entry>,                // statesToExplore
    perimeter: seq<Entry>,           // statesTerminatedLastIteration
    table: seq<seq<Transition>>,     // transitionsToAdd
    deadlocks: seq<nat>,             // stateStorage.deadlockStateIndices
    numberTerminal: nat,
    kappa: real,                     // localKappa
    iteration: nat)

  function Row(table: seq<seq<Transition>>, i: nat): seq<Transition> {
    if i < |table| then table[i] else []
  }

  function Grow(table: seq<seq<Transition>>, size: nat): seq<seq<Transition>> {
    if |table| >= size then table else table + seq(size - |table|, _ => [])
  }

  /** createTransition.  Only the entry before is checked for being the same one. */
  function Create(table: seq<seq<Transition>>, from: nat, to: nat, rate: real): seq<seq<Transition>> {
    if rate == 0.0 then table
    else
      var grown := Grow(table, (if from < to then to else from) + 1);
      var row := grown[from];
      if row != [] && row[|row| - 1] == Transition(from, to, rate) then grown
      else grown[from := row + [Transition(from, to, rate)]]
  }

  // The index that stateToId.findOrAdd would give
  function IndexFor(ids: Numbering, s: CompressedState): nat {
    if s in ids then ids[s] else |ids|
  }

  // A registered state is met: it is enqueued unless that happened before in this iteration
  function MeetAgain(n: Snapshot, i: nat, s: CompressedState): Snapshot
    requires i in n.recs
  {
    if n.recs[i].lastSeen == n.iteration then n
    else n.(recs := n.recs[i := n.recs[i].(lastSeen := n.iteration)], work := n.work + [Entry(i, s)])
  }

  // A state gets its record
  function AddRecord(n: Snapshot, i: nat, s: CompressedState, pi: real): Snapshot {
    n.(recs := n.recs[i := Record(pi, true, n.iteration, true, false, false)],
       work := n.work + [Entry(i, s)],
       numberTerminal := n.numberTerminal + 1)
  }

  /** getOrAddStateIndex, called back for a successor s of the state with index cur. */
  function Register(n: Snapshot, cur: nat, s: CompressedState): (r: Snapshot)
    requires cur in n.recs
    ensures s in r.ids && n.ids.Keys <= r.ids.Keys && n.recs.Keys <= r.recs.Keys
  {
    var i := IndexFor(n.ids, s);
    var m := n.(ids := n.ids[s := i]);
    if i in m.recs then MeetAgain(m, i, s)
    else if m.recs[cur].pi == 0.0 then
      // The record is made and enqueued, but it does not enter stateMap
      m.(work := m.work + [Entry(i, s)])
    else AddRecord(m, i, s, 0.0)
  }

  /** The callbacks of one expand. */
  function RegisterAll(n: Snapshot, cur: nat, es: seq<Edge>): (r: Snapshot)
    requires cur in n.recs
    ensures n.ids.Keys <= r.ids.Keys && n.recs.Keys <= r.recs.Keys
    ensures forall j :: 0 <= j < |es| ==> es[j].to in r.ids
  {
    if es == [] then n
    else
      var m := RegisterAll(n, cur, es[..|es| - 1]);
      Register(m, cur, es[|es| - 1].to)
  }

  // The probability of one edge in the embedded jump chain
  function Share(rate: real, total: real): real
    requires total != 0.0
  {
    rate / total
  }

  /** The body of the loop over the successors: move probability along one edge, and record the
      transition if the state is expanded for the first time. */
  function Propagate(n: Snapshot, cur: nat, e: Edge, enqueueAll: bool, total: real): (r: Snapshot)
    requires cur in n.recs && e.to in n.ids && (enqueueAll || total != 0.0)
    ensures r.ids == n.ids && r.recs.Keys == n.recs.Keys
  {
    var i := n.ids[e.to];
    if i == 0 || i !in n.recs then n
    else
      var m :=
        if enqueueAll then n
        else n.(recs := n.recs[i := n.recs[i].(pi := n.recs[i].pi + Times(n.recs[cur].pi, Share(e.rate, total)))]);
      if m.recs[cur].isNew then m.(table := Create(m.table, cur, i, e.rate)) else m
  }

  function PropagateAll(n: Snapshot, cur: nat, es: seq<Edge>, enqueueAll: bool, total: real): (r: Snapshot)
    requires cur in n.recs && (forall j :: 0 <= j < |es| ==> es[j].to in n.ids) && (enqueueAll || total != 0.0)
    ensures r.ids == n.ids && r.recs.Keys == n.recs.Keys
  {
    if es == [] then n
    else
      var m := PropagateAll(n, cur, es[..|es| - 1], enqueueAll, total);
      Propagate(m, cur, es[|es| - 1], enqueueAll, total)
  }

  /** A state that settles the property. */
  function Stop(n: Snapshot, i: nat): Snapshot
    requires i in n.recs
  {
    n.(table := Create(n.table, i, i, 1.0),
       recs := n.recs[i := n.recs[i].(terminal := true)],
       numberTerminal := n.numberTerminal + 1)
  }

  /** A terminal state below the threshold. */
  function Postpone(n: Snapshot, e: Entry): Snapshot
    requires e.index in n.recs
  {
    if n.recs[e.index].inQueue then n
    else n.(perimeter := n.perimeter + [e], recs := n.recs[e.index := n.recs[e.index].(inQueue := true)])
  }

  /** A state whose expansion has no behaviour. */
  function Deadlock(n: Snapshot, i: nat): Snapshot
    requires i in n.recs
  {
    if n.recs[i].deadlock then n
    else n.(table := Create(n.table, i, i, 1.0),
            deadlocks := n.deadlocks + [i],
            recs := n.recs[i := n.recs[i].(deadlock := true)])
  }

  /** The end of an expansion. */
  function Finish(n: Snapshot, i: nat): Snapshot
    requires i in n.recs
  {
    var r := n.recs[i];
    n.(numberTerminal := if r.terminal && n.numberTerminal > 0 then n.numberTerminal - 1 else n.numberTerminal,
       recs := n.recs[i := r.(isNew := false, terminal := false, pi := 0.0)])
  }

  /** generator->expand: the flag is cleared and every successor is called back. */
  function CallBack(c: Config, n: Snapshot, e: Entry): (r: Snapshot)
    requires e.index in n.recs
    ensures e.index in r.recs && forall j :: 0 <= j < |c.Succ(e.state)| ==> c.Succ(e.state)[j].to in r.ids
  {
    RegisterAll(n.(recs := n.recs[e.index := n.recs[e.index].(inQueue := false)]), e.index, c.Succ(e.state))
  }

  function Distribute(c: Config, n: Snapshot, e: Entry): (r: Snapshot)
    requires c.problem.src.WellFormed() && e.index in n.recs
    requires c.Succ(e.state) != [] && forall j :: 0 <= j < |c.Succ(e.state)| ==> c.Succ(e.state)[j].to in n.ids
    ensures r.recs.Keys == n.recs.Keys
  {
    assert c.problem.src.PositiveRates(e.state);
    ExitNonNegative(c.Succ(e.state));
    PropagateAll(n, e.index, c.Succ(e.state), n.recs[e.index].pi == 0.0, Exit(c.Succ(e.state)))
  }

  function Expand(c: Config, n: Snapshot, e: Entry): Snapshot
    requires c.problem.src.WellFormed() && e.index in n.recs
  {
    var m := CallBack(c, n, e);
    if c.Succ(e.state) == [] then Deadlock(m, e.index) else Finish(Distribute(c, m, e), e.index)
  }

  function Pop(n: Snapshot): Snapshot
    requires n.work != []
  {
    n.(work := n.work[1..])
  }

  /** What is done with a state taken from the worklist. */
  function Turn(c: Config, n: Snapshot, e: Entry): Snapshot
    requires c.problem.src.WellFormed() && e.index in n.recs
  {
    if c.Stops(e.state) then Stop(n, e.index)
    else if n.recs[e.index].terminal && n.recs[e.index].pi < n.kappa then Postpone(n, e)
    else Expand(c, n, e)
  }

  /** One round of the exploration loop. */
  function Step(c: Config, n: Snapshot): Snapshot
    requires c.problem.src.WellFormed() && n.work != [] && n.work[0].index in n.recs
  {
    Turn(c, Pop(n), n.work[0])
  }

  // ----- Before, between and after the inner iterations -------------------------------------

  /** setUpAbsorbingState in a new builder. */
  function Fresh(c: Config, kappa: real): Snapshot {
    Snapshot(map[c.problem.src.Absorbing() := 0], map[], [], [], [], [0], 0, kappa, 0)
  }

  /** getOrAddStateIndex while the initial states are made. */
  function RegisterInitial(n: Snapshot, s: CompressedState): Snapshot {
    var i := IndexFor(n.ids, s);
    AddRecord(n.(ids := n.ids[s := i]), i, s, 1.0)
  }

  function RegisterInitials(n: Snapshot, states: seq<CompressedState>): Snapshot {
    if states == [] then n
    else RegisterInitial(RegisterInitials(n, states[..|states| - 1]), states[|states| - 1])
  }

  /** The turn of flushStatesTerminated for the front of the perimeter queue. */
  function FlushOne(n: Snapshot): Snapshot
    requires n.perimeter != [] && n.perimeter[0].index in n.recs
  {
    var e, m := n.perimeter[0], n.(perimeter := n.perimeter[1..]);
    if !m.recs[e.index].inQueue then m
    else m.(work := m.work + [e], recs := m.recs[e.index := m.recs[e.index].(inQueue := false, isNew := true)])
  }

  /** accumulateProbabilities and the end of buildMatrices. */
  function EndIteration(n: Snapshot, reduceKappa: real): Snapshot
    requires reduceKappa != 0.0
  {
    n.(kappa := n.kappa / reduceKappa, iteration := n.iteration + 1)
  }

  // The value that accumulateProbabilities returns
  function PiHat(n: Snapshot): real {
    n.numberTerminal as real * n.kappa
  }

  /** connectTerminalStatesToAbsorbing: the transitions to known successors, in turn. */
  function ConnectKnown(table: seq<seq<Transition>>, ids: Numbering, i: nat, es: seq<Edge>): seq<seq<Transition>> {
    if es == [] then table
    else
      var e := es[|es| - 1];
      var t := ConnectKnown(table, ids, i, es[..|es| - 1]);
      if IndexOrAbsorbing(ids, e.to) != 0 then Create(t, i, IndexOrAbsorbing(ids, e.to), e.rate) else t
  }

  /** connectTerminalStatesToAbsorbing. */
  function Connect(c: Config, n: Snapshot, e: Entry): Snapshot {
    var i, es := e.index, c.Succ(e.state);
    if es == [] then
      n.(table := Create(n.table, i, i, 1.0), deadlocks := n.deadlocks + [i])
    else
      var t, out := ConnectKnown(n.table, n.ids, i, es), UnknownRate(n.ids, es);
      n.(table := if out != 0.0 then Create(t, i, 0, out) else t)
  }

  /** The turn of connectAllTerminalStatesToAbsorbing for the front of the perimeter queue. */
  function ConnectOne(c: Config, n: Snapshot): Snapshot
    requires n.perimeter != [] && n.perimeter[0].index in n.recs
  {
    var e, m := n.perimeter[0], n.(perimeter := n.perimeter[1..]);
    if !m.recs[e.index].inQueue then m
    else Connect(c, m.(recs := m.recs[e.index := m.recs[e.index].(inQueue := false)]), e)
  }

  /** flushToTransitionMatrix: what is emitted, row by row, skipping zero entries. */
  function NonZero(row: seq<Transition>): seq<Transition> {
    if row == [] then []
    else NonZero(row[..|row| - 1]) + (if row[|row| - 1].rate == 0.0 then [] else [row[|row| - 1]])
  }

  function Emitted(table: seq<seq<Transition>>): seq<Transition> {
    if table == [] then [] else Emitted(table[..|table| - 1]) + NonZero(table[|table| - 1])
  }
}
