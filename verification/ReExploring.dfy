/** The re-exploring builder (STAMINA 2.0), which starts every inner iteration again from the initial
    states: each iteration visits every registered state exactly once. */
module ReExploring {
  import opened SourceChain
  import opened TruncatedModel
  import opened Exploration
  import opened Invariant
  import opened Iterations
  import opened Accounting
  import opened Runs
  import opened Termination
  import opened Finalization
  import opened Emission
  import opened Soundness

  // ----- Starting an iteration ---------------------------------------------------------------------------

  /** getOrAddStateIndex for an initial state that exists: it is enqueued and marked as seen. */
  function Revisit(n: Snapshot, s: CompressedState): Snapshot
    requires s in n.ids && n.ids[s] in n.recs
  {
    var i := n.ids[s];
    n.(recs := n.recs[i := n.recs[i].(lastSeen := n.iteration)], work := n.work + [Entry(i, s)])
  }

  function RevisitAll(n: Snapshot, states: seq<CompressedState>): (r: Snapshot)
    requires forall j :: 0 <= j < |states| ==> states[j] in n.ids && n.ids[states[j]] in n.recs
    ensures r.ids == n.ids && r.recs.Keys == n.recs.Keys
  {
    if states == [] then n else Revisit(RevisitAll(n, states[..|states| - 1]), states[|states| - 1])
  }

  // The initial states are registered, in the order of the source
  ghost predicate KnowsInitials(c: Config, n: Snapshot) {
    forall j :: 0 <= j < |c.problem.src.initial| ==>
      c.problem.src.initial[j] in n.ids && n.ids[c.problem.src.initial[j]] == j + 1 && j + 1 in n.recs
  }

  lemma RevisitKeepsValid(c: Config, n: Snapshot, s: CompressedState)
    requires Valid(c, n) && Known(c.problem, n.ids, s)
    ensures n.ids[s] in n.recs && Valid(c, Revisit(n, s))
  {
    var m := Revisit(n, s);
    assert m.recs.Keys == n.recs.Keys;
    forall j | 0 <= j < |m.work| ensures EntryOk(m, m.work[j]) {
      assert j < |n.work| ==> EntryOk(n, n.work[j]);
    }
    forall j | 0 <= j < |m.perimeter| ensures EntryOk(m, m.perimeter[j]) && Settled(m, m.perimeter[j]) {
      assert EntryOk(n, n.perimeter[j]) && Settled(n, n.perimeter[j]);
    }
    forall t | Known(c.problem, m.ids, t) ensures StateOk(c, m, Entry(m.ids[t], t), 0) {
      assert StateOk(c, n, Entry(n.ids[t], t), 0);
      StateOkKept(c, n, m, Entry(n.ids[t], t), 0);
    }
  }

  lemma {:induction false} RevisitAllKeepsValid(c: Config, n: Snapshot, states: seq<CompressedState>)
    requires Valid(c, n) && states <= c.problem.src.initial && KnowsInitials(c, n)
    ensures forall j :: 0 <= j < |states| ==> states[j] in n.ids && n.ids[states[j]] in n.recs
    ensures Valid(c, RevisitAll(n, states))
  {
    forall j | 0 <= j < |states| ensures states[j] in n.ids && n.ids[states[j]] in n.recs {
      assert states[j] == c.problem.src.initial[j];
    }
    if states != [] {
      hide Revisit;
      var s := states[|states| - 1];
      RevisitAllKeepsValid(c, n, states[..|states| - 1]);
      assert c.problem.src.initial[|states| - 1] == s;
      RevisitKeepsValid(c, RevisitAll(n, states[..|states| - 1]), s);
    }
  }

  lemma EndIterationKnows(c: Config, n: Snapshot, reduceKappa: real)
    requires KnowsInitials(c, n) && reduceKappa >= 1.0
    ensures KnowsInitials(c, EndIteration(n, reduceKappa))
  {
    var m := EndIteration(n, reduceKappa);
    forall j | 0 <= j < |c.problem.src.initial|
      ensures c.problem.src.initial[j] in m.ids && m.ids[c.problem.src.initial[j]] == j + 1 && j + 1 in m.recs
    {
      assert c.problem.src.initial[j] in n.ids && n.ids[c.problem.src.initial[j]] == j + 1 && j + 1 in n.recs;
    }
  }

  /** From the end of one inner iteration to the loop of the next: kappa is reduced and the initial
      states are enqueued.  The perimeter queue stays as it is. */
  function Reopen(c: Config, n: Snapshot, reduceKappa: real): Snapshot
    requires Valid(c, n) && KnowsInitials(c, n) && reduceKappa >= 1.0
  {
    EndIterationKeepsValid(c, n, reduceKappa);
    EndIterationKnows(c, n, reduceKappa);
    RevisitAllKeepsValid(c, EndIteration(n, reduceKappa), c.problem.src.initial);
    RevisitAll(EndIteration(n, reduceKappa), c.problem.src.initial)
  }

  // ----- What a round marks ----------------------------------------------------------------------------------

  ghost predicate AllSeen(n: Snapshot, es: seq<Edge>) {
    forall j :: 0 <= j < |es| ==> es[j].to in n.ids && Seen(n, n.ids[es[j].to]) == 1
  }

  // Nothing that was registered, seen or expanded stops being so, but for the state with index i
  ghost predicate Advances(n: Snapshot, m: Snapshot, i: nat) {
    && SubNumbering(n.ids, m.ids)
    && n.recs.Keys <= m.recs.Keys
    && (forall j: nat :: j in n.recs && Seen(n, j) == 1 ==> Seen(m, j) == 1)
    && (forall j: nat :: j in n.recs && j != i ==> m.recs[j].terminal == n.recs[j].terminal)
    && (forall j: nat :: j in m.recs && j !in n.recs ==> m.recs[j].terminal)
  }

  lemma RegisteredKeepsSeen(n: Snapshot, m: Snapshot, es: seq<Edge>)
    requires Registered(n, m) && AllSeen(n, es)
    ensures AllSeen(m, es)
  {
    forall j | 0 <= j < |es| ensures es[j].to in m.ids && Seen(m, m.ids[es[j].to]) == 1 {
      assert es[j].to in n.ids && Seen(n, n.ids[es[j].to]) == 1;
    }
  }

  lemma RegisterSees(c: Config, n: Snapshot, cur: nat, s: CompressedState)
    requires Shape(c, n) && cur in n.recs && s != c.problem.src.Absorbing()
    requires n.recs[cur].pi == 0.0 ==> s in n.ids
    ensures s in Register(n, cur, s).ids && Seen(Register(n, cur, s), Register(n, cur, s).ids[s]) == 1
  {
    assert s in n.ids ==> Known(c.problem, n.ids, s);
  }

  lemma {:induction false} RegisterAllSees(c: Config, n: Snapshot, e: Entry, es: seq<Edge>)
    requires Expanding(c, n, e) && es <= c.Succ(e.state) && c.problem.src.AvoidsAbsorbing(e.state)
    requires n.recs[e.index].pi == 0.0 ==> AllKnown(n.ids, c.Succ(e.state))
    ensures AllSeen(RegisterAll(n, e.index, es), es)
  {
    hide Register, Registered;
    if es != [] {
      var rest, s := es[..|es| - 1], es[|es| - 1].to;
      var m := RegisterAll(n, e.index, rest);
      RegisterAllSees(c, n, e, rest);
      RegisterAllKeepsExpanding(c, n, e, rest);
      NoMassInCallBacks(n, m, e);
      assert c.Succ(e.state)[|es| - 1].to == s;
      RegisterEffect(c, m, e.index, s);
      RegisterSees(c, m, e.index, s);
      RegisteredKeepsSeen(m, Register(m, e.index, s), rest);
      SeenWithLast(Register(m, e.index, s), es);
    }
  }

  lemma NoMassInCallBacks(n: Snapshot, m: Snapshot, e: Entry)
    requires e.index in n.recs && Registered(n, m)
    ensures e.index in m.recs && m.recs[e.index].pi == n.recs[e.index].pi && SubNumbering(n.ids, m.ids)
  {
  }

  lemma SeenWithLast(n: Snapshot, es: seq<Edge>)
    requires es != [] && AllSeen(n, es[..|es| - 1])
    requires es[|es| - 1].to in n.ids && Seen(n, n.ids[es[|es| - 1].to]) == 1
    ensures AllSeen(n, es)
  {
    forall j | 0 <= j < |es| ensures es[j].to in n.ids && Seen(n, n.ids[es[j].to]) == 1 {
      assert j < |es| - 1 ==> es[..|es| - 1][j] == es[j];
    }
  }

  // ----- A round of the loop ---------------------------------------------------------------------------------

  lemma ExpandAdvances(c: Config, n: Snapshot, e: Entry)
    requires Ready(c, n, e)
    ensures Advances(n, Expand(c, n, e), e.index)
    ensures AllSeen(Expand(c, n, e), c.Succ(e.state))
  {
    hide CallBack, Distribute, Finish;
    CallBackEffect(c, n, e);
    CallBackAdvances(c, n, e);
    CallBackShows(c, n, e);
    DistributeAdvances(c, CallBack(c, n, e), e);
    AdvancesTransitive(n, CallBack(c, n, e), Expand(c, n, e), e.index);
    AdvancesKeepsSeen(CallBack(c, n, e), Expand(c, n, e), e.index, c.Succ(e.state));
  }

  lemma CallBackShows(c: Config, n: Snapshot, e: Entry)
    requires Ready(c, n, e)
    ensures AllSeen(CallBack(c, n, e), c.Succ(e.state)) && AllIndexed(CallBack(c, n, e), c.Succ(e.state))
  {
    hide Registered;
    var b := CallBack(c, n, e);
    NoMassIsClosed(c, n, e);
    CallBackEffect(c, n, e);
    assert c.problem.src.AvoidsAbsorbing(e.state);
    RegisterAllSees(c, Unflagged(n, e.index), e, c.Succ(e.state));
    forall k | 0 <= k < |c.Succ(e.state)|
      ensures c.Succ(e.state)[k].to in b.ids && b.ids[c.Succ(e.state)[k].to] in b.recs
    {
      assert c.Succ(e.state)[k].to in b.ids;
      assert Known(c.problem, b.ids, c.Succ(e.state)[k].to);
    }
  }

  lemma NewRecordIsTerminal(c: Config, n: Snapshot, e: Entry, j: nat)
    requires Ready(c, n, e) && j in CallBack(c, n, e).recs && j !in n.recs
    ensures CallBack(c, n, e).recs[j].terminal
  {
    CallBackEffect(c, n, e);
    var k := NewIndexIsSuccessor(c, n, e, j);
  }

  lemma RegisteredAdvances(n: Snapshot, u: Snapshot, m: Snapshot, i: nat)
    requires i in n.recs && u == Unflagged(n, i) && Registered(u, m)
    requires forall j: nat :: j in m.recs && j !in n.recs ==> m.recs[j].terminal
    ensures Advances(n, m, i)
  {
  }

  lemma CallBackAdvances(c: Config, n: Snapshot, e: Entry)
    requires Ready(c, n, e)
    ensures Advances(n, CallBack(c, n, e), e.index)
  {
    var b := CallBack(c, n, e);
    CallBackEffect(c, n, e);
    hide CallBack, Expanding, Successors, Registered, Ready, Advances, Unflagged;
    forall j: nat | j in b.recs && j !in n.recs ensures b.recs[j].terminal {
      NewRecordIsTerminal(c, n, e, j);
    }
    ReadyIsRegistered(c, n, e);
    RegisteredAdvances(n, Unflagged(n, e.index), b, e.index);
  }

  lemma ReadyIsRegistered(c: Config, n: Snapshot, e: Entry)
    requires Ready(c, n, e)
    ensures e.index in n.recs
  {
  }

  ghost predicate AllIndexed(n: Snapshot, es: seq<Edge>) {
    forall j :: 0 <= j < |es| ==> es[j].to in n.ids && n.ids[es[j].to] in n.recs
  }

  lemma DistributeAdvances(c: Config, n: Snapshot, e: Entry)
    requires c.problem.src.WellFormed() && Expanding(c, n, e) && Successors(c, n.ids, c.Succ(e.state))
    ensures Advances(n, Finish(Distribute(c, n, e), e.index), e.index)
  {
    DistributeEffect(c, n, e);
  }

  lemma AdvancesTransitive(a: Snapshot, b: Snapshot, d: Snapshot, i: nat)
    requires Advances(a, b, i) && Advances(b, d, i) && i in a.recs
    ensures Advances(a, d, i)
  {
  }

  lemma AdvancesKeepsSeen(n: Snapshot, m: Snapshot, i: nat, es: seq<Edge>)
    requires Advances(n, m, i) && AllSeen(n, es) && AllIndexed(n, es)
    ensures AllSeen(m, es)
  {
    forall j | 0 <= j < |es| ensures es[j].to in m.ids && Seen(m, m.ids[es[j].to]) == 1 {
      assert es[j].to in n.ids && Seen(n, n.ids[es[j].to]) == 1;
    }
  }

  /** A round forgets nothing; and if the state it treats is expanded afterwards, all successors of
      that state have been seen in this iteration. */
  lemma StepAdvances(c: Config, n: Snapshot)
    requires Valid(c, n) && n.work != []
    ensures EntryOk(n, n.work[0])
    ensures Advances(n, Step(c, n), n.work[0].index)
    ensures !Step(c, n).recs[n.work[0].index].terminal ==> AllSeen(Step(c, n), c.Succ(n.work[0].state))
    ensures !n.recs[n.work[0].index].terminal ==> !Step(c, n).recs[n.work[0].index].terminal
    ensures Step(c, n).ids != n.ids ==> !Step(c, n).recs[n.work[0].index].terminal
  {
    hide Valid, Step, Advances, AllSeen, Expand;
    FrontIsReady(c, n);
    var e, m := n.work[0], Pop(n);
    if Expands(c, n) {
      ExpandAdvances(c, m, e);
      ExpandFinishes(c, m, e);
      PoppedAdvances(n, Expand(c, m, e), e.index);
    } else {
      OtherTurnAdvances(c, n);
    }
  }

  // Whether the next round expands a state that has successors
  ghost predicate Expands(c: Config, n: Snapshot)
    requires n.work != [] && n.work[0].index in n.recs
  {
    var e := n.work[0];
    !c.Stops(e.state) && !(n.recs[e.index].terminal && n.recs[e.index].pi < n.kappa) && c.Succ(e.state) != []
  }

  lemma FrontIsReady(c: Config, n: Snapshot)
    requires Valid(c, n) && n.work != []
    ensures EntryOk(n, n.work[0]) && c.problem.src.WellFormed()
    ensures Expands(c, n) ==> Ready(c, Pop(n), n.work[0]) && Step(c, n) == Expand(c, Pop(n), n.work[0])
  {
    hide Expand;
    PopKeepsInv(c, n);
    assert EntryOk(n, n.work[0]);
  }

  lemma PoppedAdvances(n: Snapshot, m: Snapshot, i: nat)
    requires n.work != [] && Advances(Pop(n), m, i)
    ensures Advances(n, m, i)
  {
  }

  lemma OtherTurnAdvances(c: Config, n: Snapshot)
    requires Valid(c, n) && n.work != [] && EntryOk(n, n.work[0]) && !Expands(c, n)
    ensures Advances(n, Step(c, n), n.work[0].index) && Step(c, n).ids == n.ids
    ensures n.work[0].index in Step(c, n).recs
    ensures Step(c, n).recs[n.work[0].index].terminal == n.recs[n.work[0].index].terminal || c.Stops(n.work[0].state)
    ensures !Step(c, n).recs[n.work[0].index].terminal ==> AllSeen(Step(c, n), c.Succ(n.work[0].state))
    ensures !n.recs[n.work[0].index].terminal ==> !Step(c, n).recs[n.work[0].index].terminal
  {
    hide Expand;
    PopKeepsInv(c, n);
    var e, m := n.work[0], Pop(n);
    PerimeterEntry(c, m, e);
    if !c.Stops(e.state) && c.Succ(e.state) == [] {
      DeadlockTurn(c, m, e);
    }
  }

  lemma ExpandFinishes(c: Config, n: Snapshot, e: Entry)
    requires Ready(c, n, e)
    ensures e.index in Expand(c, n, e).recs && !Expand(c, n, e).recs[e.index].terminal
  {
    CallBackEffect(c, n, e);
  }

  // ----- Completeness ------------------------------------------------------------------------------------------

  // A state that was discovered from s, which was registered before it
  ghost predicate DiscoveredFrom(c: Config, n: Snapshot, s: CompressedState, t: CompressedState) {
    && s in n.ids && t in n.ids && 1 <= n.ids[s] < n.ids[t] && n.ids[s] in n.recs && !n.recs[n.ids[s]].terminal
    && exists j :: 0 <= j < |c.Succ(s)| && c.Succ(s)[j].to == t
  }

  ghost predicate Discovered(c: Config, n: Snapshot, t: CompressedState)
    requires t in n.ids
  {
    n.ids[t] <= |c.problem.src.initial| || exists s :: DiscoveredFrom(c, n, s, t)
  }

  /** Every registered state but the initial ones was discovered from an expanded state with a
      smaller index; and every expanded state that was seen in this iteration and is not in the
      worklist has shown all its successors. */
  ghost predicate Exploring(c: Config, n: Snapshot)
    requires Shape(c, n)
  {
    && (forall t {:trigger Known(c.problem, n.ids, t)} :: Known(c.problem, n.ids, t) ==> Discovered(c, n, t))
    && (forall t {:trigger Known(c.problem, n.ids, t)} :: Known(c.problem, n.ids, t) ==> Shown(c, n, t))
  }

  ghost predicate Shown(c: Config, n: Snapshot, t: CompressedState)
    requires t in n.ids
  {
    var i := n.ids[t];
    i in n.recs && !n.recs[i].terminal && Seen(n, i) == 1 && Occurrences(n.work, i) == 0 ==> AllSeen(n, c.Succ(t))
  }

  lemma OldIndexIsOld(c: Config, ids: Numbering, ids': Numbering, t: CompressedState)
    requires ProperNumbering(c.problem, ids) && ProperNumbering(c.problem, ids') && SubNumbering(ids, ids')
    requires t in ids' && ids'[t] < |ids|
    ensures t in ids
  {
    assert IsIndex(ids, ids'[t]);
    var s :| s in ids && ids[s] == ids'[t];
    assert s in ids' && ids'[s] == ids'[t];
  }

  lemma NewIsDiscovered(c: Config, n: Snapshot, t: CompressedState)
    requires Valid(c, n) && n.work != [] && EntryOk(n, n.work[0])
    requires t !in n.ids && Known(c.problem, Step(c, n).ids, t) && Valid(c, Step(c, n))
    ensures DiscoveredFrom(c, Step(c, n), n.work[0].state, t)
  {
    var e, m := n.work[0], Step(c, n);
    StepAdvances(c, n);
    StepDiscovers(c, n, t);
    var i := m.ids[t];
    if i < |n.ids| {
      OldIndexIsOld(c, n.ids, m.ids, t);
    }
    assert Known(c.problem, n.ids, e.state);
  }

  lemma StepDiscovers(c: Config, n: Snapshot, t: CompressedState)
    requires Valid(c, n) && n.work != [] && EntryOk(n, n.work[0])
    requires t !in n.ids && t in Step(c, n).ids
    ensures exists j :: 0 <= j < |c.Succ(n.work[0].state)| && c.Succ(n.work[0].state)[j].to == t
  {
    var e, m := n.work[0], Pop(n);
    RegisterAllNewStates(Unflagged(m, e.index), e.index, c.Succ(e.state));
  }

  lemma OldStaysDiscovered(c: Config, n: Snapshot, m: Snapshot, i: nat, t: CompressedState)
    requires Advances(n, m, i) && t in n.ids && Discovered(c, n, t)
    requires i in n.recs && (!n.recs[i].terminal ==> !m.recs[i].terminal)
    ensures t in m.ids && Discovered(c, m, t)
  {
    if n.ids[t] > |c.problem.src.initial| {
      var s :| DiscoveredFrom(c, n, s, t);
      assert DiscoveredFrom(c, m, s, t);
    }
  }

  lemma StepShows(c: Config, n: Snapshot, t: CompressedState)
    requires Valid(c, n) && n.work != [] && EntryOk(n, n.work[0]) && Valid(c, Step(c, n))
    requires forall s {:trigger Known(c.problem, n.ids, s)} :: Known(c.problem, n.ids, s) ==> Shown(c, n, s)
    requires Known(c.problem, Step(c, n).ids, t)
    ensures Shown(c, Step(c, n), t)
  {
    hide Step, Seen, Occurrences;
    var e, m := n.work[0], Step(c, n);
    StepAdvances(c, n);
    StepMarks(c, n, m.ids[t]);
    if t in n.ids {
      assert Known(c.problem, n.ids, t) && Shown(c, n, t);
      assert n.ids[t] in n.recs;
      SeenAtMostOnce(m, n.ids[t]);
      SeenAtMostOnce(n, n.ids[t]);
      if n.ids[t] == e.index {
        assert t == e.state;
      } else if !n.recs[n.ids[t]].terminal && Seen(n, n.ids[t]) == 1 && Occurrences(n.work, n.ids[t]) == 0 {
        ExpandedIsIndexed(c, n, t);
        AdvancesKeepsSeen(n, m, e.index, c.Succ(t));
      }
    } else {
      NewIsUnexpanded(c, n, t);
    }
  }

  lemma SeenAtMostOnce(n: Snapshot, i: nat)
    ensures Seen(n, i) <= 1
  {
  }

  lemma ExpandedIsIndexed(c: Config, n: Snapshot, t: CompressedState)
    requires Valid(c, n) && Known(c.problem, n.ids, t) && n.ids[t] in n.recs && !n.recs[n.ids[t]].terminal
    ensures AllIndexed(n, c.Succ(t))
  {
    assert StateOk(c, n, Entry(n.ids[t], t), 0);
    assert c.problem.src.AvoidsAbsorbing(t);
    forall j | 0 <= j < |c.Succ(t)| ensures c.Succ(t)[j].to in n.ids && n.ids[c.Succ(t)[j].to] in n.recs {
      assert Known(c.problem, n.ids, c.Succ(t)[j].to);
    }
  }

  lemma NewIsUnexpanded(c: Config, n: Snapshot, t: CompressedState)
    requires Valid(c, n) && n.work != [] && EntryOk(n, n.work[0]) && Valid(c, Step(c, n))
    requires t !in n.ids && Known(c.problem, Step(c, n).ids, t)
    ensures Step(c, n).ids[t] in Step(c, n).recs && Step(c, n).recs[Step(c, n).ids[t]].terminal
  {
    hide Step;
    NewIsDiscovered(c, n, t);
    StepAdvances(c, n);
    assert IsIndex(Step(c, n).ids, Step(c, n).ids[t]);
    if Step(c, n).ids[t] in n.recs {
      OldIndexIsOld(c, n.ids, Step(c, n).ids, t);
    }
  }

  lemma StepKeepsExploring(c: Config, n: Snapshot)
    requires Valid(c, n) && n.work != [] && Exploring(c, n)
    ensures EntryOk(n, n.work[0]) && Valid(c, Step(c, n)) && Exploring(c, Step(c, n))
  {
    StepKeepsValid(c, n);
    StepAdvances(c, n);
    hide Step;
    var m := Step(c, n);
    forall t | Known(c.problem, m.ids, t) ensures Discovered(c, m, t) && Shown(c, m, t) {
      StepShows(c, n, t);
      if t in n.ids {
        assert Known(c.problem, n.ids, t);
        OldStaysDiscovered(c, n, m, n.work[0].index, t);
      } else {
        NewIsDiscovered(c, n, t);
      }
    }
  }

  lemma {:induction false} RunKeepsExploring(c: Config, n: Snapshot, rounds: nat)
    requires Valid(c, n) && Exploring(c, n)
    ensures Valid(c, Run(c, n, rounds)) && Exploring(c, Run(c, n, rounds))
    decreases rounds
  {
    hide Step, Exploring;
    if rounds != 0 && n.work != [] {
      StepKeepsValid(c, n);
      StepKeepsExploring(c, n);
      RunKeepsExploring(c, Step(c, n), rounds - 1);
    }
  }

  // ----- Whole iterations ----------------------------------------------------------------------------------------

  // Every initial state was seen in this iteration
  ghost predicate InitialsSeenNow(c: Config, n: Snapshot) {
    forall i: nat :: 1 <= i <= |c.problem.src.initial| ==> i in n.recs && Seen(n, i) == 1
  }

  // What is marked as seen and was not taken from the worklist yet is in it
  ghost predicate SeenIsWaiting(n: Snapshot) {
    forall i: nat :: Occurrences(n.work, i) == Seen(n, i)
  }

  lemma AdvancesKeepsInitials(c: Config, n: Snapshot, m: Snapshot, i: nat)
    requires Advances(n, m, i)
    ensures InitialsSeenNow(c, n) ==> InitialsSeenNow(c, m)
    ensures KnowsInitials(c, n) ==> KnowsInitials(c, m)
  {
    if KnowsInitials(c, n) {
      forall j | 0 <= j < |c.problem.src.initial|
        ensures c.problem.src.initial[j] in m.ids && m.ids[c.problem.src.initial[j]] == j + 1 && j + 1 in m.recs
      {
        assert c.problem.src.initial[j] in n.ids && n.ids[c.problem.src.initial[j]] == j + 1 && j + 1 in n.recs;
      }
    }
  }

  lemma StepKeepsInitials(c: Config, n: Snapshot)
    requires Valid(c, n) && n.work != []
    ensures EntryOk(n, n.work[0])
    ensures InitialsSeenNow(c, n) ==> InitialsSeenNow(c, Step(c, n))
    ensures KnowsInitials(c, n) ==> KnowsInitials(c, Step(c, n))
  {
    hide Step, Seen, Valid, Advances, InitialsSeenNow, KnowsInitials;
    FrontIsReady(c, n);
    StepAdvances(c, n);
    AdvancesKeepsInitials(c, n, Step(c, n), n.work[0].index);
  }

  lemma {:induction false} RunKeepsInitials(c: Config, n: Snapshot, rounds: nat)
    requires Valid(c, n)
    ensures InitialsSeenNow(c, n) ==> InitialsSeenNow(c, Run(c, n, rounds))
    ensures KnowsInitials(c, n) ==> KnowsInitials(c, Run(c, n, rounds))
    decreases rounds
  {
    hide Step, InitialsSeenNow, KnowsInitials;
    if rounds != 0 && n.work != [] {
      StepKeepsValid(c, n);
      StepKeepsInitials(c, n);
      RunKeepsInitials(c, Step(c, n), rounds - 1);
    }
  }

  /** The heart of completeness: when the worklist is empty, every registered state was seen in this
      iteration, by induction on its index. */
  lemma {:induction false} AllAreSeen(c: Config, n: Snapshot, t: CompressedState)
    requires Valid(c, n) && Exploring(c, n) && n.work == [] && InitialsSeenNow(c, n)
    requires Known(c.problem, n.ids, t)
    ensures Seen(n, n.ids[t]) == 1
    decreases n.ids[t]
  {
    assert Discovered(c, n, t);
    if n.ids[t] > |c.problem.src.initial| {
      var s :| DiscoveredFrom(c, n, s, t);
      assert Known(c.problem, n.ids, s);
      AllAreSeen(c, n, s);
      assert Shown(c, n, s);
    }
  }

  lemma {:induction false} RevisitAllMarks(c: Config, n: Snapshot, states: seq<CompressedState>, i: nat)
    requires states <= c.problem.src.initial && KnowsInitials(c, n)
    requires forall j: nat :: 1 <= j <= |c.problem.src.initial| ==> Seen(n, j) == 0
    requires forall j :: 0 <= j < |states| ==> states[j] in n.ids && n.ids[states[j]] in n.recs
    ensures var m := RevisitAll(n, states);
            && Occurrences(m.work, i) + Seen(n, i) == Occurrences(n.work, i) + Seen(m, i)
            && m.iteration == n.iteration
            && (Seen(m, i) == 1 <==> Seen(n, i) == 1 || 1 <= i <= |states|)
            && (i in n.recs ==> m.recs[i].terminal == n.recs[i].terminal)
  {
    hide Occurrences;
    if states != [] {
      var rest, s := states[..|states| - 1], states[|states| - 1];
      RevisitAllMarks(c, n, rest, i);
      assert s == c.problem.src.initial[|states| - 1];
      OccurrencesAppend(RevisitAll(n, rest).work, Entry(n.ids[s], s), i);
    }
  }

  lemma NothingSeenYet(c: Config, n: Snapshot, reduceKappa: real, i: nat)
    requires Valid(c, n) && reduceKappa >= 1.0
    ensures Seen(EndIteration(n, reduceKappa), i) == 0
  {
    if i in n.recs {
      assert IsIndex(n.ids, i);
      var s :| s in n.ids && n.ids[s] == i;
      assert Known(c.problem, n.ids, s) && StateOk(c, n, Entry(i, s), 0);
    }
  }

  /** A reopened iteration starts with exactly the initial states, each seen and each waiting. */
  lemma ReopenStarts(c: Config, n: Snapshot, reduceKappa: real)
    requires Valid(c, n) && KnowsInitials(c, n) && reduceKappa >= 1.0 && n.work == [] && Exploring(c, n)
    ensures var m := Reopen(c, n, reduceKappa);
            && Valid(c, m) && KnowsInitials(c, m) && InitialsSeenNow(c, m) && SeenIsWaiting(m) && Exploring(c, m)
  {
    var e, states := EndIteration(n, reduceKappa), c.problem.src.initial;
    EndIterationKeepsValid(c, n, reduceKappa);
    EndIterationKnows(c, n, reduceKappa);
    RevisitAllKeepsValid(c, e, states);
    var m := Reopen(c, n, reduceKappa);
    forall i: nat
      ensures Seen(e, i) == 0
      ensures Occurrences(m.work, i) == Seen(m, i)
      ensures Seen(m, i) == 1 <==> 1 <= i <= |states|
      ensures i in n.recs ==> m.recs[i].terminal == n.recs[i].terminal
    {
      NothingSeenYet(c, n, reduceKappa, i);
      forall j: nat | 1 <= j <= |states| ensures Seen(e, j) == 0 {
        NothingSeenYet(c, n, reduceKappa, j);
      }
      RevisitAllMarks(c, e, states, i);
    }
    forall t | Known(c.problem, m.ids, t) ensures Discovered(c, m, t) && Shown(c, m, t) {
      assert Known(c.problem, n.ids, t) && Discovered(c, n, t);
      if n.ids[t] > |states| {
        var s :| DiscoveredFrom(c, n, s, t);
        assert DiscoveredFrom(c, m, s, t);
      }
    }
    forall i: nat | 1 <= i <= |states| ensures i in m.recs {
      assert states[i - 1] in n.ids && i - 1 + 1 in n.recs;
    }
  }

  /** Re-exploring completeness: an inner iteration of the re-exploring builder that ends has
      dequeued every registered state exactly once. */
  lemma EveryStateIsVisitedOnce(c: Config, n: Snapshot, rounds: nat, t: CompressedState)
    requires Valid(c, n) && Exploring(c, n) && InitialsSeenNow(c, n) && SeenIsWaiting(n)
    requires Run(c, n, rounds).work == [] && Known(c.problem, Run(c, n, rounds).ids, t)
    ensures Dequeues(c, n, rounds, Run(c, n, rounds).ids[t]) == 1
  {
    hide Run, Seen, Dequeues;
    var m := Run(c, n, rounds);
    RunKeepsExploring(c, n, rounds);
    RunKeepsInitials(c, n, rounds);
    AllAreSeen(c, m, t);
    DequeuesAreMarked(c, n, rounds, m.ids[t]);
    assert Occurrences(n.work, m.ids[t]) == Seen(n, m.ids[t]);
  }

  // ----- All iterations of a build --------------------------------------------------------------------------------

  lemma {:induction false} RegisterInitialsNumbered(c: Config, kappa: real, states: seq<CompressedState>)
    requires c.problem.src.WellFormed() && states <= c.problem.src.initial
    ensures var n := RegisterInitials(Fresh(c, kappa), states);
            forall j :: 0 <= j < |states| ==> states[j] in n.ids && n.ids[states[j]] == j + 1 && j + 1 in n.recs
  {
    if states != [] {
      var rest := states[..|states| - 1];
      RegisterInitialsNumbered(c, kappa, rest);
      RegisterInitialsShape(c, kappa, rest);
      InitialIsNew(c, kappa, states);
      var n, m := RegisterInitials(Fresh(c, kappa), rest), RegisterInitials(Fresh(c, kappa), states);
      assert m.ids == n.ids[states[|rest|] := |states|] && m.recs.Keys == n.recs.Keys + {|states|};
      forall j | 0 <= j < |states| ensures states[j] in m.ids && m.ids[states[j]] == j + 1 && j + 1 in m.recs {
        if j < |rest| {
          assert rest[j] == states[j];
        }
      }
    }
  }

  lemma {:induction false} InitialOccurrences(states: seq<CompressedState>, i: nat)
    ensures Occurrences(InitialWork(states), i) == if 1 <= i <= |states| then 1 else 0
  {
    if states != [] {
      InitialOccurrences(states[..|states| - 1], i);
      OccurrencesAppend(InitialWork(states[..|states| - 1]), Entry(|states|, states[|states| - 1]), i);
    }
  }

  lemma StartExplores(c: Config, kappa: real)
    requires c.problem.src.WellFormed() && kappa >= 0.0
    ensures var n := Start(c, kappa);
            && Valid(c, n) && KnowsInitials(c, n) && InitialsSeenNow(c, n) && SeenIsWaiting(n) && Exploring(c, n)
  {
    var n, states := Start(c, kappa), c.problem.src.initial;
    StartValid(c, kappa);
    RegisterInitialsShape(c, kappa, states);
    RegisterInitialsNumbered(c, kappa, states);
    InitialsSeen(c, kappa, states);
    InitialDistinct(states);
    forall i: nat
      ensures Occurrences(n.work, i) == Seen(n, i)
      ensures 1 <= i <= |states| ==> i in n.recs && Seen(n, i) == 1
    {
      InitialOccurrences(states, i);
      if 1 <= i <= |states| {
        assert n.work[i - 1].index == i;
      }
    }
  }

  /** The re-exploring builder at the end of its loop in inner iteration k. */
  function ReIteration(c: Config, kappa: real, reduceKappa: real, rounds: nat, k: nat): (n: Snapshot)
    requires c.problem.src.WellFormed() && kappa >= 0.0 && reduceKappa >= 1.0
    ensures Valid(c, n) && KnowsInitials(c, n) && Exploring(c, n)
  {
    if k == 0 then
      StartExplores(c, kappa);
      RunKeepsExploring(c, Start(c, kappa), rounds);
      RunKeepsInitials(c, Start(c, kappa), rounds);
      Run(c, Start(c, kappa), rounds)
    else
      var before := ReIteration(c, kappa, reduceKappa, rounds, k - 1);
      if before.work != [] then before
      else
        ReopenStarts(c, before, reduceKappa);
        RunKeepsExploring(c, Reopen(c, before, reduceKappa), rounds);
        RunKeepsInitials(c, Reopen(c, before, reduceKappa), rounds);
        Run(c, Reopen(c, before, reduceKappa), rounds)
  }

  // Where iteration k begins
  function ReStart(c: Config, kappa: real, reduceKappa: real, rounds: nat, k: nat): Snapshot
    requires c.problem.src.WellFormed() && kappa >= 0.0 && reduceKappa >= 1.0
  {
    if k == 0 then Start(c, kappa) else Reopen(c, ReIteration(c, kappa, reduceKappa, rounds, k - 1), reduceKappa)
  }

  /** Over a whole build: if inner iteration k ended, it dequeued each state that is registered by
      then exactly once. */
  lemma EveryIterationVisitsAll(c: Config, kappa: real, reduceKappa: real, rounds: nat, k: nat, t: CompressedState)
    requires c.problem.src.WellFormed() && kappa >= 0.0 && reduceKappa >= 1.0
    requires forall i :: 0 <= i <= k ==> ReIteration(c, kappa, reduceKappa, rounds, i).work == []
    requires Known(c.problem, ReIteration(c, kappa, reduceKappa, rounds, k).ids, t)
    ensures Valid(c, ReStart(c, kappa, reduceKappa, rounds, k))
    ensures Dequeues(c, ReStart(c, kappa, reduceKappa, rounds, k), rounds,
            ReIteration(c, kappa, reduceKappa, rounds, k).ids[t]) == 1
  {
    hide Run, Start, Reopen, Valid, Exploring, KnowsInitials, InitialsSeenNow, SeenIsWaiting, Dequeues;
    if k == 0 {
      StartExplores(c, kappa);
    } else {
      assert ReIteration(c, kappa, reduceKappa, rounds, k - 1).work == [];
      ReopenStarts(c, ReIteration(c, kappa, reduceKappa, rounds, k - 1), reduceKappa);
    }
    EveryStateIsVisitedOnce(c, ReStart(c, kappa, reduceKappa, rounds, k), rounds, t);
  }

  /** What a re-exploring build that leaves its kappa loop after inner iteration k finalizes is a
      sound truncation as well. */
  lemma ReExploringIsSound(c: Config, kappa: real, reduceKappa: real, rounds: nat, k: nat)
    requires c.problem.src.WellFormed() && kappa >= 0.0 && reduceKappa >= 1.0 && c.problem.prop.path.upper.Some?
    requires ReIteration(c, kappa, reduceKappa, rounds, k).work == []
    ensures var n := EndIteration(ReIteration(c, kappa, reduceKappa, rounds, k), reduceKappa);
            Closing(c, n) && Brackets(c.problem, n.ids, BuiltModel(c, n))
  {
    hide ReIteration, Valid, Closing, Brackets;
    var n := ReIteration(c, kappa, reduceKappa, rounds, k);
    EndIterationKeepsValid(c, n, reduceKappa);
    ClosingStarts(c, EndIteration(n, reduceKappa));
    BuiltModelBrackets(c, EndIteration(n, reduceKappa));
  }
}
