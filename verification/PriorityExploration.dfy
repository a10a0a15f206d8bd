/** The priority builder (STAMINA 3.0): states are taken from a priority queue in an order that is
    left open, nothing is postponed, and piHat is kept up to date in every round.  All results hold
    for every order. */
module PriorityExploration {
  import opened SourceChain
  import opened TruncatedModel
  import opened Exploration
  import opened Invariant
  import opened Iterations
  import opened Accounting
  import opened Runs

  /** The data of the builder.  The base is that of the other builders, with the priority queue for a
      worklist and without a threshold; held records what each state held when it was popped and
      found to be settled. */
  datatype PState = PState(base: Snapshot, piHat: real, windowPower: real, explored: nat, held: map<nat, real>)

  // ----- What the code does -----------------------------------------------------------------------------

  /** getOrAddStateIndex: a state that cannot get a record is not enqueued. */
  function PRegister(n: Snapshot, cur: nat, s: CompressedState): (r: Snapshot)
    requires cur in n.recs
    ensures s in r.ids && n.ids.Keys <= r.ids.Keys && n.recs.Keys <= r.recs.Keys
  {
    var i := IndexFor(n.ids, s);
    var m := n.(ids := n.ids[s := i]);
    if i in m.recs then MeetAgain(m, i, s)
    else if m.recs[cur].pi == 0.0 then m
    else AddRecord(m, i, s, 0.0)
  }

  function PRegisterAll(n: Snapshot, cur: nat, es: seq<Edge>): (r: Snapshot)
    requires cur in n.recs
    ensures n.ids.Keys <= r.ids.Keys && n.recs.Keys <= r.recs.Keys
    ensures forall j :: 0 <= j < |es| ==> es[j].to in r.ids
  {
    if es == [] then n
    else PRegister(PRegisterAll(n, cur, es[..|es| - 1]), cur, es[|es| - 1].to)
  }

  /** One turn of the loop over the successors: probability that reaches a terminal state is added
      to piHat. */
  function PPropagate(s: PState, cur: nat, e: Edge, enqueueAll: bool, total: real): (r: PState)
    requires cur in s.base.recs && e.to in s.base.ids && (enqueueAll || total != 0.0)
    ensures r.base == Propagate(s.base, cur, e, enqueueAll, total)
  {
    var i := s.base.ids[e.to];
    var share := if enqueueAll then 0.0 else Times(s.base.recs[cur].pi, Share(e.rate, total));
    s.(base := Propagate(s.base, cur, e, enqueueAll, total),
       piHat := if i != 0 && i in s.base.recs && !enqueueAll && s.base.recs[i].terminal
                then s.piHat + share else s.piHat)
  }

  function PPropagateAll(s: PState, cur: nat, es: seq<Edge>, enqueueAll: bool, total: real): (r: PState)
    requires cur in s.base.recs && (forall j :: 0 <= j < |es| ==> es[j].to in s.base.ids)
             && (enqueueAll || total != 0.0)
    ensures r.base == PropagateAll(s.base, cur, es, enqueueAll, total)
  {
    if es == [] then s
    else PPropagate(PPropagateAll(s, cur, es[..|es| - 1], enqueueAll, total), cur, es[|es| - 1], enqueueAll, total)
  }

  /** A state that settles the property: numberTerminal is left alone here. */
  function PStop(s: PState, i: nat): PState
    requires i in s.base.recs
  {
    s.(base := s.base.(table := Create(s.base.table, i, i, 1.0),
                       recs := s.base.recs[i := s.base.recs[i].(terminal := true)]),
       piHat := s.piHat - s.base.recs[i].pi,
       held := s.held[i := s.base.recs[i].pi])
  }

  /** A state without behaviour. */
  function PDeadlock(s: PState, i: nat): PState
    requires i in s.base.recs
  {
    var n := s.base.(table := Create(s.base.table, i, i, 1.0));
    s.(base := if n.recs[i].deadlock then n
               else n.(deadlocks := n.deadlocks + [i], recs := n.recs[i := n.recs[i].(deadlock := true)]),
       piHat := s.piHat - s.base.recs[i].pi,
       held := s.held[i := s.base.recs[i].pi])
  }

  /** The end of an expansion; power gives windowPower for the number of states explored so far. */
  function PFinish(s: PState, i: nat, power: nat -> real): PState
    requires i in s.base.recs
  {
    var counted := s.base.recs[i].terminal && s.base.numberTerminal > 0;
    s.(base := Finish(s.base, i),
       piHat := if counted then s.piHat - s.base.recs[i].pi else s.piHat,
       windowPower := power(s.explored),
       explored := s.explored + 1)
  }

  function PExpand(c: Config, s: PState, e: Entry, power: nat -> real): PState
    requires c.problem.src.WellFormed() && e.index in s.base.recs
  {
    var es := c.Succ(e.state);
    var m := s.(base := PRegisterAll(s.base, e.index, es));
    if es == [] then PDeadlock(m, e.index)
    else
      assert c.problem.src.PositiveRates(e.state);
      ExitNonNegative(es);
      PFinish(PPropagateAll(m, e.index, es, m.base.recs[e.index].pi == 0.0, Exit(es)), e.index, power)
  }

  function PopAt(n: Snapshot, j: nat): Snapshot
    requires j < |n.work|
  {
    n.(work := n.work[..j] + n.work[j + 1..])
  }

  /** One round of the loop, in which the entry at position j is the top of the queue. */
  function PStep(c: Config, s: PState, j: nat, power: nat -> real): PState
    requires c.problem.src.WellFormed() && j < |s.base.work| && s.base.work[j].index in s.base.recs
  {
    var e, m := s.base.work[j], s.(base := PopAt(s.base, j));
    if c.Stops(e.state) then PStop(m, e.index) else PExpand(c, m, e, power)
  }

  /** Before the loop: the initial states are registered, piHat is 1 however many there are. */
  function PStart(c: Config): PState {
    PState(Start(c, 0.0), 1.0, 0.0, 0, map[])
  }

  // ----- The invariant -----------------------------------------------------------------------------------

  /** A queued state was never popped: it is terminal, has no row, and is not a known deadlock. */
  ghost predicate Unpopped(n: Snapshot, e: Entry) {
    e.index in n.recs && n.recs[e.index].terminal && !n.recs[e.index].deadlock && Row(n.table, e.index) == []
  }

  ghost predicate Queued(n: Snapshot, i: nat) {
    exists j :: 0 <= j < |n.work| && n.work[j].index == i
  }

  ghost predicate QueueFits(n: Snapshot) {
    && (forall j :: 0 <= j < |n.work| ==> Unpopped(n, n.work[j]))
    && (forall j, k :: 0 <= j < k < |n.work| ==> n.work[j].index != n.work[k].index)
  }

  /** A terminal state is queued or was settled, and a settled one holds no less than it did then. */
  ghost predicate HeldFits(s: PState) {
    && (forall i: nat :: i in s.held ==>
          i in s.base.recs && s.base.recs[i].terminal && !Queued(s.base, i) && 0.0 <= s.held[i] <= s.base.recs[i].pi)
    && (forall i: nat :: i in s.base.recs && s.base.recs[i].terminal && !Queued(s.base, i) ==> i in s.held)
  }

  ghost predicate PInv(c: Config, s: PState) {
    && c.problem.src.WellFormed()
    && Inv(c, s.base, 0) && Charged(s.base)
    && s.base.kappa == 0.0 && s.base.perimeter == []
    && (forall i: nat :: i in s.base.recs ==> s.base.recs[i].lastSeen == s.base.iteration)
    && s.base.numberTerminal as real == Sum(Terminals, s.base)
    && QueueFits(s.base)
    && HeldFits(s)
  }

  /** What the settled states held, together. */
  function HeldSum(held: map<nat, real>, size: nat): real {
    if size == 0 then 0.0 else HeldSum(held, size - 1) + (if size - 1 in held then held[size - 1] else 0.0)
  }

  /** The difference between piHat and the probability it is meant to stand for. */
  function Drift(s: PState): real {
    s.piHat - (Sum(TerminalMass, s.base) - HeldSum(s.held, |s.base.ids|))
  }

  // ----- Popping -------------------------------------------------------------------------------------------

  lemma PopAtMembers(work: seq<Entry>, j: nat, e: Entry)
    requires j < |work| && e in work && e != work[j]
    ensures e in work[..j] + work[j + 1..]
  {
    var k :| 0 <= k < |work| && work[k] == e;
    assert k < j ==> (work[..j] + work[j + 1..])[k] == e;
    assert k > j ==> (work[..j] + work[j + 1..])[k - 1] == e;
  }

  lemma PopAtKeepsInv(c: Config, n: Snapshot, j: nat)
    requires Inv(c, n, 0) && j < |n.work|
    ensures EntryOk(n, n.work[j]) && Inv(c, PopAt(n, j), n.work[j].index)
  {
    var m, i := PopAt(n, j), n.work[j].index;
    forall k | 0 <= k < |m.work| ensures EntryOk(m, m.work[k]) {
      assert EntryOk(n, n.work[if k < j then k else k + 1]);
    }
    forall k | 0 <= k < |m.perimeter| ensures EntryOk(m, m.perimeter[k]) && Settled(m, m.perimeter[k]) {
      assert EntryOk(n, n.perimeter[k]) && Settled(n, n.perimeter[k]);
    }
    forall s | Known(c.problem, m.ids, s) ensures StateOk(c, m, Entry(m.ids[s], s), i) {
      var e := Entry(n.ids[s], s);
      assert StateOk(c, n, e, 0);
      if e in n.work && e != n.work[j] {
        PopAtMembers(n.work, j, e);
      }
    }
  }

  // A popped state as the other builders see it: neither flagged nor below the threshold
  lemma PoppedIsReady(c: Config, s: PState, j: nat)
    requires PInv(c, s) && j < |s.base.work|
    ensures var e, m := s.base.work[j], PopAt(s.base, j);
            && EntryOk(m, e) && Inv(c, m, e.index) && Charged(m) && Unpopped(m, e)
            && m.recs[e.index].pi > 0.0 && !m.recs[e.index].inQueue && Unflagged(m, e.index) == m
            && (!c.Stops(e.state) && c.Succ(e.state) != [] ==> Ready(c, m, e))
  {
    PopAtKeepsInv(c, s.base, j);
    var e, m := s.base.work[j], PopAt(s.base, j);
    assert Unpopped(s.base, s.base.work[j]);
    PerimeterEntry(c, m, e);
    assert Unflagged(m, e.index).recs == m.recs;
  }

  lemma {:induction false} PRegisterAllIsRegisterAll(n: Snapshot, cur: nat, es: seq<Edge>)
    requires cur in n.recs && n.recs[cur].pi > 0.0
    ensures PRegisterAll(n, cur, es) == RegisterAll(n, cur, es)
    ensures RegisterAll(n, cur, es).recs[cur].pi == n.recs[cur].pi
  {
    if es != [] {
      PRegisterAllIsRegisterAll(n, cur, es[..|es| - 1]);
    }
  }

  // ----- What an expansion does to the base ------------------------------------------------------------------

  /** As every record is marked as seen, the callbacks enqueue exactly the new states, in the order of
      their new indices. */
  ghost predicate AppendsNew(n: Snapshot, m: Snapshot) {
    && n.work <= m.work && |n.ids| <= |m.ids|
    && |m.work| - |n.work| == |m.ids| - |n.ids|
    && (forall k :: |n.work| <= k < |m.work| ==> m.work[k].index == |n.ids| + (k - |n.work|))
    && (forall i: nat :: i in m.recs ==> m.recs[i].lastSeen == m.iteration)
    && m.iteration == n.iteration
  }

  lemma RegisterAppendsNew(c: Config, n: Snapshot, cur: nat, s: CompressedState)
    requires Shape(c, n) && cur in n.recs && s != c.problem.src.Absorbing()
    requires n.recs[cur].pi == 0.0 ==> s in n.ids
    requires forall i: nat :: i in n.recs ==> n.recs[i].lastSeen == n.iteration
    ensures AppendsNew(n, Register(n, cur, s))
  {
    RegisterNumbering(c.problem, n.ids, s);
    assert s in n.ids ==> Known(c.problem, n.ids, s);
  }

  lemma AppendsNewTransitive(a: Snapshot, b: Snapshot, d: Snapshot)
    requires AppendsNew(a, b) && AppendsNew(b, d)
    ensures AppendsNew(a, d)
  {
    forall k | |a.work| <= k < |d.work| ensures d.work[k].index == |a.ids| + (k - |a.work|) {
      assert k < |b.work| ==> d.work[k] == b.work[k];
    }
  }

  lemma {:induction false} RegisterAllAppendsNew(c: Config, n: Snapshot, e: Entry, es: seq<Edge>)
    requires Expanding(c, n, e) && es <= c.Succ(e.state) && c.problem.src.AvoidsAbsorbing(e.state)
    requires n.recs[e.index].pi == 0.0 ==> AllKnown(n.ids, c.Succ(e.state))
    requires forall i: nat :: i in n.recs ==> n.recs[i].lastSeen == n.iteration
    ensures AppendsNew(n, RegisterAll(n, e.index, es))
  {
    hide Register, AppendsNew;
    if es == [] {
      AppendsNothing(n);
    } else {
      var rest, s := es[..|es| - 1], es[|es| - 1].to;
      var m := RegisterAll(n, e.index, rest);
      RegisterAllAppendsNew(c, n, e, rest);
      RegisterAllKeepsExpanding(c, n, e, rest);
      assert c.Succ(e.state)[|es| - 1].to == s;
      AppendsNewSeen(n, m);
      RegisterAppendsNew(c, m, e.index, s);
      AppendsNewTransitive(n, m, Register(m, e.index, s));
    }
  }

  lemma AppendsNothing(n: Snapshot)
    requires forall i: nat :: i in n.recs ==> n.recs[i].lastSeen == n.iteration
    ensures AppendsNew(n, n)
  {
  }

  lemma AppendsNewSeen(n: Snapshot, m: Snapshot)
    requires AppendsNew(n, m)
    ensures forall i: nat :: i in m.recs ==> m.recs[i].lastSeen == m.iteration
  {
  }

  // The base after the successors of e were registered and received their share
  ghost predicate Spread(n: Snapshot, m: Snapshot, e: Entry)
    requires e.index in n.recs
  {
    && AppendsNew(n, m) && n.recs.Keys <= m.recs.Keys
    && m.kappa == n.kappa && m.perimeter == n.perimeter
    && (forall i: nat :: i in n.recs ==> SameSituation(n.recs[i], m.recs[i]))
    && (forall i: nat :: i in m.recs && i !in n.recs ==>
          m.recs[i].terminal && !m.recs[i].deadlock && Row(m.table, i) == [])
    && (forall i: nat :: i in n.recs && i != e.index ==> Row(m.table, i) == Row(n.table, i))
  }

  lemma NewIndexOf(c: Config, n: Snapshot, e: Entry, i: nat)
    requires Ready(c, n, e) && Unflagged(n, e.index) == n && i in CallBack(c, n, e).recs && i !in n.recs
    ensures CallBack(c, n, e).recs[i] == Record(0.0, true, n.iteration, true, false, false)
    ensures Row(CallBack(c, n, e).table, i) == []
  {
    CallBackEffect(c, n, e);
    var j := NewIndexIsSuccessor(c, n, e, i);
  }

  lemma CallBackKeepsOld(c: Config, n: Snapshot, e: Entry)
    requires Ready(c, n, e) && Unflagged(n, e.index) == n
    ensures var m := CallBack(c, n, e);
            && n.recs.Keys <= m.recs.Keys && m.kappa == n.kappa && m.perimeter == n.perimeter && m.table == n.table
            && forall i: nat :: i in n.recs ==> SameSituation(n.recs[i], m.recs[i])
  {
    hide CallBack, Expanding, Successors, Ready;
    CallBackEffect(c, n, e);
  }

  lemma CallBackAppendsNew(c: Config, n: Snapshot, e: Entry)
    requires Ready(c, n, e) && Unflagged(n, e.index) == n
    requires forall i: nat :: i in n.recs ==> n.recs[i].lastSeen == n.iteration
    ensures AppendsNew(n, CallBack(c, n, e))
  {
    hide AppendsNew, Expanding, RegisterAll;
    NoMassIsClosed(c, n, e);
    assert c.problem.src.AvoidsAbsorbing(e.state);
    RegisterAllAppendsNew(c, n, e, c.Succ(e.state));
  }

  lemma CallBackSpreads(c: Config, n: Snapshot, e: Entry)
    requires Ready(c, n, e) && Unflagged(n, e.index) == n
    requires forall i: nat :: i in n.recs ==> n.recs[i].lastSeen == n.iteration
    ensures Spread(n, CallBack(c, n, e), e)
  {
    hide CallBack, Ready, AppendsNew, SameSituation;
    var m := CallBack(c, n, e);
    CallBackKeepsOld(c, n, e);
    CallBackAppendsNew(c, n, e);
    forall i: nat | i in m.recs && i !in n.recs
      ensures m.recs[i].terminal && !m.recs[i].deadlock && Row(m.table, i) == []
    {
      NewIndexOf(c, n, e, i);
    }
  }

  lemma DistributeKeepsSpread(c: Config, n: Snapshot, b: Snapshot, e: Entry)
    requires c.problem.src.WellFormed() && Expanding(c, b, e) && Successors(c, b.ids, c.Succ(e.state))
    requires e.index in n.recs && Spread(n, b, e)
    ensures Spread(n, Distribute(c, b, e), e)
  {
    DistributeEffect(c, b, e);
    hide Distribute, Expanding, Successors;
  }

  lemma ExpansionSpreads(c: Config, n: Snapshot, e: Entry)
    requires Ready(c, n, e) && Unflagged(n, e.index) == n
    requires forall i: nat :: i in n.recs ==> n.recs[i].lastSeen == n.iteration
    ensures Successors(c, CallBack(c, n, e).ids, c.Succ(e.state))
    ensures Spread(n, Distribute(c, CallBack(c, n, e), e), e)
  {
    CallBackEffect(c, n, e);
    CallBackSpreads(c, n, e);
    DistributeKeepsSpread(c, n, CallBack(c, n, e), e);
  }

  // ----- piHat against the probability of the terminal states ---------------------------------------------------

  lemma PropagateTerminalMass(c: Config, s: PState, cur: nat, e: Edge, enqueueAll: bool, total: real)
    requires Shape(c, s.base) && cur in s.base.recs && Known(c.problem, s.base.ids, e.to)
             && (enqueueAll || total != 0.0)
    ensures var r := PPropagate(s, cur, e, enqueueAll, total);
            r.piHat - Sum(TerminalMass, r.base) == s.piHat - Sum(TerminalMass, s.base)
  {
    var n, i := s.base, s.base.ids[e.to];
    if !enqueueAll {
      TotalUpdate(TerminalMass, n.recs, i,
          n.recs[i].(pi := n.recs[i].pi + Times(n.recs[cur].pi, Share(e.rate, total))), |n.ids|);
    }
  }

  /** Over the whole loop piHat follows the probability of the terminal states, self-loops included. */
  lemma {:induction false} PPropagateAllTerminalMass(c: Config, s: PState, cur: nat, es: seq<Edge>, enqueueAll: bool,
                                                     total: real)
    requires Shape(c, s.base) && cur in s.base.recs && cur != 0 && Successors(c, s.base.ids, es)
    requires NonNegative(s.base) && (enqueueAll || total > 0.0)
    requires s.base.recs[cur].isNew ==> Row(s.base.table, cur) == []
    ensures var r := PPropagateAll(s, cur, es, enqueueAll, total);
            && r.piHat - Sum(TerminalMass, r.base) == s.piHat - Sum(TerminalMass, s.base)
            && r.held == s.held && r.explored == s.explored
  {
    hide Sum, Propagate, Shape, Propagated, NonNegative;
    if es != [] {
      var rest, e := es[..|es| - 1], es[|es| - 1];
      var m := PPropagateAll(s, cur, rest, enqueueAll, total);
      PPropagateAllTerminalMass(c, s, cur, rest, enqueueAll, total);
      PropagateAllEffect(c, s.base, cur, rest, enqueueAll, total);
      PropagatedShape(c, s.base, m.base, cur, rest);
      assert e.to in s.base.ids && Known(c.problem, m.base.ids, e.to);
      PropagateTerminalMass(c, m, cur, e, enqueueAll, total);
    }
  }

  lemma {:induction false} HeldSumUpdate(held: map<nat, real>, i: nat, x: real, size: nat)
    requires i !in held
    ensures HeldSum(held[i := x], size) == HeldSum(held, size) + (if i < size then x else 0.0)
  {
    if size > 0 {
      HeldSumUpdate(held, i, x, size - 1);
    }
  }

  lemma {:induction false} HeldSumGrows(held: map<nat, real>, size: nat, size': nat)
    requires size <= size' && forall i: nat :: i in held ==> i < size
    ensures HeldSum(held, size') == HeldSum(held, size)
  {
    if size < size' {
      HeldSumGrows(held, size, size' - 1);
    }
  }

  // ----- The three kinds of rounds ---------------------------------------------------------------------------------

  lemma InvIgnoresCount(c: Config, n: Snapshot, count: nat)
    requires Inv(c, n, 0)
    ensures Inv(c, n.(numberTerminal := count), 0)
  {
    var m := n.(numberTerminal := count);
    forall j | 0 <= j < |m.work| ensures EntryOk(m, m.work[j]) {
      assert EntryOk(n, n.work[j]);
    }
    forall j | 0 <= j < |m.perimeter| ensures EntryOk(m, m.perimeter[j]) && Settled(m, m.perimeter[j]) {
      assert EntryOk(n, n.perimeter[j]) && Settled(n, n.perimeter[j]);
    }
    forall s | Known(c.problem, m.ids, s) ensures StateOk(c, m, Entry(m.ids[s], s), 0) {
      assert StateOk(c, n, Entry(n.ids[s], s), 0);
      StateOkKept(c, n, m, Entry(n.ids[s], s), 0);
    }
  }

  // A popped state that is settled: its probability moves from the queue to what is held
  ghost predicate Settles(n: Snapshot, m: Snapshot, j: nat) {
    && j < |n.work| && m.work == n.work[..j] + n.work[j + 1..]
    && m.ids == n.ids && m.recs.Keys == n.recs.Keys && m.numberTerminal == n.numberTerminal
    && (forall i: nat :: i in n.recs ==> m.recs[i].pi == n.recs[i].pi && m.recs[i].terminal == n.recs[i].terminal)
    && (forall i: nat :: i in n.recs && i != n.work[j].index ==>
          m.recs[i] == n.recs[i] && Row(m.table, i) == Row(n.table, i))
  }

  lemma SettlesUnpopped(n: Snapshot, m: Snapshot, j: nat)
    requires QueueFits(n) && Settles(n, m, j)
    ensures QueueFits(m)
  {
    forall k | 0 <= k < |m.work| ensures Unpopped(m, m.work[k]) {
      assert m.work[k] == n.work[if k < j then k else k + 1];
      assert Unpopped(n, n.work[if k < j then k else k + 1]);
    }
  }

  lemma SettlesQueued(n: Snapshot, m: Snapshot, j: nat, i: nat)
    requires QueueFits(n) && Settles(n, m, j)
    ensures Queued(m, i) <==> Queued(n, i) && i != n.work[j].index
  {
    hide Unpopped;
    if Queued(m, i) {
      var k :| 0 <= k < |m.work| && m.work[k].index == i;
      assert m.work[k] == n.work[if k < j then k else k + 1];
    }
    if Queued(n, i) && i != n.work[j].index {
      var k :| 0 <= k < |n.work| && n.work[k].index == i;
      assert m.work[if k < j then k else k - 1] == n.work[k];
    }
  }

  lemma SettlesQueue(n: Snapshot, m: Snapshot, j: nat)
    requires QueueFits(n) && Settles(n, m, j)
    ensures QueueFits(m)
    ensures forall i: nat :: Queued(m, i) <==> Queued(n, i) && i != n.work[j].index
  {
    hide Unpopped, Queued;
    SettlesUnpopped(n, m, j);
    forall i: nat ensures Queued(m, i) <==> Queued(n, i) && i != n.work[j].index {
      SettlesQueued(n, m, j, i);
    }
  }

  lemma SettlesHeld(s: PState, r: PState, j: nat)
    requires QueueFits(s.base) && HeldFits(s) && Settles(s.base, r.base, j)
    requires var i := s.base.work[j].index;
             i in s.base.recs && s.base.recs[i].pi >= 0.0 && r.held == s.held[i := s.base.recs[i].pi]
    ensures QueueFits(r.base) && HeldFits(r)
    ensures s.base.work[j].index !in s.held
  {
    SettlesQueue(s.base, r.base, j);
    assert Queued(s.base, s.base.work[j].index);
    assert Unpopped(s.base, s.base.work[j]);
  }

  lemma SettlesSums(c: Config, s: PState, r: PState, j: nat)
    requires PInv(c, s) && Settles(s.base, r.base, j) && s.base.work[j].index in s.base.recs
    requires var i := s.base.work[j].index;
             i !in s.held && r.held == s.held[i := s.base.recs[i].pi] && r.piHat == s.piHat - s.base.recs[i].pi
    ensures Drift(r) == Drift(s)
    ensures r.base.numberTerminal as real == Sum(Terminals, r.base)
  {
    TotalSame(TerminalMass, s.base.recs, r.base.recs, |s.base.ids|);
    TotalSame(Terminals, s.base.recs, r.base.recs, |s.base.ids|);
    HeldSumUpdate(s.held, s.base.work[j].index, s.base.recs[s.base.work[j].index].pi, |s.base.ids|);
  }

  lemma PStopKeeps(c: Config, s: PState, j: nat)
    requires PInv(c, s) && j < |s.base.work| && c.Stops(s.base.work[j].state)
    ensures s.base.work[j].index in s.base.recs
    ensures var r := PStop(s.(base := PopAt(s.base, j)), s.base.work[j].index);
            PInv(c, r) && Drift(r) == Drift(s)
  {
    var e, m := s.base.work[j], PopAt(s.base, j);
    PoppedIsReady(c, s, j);
    var r := PStop(s.(base := m), e.index);
    StopKeepsInv(c, m, e);
    InvIgnoresCount(c, Stop(m, e.index), m.numberTerminal);
    assert r.base == Stop(m, e.index).(numberTerminal := m.numberTerminal);
    CreateRow(m.table, e.index, e.index, 1.0);
    SettlesHeld(s, r, j);
    SettlesSums(c, s, r, j);
  }

  lemma PDeadlockKeeps(c: Config, s: PState, j: nat)
    requires PInv(c, s) && j < |s.base.work| && !c.Stops(s.base.work[j].state) && c.Succ(s.base.work[j].state) == []
    ensures s.base.work[j].index in s.base.recs
    ensures var r := PDeadlock(s.(base := PopAt(s.base, j)), s.base.work[j].index);
            PInv(c, r) && Drift(r) == Drift(s)
  {
    var e, m := s.base.work[j], PopAt(s.base, j);
    PoppedIsReady(c, s, j);
    var r := PDeadlock(s.(base := m), e.index);
    DeadlockKeepsInv(c, m, e);
    assert r.base == Deadlock(m, e.index);
    CreateRow(m.table, e.index, e.index, 1.0);
    SettlesHeld(s, r, j);
    SettlesSums(c, s, r, j);
  }

  lemma PopAtSettlesNothing(c: Config, s: PState, j: nat)
    requires PInv(c, s) && j < |s.base.work|
    ensures var m := PopAt(s.base, j);
            && QueueFits(m)
            && (forall i: nat :: Queued(m, i) <==> Queued(s.base, i) && i != s.base.work[j].index)
  {
    SettlesQueue(s.base, PopAt(s.base, j), j);
  }

  // The builder after the callbacks and the loop over the successors
  function PDistribute(c: Config, s: PState, e: Entry): PState
    requires c.problem.src.WellFormed() && e.index in s.base.recs && c.Succ(e.state) != []
  {
    var m := s.(base := PRegisterAll(s.base, e.index, c.Succ(e.state)));
    assert c.problem.src.PositiveRates(e.state);
    ExitNonNegative(c.Succ(e.state));
    PPropagateAll(m, e.index, c.Succ(e.state), m.base.recs[e.index].pi == 0.0, Exit(c.Succ(e.state)))
  }

  lemma PDistributeIsDistribute(c: Config, s: PState, e: Entry)
    requires Ready(c, s.base, e) && Unflagged(s.base, e.index) == s.base && s.base.recs[e.index].pi > 0.0
    ensures Successors(c, CallBack(c, s.base, e).ids, c.Succ(e.state))
    ensures var r := PDistribute(c, s, e);
            && r.base == Distribute(c, CallBack(c, s.base, e), e)
            && r.held == s.held && r.explored == s.explored
            && r.piHat - Sum(TerminalMass, r.base) == s.piHat - Sum(TerminalMass, s.base)
  {
    var es, b := c.Succ(e.state), CallBack(c, s.base, e);
    PRegisterAllIsRegisterAll(s.base, e.index, es);
    CallBackEffect(c, s.base, e);
    CallBackSum(c, TerminalMass, s.base, e);
    RecordsNonNegative(c, b, e);
    assert c.problem.src.PositiveRates(e.state);
    ExitNonNegative(es);
    hide PRegisterAll, RegisterAll, Sum, Successors;
    PPropagateAllTerminalMass(c, s.(base := b), e.index, es, b.recs[e.index].pi == 0.0, Exit(es));
  }

  // What the queue is after an expansion
  lemma SpreadQueued(m: Snapshot, d: Snapshot, e: Entry, i: nat)
    requires e.index in m.recs && Spread(m, d, e)
    ensures Queued(d, i) <==> Queued(m, i) || |m.ids| <= i < |d.ids|
  {
    if Queued(d, i) {
      var k :| 0 <= k < |d.work| && d.work[k].index == i;
      assert k < |m.work| ==> d.work[k] == m.work[k];
    }
    if Queued(m, i) {
      var k :| 0 <= k < |m.work| && m.work[k].index == i;
      assert d.work[k] == m.work[k];
    }
    if |m.ids| <= i < |d.ids| {
      assert d.work[|m.work| + (i - |m.ids|)].index == i;
    }
  }

  ghost predicate SameShape(n: Snapshot) {
    forall i: nat :: i in n.recs <==> 1 <= i < |n.ids|
  }

  lemma SpreadUnpopped(m: Snapshot, d: Snapshot, e: Entry, k: nat)
    requires QueueFits(m) && e.index in m.recs && !Queued(m, e.index) && Spread(m, d, e)
    requires SameShape(m) && SameShape(d) && k < |d.work|
    ensures d.work[k].index != e.index && Unpopped(Finish(d, e.index), d.work[k])
  {
    if k < |m.work| {
      assert d.work[k] == m.work[k] && Unpopped(m, m.work[k]);
    }
  }

  lemma SpreadDistinct(m: Snapshot, d: Snapshot, e: Entry, j: nat, k: nat)
    requires QueueFits(m) && e.index in m.recs && Spread(m, d, e) && SameShape(m) && j < k < |d.work|
    ensures d.work[j].index != d.work[k].index
  {
    assert j < |m.work| ==> d.work[j] == m.work[j] && Unpopped(m, m.work[j]);
    assert k < |m.work| ==> d.work[k] == m.work[k];
  }

  lemma SpreadQueue(m: Snapshot, d: Snapshot, e: Entry)
    requires QueueFits(m) && e.index in m.recs && !Queued(m, e.index) && Spread(m, d, e)
    requires SameShape(m) && SameShape(d)
    ensures QueueFits(Finish(d, e.index))
  {
    assert e.index in d.recs;
    hide Unpopped, Spread, SameShape;
    forall k | 0 <= k < |d.work| ensures Unpopped(Finish(d, e.index), d.work[k]) {
      SpreadUnpopped(m, d, e, k);
    }
    forall j, k | 0 <= j < k < |d.work| ensures d.work[j].index != d.work[k].index {
      SpreadDistinct(m, d, e, j, k);
    }
  }

  lemma SpreadHeld(s: PState, d: Snapshot, r: PState, j: nat)
    requires QueueFits(s.base) && HeldFits(s) && j < |s.base.work| && SameShape(s.base) && SameShape(d)
    requires var e, m := s.base.work[j], PopAt(s.base, j);
             && e.index in m.recs && Spread(m, d, e)
             && (forall i: nat :: Queued(m, i) <==> Queued(s.base, i) && i != e.index)
             && r.base == Finish(d, e.index) && r.held == s.held
    ensures HeldFits(r)
  {
    hide Queued, QueueFits;
    var e, m := s.base.work[j], PopAt(s.base, j);
    assert Queued(s.base, e.index) by {
      QueuedAt(s.base, j);
    }
    forall i: nat ensures Queued(r.base, i) <==> Queued(m, i) || |m.ids| <= i < |d.ids| {
      SpreadQueued(m, d, e, i);
      QueuedByWork(d, r.base, i);
    }
  }

  lemma QueuedAt(n: Snapshot, j: nat)
    requires j < |n.work|
    ensures Queued(n, n.work[j].index)
  {
  }

  lemma QueuedByWork(n: Snapshot, m: Snapshot, i: nat)
    requires n.work == m.work
    ensures Queued(n, i) <==> Queued(m, i)
  {
  }

  lemma PFinishDrift(c: Config, s: PState, i: nat, power: nat -> real)
    requires i in s.base.recs && i < |s.base.ids| && s.base.recs[i].terminal && s.base.numberTerminal > 0
    ensures var r := PFinish(s, i, power);
            && r.base == Finish(s.base, i) && r.held == s.held
            && r.piHat - Sum(TerminalMass, r.base) == s.piHat - Sum(TerminalMass, s.base)
  {
    FinishSum(TerminalMass, s.base, i);
  }

  lemma ShapesMatch(c: Config, n: Snapshot)
    requires Inv(c, n, 0)
    ensures SameShape(n)
  {
  }

  lemma ExpansionKeepsTerminal(c: Config, m: Snapshot, e: Entry)
    requires Ready(c, m, e) && m.recs[e.index].terminal
    ensures Successors(c, CallBack(c, m, e).ids, c.Succ(e.state))
    ensures var d := Distribute(c, CallBack(c, m, e), e);
            && e.index in d.recs && d.recs[e.index].terminal && Expand(c, m, e) == Finish(d, e.index)
  {
    hide CallBack, Distribute, Finish, Inv, Charged, Expanding;
    CallBackEffect(c, m, e);
    assert m.recs[e.index].terminal == Unflagged(m, e.index).recs[e.index].terminal;
    DistributeEffect(c, CallBack(c, m, e), e);
  }

  // The counter, and that it is still positive when the expanded state leaves the terminal ones
  lemma PExpandCounts(c: Config, m: Snapshot, e: Entry)
    requires Ready(c, m, e) && m.recs[e.index].terminal && m.numberTerminal as real == Sum(Terminals, m)
    ensures Successors(c, CallBack(c, m, e).ids, c.Succ(e.state))
    ensures var d, f := Distribute(c, CallBack(c, m, e), e), Expand(c, m, e);
            && e.index in d.recs && d.recs[e.index].terminal && d.numberTerminal > 0
            && f == Finish(d, e.index) && f.numberTerminal as real == Sum(Terminals, f)
  {
    hide CallBack, Distribute, Finish, Expand, Sum, Ready, Successors;
    ExpansionKeepsTerminal(c, m, e);
    TerminalCounterIsPositive(c, m, e);
    ExpandCounts(c, m, e);
  }

  lemma PExpandIs(c: Config, s: PState, e: Entry, power: nat -> real)
    requires c.problem.src.WellFormed() && e.index in s.base.recs && c.Succ(e.state) != []
    ensures PExpand(c, s, e, power) == PFinish(PDistribute(c, s, e), e.index, power)
  {
  }

  // Where the entries of held are, so that the sum over them does not change with the numbering
  lemma HeldStays(s: PState, r: PState)
    requires HeldFits(s) && SameShape(s.base) && |s.base.ids| <= |r.base.ids| && r.held == s.held
    ensures HeldSum(r.held, |r.base.ids|) == HeldSum(s.held, |s.base.ids|)
  {
    HeldSumGrows(s.held, |s.base.ids|, |r.base.ids|);
  }

  // What is known when the entry at position j was popped and its state has spread, which led to p
  ghost predicate Popped(c: Config, s: PState, j: nat, p: PState)
    requires j < |s.base.work|
  {
    var e, m := s.base.work[j], PopAt(s.base, j);
    && e.index in m.recs && e.index in p.base.recs
    && QueueFits(m) && (forall i: nat :: Queued(m, i) <==> Queued(s.base, i) && i != e.index)
    && Spread(m, p.base, e) && p.held == s.held
    && p.piHat - Sum(TerminalMass, p.base) == s.piHat - Sum(TerminalMass, s.base)
    && p.base.recs[e.index].terminal && p.base.numberTerminal > 0
    && Valid(c, Finish(p.base, e.index))
    && Finish(p.base, e.index).numberTerminal as real == Sum(Terminals, Finish(p.base, e.index))
  }

  lemma PFinishKeepsShape(c: Config, s: PState, j: nat, p: PState)
    requires PInv(c, s) && j < |s.base.work| && Popped(c, s, j, p)
    ensures var f := Finish(p.base, s.base.work[j].index);
            && SameShape(s.base) && SameShape(PopAt(s.base, j)) && SameShape(p.base) && SameShape(f)
            && f.ids == p.base.ids && s.base.work[j].index < |f.ids| && |s.base.ids| <= |f.ids|
  {
    hide QueueFits, Queued, HeldFits, Charged, Sum;
    ShapesMatch(c, s.base);
    ShapesMatch(c, Finish(p.base, s.base.work[j].index));
    assert Finish(p.base, s.base.work[j].index).recs.Keys == p.base.recs.Keys;
    assert forall i: nat :: i in p.base.recs <==> i in Finish(p.base, s.base.work[j].index).recs;
  }

  lemma PFinishKeepsQueue(c: Config, s: PState, j: nat, power: nat -> real, p: PState)
    requires PInv(c, s) && j < |s.base.work| && Popped(c, s, j, p)
    ensures var r := PFinish(p, s.base.work[j].index, power);
            QueueFits(r.base) && HeldFits(r) && r.base == Finish(p.base, s.base.work[j].index)
  {
    hide Queued, QueueFits, HeldFits, Inv, Charged, Sum, Spread, SameShape, Valid;
    PFinishKeepsShape(c, s, j, p);
    var e, m := s.base.work[j], PopAt(s.base, j);
    SpreadQueue(m, p.base, e);
    SpreadHeld(s, p.base, PFinish(p, e.index, power), j);
  }

  lemma PFinishMarks(c: Config, s: PState, j: nat, p: PState)
    requires PInv(c, s) && j < |s.base.work| && Popped(c, s, j, p)
    ensures var f := Finish(p.base, s.base.work[j].index);
            && f.kappa == 0.0 && f.perimeter == []
            && (forall i: nat :: i in f.recs ==> f.recs[i].lastSeen == f.iteration)
  {
    hide Queued, QueueFits, HeldFits, Inv, Charged, Sum;
  }

  lemma PFinishKeepsPInv(c: Config, s: PState, j: nat, power: nat -> real, p: PState)
    requires PInv(c, s) && j < |s.base.work| && Popped(c, s, j, p)
    ensures PInv(c, PFinish(p, s.base.work[j].index, power))
  {
    hide Queued, QueueFits, HeldFits, Inv, Charged, Sum, Spread;
    PFinishMarks(c, s, j, p);
    PFinishKeepsQueue(c, s, j, power, p);
  }

  lemma PFinishKeepsDrift(c: Config, s: PState, j: nat, power: nat -> real, p: PState)
    requires PInv(c, s) && j < |s.base.work| && Popped(c, s, j, p)
    ensures Drift(PFinish(p, s.base.work[j].index, power)) == Drift(s)
  {
    hide Queued, QueueFits, HeldFits, Inv, Charged, Sum, Spread, SameShape;
    PFinishKeepsShape(c, s, j, p);
    PFinishDrift(c, p, s.base.work[j].index, power);
    HeldStays(s, PFinish(p, s.base.work[j].index, power));
  }

  // What a popped state has when it is expanded
  ghost predicate Primed(c: Config, m: Snapshot, e: Entry) {
    && Ready(c, m, e) && Unflagged(m, e.index) == m && m.recs[e.index].pi > 0.0 && m.recs[e.index].terminal
    && (forall i: nat :: i in m.recs ==> m.recs[i].lastSeen == m.iteration)
    && m.numberTerminal as real == Sum(Terminals, m) && m.kappa == 0.0
  }

  lemma PoppedIsPrimed(c: Config, s: PState, j: nat)
    requires PInv(c, s) && j < |s.base.work|
    requires !c.Stops(s.base.work[j].state) && c.Succ(s.base.work[j].state) != []
    ensures Primed(c, PopAt(s.base, j), s.base.work[j])
    ensures Sum(TerminalMass, PopAt(s.base, j)) == Sum(TerminalMass, s.base)
  {
    PoppedIsReady(c, s, j);
  }

  lemma PrimedSpreads(c: Config, m: Snapshot, e: Entry)
    requires Primed(c, m, e)
    ensures Successors(c, CallBack(c, m, e).ids, c.Succ(e.state))
    ensures Spread(m, Distribute(c, CallBack(c, m, e), e), e)
    ensures Valid(c, Expand(c, m, e))
  {
    hide Spread, CallBack, Distribute, Expand, Inv, Charged;
    ExpansionSpreads(c, m, e);
    ExpandKeepsValid(c, m, e);
  }

  lemma PrimedDistributes(c: Config, s: PState, e: Entry)
    requires Primed(c, s.base, e)
    ensures var p := PDistribute(c, s, e);
            && e.index in p.base.recs && p.held == s.held
            && p.piHat - Sum(TerminalMass, p.base) == s.piHat - Sum(TerminalMass, s.base)
            && p.base.recs[e.index].terminal && p.base.numberTerminal > 0
            && Finish(p.base, e.index).numberTerminal as real == Sum(Terminals, Finish(p.base, e.index))
            && Spread(s.base, p.base, e) && Valid(c, Finish(p.base, e.index))
  {
    hide Spread, CallBack, Distribute, Expand, Valid, Inv, Charged, Sum, PDistribute, Successors, Finish, Unflagged;
    PDistributeIsDistribute(c, s, e);
    PExpandCounts(c, s.base, e);
    PrimedSpreads(c, s.base, e);
  }

  lemma ExpansionPops(c: Config, s: PState, j: nat)
    requires PInv(c, s) && j < |s.base.work|
    requires !c.Stops(s.base.work[j].state) && c.Succ(s.base.work[j].state) != []
    ensures s.base.work[j].index in s.base.recs
    ensures Popped(c, s, j, PDistribute(c, s.(base := PopAt(s.base, j)), s.base.work[j]))
  {
    hide PInv, Inv, Queued, QueueFits, Valid, Sum, Spread, PDistribute, Primed;
    PrimedIndex(c, s, j);
    PoppedIsPrimed(c, s, j);
    PopAtSettlesNothing(c, s, j);
    PrimedDistributes(c, s.(base := PopAt(s.base, j)), s.base.work[j]);
  }

  lemma PrimedIndex(c: Config, s: PState, j: nat)
    requires PInv(c, s) && j < |s.base.work|
    ensures s.base.work[j].index in s.base.recs && c.problem.src.WellFormed()
  {
    assert EntryOk(s.base, s.base.work[j]);
  }

  /** An expansion of any entry of the queue: nothing drifts. */
  lemma PExpandKeeps(c: Config, s: PState, j: nat, power: nat -> real)
    requires PInv(c, s) && j < |s.base.work|
    requires !c.Stops(s.base.work[j].state) && c.Succ(s.base.work[j].state) != []
    ensures s.base.work[j].index in s.base.recs
    ensures var r := PExpand(c, s.(base := PopAt(s.base, j)), s.base.work[j], power);
            PInv(c, r) && Drift(r) == Drift(s)
  {
    hide PInv, Drift, Popped, PDistribute, PExpand, PFinish;
    ExpansionPops(c, s, j);
    var e, m := s.base.work[j], PopAt(s.base, j);
    PrimedIndex(c, s, j);
    var p := PDistribute(c, s.(base := m), e);
    PoppedHas(c, s, j, p);
    PExpandIs(c, s.(base := m), e, power);
    PFinishKeepsPInv(c, s, j, power, p);
    PFinishKeepsDrift(c, s, j, power, p);
  }

  lemma PoppedHas(c: Config, s: PState, j: nat, p: PState)
    requires j < |s.base.work| && Popped(c, s, j, p)
    ensures s.base.work[j].index in p.base.recs
  {
  }

  /** Every round keeps the invariant and the difference, whichever entry is on top of the queue. */
  lemma PStepKeeps(c: Config, s: PState, j: nat, power: nat -> real)
    requires PInv(c, s) && j < |s.base.work|
    ensures s.base.work[j].index in s.base.recs
    ensures PInv(c, PStep(c, s, j, power)) && Drift(PStep(c, s, j, power)) == Drift(s)
  {
    hide PInv, Drift, PExpand, PStop, PDeadlock;
    var e := s.base.work[j];
    if c.Stops(e.state) {
      PStopKeeps(c, s, j);
    } else if c.Succ(e.state) == [] {
      PDeadlockKeeps(c, s, j);
      PExpandOfNothing(c, s.(base := PopAt(s.base, j)), e, power);
    } else {
      PExpandKeeps(c, s, j, power);
    }
  }

  lemma PExpandOfNothing(c: Config, s: PState, e: Entry, power: nat -> real)
    requires c.problem.src.WellFormed() && e.index in s.base.recs && c.Succ(e.state) == []
    ensures PExpand(c, s, e, power) == PDeadlock(s, e.index)
  {
  }
}
