/** What every step of the exploration keeps: the numbering is a bijection, every registered state
    is in exactly one of five situations, and its row of the transition table is the one that
    belongs to its situation. */
module Invariant {
  import opened SourceChain
  import opened TruncatedModel
  import opened Exploration

  ghost predicate AllKnown(ids: Numbering, es: seq<Edge>) {
    forall j :: 0 <= j < |es| ==> es[j].to in ids
  }

  ghost predicate EntryOk(n: Snapshot, e: Entry) {
    e.state in n.ids && n.ids[e.state] == e.index && e.index in n.recs
  }

  ghost predicate Shape(c: Config, n: Snapshot) {
    && ProperNumbering(c.problem, n.ids)
    && (forall i: nat :: i in n.recs <==> 1 <= i < |n.ids|)
    && (forall j :: 0 <= j < |n.work| ==> EntryOk(n, n.work[j]))
    && (forall j :: 0 <= j < |n.perimeter| ==> EntryOk(n, n.perimeter[j]))
    && (forall j, k :: 0 <= j < k < |n.perimeter| ==> n.perimeter[j].index != n.perimeter[k].index)
    && |n.table| <= |n.ids|
    && Row(n.table, 0) == []
    && n.kappa >= 0.0
  }

  // Its turn in the worklist is still to come, or is now
  ghost predicate Waiting(n: Snapshot, e: Entry, cur: nat) {
    e.index == cur || e in n.work
  }

  /** The situations of a registered state, told apart by its record. */
  datatype Situation = Expanded | Stopped | Deadlocked | OnPerimeter | Pending

  function SituationOf(c: Config, s: CompressedState, r: Record): Situation {
    if !r.terminal then Expanded
    else if c.Stops(s) then Stopped
    else if r.deadlock then Deadlocked
    else if r.inQueue then OnPerimeter
    else Pending
  }

  ghost predicate FlagsFit(c: Config, s: CompressedState, r: Record) {
    match SituationOf(c, s, r)
    case Expanded => !r.isNew && !r.inQueue && !r.deadlock && !c.Stops(s)
    case Stopped => !r.inQueue && !r.deadlock
    case Deadlocked => !r.inQueue
    case OnPerimeter => r.isNew
    case Pending => r.isNew
  }

  ghost predicate RowFits(c: Config, n: Snapshot, e: Entry, cur: nat)
    requires e.index in n.recs
  {
    var r, row, es := n.recs[e.index], Row(n.table, e.index), c.Succ(e.state);
    match SituationOf(c, e.state, r)
    case Expanded => es != [] && AllKnown(n.ids, es) && row == KnownPart(n.ids, e.index, es)
    case Stopped => row == SelfLoop(e.index) || (row == [] && Waiting(n, e, cur))
    case Deadlocked => es == [] && row == SelfLoop(e.index) && r.pi >= n.kappa
    case OnPerimeter => row == [] && e in n.perimeter
    case Pending => row == [] && Waiting(n, e, cur)
  }

  ghost predicate StateOk(c: Config, n: Snapshot, e: Entry, cur: nat)
    requires e.index in n.recs
  {
    var r := n.recs[e.index];
    && r.pi >= 0.0
    && r.lastSeen <= n.iteration
    && FlagsFit(c, e.state, r)
    && RowFits(c, n, e, cur)
  }

  // An entry of the perimeter queue whose flag was cleared belongs to a state that is settled for good
  ghost predicate Settled(n: Snapshot, e: Entry) {
    e.index in n.recs && (n.recs[e.index].inQueue || !n.recs[e.index].terminal || n.recs[e.index].deadlock)
  }

  /** The invariant while the state with index cur is being treated (0: between two turns). */
  ghost predicate Inv(c: Config, n: Snapshot, cur: nat) {
    && Shape(c, n)
    && (forall j :: 0 <= j < |n.perimeter| ==> Settled(n, n.perimeter[j]))
    && (forall s {:trigger Known(c.problem, n.ids, s)} :: Known(c.problem, n.ids, s) ==>
          StateOk(c, n, Entry(n.ids[s], s), cur))
  }

  // ----- Rows ------------------------------------------------------------------------------

  lemma CreateRow(table: seq<seq<Transition>>, from: nat, to: nat, rate: real)
    ensures forall i: nat :: i != from ==> Row(Create(table, from, to, rate), i) == Row(table, i)
    ensures rate != 0.0
            && (Row(table, from) == [] || Row(table, from)[|Row(table, from)| - 1] != Transition(from, to, rate)) ==>
              Row(Create(table, from, to, rate), from) == Row(table, from) + [Transition(from, to, rate)]
    ensures Row(table, from) == SelfLoop(from) && from == to && rate == 1.0 ==>
              Row(Create(table, from, to, rate), from) == SelfLoop(from)
    ensures |Create(table, from, to, rate)| <= |table| || |Create(table, from, to, rate)| <= from + 1
            || |Create(table, from, to, rate)| <= to + 1
    ensures rate != 0.0 ==> from < |Create(table, from, to, rate)| && to < |Create(table, from, to, rate)|
  {
    var grown := Grow(table, (if from < to then to else from) + 1);
    assert forall i: nat :: Row(grown, i) == Row(table, i);
  }

  ghost predicate SubNumbering(a: Numbering, b: Numbering) {
    forall s :: s in a ==> s in b && b[s] == a[s]
  }

  lemma {:induction false} KnownPartStable(a: Numbering, b: Numbering, i: nat, es: seq<Edge>)
    requires SubNumbering(a, b) && AllKnown(a, es)
    ensures KnownPart(a, i, es) == KnownPart(b, i, es)
  {
    if es != [] {
      assert es[|es| - 1].to in a;
      KnownPartStable(a, b, i, es[..|es| - 1]);
    }
  }

  // ----- Frame -----------------------------------------------------------------------------

  // Only the probability and the mark of the iteration may differ
  ghost predicate SameSituation(r: Record, r': Record) {
    r' == r.(pi := r'.pi, lastSeen := r'.lastSeen) && r'.pi >= r.pi
  }

  /** What is known about one state survives every change elsewhere. */
  lemma StateOkKept(c: Config, n: Snapshot, n': Snapshot, e: Entry, cur: nat)
    requires e.index in n.recs && e.index in n'.recs && StateOk(c, n, e, cur)
    requires SubNumbering(n.ids, n'.ids)
    requires SameSituation(n.recs[e.index], n'.recs[e.index]) && n'.recs[e.index].lastSeen <= n'.iteration
    requires Row(n.table, e.index) == Row(n'.table, e.index)
    requires e in n.work ==> e in n'.work
    requires e in n.perimeter ==> e in n'.perimeter
    requires n'.kappa <= n.kappa
    ensures StateOk(c, n', e, cur)
  {
    if SituationOf(c, e.state, n.recs[e.index]).Expanded? {
      KnownPartStable(n.ids, n'.ids, e.index, c.Succ(e.state));
    }
  }

  // ----- Taking a state from the worklist ----------------------------------------------------

  lemma PopKeepsInv(c: Config, n: Snapshot)
    requires Inv(c, n, 0) && n.work != []
    ensures Inv(c, Pop(n), n.work[0].index)
  {
    var m, i := Pop(n), n.work[0].index;
    forall j | 0 <= j < |m.work| ensures EntryOk(m, m.work[j]) {
      assert EntryOk(n, n.work[j + 1]);
    }
    forall j | 0 <= j < |m.perimeter| ensures EntryOk(m, m.perimeter[j]) && Settled(m, m.perimeter[j]) {
      assert EntryOk(n, n.perimeter[j]) && Settled(n, n.perimeter[j]);
    }
    forall s | Known(c.problem, m.ids, s) ensures StateOk(c, m, Entry(m.ids[s], s), i) {
      var e := Entry(n.ids[s], s);
      assert StateOk(c, n, e, 0);
      assert e in n.work ==> e == n.work[0] || e in m.work;
    }
  }

  /** One state is treated: its record, its row and the perimeter queue may change, and when its
      own situation is settled nothing is left to do for it. */
  lemma TurnKeepsInv(c: Config, n: Snapshot, n': Snapshot, e: Entry)
    requires Inv(c, n, e.index) && EntryOk(n, e)
    requires n'.ids == n.ids && n'.work == n.work && n'.kappa == n.kappa && n'.iteration == n.iteration
    requires n'.recs.Keys == n.recs.Keys
    requires forall i: nat :: i in n.recs && i != e.index ==>
               SameSituation(n.recs[i], n'.recs[i]) && n'.recs[i].lastSeen == n.recs[i].lastSeen
    requires forall i: nat :: i != e.index ==> Row(n'.table, i) == Row(n.table, i)
    requires |n'.table| <= |n.ids|
    requires n'.perimeter == n.perimeter || (n'.perimeter == n.perimeter + [e] && e !in n.perimeter)
    requires e in n'.perimeter ==> Settled(n', e)
    requires StateOk(c, n', e, 0)
    ensures Inv(c, n', 0)
  {
    assert n.ids[e.state] == e.index && e.index in n.recs;
    forall j | 0 <= j < |n'.work| ensures EntryOk(n', n'.work[j]) {
      assert EntryOk(n, n.work[j]);
    }
    forall j | 0 <= j < |n'.perimeter| ensures EntryOk(n', n'.perimeter[j]) && Settled(n', n'.perimeter[j]) {
      if j < |n.perimeter| {
        assert EntryOk(n, n.perimeter[j]) && Settled(n, n.perimeter[j]);
        assert n.perimeter[j].index == e.index ==> n.perimeter[j] == e;
      }
    }
    forall j, k | 0 <= j < k < |n'.perimeter| ensures n'.perimeter[j].index != n'.perimeter[k].index {
      if k == |n.perimeter| {
        assert EntryOk(n, n.perimeter[j]);
        assert n.perimeter[j] in n.perimeter;
      }
    }
    forall s | Known(c.problem, n'.ids, s) ensures StateOk(c, n', Entry(n'.ids[s], s), 0) {
      if s != e.state {
        var f := Entry(n.ids[s], s);
        assert StateOk(c, n, f, e.index);
        assert f.index != e.index;
        StateOkKept(c, n, n', f, e.index);
      }
    }
  }

  lemma StopKeepsInv(c: Config, n: Snapshot, e: Entry)
    requires Inv(c, n, e.index) && EntryOk(n, e) && c.Stops(e.state)
    ensures Inv(c, Stop(n, e.index), 0)
  {
    CreateRow(n.table, e.index, e.index, 1.0);
    assert Known(c.problem, n.ids, e.state) && StateOk(c, n, e, e.index);
    assert [] + SelfLoop(e.index) == SelfLoop(e.index);
    PerimeterEntry(c, n, e);
    TurnKeepsInv(c, n, Stop(n, e.index), e);
  }

  // What the perimeter queue says about a registered state
  lemma PerimeterEntry(c: Config, n: Snapshot, e: Entry)
    requires Inv(c, n, e.index) && EntryOk(n, e)
    ensures e in n.perimeter ==> Settled(n, e)
    ensures Known(c.problem, n.ids, e.state) && StateOk(c, n, e, e.index)
  {
    if e in n.perimeter {
      var j :| 0 <= j < |n.perimeter| && n.perimeter[j] == e;
      assert Settled(n, n.perimeter[j]);
    }
    assert Known(c.problem, n.ids, e.state) && Entry(n.ids[e.state], e.state) == e;
  }

  lemma PostponeKeepsInv(c: Config, n: Snapshot, e: Entry)
    requires Inv(c, n, e.index) && EntryOk(n, e) && !c.Stops(e.state)
    requires n.recs[e.index].terminal && n.recs[e.index].pi < n.kappa
    ensures Inv(c, Postpone(n, e), 0)
  {
    PerimeterEntry(c, n, e);
    TurnKeepsInv(c, n, Postpone(n, e), e);
  }

  lemma DeadlockKeepsInv(c: Config, n: Snapshot, e: Entry)
    requires Inv(c, n, e.index) && EntryOk(n, e) && !c.Stops(e.state) && c.Succ(e.state) == []
    requires !(n.recs[e.index].terminal && n.recs[e.index].pi < n.kappa)
    ensures Inv(c, Deadlock(n.(recs := n.recs[e.index := n.recs[e.index].(inQueue := false)]), e.index), 0)
  {
    PerimeterEntry(c, n, e);
    CreateRow(n.table, e.index, e.index, 1.0);
    assert [] + SelfLoop(e.index) == SelfLoop(e.index);
    TurnKeepsInv(c, n, Deadlock(n.(recs := n.recs[e.index := n.recs[e.index].(inQueue := false)]), e.index), e);
  }

  // ----- Registering the successors ----------------------------------------------------------

  /** While a state is expanded its flag is cleared; it still has its old row, and otherwise the
      invariant holds. */
  ghost predicate Expanding(c: Config, n: Snapshot, e: Entry) {
    && EntryOk(n, e)
    && Shape(c, n)
    && (forall j :: 0 <= j < |n.perimeter| ==> n.perimeter[j] == e || Settled(n, n.perimeter[j]))
    && (forall s {:trigger Known(c.problem, n.ids, s)} :: Known(c.problem, n.ids, s) && s != e.state ==>
          StateOk(c, n, Entry(n.ids[s], s), 0))
    && ExpandingState(c, n, e)
  }

  ghost predicate ExpandingState(c: Config, n: Snapshot, e: Entry)
    requires e.index in n.recs
  {
    var r, row, es := n.recs[e.index], Row(n.table, e.index), c.Succ(e.state);
    && !c.Stops(e.state) && es != [] && !r.inQueue && !r.deadlock
    && r.pi >= 0.0 && r.lastSeen <= n.iteration
    && if r.terminal then r.isNew && row == []
       else !r.isNew && AllKnown(n.ids, es) && row == KnownPart(n.ids, e.index, es)
  }

  function Unflagged(n: Snapshot, i: nat): Snapshot
    requires i in n.recs
  {
    n.(recs := n.recs[i := n.recs[i].(inQueue := false)])
  }

  lemma ExpandingStateStarts(c: Config, n: Snapshot, e: Entry)
    requires e.index in n.recs && StateOk(c, n, e, e.index) && !c.Stops(e.state) && c.Succ(e.state) != []
    requires !(n.recs[e.index].terminal && n.recs[e.index].pi < n.kappa)
    ensures ExpandingState(c, Unflagged(n, e.index), e)
  {
  }

  lemma ExpandingStarts(c: Config, n: Snapshot, e: Entry)
    requires Inv(c, n, e.index) && EntryOk(n, e) && !c.Stops(e.state) && c.Succ(e.state) != []
    requires !(n.recs[e.index].terminal && n.recs[e.index].pi < n.kappa)
    ensures Expanding(c, Unflagged(n, e.index), e)
  {
    PerimeterEntry(c, n, e);
    ExpandingStateStarts(c, n, e);
    var m := Unflagged(n, e.index);
    assert m.recs.Keys == n.recs.Keys;
    forall j | 0 <= j < |m.work| ensures EntryOk(m, m.work[j]) {
      assert EntryOk(n, n.work[j]);
    }
    forall j | 0 <= j < |m.perimeter|
      ensures EntryOk(m, m.perimeter[j]) && (m.perimeter[j] == e || Settled(m, m.perimeter[j]))
    {
      assert EntryOk(n, n.perimeter[j]) && Settled(n, n.perimeter[j]);
    }
    forall s | Known(c.problem, m.ids, s) && s != e.state ensures StateOk(c, m, Entry(m.ids[s], s), 0) {
      assert StateOk(c, n, Entry(n.ids[s], s), e.index);
      StateOkKept(c, n, m, Entry(n.ids[s], s), e.index);
    }
  }

  lemma RegisterNumbering(p: Problem, ids: Numbering, s: CompressedState)
    requires ProperNumbering(p, ids)
    ensures ProperNumbering(p, ids[s := IndexFor(ids, s)])
    ensures SubNumbering(ids, ids[s := IndexFor(ids, s)])
    ensures |ids[s := IndexFor(ids, s)]| == if s in ids then |ids| else |ids| + 1
  {
    var ids' := ids[s := IndexFor(ids, s)];
    if s in ids {
      assert ids' == ids;
    } else {
      assert ids'.Keys == ids.Keys + {s};
      forall i: nat | i < |ids'| ensures IsIndex(ids', i) {
        if i < |ids| {
          assert IsIndex(ids, i);
          var t :| t in ids && ids[t] == i;
          assert t in ids' && ids'[t] == i;
        } else {
          assert s in ids' && ids'[s] == i;
        }
      }
    }
  }

  /** What one callback may change. */
  ghost predicate Registered(n: Snapshot, m: Snapshot) {
    && SubNumbering(n.ids, m.ids)
    && (forall i: nat :: i in n.recs ==>
          i in m.recs && m.recs[i] == n.recs[i].(lastSeen := m.recs[i].lastSeen)
              && m.recs[i].lastSeen in {n.recs[i].lastSeen, n.iteration})
    && (forall e :: e in n.work ==> e in m.work)
    && (forall t :: t in m.ids && t !in n.ids ==>
          && m.ids[t] in m.recs && m.recs[m.ids[t]] == Record(0.0, true, n.iteration, true, false, false)
          && Row(m.table, m.ids[t]) == [] && Entry(m.ids[t], t) in m.work)
    && m == n.(ids := m.ids, recs := m.recs, work := m.work, numberTerminal := m.numberTerminal)
  }

  lemma RegisterKnown(c: Config, n: Snapshot, cur: nat, s: CompressedState)
    requires Shape(c, n) && cur in n.recs && Known(c.problem, n.ids, s)
    ensures Registered(n, Register(n, cur, s))
  {
    assert Register(n, cur, s).ids == n.ids;
  }

  lemma RegisterKnownShape(c: Config, n: Snapshot, cur: nat, s: CompressedState)
    requires Shape(c, n) && cur in n.recs && Known(c.problem, n.ids, s)
    ensures Shape(c, Register(n, cur, s))
  {
    var m := Register(n, cur, s);
    assert m.ids == n.ids && m.recs.Keys == n.recs.Keys;
    forall j | 0 <= j < |m.work| ensures EntryOk(m, m.work[j]) {
      assert j < |n.work| ==> EntryOk(n, n.work[j]);
    }
    forall j | 0 <= j < |m.perimeter| ensures EntryOk(m, m.perimeter[j]) {
      assert EntryOk(n, n.perimeter[j]);
    }
  }

  lemma RegisterNew(c: Config, n: Snapshot, cur: nat, s: CompressedState)
    requires Shape(c, n) && cur in n.recs && s !in n.ids && n.recs[cur].pi != 0.0
    ensures Registered(n, Register(n, cur, s))
  {
    var i, m := |n.ids|, Register(n, cur, s);
    assert m.ids == n.ids[s := i] && m.recs == n.recs[i := Record(0.0, true, n.iteration, true, false, false)];
    assert m.work == n.work + [Entry(i, s)];
  }

  lemma RegisterNewShape(c: Config, n: Snapshot, cur: nat, s: CompressedState)
    requires Shape(c, n) && cur in n.recs && s !in n.ids && n.recs[cur].pi != 0.0
    ensures Shape(c, Register(n, cur, s))
  {
    var i, m := |n.ids|, Register(n, cur, s);
    RegisterNumbering(c.problem, n.ids, s);
    assert m.ids == n.ids[s := i] && m.recs == n.recs[i := Record(0.0, true, n.iteration, true, false, false)];
    assert m.work == n.work + [Entry(i, s)];
    forall j | 0 <= j < |m.work| ensures EntryOk(m, m.work[j]) {
      assert j < |n.work| ==> EntryOk(n, n.work[j]);
    }
    forall j | 0 <= j < |m.perimeter| ensures EntryOk(m, m.perimeter[j]) {
      assert EntryOk(n, n.perimeter[j]);
    }
  }

  /** A callback registers at most one state, and only if the expanded state carries probability;
      without probability all its successors are registered, so no record is made that stays
      outside the map. */
  lemma RegisterEffect(c: Config, n: Snapshot, cur: nat, s: CompressedState)
    requires Shape(c, n) && cur in n.recs && s != c.problem.src.Absorbing()
    requires n.recs[cur].pi == 0.0 ==> s in n.ids
    ensures Registered(n, Register(n, cur, s)) && Shape(c, Register(n, cur, s))
  {
    if s in n.ids {
      RegisterKnown(c, n, cur, s);
      RegisterKnownShape(c, n, cur, s);
    } else {
      RegisterNew(c, n, cur, s);
      RegisterNewShape(c, n, cur, s);
    }
  }

  lemma RegisteredKeepsExpanding(c: Config, n: Snapshot, m: Snapshot, e: Entry)
    requires Expanding(c, n, e) && Registered(n, m) && Shape(c, m)
    ensures Expanding(c, m, e)
  {
    forall j | 0 <= j < |m.perimeter| ensures m.perimeter[j] == e || Settled(m, m.perimeter[j]) {
      assert EntryOk(n, n.perimeter[j]) && (n.perimeter[j] == e || Settled(n, n.perimeter[j]));
    }
    forall t | Known(c.problem, m.ids, t) && t != e.state ensures StateOk(c, m, Entry(m.ids[t], t), 0) {
      if t in n.ids {
        assert Known(c.problem, n.ids, t) && StateOk(c, n, Entry(n.ids[t], t), 0);
        StateOkKept(c, n, m, Entry(n.ids[t], t), 0);
      }
    }
    if !n.recs[e.index].terminal {
      KnownPartStable(n.ids, m.ids, e.index, c.Succ(e.state));
    }
  }

  lemma RegisteredTransitive(a: Snapshot, b: Snapshot, d: Snapshot)
    requires Registered(a, b) && Registered(b, d)
    ensures Registered(a, d)
  {
    forall t | t in d.ids && t !in a.ids
      ensures d.ids[t] in d.recs && d.recs[d.ids[t]] == Record(0.0, true, a.iteration, true, false, false)
      ensures Row(d.table, d.ids[t]) == [] && Entry(d.ids[t], t) in d.work
    {
      if t in b.ids {
        assert b.ids[t] in b.recs;
      }
    }
  }

  lemma {:induction false} RegisterAllKeepsExpanding(c: Config, n: Snapshot, e: Entry, es: seq<Edge>)
    requires Expanding(c, n, e) && es <= c.Succ(e.state) && c.problem.src.AvoidsAbsorbing(e.state)
    requires n.recs[e.index].pi == 0.0 ==> AllKnown(n.ids, c.Succ(e.state))
    ensures Registered(n, RegisterAll(n, e.index, es)) && Expanding(c, RegisterAll(n, e.index, es), e)
  {
    if es != [] {
      var m, s := RegisterAll(n, e.index, es[..|es| - 1]), es[|es| - 1].to;
      RegisterAllKeepsExpanding(c, n, e, es[..|es| - 1]);
      assert c.Succ(e.state)[|es| - 1].to == s;
      RegisterEffect(c, m, e.index, s);
      RegisteredKeepsExpanding(c, m, Register(m, e.index, s), e);
      RegisteredTransitive(n, m, Register(m, e.index, s));
    }
  }

  // ----- Moving the probability ----------------------------------------------------------------

  /** What the loop over the first edges es may change. */
  ghost predicate Propagated(n: Snapshot, m: Snapshot, cur: nat, es: seq<Edge>)
    requires cur in n.recs
  {
    && m == n.(recs := m.recs, table := m.table)
    && m.recs.Keys == n.recs.Keys
    && (forall i: nat :: i in n.recs ==> m.recs[i] == n.recs[i].(pi := m.recs[i].pi) && m.recs[i].pi >= n.recs[i].pi)
    && (forall i: nat :: i != cur ==> Row(m.table, i) == Row(n.table, i))
    && |m.table| <= |n.ids|
    && Row(m.table, cur) == (if n.recs[cur].isNew then KnownPart(n.ids, cur, es) else Row(n.table, cur))
  }

  lemma ShareNonNegative(pi: real, rate: real, total: real)
    requires pi >= 0.0 && rate > 0.0 && total > 0.0
    ensures Times(pi, Share(rate, total)) >= 0.0
    ensures pi > 0.0 ==> Times(pi, Share(rate, total)) > 0.0
  {
    assert rate / total > 0.0;
  }

  /** The row under construction does not end with an entry to a state that is not among es, nor
      with one to the absorbing state. */
  lemma {:induction false} LastEntryDiffers(ids: Numbering, i: nat, es: seq<Edge>, target: nat)
    requires forall j :: 0 <= j < |es| ==> target == 0 || IndexOrAbsorbing(ids, es[j].to) != target
    ensures var row := KnownPart(ids, i, es); row != [] ==> row[|row| - 1].to != target
  {
    if es != [] {
      var rest := es[..|es| - 1];
      forall j | 0 <= j < |rest| ensures target == 0 || IndexOrAbsorbing(ids, rest[j].to) != target {
        assert rest[j] == es[j];
      }
      LastEntryDiffers(ids, i, rest, target);
    }
  }

  // What the source guarantees of the edges of one state
  ghost predicate FromSource(c: Config, es: seq<Edge>) {
    && (forall i, j :: 0 <= i < j < |es| ==> es[i].to != es[j].to)
    && (forall j :: 0 <= j < |es| ==> es[j].rate > 0.0 && es[j].to != c.problem.src.Absorbing())
  }

  ghost predicate Successors(c: Config, ids: Numbering, es: seq<Edge>) {
    AllKnown(ids, es) && FromSource(c, es)
  }

  /** The check for a repeated entry drops nothing: the next entry goes to another state. */
  lemma PropagateRow(c: Config, n: Snapshot, table: seq<seq<Transition>>, cur: nat, es: seq<Edge>)
    requires Shape(c, n) && cur in n.recs && es != [] && Successors(c, n.ids, es) && |table| <= |n.ids|
    requires Row(table, cur) == KnownPart(n.ids, cur, es[..|es| - 1])
    ensures var t := Create(table, cur, n.ids[es[|es| - 1].to], es[|es| - 1].rate);
            && Row(t, cur) == KnownPart(n.ids, cur, es)
            && (forall i: nat :: i != cur ==> Row(t, i) == Row(table, i))
            && |t| <= |n.ids|
  {
    var e, rest := es[|es| - 1], es[..|es| - 1];
    assert Known(c.problem, n.ids, e.to);
    forall j | 0 <= j < |rest| ensures IndexOrAbsorbing(n.ids, rest[j].to) != n.ids[e.to] {
      assert rest[j] == es[j] && es[j].to in n.ids;
    }
    LastEntryDiffers(n.ids, cur, rest, n.ids[e.to]);
    CreateRow(table, cur, n.ids[e.to], e.rate);
  }

  ghost predicate NonNegative(n: Snapshot) {
    forall i: nat :: i in n.recs ==> n.recs[i].pi >= 0.0
  }

  lemma PropagateRecords(n: Snapshot, m: Snapshot, cur: nat, e: Edge, enqueueAll: bool, total: real)
    requires cur in n.recs && e.to in n.ids && n.ids[e.to] in n.recs && n.ids[e.to] != 0 && e.rate > 0.0
    requires NonNegative(n) && (enqueueAll || total > 0.0)
    requires m.ids == n.ids && m.recs.Keys == n.recs.Keys
    requires forall i: nat :: i in n.recs ==>
               m.recs[i] == n.recs[i].(pi := m.recs[i].pi) && m.recs[i].pi >= n.recs[i].pi
    ensures var m' := Propagate(m, cur, e, enqueueAll, total);
            forall i: nat :: i in n.recs ==>
              m'.recs[i] == n.recs[i].(pi := m'.recs[i].pi) && m'.recs[i].pi >= m.recs[i].pi
    ensures !enqueueAll && n.recs[cur].pi > 0.0 ==>
              Propagate(m, cur, e, enqueueAll, total).recs[n.ids[e.to]].pi > 0.0
  {
    if !enqueueAll {
      ShareNonNegative(m.recs[cur].pi, e.rate, total);
    }
  }

  lemma PropagateEffect(c: Config, n: Snapshot, m: Snapshot, cur: nat, es: seq<Edge>, enqueueAll: bool, total: real)
    requires Shape(c, n) && cur in n.recs && es != [] && Successors(c, n.ids, es)
    requires NonNegative(n) && (enqueueAll || total > 0.0)
    requires n.recs[cur].isNew ==> Row(n.table, cur) == []
    requires Propagated(n, m, cur, es[..|es| - 1])
    ensures Propagated(n, Propagate(m, cur, es[|es| - 1], enqueueAll, total), cur, es)
  {
    var e := es[|es| - 1];
    assert e.to in n.ids && Known(c.problem, n.ids, e.to);
    PropagateRecords(n, m, cur, e, enqueueAll, total);
    if n.recs[cur].isNew {
      PropagateRow(c, n, m.table, cur, es);
    }
  }

  lemma {:induction false} PropagateAllEffect(c: Config, n: Snapshot, cur: nat, es: seq<Edge>, enqueueAll: bool,
                                              total: real)
    requires Shape(c, n) && cur in n.recs && Successors(c, n.ids, es)
    requires NonNegative(n) && (enqueueAll || total > 0.0)
    requires n.recs[cur].isNew ==> Row(n.table, cur) == []
    ensures Propagated(n, PropagateAll(n, cur, es, enqueueAll, total), cur, es)
  {
    if es != [] {
      var rest := es[..|es| - 1];
      PropagateAllEffect(c, n, cur, rest, enqueueAll, total);
      PropagateEffect(c, n, PropagateAll(n, cur, rest, enqueueAll, total), cur, es, enqueueAll, total);
    }
  }

  lemma PropagateAllReachesLast(c: Config, n: Snapshot, cur: nat, es: seq<Edge>, total: real)
    requires Shape(c, n) && cur in n.recs && Successors(c, n.ids, es) && es != []
    requires NonNegative(n) && total > 0.0 && n.recs[cur].pi > 0.0
    requires n.recs[cur].isNew ==> Row(n.table, cur) == []
    ensures var m, m', i := PropagateAll(n, cur, es[..|es| - 1], false, total), PropagateAll(n, cur, es, false, total),
            n.ids[es[|es| - 1].to];
            && i in n.recs && m'.recs[i].pi > 0.0
            && forall i: nat :: i in n.recs ==> m'.recs[i].pi >= m.recs[i].pi
  {
    var rest, e := es[..|es| - 1], es[|es| - 1];
    assert e.to in n.ids && Known(c.problem, n.ids, e.to);
    PropagateAllEffect(c, n, cur, rest, false, total);
    PropagateRecords(n, PropagateAll(n, cur, rest, false, total), cur, e, false, total);
  }

  /** Every successor of a state with probability gets a share of it. */
  lemma {:induction false} PropagateAllReaches(c: Config, n: Snapshot, cur: nat, es: seq<Edge>, total: real, j: nat)
    requires Shape(c, n) && cur in n.recs && Successors(c, n.ids, es) && j < |es|
    requires NonNegative(n) && total > 0.0 && n.recs[cur].pi > 0.0
    requires n.recs[cur].isNew ==> Row(n.table, cur) == []
    ensures n.ids[es[j].to] in n.recs && PropagateAll(n, cur, es, false, total).recs[n.ids[es[j].to]].pi > 0.0
  {
    PropagateAllReachesLast(c, n, cur, es, total);
    if j < |es| - 1 {
      PropagateAllReaches(c, n, cur, es[..|es| - 1], total, j);
    }
  }

  // ----- One turn of the loop --------------------------------------------------------------------

  lemma FinishKeepsInv(c: Config, n: Snapshot, m: Snapshot, e: Entry)
    requires Expanding(c, n, e) && AllKnown(n.ids, c.Succ(e.state)) && Propagated(n, m, e.index, c.Succ(e.state))
    ensures Inv(c, Finish(m, e.index), 0)
  {
    var n' := Finish(m, e.index);
    forall j | 0 <= j < |n'.work| ensures EntryOk(n', n'.work[j]) {
      assert EntryOk(n, n.work[j]);
    }
    forall j | 0 <= j < |n'.perimeter| ensures EntryOk(n', n'.perimeter[j]) && Settled(n', n'.perimeter[j]) {
      assert EntryOk(n, n.perimeter[j]) && (n.perimeter[j] == e || Settled(n, n.perimeter[j]));
    }
    forall s | Known(c.problem, n'.ids, s) ensures StateOk(c, n', Entry(n'.ids[s], s), 0) {
      if s != e.state {
        assert StateOk(c, n, Entry(n.ids[s], s), 0);
        assert n.ids[s] != e.index;
        StateOkKept(c, n, n', Entry(n.ids[s], s), 0);
      }
    }
  }

  // A state that was never expanded carries probability
  ghost predicate Charged(n: Snapshot) {
    forall i: nat :: i in n.recs && n.recs[i].terminal ==> n.recs[i].pi > 0.0
  }

  lemma {:induction false} RegisterAllNewStates(n: Snapshot, cur: nat, es: seq<Edge>)
    requires cur in n.recs
    ensures forall s :: s in RegisterAll(n, cur, es).ids ==> s in n.ids || exists j :: 0 <= j < |es| && es[j].to == s
  {
    if es != [] {
      var rest := es[..|es| - 1];
      RegisterAllNewStates(n, cur, rest);
      forall s | s in RegisterAll(n, cur, es).ids
        ensures s in n.ids || exists j :: 0 <= j < |es| && es[j].to == s
      {
        if s in RegisterAll(n, cur, rest).ids && s !in n.ids {
          var j :| 0 <= j < |rest| && rest[j].to == s;
          assert es[j].to == s;
        } else if s !in n.ids {
          assert es[|es| - 1].to == s;
        }
      }
    }
  }

  lemma SuccessorsKnown(c: Config, ids: Numbering, s: CompressedState)
    requires c.problem.src.WellFormed() && AllKnown(ids, c.Succ(s))
    ensures Successors(c, ids, c.Succ(s))
  {
    var es := c.Succ(s);
    assert c.problem.src.DistinctTargets(s) && c.problem.src.PositiveRates(s) && c.problem.src.AvoidsAbsorbing(s);
  }

  lemma RecordsNonNegative(c: Config, n: Snapshot, e: Entry)
    requires Expanding(c, n, e)
    ensures NonNegative(n)
  {
    forall i: nat | i in n.recs ensures n.recs[i].pi >= 0.0 {
      assert IsIndex(n.ids, i);
      var s :| s in n.ids && n.ids[s] == i;
      if s != e.state {
        assert Known(c.problem, n.ids, s) && StateOk(c, n, Entry(n.ids[s], s), 0);
      }
    }
  }

  // Whether a state that is neither stopped nor postponed now may be expanded
  ghost predicate Ready(c: Config, n: Snapshot, e: Entry) {
    && c.problem.src.WellFormed() && Inv(c, n, e.index) && Charged(n) && EntryOk(n, e)
    && !c.Stops(e.state) && c.Succ(e.state) != []
    && !(n.recs[e.index].terminal && n.recs[e.index].pi < n.kappa)
  }

  /** A state without probability was expanded before, so its successors are all registered. */
  lemma NoMassIsClosed(c: Config, n: Snapshot, e: Entry)
    requires Ready(c, n, e)
    ensures Expanding(c, Unflagged(n, e.index), e)
    ensures n.recs[e.index].pi >= 0.0
    ensures n.recs[e.index].pi == 0.0 ==> AllKnown(n.ids, c.Succ(e.state)) && !n.recs[e.index].terminal
  {
    ExpandingStarts(c, n, e);
    assert ExpandingState(c, Unflagged(n, e.index), e);
  }

  lemma CallBackEffect(c: Config, n: Snapshot, e: Entry)
    requires Ready(c, n, e)
    ensures Registered(Unflagged(n, e.index), CallBack(c, n, e))
    ensures Expanding(c, CallBack(c, n, e), e)
    ensures Successors(c, CallBack(c, n, e).ids, c.Succ(e.state))
  {
    NoMassIsClosed(c, n, e);
    assert c.problem.src.AvoidsAbsorbing(e.state);
    RegisterAllKeepsExpanding(c, Unflagged(n, e.index), e, c.Succ(e.state));
    SuccessorsKnown(c, CallBack(c, n, e).ids, e.state);
  }

  lemma DistributeEffect(c: Config, n: Snapshot, e: Entry)
    requires c.problem.src.WellFormed() && Expanding(c, n, e) && Successors(c, n.ids, c.Succ(e.state))
    ensures Propagated(n, Distribute(c, n, e), e.index, c.Succ(e.state))
  {
    assert c.problem.src.PositiveRates(e.state);
    ExitNonNegative(c.Succ(e.state));
    RecordsNonNegative(c, n, e);
    PropagateAllEffect(c, n, e.index, c.Succ(e.state), n.recs[e.index].pi == 0.0, Exit(c.Succ(e.state)));
  }

  lemma DistributeReaches(c: Config, n: Snapshot, e: Entry, j: nat)
    requires c.problem.src.WellFormed() && Expanding(c, n, e) && Successors(c, n.ids, c.Succ(e.state))
    requires n.recs[e.index].pi > 0.0 && j < |c.Succ(e.state)|
    ensures n.ids[c.Succ(e.state)[j].to] in n.recs
    ensures Distribute(c, n, e).recs[n.ids[c.Succ(e.state)[j].to]].pi > 0.0
  {
    assert c.problem.src.PositiveRates(e.state);
    ExitNonNegative(c.Succ(e.state));
    RecordsNonNegative(c, n, e);
    PropagateAllReaches(c, n, e.index, c.Succ(e.state), Exit(c.Succ(e.state)), j);
  }

  lemma NewIndexIsSuccessor(c: Config, n: Snapshot, e: Entry, i: nat) returns (j: nat)
    requires Ready(c, n, e) && i !in n.recs && i in CallBack(c, n, e).recs
    ensures j < |c.Succ(e.state)| && c.Succ(e.state)[j].to !in n.ids
    ensures CallBack(c, n, e).ids[c.Succ(e.state)[j].to] == i
  {
    var m := CallBack(c, n, e);
    CallBackEffect(c, n, e);
    RegisterAllNewStates(Unflagged(n, e.index), e.index, c.Succ(e.state));
    assert IsIndex(m.ids, i);
    var s :| s in m.ids && m.ids[s] == i;
    assert SubNumbering(n.ids, m.ids);
    j :| 0 <= j < |c.Succ(e.state)| && c.Succ(e.state)[j].to == s;
  }

  lemma OldStateStaysCharged(c: Config, n: Snapshot, e: Entry, i: nat)
    requires Ready(c, n, e)
    requires i in n.recs && i != e.index && CallBack(c, n, e).recs[i].terminal
    ensures Successors(c, CallBack(c, n, e).ids, c.Succ(e.state))
    ensures i in Distribute(c, CallBack(c, n, e), e).recs && Distribute(c, CallBack(c, n, e), e).recs[i].pi > 0.0
  {
    var m := CallBack(c, n, e);
    CallBackEffect(c, n, e);
    DistributeEffect(c, m, e);
    assert Unflagged(n, e.index).recs[i] == n.recs[i];
  }

  lemma NewStateIsCharged(c: Config, n: Snapshot, e: Entry, i: nat)
    requires Ready(c, n, e)
    requires i !in n.recs && i in CallBack(c, n, e).recs
    ensures Successors(c, CallBack(c, n, e).ids, c.Succ(e.state))
    ensures i in Distribute(c, CallBack(c, n, e), e).recs && Distribute(c, CallBack(c, n, e), e).recs[i].pi > 0.0
  {
    var j := NewIndexIsSuccessor(c, n, e, i);
    NoMassIsClosed(c, n, e);
    CallBackEffect(c, n, e);
    assert Unflagged(n, e.index).recs[e.index].pi == n.recs[e.index].pi;
    DistributeReaches(c, CallBack(c, n, e), e, j);
  }

  /** Only successors are new, and each of them has received some probability. */
  lemma ExpandKeepsCharged(c: Config, n: Snapshot, e: Entry)
    requires Ready(c, n, e)
    ensures Charged(Expand(c, n, e))
  {
    hide CallBack, Distribute, Expanding, Successors, Inv;
    var m := CallBack(c, n, e);
    CallBackEffect(c, n, e);
    DistributeEffect(c, m, e);
    forall i: nat | i in m.recs && i != e.index && m.recs[i].terminal ensures Distribute(c, m, e).recs[i].pi > 0.0 {
      if i in n.recs {
        OldStateStaysCharged(c, n, e, i);
      } else {
        NewStateIsCharged(c, n, e, i);
      }
    }
  }

  lemma ExpandKeepsInv(c: Config, n: Snapshot, e: Entry)
    requires Ready(c, n, e)
    ensures Inv(c, Expand(c, n, e), 0)
  {
    var m := CallBack(c, n, e);
    CallBackEffect(c, n, e);
    DistributeEffect(c, m, e);
    FinishKeepsInv(c, m, Distribute(c, m, e), e);
  }

  /** Between two turns of the loop. */
  ghost predicate Valid(c: Config, n: Snapshot) {
    c.problem.src.WellFormed() && Inv(c, n, 0) && Charged(n)
  }

  lemma ExpandKeepsValid(c: Config, n: Snapshot, e: Entry)
    requires c.problem.src.WellFormed() && Inv(c, n, e.index) && Charged(n) && EntryOk(n, e)
    requires !c.Stops(e.state) && !(n.recs[e.index].terminal && n.recs[e.index].pi < n.kappa)
    ensures Valid(c, Expand(c, n, e))
  {
    if c.Succ(e.state) == [] {
      assert CallBack(c, n, e) == Unflagged(n, e.index);
      DeadlockKeepsInv(c, n, e);
    } else {
      ExpandKeepsInv(c, n, e);
      ExpandKeepsCharged(c, n, e);
    }
  }

  lemma TurnKeepsValid(c: Config, n: Snapshot, e: Entry)
    requires c.problem.src.WellFormed() && Inv(c, n, e.index) && Charged(n) && EntryOk(n, e)
    ensures Valid(c, Turn(c, n, e))
  {
    hide Expand;
    if c.Stops(e.state) {
      StopKeepsInv(c, n, e);
      assert Charged(Stop(n, e.index)) by {
        PerimeterEntry(c, n, e);
      }
    } else if n.recs[e.index].terminal && n.recs[e.index].pi < n.kappa {
      PostponeKeepsInv(c, n, e);
    } else {
      ExpandKeepsValid(c, n, e);
    }
  }

  /** Every turn of the exploration loop keeps the invariant. */
  lemma StepKeepsValid(c: Config, n: Snapshot)
    requires Valid(c, n) && n.work != []
    ensures EntryOk(n, n.work[0])
    ensures Valid(c, Step(c, n))
  {
    hide Turn;
    PopKeepsInv(c, n);
    assert EntryOk(n, n.work[0]);
    TurnKeepsValid(c, Pop(n), n.work[0]);
  }
}
