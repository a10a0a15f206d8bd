/** The probability that the perimeter ends up with, against piHat: it is what the perimeter states
    held when they were queued and what reached them later, and nothing reaches them later in a chain
    without confluence. */
module PerimeterMass {
  import opened SourceChain
  import opened TruncatedModel
  import opened Exploration
  import opened Invariant
  import opened Iterations
  import opened Accounting
  import opened Runs
  import opened Termination
  import opened KappaLoop
  import opened ReExploring

  // What the flagged state with this index counts, if it is not the one that is left out
  function FlaggedAt(recs: map<nat, Record>, but: nat, i: nat): real {
    if i in recs && i != but && recs[i].inQueue then recs[i].pi else 0.0
  }

  /** The probability of the flagged states with an index below size, but for one of them (0: none). */
  function FlaggedMass(recs: map<nat, Record>, but: nat, size: nat): real {
    if size == 0 then 0.0 else FlaggedMass(recs, but, size - 1) + FlaggedAt(recs, but, size - 1)
  }

  lemma {:induction false} FlaggedSame(a: map<nat, Record>, b: map<nat, Record>, but: nat, size: nat)
    requires forall i: nat :: i < size ==> FlaggedAt(a, but, i) == FlaggedAt(b, but, i)
    ensures FlaggedMass(a, but, size) == FlaggedMass(b, but, size)
  {
    if size > 0 {
      FlaggedSame(a, b, but, size - 1);
      assert FlaggedAt(a, but, size - 1) == FlaggedAt(b, but, size - 1);
    }
  }

  lemma {:induction false} FlaggedGrows(a: map<nat, Record>, b: map<nat, Record>, but: nat, size: nat)
    requires forall i: nat :: i < size ==> FlaggedAt(a, but, i) <= FlaggedAt(b, but, i)
    ensures FlaggedMass(a, but, size) <= FlaggedMass(b, but, size)
    ensures (exists i: nat :: i < size && FlaggedAt(a, but, i) < FlaggedAt(b, but, i)) ==>
              FlaggedMass(a, but, size) < FlaggedMass(b, but, size)
  {
    if size > 0 {
      FlaggedGrows(a, b, but, size - 1);
      assert FlaggedAt(a, but, size - 1) <= FlaggedAt(b, but, size - 1);
    }
  }

  lemma {:induction false} FlaggedExtends(recs: map<nat, Record>, but: nat, size: nat, size': nat)
    requires size <= size' && forall i: nat :: size <= i < size' ==> FlaggedAt(recs, but, i) == 0.0
    ensures FlaggedMass(recs, but, size') == FlaggedMass(recs, but, size)
  {
    if size < size' {
      FlaggedExtends(recs, but, size, size' - 1);
      assert FlaggedAt(recs, but, size' - 1) == 0.0;
    }
  }

  // ----- What one round adds --------------------------------------------------------------------------------

  // Whether some edge leads to the state with this index
  ghost predicate LeadsTo(ids: Numbering, es: seq<Edge>, i: nat) {
    exists j :: 0 <= j < |es| && es[j].to in ids && ids[es[j].to] == i
  }

  /** Whether the next round spreads probability onto the state with this index. */
  ghost predicate SpreadsOnto(c: Config, n: Snapshot, i: nat)
    requires n.work != [] && n.work[0].index in n.recs
  {
    Spreads(c, n, n.work[0]) && i != n.work[0].index && LeadsTo(n.ids, c.Succ(n.work[0].state), i)
  }

  lemma LeadsToMore(ids: Numbering, es: seq<Edge>, i: nat)
    requires es != [] && AllKnown(ids, es)
    ensures LeadsTo(ids, es, i) <==> LeadsTo(ids, es[..|es| - 1], i) || ids[es[|es| - 1].to] == i
  {
    var rest := es[..|es| - 1];
    if LeadsTo(ids, es, i) {
      var j :| 0 <= j < |es| && es[j].to in ids && ids[es[j].to] == i;
      assert j < |rest| ==> rest[j] == es[j];
    }
    if LeadsTo(ids, rest, i) {
      var j :| 0 <= j < |rest| && rest[j].to in ids && ids[rest[j].to] == i;
      assert es[j] == rest[j];
    }
    if ids[es[|es| - 1].to] == i {
      assert es[|es| - 1].to in ids;
    }
  }

  lemma PropagateGain(c: Config, n: Snapshot, m: Snapshot, cur: nat, es: seq<Edge>, total: real, i: nat)
    requires Shape(c, n) && cur in n.recs && es != [] && Successors(c, n.ids, es) && total > 0.0
    requires m.ids == n.ids && m.recs.Keys == n.recs.Keys && m.recs[cur].pi > 0.0 && i in n.recs
    ensures var m' := Propagate(m, cur, es[|es| - 1], false, total);
            && i in m'.recs
            && (n.ids[es[|es| - 1].to] == i ==> m'.recs[i].pi > m.recs[i].pi)
            && (n.ids[es[|es| - 1].to] != i ==> m'.recs[i].pi == m.recs[i].pi)
  {
    var e := es[|es| - 1];
    assert e.to in n.ids && Known(c.problem, n.ids, e.to);
    ShareNonNegative(m.recs[cur].pi, e.rate, total);
  }

  /** Exactly the targets of the edges receive something. */
  lemma {:induction false} PropagateAllGain(c: Config, n: Snapshot, cur: nat, es: seq<Edge>, total: real, i: nat)
    requires Shape(c, n) && cur in n.recs && Successors(c, n.ids, es) && i in n.recs
    requires NonNegative(n) && total > 0.0 && n.recs[cur].pi > 0.0
    requires n.recs[cur].isNew ==> Row(n.table, cur) == []
    ensures var m := PropagateAll(n, cur, es, false, total);
            m.recs[i].pi >= n.recs[i].pi && (m.recs[i].pi > n.recs[i].pi <==> LeadsTo(n.ids, es, i))
  {
    hide Propagate, LeadsTo, Shape, NonNegative;
    if es == [] {
      assert !LeadsTo(n.ids, es, i) by {
        NothingLeads(n.ids, i);
      }
    } else {
      var rest := es[..|es| - 1];
      PropagateAllGain(c, n, cur, rest, total, i);
      PropagateAllEffect(c, n, cur, rest, false, total);
      PropagateGain(c, n, PropagateAll(n, cur, rest, false, total), cur, es, total, i);
      LeadsToMore(n.ids, es, i);
    }
  }

  lemma NothingLeads(ids: Numbering, i: nat)
    ensures !LeadsTo(ids, [], i)
  {
  }

  lemma DistributeGain(c: Config, n: Snapshot, e: Entry, i: nat)
    requires c.problem.src.WellFormed() && Expanding(c, n, e) && Successors(c, n.ids, c.Succ(e.state)) && i in n.recs
    ensures var m := Distribute(c, n, e);
            && i in m.recs && m.recs[i] == n.recs[i].(pi := m.recs[i].pi) && m.recs[i].pi >= n.recs[i].pi
            && (m.recs[i].pi > n.recs[i].pi <==> n.recs[e.index].pi > 0.0 && LeadsTo(n.ids, c.Succ(e.state), i))
  {
    hide LeadsTo;
    var es := c.Succ(e.state);
    assert c.problem.src.PositiveRates(e.state);
    ExitNonNegative(es);
    RecordsNonNegative(c, n, e);
    DistributeEffect(c, n, e);
    if n.recs[e.index].pi > 0.0 {
      PropagateAllGain(c, n, e.index, es, Exit(es), i);
    } else {
      PropagateAllNothing(n, e.index, es, Exit(es));
    }
  }

  // An index that was assigned belongs to the same state as before
  lemma LeadsToOld(c: Config, a: Numbering, b: Numbering, es: seq<Edge>, i: nat)
    requires ProperNumbering(c.problem, a) && ProperNumbering(c.problem, b) && SubNumbering(a, b) && i < |a|
    ensures LeadsTo(a, es, i) <==> LeadsTo(b, es, i)
  {
    if LeadsTo(a, es, i) {
      var j :| 0 <= j < |es| && es[j].to in a && a[es[j].to] == i;
      assert es[j].to in b && b[es[j].to] == i;
    }
    if LeadsTo(b, es, i) {
      var j :| 0 <= j < |es| && es[j].to in b && b[es[j].to] == i;
      assert IsIndex(a, i);
      var s :| s in a && a[s] == i;
      assert s in b && b[s] == i;
      assert s == es[j].to;
    }
  }

  lemma ExpandGain(c: Config, n: Snapshot, e: Entry, i: nat)
    requires Ready(c, n, e) && i in n.recs && i != e.index
    ensures var m := Expand(c, n, e);
            && i in m.recs && SameSituation(n.recs[i], m.recs[i])
            && (m.recs[i].pi > n.recs[i].pi <==> n.recs[e.index].pi > 0.0 && LeadsTo(n.ids, c.Succ(e.state), i))
  {
    var b := CallBack(c, n, e);
    CallBackEffect(c, n, e);
    assert b.recs[i] == n.recs[i].(lastSeen := b.recs[i].lastSeen) && b.recs[e.index].pi == n.recs[e.index].pi by {
      assert Unflagged(n, e.index).recs[i] == n.recs[i];
    }
    assert ProperNumbering(c.problem, b.ids) && ProperNumbering(c.problem, n.ids) && SubNumbering(n.ids, b.ids)
           && i < |n.ids|;
    hide CallBack, Distribute, Expanding, Ready, LeadsTo, Successors, ProperNumbering, SubNumbering;
    LeadsToOld(c, n.ids, b.ids, c.Succ(e.state), i);
    ExpandGainRest(c, n, e, b, i);
  }

  lemma ExpandGainRest(c: Config, n: Snapshot, e: Entry, b: Snapshot, i: nat)
    requires Ready(c, n, e) && b == CallBack(c, n, e) && i in b.recs && i != e.index
    ensures Expanding(c, b, e) && Successors(c, b.ids, c.Succ(e.state))
    ensures var m := Expand(c, n, e);
            && i in m.recs && m.recs[i] == b.recs[i].(pi := m.recs[i].pi) && m.recs[i].pi >= b.recs[i].pi
            && (m.recs[i].pi > b.recs[i].pi <==> b.recs[e.index].pi > 0.0 && LeadsTo(b.ids, c.Succ(e.state), i))
  {
    hide CallBack, Distribute, Expanding, LeadsTo, Successors;
    CallBackEffect(c, n, e);
    DistributeGain(c, b, e, i);
  }

  /** In one round a state that the round does not treat receives probability exactly if the round
      spreads onto it, and nothing else about it changes but its mark. */
  lemma StepReceives(c: Config, n: Snapshot, i: nat)
    requires Valid(c, n) && n.work != [] && i in n.recs
    ensures EntryOk(n, n.work[0])
    ensures i != n.work[0].index ==>
              var m := Step(c, n);
              && i in m.recs && SameSituation(n.recs[i], m.recs[i])
              && (m.recs[i].pi > n.recs[i].pi <==> SpreadsOnto(c, n, i))
  {
    hide Expand, LeadsTo;
    PopKeepsInv(c, n);
    var e, m := n.work[0], Pop(n);
    assert EntryOk(n, e);
    if i == e.index || c.Stops(e.state) || (m.recs[e.index].terminal && m.recs[e.index].pi < m.kappa) {
    } else if c.Succ(e.state) == [] {
      DeadlockTurn(c, m, e);
    } else {
      ExpandGain(c, m, e, i);
      PerimeterEntry(c, m, e);
    }
  }

  /** Whether the next round spreads probability onto a state of the perimeter. */
  ghost predicate MeetsPerimeter(c: Config, n: Snapshot)
    requires n.work != [] && n.work[0].index in n.recs
  {
    var e, es := n.work[0], c.Succ(n.work[0].state);
    && Spreads(c, n, e)
    && exists j :: 0 <= j < |es| && es[j].to != e.state && es[j].to in n.ids && n.ids[es[j].to] in n.recs
                   && n.recs[n.ids[es[j].to]].inQueue
  }

  lemma MeetsByIndex(c: Config, n: Snapshot)
    requires Valid(c, n) && n.work != [] && EntryOk(n, n.work[0])
    ensures MeetsPerimeter(c, n) <==> exists i: nat :: i in n.recs && n.recs[i].inQueue && SpreadsOnto(c, n, i)
  {
    var e, es := n.work[0], c.Succ(n.work[0].state);
    if MeetsPerimeter(c, n) {
      var j :| 0 <= j < |es| && es[j].to != e.state && es[j].to in n.ids && n.ids[es[j].to] in n.recs
               && n.recs[n.ids[es[j].to]].inQueue;
      assert LeadsTo(n.ids, es, n.ids[es[j].to]);
      assert SpreadsOnto(c, n, n.ids[es[j].to]);
    }
    if i: nat :| i in n.recs && n.recs[i].inQueue && SpreadsOnto(c, n, i) {
      var j :| 0 <= j < |es| && es[j].to in n.ids && n.ids[es[j].to] == i;
    }
  }

  lemma StepSizes(c: Config, n: Snapshot)
    requires Valid(c, n) && n.work != []
    ensures EntryOk(n, n.work[0])
    ensures |n.ids| <= |Step(c, n).ids| && SubNumbering(n.ids, Step(c, n).ids)
    ensures forall i: nat :: i in n.recs ==> i < |n.ids|
  {
    hide Step;
    assert EntryOk(n, n.work[0]);
    StepGrows(c, n);
    SubsetSize(n.ids.Keys, Step(c, n).ids.Keys);
    assert |n.ids.Keys| == |n.ids| && |Step(c, n).ids.Keys| == |Step(c, n).ids|;
  }

  lemma StepFlaggedAt(c: Config, n: Snapshot, i: nat)
    requires Valid(c, n) && n.work != []
    ensures EntryOk(n, n.work[0])
    ensures var but := n.work[0].index;
            && FlaggedAt(n.recs, but, i) <= FlaggedAt(Step(c, n).recs, but, i)
            && (FlaggedAt(n.recs, but, i) < FlaggedAt(Step(c, n).recs, but, i) <==>
                  i in n.recs && n.recs[i].inQueue && SpreadsOnto(c, n, i))
            && (i !in n.recs ==> FlaggedAt(Step(c, n).recs, but, i) == 0.0)
  {
    hide Step, SpreadsOnto, Valid;
    StepFlags(c, n);
    if i in n.recs {
      StepReceives(c, n, i);
      NotOntoItself(c, n);
    }
  }

  lemma NotOntoItself(c: Config, n: Snapshot)
    requires n.work != [] && n.work[0].index in n.recs
    ensures !SpreadsOnto(c, n, n.work[0].index)
  {
  }

  /** Apart from the state that the round treats, the probability of the perimeter never shrinks, and
      it grows exactly if the round spreads probability onto a state of the perimeter. */
  lemma StepPerimeterMass(c: Config, n: Snapshot)
    requires Valid(c, n) && n.work != []
    ensures EntryOk(n, n.work[0])
    ensures var but, m := n.work[0].index, Step(c, n);
            && FlaggedMass(n.recs, but, |n.ids|) <= FlaggedMass(m.recs, but, |m.ids|)
            && (FlaggedMass(n.recs, but, |n.ids|) < FlaggedMass(m.recs, but, |m.ids|) <==> MeetsPerimeter(c, n))
  {
    hide Step, SpreadsOnto, MeetsPerimeter, FlaggedAt, FlaggedMass, Valid;
    FrontIsReady(c, n);
    StepSizes(c, n);
    MeetsByIndex(c, n);
    IndicesBelow(c, n);
    var but, m, size := n.work[0].index, Step(c, n), |n.ids|;
    forall i: nat
      ensures FlaggedAt(n.recs, but, i) <= FlaggedAt(m.recs, but, i)
      ensures FlaggedAt(n.recs, but, i) < FlaggedAt(m.recs, but, i) <==>
                i in n.recs && n.recs[i].inQueue && SpreadsOnto(c, n, i)
      ensures i >= size ==> FlaggedAt(m.recs, but, i) == 0.0
    {
      StepFlaggedAt(c, n, i);
    }
    FlaggedExtends(m.recs, but, size, |m.ids|);
    FlaggedGrows(n.recs, m.recs, but, size);
    if MeetsPerimeter(c, n) {
      var i: nat :| i in n.recs && n.recs[i].inQueue && SpreadsOnto(c, n, i);
      assert i < size && FlaggedAt(n.recs, but, i) < FlaggedAt(m.recs, but, i);
    } else {
      FlaggedSame(n.recs, m.recs, but, size);
    }
  }

  lemma IndicesBelow(c: Config, n: Snapshot)
    requires Valid(c, n)
    ensures forall i: nat :: i in n.recs ==> i < |n.ids|
  {
  }

  // ----- Over a run --------------------------------------------------------------------------------------------

  /** Whether some round of the run spreads probability onto the state with this index while that is
      flagged. */
  ghost predicate ReceivesLate(c: Config, n: Snapshot, rounds: nat, i: nat)
    requires Valid(c, n)
    decreases rounds
  {
    rounds != 0 && n.work != [] &&
    (StepKeepsValid(c, n);
     assert EntryOk(n, n.work[0]);
     || (i in n.recs && n.recs[i].inQueue && SpreadsOnto(c, n, i))
     || ReceivesLate(c, Step(c, n), rounds - 1, i))
  }

  // A state that will not be flagged in this iteration any more
  ghost predicate PastPerimeter(c: Config, n: Snapshot, e: Entry) {
    && EntryOk(n, e) && !c.Stops(e.state)
    && !n.recs[e.index].inQueue && !(n.recs[e.index].terminal && n.recs[e.index].pi < n.kappa)
  }

  lemma StepTreats(c: Config, n: Snapshot)
    requires Valid(c, n) && n.work != []
    ensures EntryOk(n, n.work[0])
    ensures var e, m := n.work[0], Step(c, n);
            && e.index in m.recs && m.kappa == n.kappa
            && (m.recs[e.index].inQueue ==> !PastPerimeter(c, n, e) && m.recs[e.index].pi == n.recs[e.index].pi)
            && (!m.recs[e.index].inQueue && !c.Stops(e.state) ==> PastPerimeter(c, m, e))
            && (n.recs[e.index].inQueue ==> !c.Stops(e.state))
  {
    hide Expand;
    PopKeepsInv(c, n);
    var e, m := n.work[0], Pop(n);
    assert EntryOk(n, e);
    PerimeterEntry(c, m, e);
    StepGrows(c, n);
    if c.Stops(e.state) || (m.recs[e.index].terminal && m.recs[e.index].pi < m.kappa) {
    } else if c.Succ(e.state) == [] {
      DeadlockTurn(c, m, e);
    } else {
      ExpandFlagsNothing(c, m, e);
      ExpandFinishes(c, m, e);
      ExpandKeepsKappa(c, m, e);
    }
  }

  lemma ExpandKeepsKappa(c: Config, n: Snapshot, e: Entry)
    requires Ready(c, n, e)
    ensures Expand(c, n, e).kappa == n.kappa
  {
    CallBackEffect(c, n, e);
    DistributeEffect(c, CallBack(c, n, e), e);
  }

  lemma SameEntry(c: Config, n: Snapshot, e: Entry, f: Entry)
    requires Valid(c, n) && EntryOk(n, e) && EntryOk(n, f) && e.index == f.index
    ensures e == f
  {
  }

  lemma StepKeepsPast(c: Config, n: Snapshot, f: Entry)
    requires Valid(c, n) && n.work != [] && PastPerimeter(c, n, f)
    ensures EntryOk(n, n.work[0]) && PastPerimeter(c, Step(c, n), f)
  {
    hide Step, Valid, SpreadsOnto;
    StepTreats(c, n);
    StepReceives(c, n, f.index);
    StepSizes(c, n);
    if f.index == n.work[0].index {
      SameEntry(c, n, n.work[0], f);
    }
  }

  lemma {:induction false} PastStays(c: Config, n: Snapshot, rounds: nat, f: Entry)
    requires Valid(c, n) && PastPerimeter(c, n, f)
    ensures f.index in Run(c, n, rounds).recs && !Run(c, n, rounds).recs[f.index].inQueue
    decreases rounds
  {
    hide Step, Valid;
    if rounds != 0 && n.work != [] {
      FrontIsReady(c, n);
      StepKeepsValid(c, n);
      StepKeepsPast(c, n, f);
      PastStays(c, Step(c, n), rounds - 1, f);
    }
  }

  ghost predicate Flagged(n: Snapshot, i: nat) {
    i in n.recs && n.recs[i].inQueue
  }

  /** A flag that is set in the end was not cleared before. */
  lemma FlagStays(c: Config, n: Snapshot, rounds: nat, i: nat)
    requires Valid(c, n) && n.work != [] && Flagged(n, i)
    ensures EntryOk(n, n.work[0]) && Valid(c, Step(c, n))
    ensures Flagged(Run(c, Step(c, n), rounds), i) ==> Flagged(Step(c, n), i)
  {
    hide Step, Run, Valid, SpreadsOnto;
    FrontIsReady(c, n);
    StepKeepsValid(c, n);
    StepTreats(c, n);
    StepReceives(c, n, i);
    if i == n.work[0].index && !Flagged(Step(c, n), i) {
      PastStays(c, Step(c, n), rounds, n.work[0]);
    }
  }

  /** What a state that is flagged stays with in one round. */
  lemma FlaggedReceives(c: Config, n: Snapshot, i: nat)
    requires Valid(c, n) && n.work != [] && Flagged(n, i)
    ensures EntryOk(n, n.work[0])
    ensures Flagged(Step(c, n), i) ==>
              && n.recs[i].pi <= Step(c, n).recs[i].pi
              && (n.recs[i].pi < Step(c, n).recs[i].pi <==> SpreadsOnto(c, n, i))
  {
    hide Step, Valid, SpreadsOnto;
    StepTreats(c, n);
    StepReceives(c, n, i);
    NotOntoItself(c, n);
  }

  lemma NewlyFlagged(c: Config, n: Snapshot, i: nat)
    requires Valid(c, n) && n.work != [] && !Flagged(n, i)
    ensures EntryOk(n, n.work[0])
    ensures Flagged(Step(c, n), i) ==>
              i == n.work[0].index && Step(c, n).recs[i].pi == n.recs[i].pi
  {
    hide Step, Valid;
    StepTreats(c, n);
    StepFlags(c, n);
  }

  lemma HeldUnfold(c: Config, n: Snapshot, rounds: nat)
    requires Valid(c, n) && n.work != [] && rounds > 0
    ensures EntryOk(n, n.work[0]) && Valid(c, Step(c, n))
    ensures var i, rest := n.work[0].index, Held(c, Step(c, n), rounds - 1);
            Held(c, n, rounds)
            == if i !in rest && Flagged(Step(c, n), i) && !n.recs[i].inQueue then rest[i := n.recs[i].pi] else rest
  {
    hide Step;
    StepKeepsValid(c, n);
  }

  lemma ReceivesUnfold(c: Config, n: Snapshot, rounds: nat, i: nat)
    requires Valid(c, n) && n.work != [] && rounds > 0
    ensures EntryOk(n, n.work[0]) && Valid(c, Step(c, n))
    ensures ReceivesLate(c, n, rounds, i)
            <==> (Flagged(n, i) && SpreadsOnto(c, n, i)) || ReceivesLate(c, Step(c, n), rounds - 1, i)
  {
    hide Step, SpreadsOnto;
    StepKeepsValid(c, n);
  }

  /** What a perimeter state holds in the end: no less than when it was queued, and more exactly if
      some round spread probability onto it after that. */
  lemma {:induction false} HeldIsExact(c: Config, n: Snapshot, rounds: nat, i: nat)
    requires Valid(c, n) && Flagged(Run(c, n, rounds), i)
    ensures var m, held := Run(c, n, rounds), Held(c, n, rounds);
            if Flagged(n, i) then
              && i !in held && n.recs[i].pi <= m.recs[i].pi
              && (n.recs[i].pi < m.recs[i].pi <==> ReceivesLate(c, n, rounds, i))
            else
              && i in held && held[i] <= m.recs[i].pi
              && (held[i] < m.recs[i].pi <==> ReceivesLate(c, n, rounds, i))
    decreases rounds
  {
    hide Step, Valid, Held, SpreadsOnto, ReceivesLate;
    if rounds == 0 || n.work == [] {
      NothingHappens(c, n, rounds, i);
    } else {
      FrontIsReady(c, n);
      StepKeepsValid(c, n);
      HeldUnfold(c, n, rounds);
      ReceivesUnfold(c, n, rounds, i);
      HeldIsExact(c, Step(c, n), rounds - 1, i);
      if Flagged(n, i) {
        FlagStays(c, n, rounds - 1, i);
        FlaggedReceives(c, n, i);
      } else {
        NewlyFlagged(c, n, i);
      }
    }
  }

  lemma NothingHappens(c: Config, n: Snapshot, rounds: nat, i: nat)
    requires Valid(c, n) && (rounds == 0 || n.work == [])
    ensures Run(c, n, rounds) == n && Held(c, n, rounds) == map[] && !ReceivesLate(c, n, rounds, i)
  {
  }

  // ----- The probability of the perimeter ----------------------------------------------------------------------

  /** What the perimeter states received after they were queued. */
  function LateTotal(recs: map<nat, Record>, held: map<nat, real>, size: nat): real {
    if size == 0 then 0.0
    else
      LateTotal(recs, held, size - 1)
      + (if size - 1 in recs && recs[size - 1].inQueue && size - 1 in held
         then recs[size - 1].pi - held[size - 1] else 0.0)
  }

  ghost predicate HeldAtMost(recs: map<nat, Record>, held: map<nat, real>, i: nat) {
    i in recs && recs[i].inQueue ==> i in held && held[i] <= recs[i].pi
  }

  ghost predicate HoldsMore(recs: map<nat, Record>, held: map<nat, real>, i: nat) {
    i in recs && recs[i].inQueue && i in held && held[i] < recs[i].pi
  }

  lemma {:induction false} HeldAndLate(recs: map<nat, Record>, held: map<nat, real>, size: nat)
    requires 0 !in recs && forall i: nat :: HeldAtMost(recs, held, i)
    ensures FlaggedMass(recs, 0, size) == HeldTotal(recs, held, size) + LateTotal(recs, held, size)
    ensures LateTotal(recs, held, size) >= 0.0
    ensures LateTotal(recs, held, size) > 0.0 <==> exists i: nat :: i < size && HoldsMore(recs, held, i)
  {
    if size > 0 {
      HeldAndLate(recs, held, size - 1);
      assert HeldAtMost(recs, held, size - 1);
      assert LateTotal(recs, held, size) > LateTotal(recs, held, size - 1) <==> HoldsMore(recs, held, size - 1);
    }
  }

  /** The perimeter against piHat.  At the end of an iteration that began with an empty perimeter
      queue, the perimeter states together hold what they held when they were queued and what reached
      them late; so they exceed piHat at most by the latter, and they hold no more than when they were
      queued if and only if no round spread probability onto one of them while it was queued. */
  lemma PerimeterHoldsHeldAndLate(c: Config, n: Snapshot, rounds: nat)
    requires Valid(c, n) && Counted(n) && n.perimeter == []
    ensures var m, held := Run(c, n, rounds), Held(c, n, rounds);
            var mass, then', late := FlaggedMass(m.recs, 0, |m.ids|), HeldTotal(m.recs, held, |m.ids|),
                LateTotal(m.recs, held, |m.ids|);
            && mass == then' + late && late >= 0.0
            && mass <= PiHat(m) + late
            && (mass == then' <==> forall i: nat :: Flagged(m, i) ==> !ReceivesLate(c, n, rounds, i))
  {
    hide Run, Held, Valid, Counted, PiHat, HeldTotal, LateTotal, FlaggedMass, ReceivesLate;
    var m, held := Run(c, n, rounds), Held(c, n, rounds);
    RunKeepsValid(c, n, rounds);
    IndicesBelow(c, m);
    ZeroIsNoState(c, m);
    forall i: nat
      ensures HeldAtMost(m.recs, held, i)
      ensures HoldsMore(m.recs, held, i) <==> Flagged(m, i) && ReceivesLate(c, n, rounds, i)
    {
      if Flagged(m, i) {
        NothingFlagged(c, n, i);
        HeldIsExact(c, n, rounds, i);
      }
    }
    HeldAndLate(m.recs, held, |m.ids|);
    PiHatBoundsQueuedMass(c, n, rounds);
    if i: nat :| Flagged(m, i) && ReceivesLate(c, n, rounds, i) {
      assert i < |m.ids| && HoldsMore(m.recs, held, i);
    }
  }

  lemma ZeroIsNoState(c: Config, n: Snapshot)
    requires Valid(c, n)
    ensures 0 !in n.recs
  {
  }

  lemma NothingFlagged(c: Config, n: Snapshot, i: nat)
    requires Valid(c, n) && n.perimeter == []
    ensures !Flagged(n, i)
  {
    if Flagged(n, i) {
      FlaggedIsOnPerimeter(c, n, i);
    }
  }

  // ----- The perimeter as a queue ------------------------------------------------------------------------------

  /** The probability of the live entries of the perimeter queue. */
  function LiveMass(recs: map<nat, Record>, queue: seq<Entry>): real {
    if queue == [] then 0.0
    else LiveMass(recs, queue[..|queue| - 1]) + FlaggedAt(recs, 0, queue[|queue| - 1].index)
  }

  lemma {:induction false} LiveMassElsewhere(recs: map<nat, Record>, queue: seq<Entry>, i: nat, r: Record)
    requires forall k :: 0 <= k < |queue| ==> queue[k].index != i
    ensures LiveMass(recs[i := r], queue) == LiveMass(recs, queue)
  {
    if queue != [] {
      LiveMassElsewhere(recs, queue[..|queue| - 1], i, r);
    }
  }

  lemma {:induction false} FlaggedMassUpdate(recs: map<nat, Record>, i: nat, r: Record, size: nat)
    ensures FlaggedMass(recs[i := r], 0, size)
            == FlaggedMass(recs, 0, size)
               + (if i < size then FlaggedAt(recs[i := r], 0, i) - FlaggedAt(recs, 0, i) else 0.0)
  {
    if size > 0 {
      FlaggedMassUpdate(recs, i, r, size - 1);
    }
  }

  lemma {:induction false} NoneFlagged(recs: map<nat, Record>, size: nat)
    requires forall i: nat :: FlaggedAt(recs, 0, i) == 0.0
    ensures FlaggedMass(recs, 0, size) == 0.0
  {
    if size > 0 {
      NoneFlagged(recs, size - 1);
      assert FlaggedAt(recs, 0, size - 1) == 0.0;
    }
  }

  ghost predicate InQueue(queue: seq<Entry>, i: nat) {
    exists k :: 0 <= k < |queue| && queue[k].index == i
  }

  lemma {:induction false} LiveMassIsFlagged(recs: map<nat, Record>, queue: seq<Entry>, size: nat)
    requires forall j, k :: 0 <= j < k < |queue| ==> queue[j].index != queue[k].index
    requires forall k :: 0 <= k < |queue| ==> queue[k].index in recs && queue[k].index < size
    requires forall i: nat :: FlaggedAt(recs, 0, i) != 0.0 ==> InQueue(queue, i)
    ensures LiveMass(recs, queue) == FlaggedMass(recs, 0, size)
    decreases |queue|
  {
    if queue == [] {
      NoneFlagged(recs, size);
    } else {
      var rest, i := queue[..|queue| - 1], queue[|queue| - 1].index;
      assert queue[|queue| - 1].index in recs;
      var r := recs[i].(inQueue := false);
      var recs' := recs[i := r];
      forall t: nat | FlaggedAt(recs', 0, t) != 0.0 ensures InQueue(rest, t) {
        assert FlaggedAt(recs, 0, t) != 0.0;
        var k :| 0 <= k < |queue| && queue[k].index == t;
        assert rest[k] == queue[k];
      }
      LiveMassIsFlagged(recs', rest, size);
      LiveMassElsewhere(recs, rest, i, r);
      FlaggedMassUpdate(recs, i, r, size);
    }
  }

  /** The flagged states are the live entries of the perimeter queue. */
  lemma PerimeterIsFlagged(c: Config, n: Snapshot)
    requires Valid(c, n)
    ensures LiveMass(n.recs, n.perimeter) == FlaggedMass(n.recs, 0, |n.ids|)
  {
    forall k | 0 <= k < |n.perimeter| ensures n.perimeter[k].index in n.recs && n.perimeter[k].index < |n.ids| {
      assert EntryOk(n, n.perimeter[k]);
    }
    forall i: nat | FlaggedAt(n.recs, 0, i) != 0.0 ensures InQueue(n.perimeter, i) {
      assert IsIndex(n.ids, i);
      var s :| s in n.ids && n.ids[s] == i;
      assert Known(c.problem, n.ids, s) && StateOk(c, n, Entry(i, s), 0);
      var k :| 0 <= k < |n.perimeter| && n.perimeter[k] == Entry(i, s);
    }
    LiveMassIsFlagged(n.recs, n.perimeter, |n.ids|);
  }

  /** In particular at the end of every inner iteration. */
  lemma EveryPerimeterHoldsHeldAndLate(c: Config, kappa: real, reduceKappa: real, rounds: nat, k: nat)
    requires c.problem.src.WellFormed() && kappa >= 0.0 && reduceKappa >= 1.0
    ensures var n, m := IterationStart(c, kappa, reduceKappa, rounds, k), Iteration(c, kappa, reduceKappa, rounds, k);
            var held := Held(c, n, rounds);
            var late := LateTotal(m.recs, held, |m.ids|);
            && LiveMass(m.recs, m.perimeter) == HeldTotal(m.recs, held, |m.ids|) + late && late >= 0.0
            && LiveMass(m.recs, m.perimeter) <= PiHat(m) + late
            && (late == 0.0 <==> forall i: nat :: Flagged(m, i) ==> !ReceivesLate(c, n, rounds, i))
  {
    hide Iteration, IterationStart, Run, Held, Valid, Counted, PiHat, HeldTotal, LateTotal, FlaggedMass, LiveMass;
    hide ReceivesLate;
    IterationCounts(c, kappa, reduceKappa, rounds, k);
    IterationIsRun(c, kappa, reduceKappa, rounds, k);
    PerimeterHoldsHeldAndLate(c, IterationStart(c, kappa, reduceKappa, rounds, k), rounds);
    PerimeterIsFlagged(c, Iteration(c, kappa, reduceKappa, rounds, k));
  }

  // ----- Chains without confluence -----------------------------------------------------------------------------

  /** No state has two incoming transitions, and no initial state has one. */
  ghost predicate WithoutConfluence(c: Config) {
    && (forall s, s', t :: HasEdge(c, s, t) && HasEdge(c, s', t) ==> s == s')
    && (forall s, k :: 0 <= k < |c.problem.src.initial| ==> !HasEdge(c, s, c.problem.src.initial[k]))
  }

  /** Every state but the initial ones was discovered from an expanded state, and expanded states hold
      nothing. */
  ghost predicate Spent(c: Config, n: Snapshot) {
    && KnowsInitials(c, n)
    && (forall t {:trigger Known(c.problem, n.ids, t)} :: Known(c.problem, n.ids, t) ==> Discovered(c, n, t))
    && (forall i: nat :: i in n.recs && !n.recs[i].terminal ==> n.recs[i].pi == 0.0)
  }

  lemma InitialHasNoEdge(c: Config, n: Snapshot, s: CompressedState, t: CompressedState)
    requires Valid(c, n) && WithoutConfluence(c) && KnowsInitials(c, n) && Known(c.problem, n.ids, t)
    requires n.ids[t] <= |c.problem.src.initial|
    ensures !HasEdge(c, s, t)
  {
    var k := n.ids[t] - 1;
    assert c.problem.src.initial[k] in n.ids && n.ids[c.problem.src.initial[k]] == k + 1;
    assert t == c.problem.src.initial[k];
  }

  /** A state with probability has no registered successors. */
  lemma NothingIsReached(c: Config, n: Snapshot, i: nat)
    requires Valid(c, n) && n.work != [] && EntryOk(n, n.work[0]) && WithoutConfluence(c) && Spent(c, n) && i in n.recs
    ensures !SpreadsOnto(c, n, i)
  {
    hide Valid, WithoutConfluence;
    var e, es := n.work[0], c.Succ(n.work[0].state);
    if SpreadsOnto(c, n, i) {
      var j :| 0 <= j < |es| && es[j].to in n.ids && n.ids[es[j].to] == i;
      var t := es[j].to;
      assert HasEdge(c, e.state, t);
      IsKnown(c, n, t, i);
      assert Discovered(c, n, t);
      if i <= |c.problem.src.initial| {
        InitialHasNoEdge(c, n, e.state, t);
      } else {
        var s :| DiscoveredFrom(c, n, s, t);
        assert HasEdge(c, s, t);
        OnePredecessor(c, s, e.state, t);
      }
    }
  }

  lemma IsKnown(c: Config, n: Snapshot, t: CompressedState, i: nat)
    requires Valid(c, n) && t in n.ids && n.ids[t] == i && i in n.recs
    ensures Known(c.problem, n.ids, t)
  {
  }

  lemma OnePredecessor(c: Config, s: CompressedState, s': CompressedState, t: CompressedState)
    requires WithoutConfluence(c) && HasEdge(c, s, t) && HasEdge(c, s', t)
    ensures s == s'
  {
  }

  lemma TreatedIsSpent(c: Config, n: Snapshot)
    requires Valid(c, n) && n.work != []
    ensures EntryOk(n, n.work[0]) && n.work[0].index in Step(c, n).recs
    ensures n.recs[n.work[0].index].terminal || n.recs[n.work[0].index].pi == 0.0 ==>
              Step(c, n).recs[n.work[0].index].terminal || Step(c, n).recs[n.work[0].index].pi == 0.0
  {
    hide Expand;
    PopKeepsInv(c, n);
    var e, m := n.work[0], Pop(n);
    assert EntryOk(n, e);
    if c.Stops(e.state) || (m.recs[e.index].terminal && m.recs[e.index].pi < m.kappa) {
    } else if c.Succ(e.state) == [] {
      DeadlockTurn(c, m, e);
    } else {
      ExpandIsSpent(c, m, e);
    }
  }

  lemma ExpandIsSpent(c: Config, n: Snapshot, e: Entry)
    requires Ready(c, n, e)
    ensures e.index in Expand(c, n, e).recs && Expand(c, n, e).recs[e.index].pi == 0.0
  {
    CallBackEffect(c, n, e);
  }

  lemma StepKeepsDiscovered(c: Config, n: Snapshot, t: CompressedState)
    requires Valid(c, n) && n.work != [] && Spent(c, n)
    ensures EntryOk(n, n.work[0]) && Valid(c, Step(c, n))
    ensures Known(c.problem, Step(c, n).ids, t) ==> Discovered(c, Step(c, n), t)
  {
    hide Step, Valid, Advances;
    FrontIsReady(c, n);
    StepKeepsValid(c, n);
    StepAdvances(c, n);
    if Known(c.problem, Step(c, n).ids, t) {
      if t in n.ids {
        assert Known(c.problem, n.ids, t);
        OldStaysDiscovered(c, n, Step(c, n), n.work[0].index, t);
      } else {
        NewIsDiscovered(c, n, t);
      }
    }
  }

  lemma NewIsTerminal(c: Config, n: Snapshot, i: nat)
    requires Valid(c, n) && n.work != [] && i !in n.recs
    ensures EntryOk(n, n.work[0])
    ensures i in Step(c, n).recs ==> Step(c, n).recs[i].terminal
  {
    hide Step, Valid;
    StepAdvances(c, n);
  }

  lemma StepKeepsSpent(c: Config, n: Snapshot)
    requires Valid(c, n) && n.work != [] && WithoutConfluence(c) && Spent(c, n)
    ensures EntryOk(n, n.work[0]) && Spent(c, Step(c, n))
  {
    hide Step, Valid, WithoutConfluence, SpreadsOnto, Discovered, KnowsInitials;
    FrontIsReady(c, n);
    StepKeepsInitials(c, n);
    var m := Step(c, n);
    forall t | Known(c.problem, m.ids, t) ensures Discovered(c, m, t) {
      StepKeepsDiscovered(c, n, t);
    }
    forall i: nat | i in m.recs && !m.recs[i].terminal ensures m.recs[i].pi == 0.0 {
      TreatedIsSpent(c, n);
      if i !in n.recs {
        NewIsTerminal(c, n, i);
      } else if i != n.work[0].index {
        StepReceives(c, n, i);
        NothingIsReached(c, n, i);
      }
    }
  }

  lemma {:induction false} RunKeepsSpent(c: Config, n: Snapshot, rounds: nat)
    requires Valid(c, n) && WithoutConfluence(c) && Spent(c, n)
    ensures Spent(c, Run(c, n, rounds))
    decreases rounds
  {
    hide Step, Valid, WithoutConfluence, Spent;
    if rounds != 0 && n.work != [] {
      FrontIsReady(c, n);
      StepKeepsValid(c, n);
      StepKeepsSpent(c, n);
      RunKeepsSpent(c, Step(c, n), rounds - 1);
    }
  }

  lemma {:induction false} NothingIsLate(c: Config, n: Snapshot, rounds: nat, i: nat)
    requires Valid(c, n) && WithoutConfluence(c) && Spent(c, n)
    ensures !ReceivesLate(c, n, rounds, i)
    decreases rounds
  {
    hide Step, Valid, WithoutConfluence, Spent, SpreadsOnto;
    if rounds != 0 && n.work != [] {
      FrontIsReady(c, n);
      StepKeepsValid(c, n);
      StepKeepsSpent(c, n);
      if i in n.recs {
        NothingIsReached(c, n, i);
      }
      NothingIsLate(c, Step(c, n), rounds - 1, i);
    }
  }

  lemma StartIsSpent(c: Config, kappa: real)
    requires c.problem.src.WellFormed() && kappa >= 0.0
    ensures Spent(c, Start(c, kappa))
  {
    var n, states := Start(c, kappa), c.problem.src.initial;
    StartRecords(c, kappa, states);
    StartValid(c, kappa);
    RegisterInitialsShape(c, kappa, states);
    RegisterInitialsNumbered(c, kappa, states);
    forall t | Known(c.problem, n.ids, t) ensures Discovered(c, n, t) {
      assert n.ids[t] < |n.ids|;
    }
  }

  // Two snapshots that differ in flags and queues only
  lemma SameIsSpent(c: Config, n: Snapshot, m: Snapshot)
    requires Spent(c, n) && m.ids == n.ids && m.recs.Keys == n.recs.Keys
    requires forall i: nat :: i in n.recs ==> m.recs[i].terminal == n.recs[i].terminal && m.recs[i].pi == n.recs[i].pi
    ensures Spent(c, m)
  {
    hide KnowsInitials;
    SameKnowsInitials(c, n, m);
    forall t | Known(c.problem, m.ids, t) ensures Discovered(c, m, t) {
      assert Known(c.problem, n.ids, t) && Discovered(c, n, t);
      if n.ids[t] > |c.problem.src.initial| {
        var s :| DiscoveredFrom(c, n, s, t);
        assert DiscoveredFrom(c, m, s, t);
      }
    }
    forall i: nat | i in m.recs && !m.recs[i].terminal ensures m.recs[i].pi == 0.0 {
      assert i in n.recs && n.recs[i].pi == 0.0;
    }
  }

  lemma SameKnowsInitials(c: Config, n: Snapshot, m: Snapshot)
    requires KnowsInitials(c, n) && m.ids == n.ids && m.recs.Keys == n.recs.Keys
    ensures KnowsInitials(c, m)
  {
    forall j | 0 <= j < |c.problem.src.initial|
      ensures c.problem.src.initial[j] in m.ids && m.ids[c.problem.src.initial[j]] == j + 1 && j + 1 in m.recs
    {
      assert c.problem.src.initial[j] in n.ids && n.ids[c.problem.src.initial[j]] == j + 1 && j + 1 in n.recs;
      assert j + 1 in n.recs.Keys;
    }
  }

  lemma {:induction false} FlushKeepsSpent(c: Config, n: Snapshot)
    requires Valid(c, n) && Spent(c, n)
    ensures Spent(c, Flush(c, n))
    decreases |n.perimeter|
  {
    if n.perimeter != [] {
      FlushOneKeepsValid(c, n);
      SameIsSpent(c, n, FlushOne(n));
      hide FlushOne, Spent;
      FlushKeepsSpent(c, FlushOne(n));
    }
  }

  lemma RestartKeepsSpent(c: Config, n: Snapshot, reduceKappa: real)
    requires Valid(c, n) && Spent(c, n) && reduceKappa >= 1.0
    ensures Spent(c, Restart(c, n, reduceKappa))
  {
    EndIterationKeepsValid(c, n, reduceKappa);
    SameIsSpent(c, n, EndIteration(n, reduceKappa));
    FlushKeepsSpent(c, EndIteration(n, reduceKappa));
  }

  lemma {:induction false} IterationIsSpent(c: Config, kappa: real, reduceKappa: real, rounds: nat, k: nat)
    requires c.problem.src.WellFormed() && kappa >= 0.0 && reduceKappa >= 1.0 && WithoutConfluence(c)
    ensures Spent(c, IterationStart(c, kappa, reduceKappa, rounds, k))
    ensures Spent(c, Iteration(c, kappa, reduceKappa, rounds, k))
  {
    hide Run, Restart, Start, Valid, Iteration, Spent, WithoutConfluence;
    IterationIsRun(c, kappa, reduceKappa, rounds, k);
    if k == 0 {
      StartIsSpent(c, kappa);
    } else {
      IterationIsSpent(c, kappa, reduceKappa, rounds, k - 1);
      RestartKeepsSpent(c, Iteration(c, kappa, reduceKappa, rounds, k - 1), reduceKappa);
    }
    RunKeepsSpent(c, IterationStart(c, kappa, reduceKappa, rounds, k), rounds);
  }

  /** In a chain without confluence piHat does bound what the perimeter holds in the end, after every
      inner iteration: nothing ever reaches a state that is registered. */
  lemma PerimeterStaysBelowPiHat(c: Config, kappa: real, reduceKappa: real, rounds: nat, k: nat)
    requires c.problem.src.WellFormed() && kappa >= 0.0 && reduceKappa >= 1.0 && WithoutConfluence(c)
    ensures var m := Iteration(c, kappa, reduceKappa, rounds, k);
            && FlaggedMass(m.recs, 0, |m.ids|) <= PiHat(m)
            && LiveMass(m.recs, m.perimeter) <= PiHat(m)
  {
    hide Iteration, IterationStart, Run, Held, Valid, Counted, PiHat, HeldTotal, LateTotal, FlaggedMass, LiveMass;
    hide ReceivesLate, Spent, WithoutConfluence;
    var n := IterationStart(c, kappa, reduceKappa, rounds, k);
    IterationCounts(c, kappa, reduceKappa, rounds, k);
    IterationIsRun(c, kappa, reduceKappa, rounds, k);
    IterationIsSpent(c, kappa, reduceKappa, rounds, k);
    forall i: nat ensures !ReceivesLate(c, n, rounds, i) {
      NothingIsLate(c, n, rounds, i);
    }
    PerimeterHoldsHeldAndLate(c, n, rounds);
    PiHatBoundsQueuedMass(c, n, rounds);
    PerimeterIsFlagged(c, Iteration(c, kappa, reduceKappa, rounds, k));
  }
}
