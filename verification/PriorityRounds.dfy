/** One round of the priority builder, told by the chain and the record of the state it treats; and
    what its counters and its list of deadlocks say after any choice of rounds. */
module PriorityRounds {
  import opened SourceChain
  import opened TruncatedModel
  import opened Exploration
  import opened Invariant
  import opened Iterations
  import opened Deadlocks
  import opened Reachability
  import opened Rounds
  import opened PriorityExploration
  import opened PriorityFrontier

  function Without(work: seq<Entry>, j: nat): seq<Entry>
    requires j < |work|
  {
    work[..j] + work[j + 1..]
  }

  /** A state that decides the property gets a self-loop as its row, and takes what it holds out of
      piHat. */
  lemma PDecidedRound(c: Config, s: PState, j: nat, power: nat -> real)
    requires PInv(c, s) && j < |s.base.work| && !Open(c, s.base.work[j].state)
    ensures EntryOk(s.base, s.base.work[j])
    ensures var i, r := s.base.work[j].index, PStep(c, s, j, power);
            && r == s.(base := s.base.(work := Without(s.base.work, j), table := r.base.table),
                       piHat := s.piHat - s.base.recs[i].pi, held := s.held[i := s.base.recs[i].pi])
            && Row(r.base.table, i) == SelfLoop(i) && SameRowsBut(s.base, r.base, i)
  {
    PoppedIsReady(c, s, j);
    var e, m := s.base.work[j], PopAt(s.base, j);
    CreateRow(m.table, e.index, e.index, 1.0);
    assert [] + SelfLoop(e.index) == SelfLoop(e.index);
    assert m.recs[e.index := m.recs[e.index].(terminal := true)] == m.recs;
  }

  /** So does a state without successors, which is a deadlock from now on and is listed as one. */
  lemma PDeadlockRound(c: Config, s: PState, j: nat, power: nat -> real)
    requires PInv(c, s) && j < |s.base.work| && Open(c, s.base.work[j].state) && c.Succ(s.base.work[j].state) == []
    ensures EntryOk(s.base, s.base.work[j])
    ensures var i, r := s.base.work[j].index, PStep(c, s, j, power);
            && r == s.(base := s.base.(work := Without(s.base.work, j), table := r.base.table,
                                       deadlocks := s.base.deadlocks + [i],
                                       recs := s.base.recs[i := s.base.recs[i].(deadlock := true)]),
                       piHat := s.piHat - s.base.recs[i].pi, held := s.held[i := s.base.recs[i].pi])
            && Row(r.base.table, i) == SelfLoop(i) && SameRowsBut(s.base, r.base, i)
  {
    PoppedIsReady(c, s, j);
    var e, m := s.base.work[j], PopAt(s.base, j);
    PExpandOfNothing(c, s.(base := m), e, power);
    CreateRow(m.table, e.index, e.index, 1.0);
    assert [] + SelfLoop(e.index) == SelfLoop(e.index);
  }

  /** Apart from piHat and the counters, any other state is expanded as the other builders do it. */
  lemma PRoundExpands(c: Config, s: PState, j: nat, power: nat -> real)
    requires PInv(c, s) && j < |s.base.work| && Open(c, s.base.work[j].state) && c.Succ(s.base.work[j].state) != []
    ensures Primed(c, PopAt(s.base, j), s.base.work[j]) && s.base.work[j].index in s.base.recs
    ensures var r := PStep(c, s, j, power);
            && r.base == Expand(c, PopAt(s.base, j), s.base.work[j])
            && r.held == s.held && r.explored == s.explored + 1 && r.windowPower == power(s.explored)
  {
    hide CallBack, Distribute, PDistribute, PInv, PExpand, Ready, Successors;
    PrimedIndex(c, s, j);
    PoppedIsPrimed(c, s, j);
    PExpandIs(c, s.(base := PopAt(s.base, j)), s.base.work[j], power);
    PDistributeIsDistribute(c, s.(base := PopAt(s.base, j)), s.base.work[j]);
  }

  lemma PExpandedRound(c: Config, s: PState, j: nat, power: nat -> real)
    requires PInv(c, s) && j < |s.base.work| && Open(c, s.base.work[j].state) && c.Succ(s.base.work[j].state) != []
    ensures s.base.work[j].index in s.base.recs
    ensures var r := PStep(c, s, j, power);
            && Expansion(c, s.base, s.base.work[j], r.base)
            && Visits(c, s.base.(work := Without(s.base.work, j)), s.base.work[j], r.base)
            && r.held == s.held && r.explored == s.explored + 1 && r.windowPower == power(s.explored)
  {
    hide PStep, Expand, PInv, Ready, Expansion, Visits;
    PrimedIndex(c, s, j);
    PRoundExpands(c, s, j, power);
    ExpandExpands(c, PopAt(s.base, j), s.base.work[j]);
    ExpandVisits(c, PopAt(s.base, j), s.base.work[j]);
    ExpansionIgnoresWork(c, s.base, PopAt(s.base, j), s.base.work[j], PStep(c, s, j, power).base);
  }

  /** And its probability goes out in proportion to the rates. */
  lemma PRoundShares(c: Config, s: PState, j: nat, power: nat -> real, loop: nat, k: nat)
    requires PInv(c, s) && j < |s.base.work| && Open(c, s.base.work[j].state)
    requires k < |c.Succ(s.base.work[j].state)| && k != loop
    requires forall l :: 0 <= l < |c.Succ(s.base.work[j].state)| ==>
               (c.Succ(s.base.work[j].state)[l].to == s.base.work[j].state <==> l == loop)
    ensures s.base.work[j].index in s.base.recs
    ensures var es, m := c.Succ(s.base.work[j].state), PStep(c, s, j, power).base;
            && Exit(es) > 0.0 && es[k].to in m.ids && m.ids[es[k].to] in m.recs
            && m.recs[m.ids[es[k].to]].pi
               == HeldBefore(s.base, es[k].to) + Portion(s.base.recs[s.base.work[j].index].pi, es, loop, k)
  {
    hide PStep, Expand, PInv, Ready, Portion;
    PRoundExpands(c, s, j, power);
    ExpandShares(c, PopAt(s.base, j), s.base.work[j], loop, k);
  }

  // ----- All rounds ---------------------------------------------------------------------------------------------

  // Whether the entry at position j is expanded when it is on top of the queue
  predicate ExpandsAt(c: Config, s: PState, j: nat) {
    && j < |s.base.work|
    && (c.refine ==> c.problem.Live(s.base.work[j].state))
    && c.Succ(s.base.work[j].state) != []
  }

  /** How many of these choices lead to an expansion. */
  function Expansions(c: Config, picks: seq<nat>, power: nat -> real): nat
    requires c.problem.src.WellFormed()
  {
    if picks == [] then 0
    else
      var rest := picks[..|picks| - 1];
      Expansions(c, rest, power) + (if ExpandsAt(c, Built(c, rest, power), picks[|picks| - 1]) then 1 else 0)
  }

  lemma PStepCounts(c: Config, s: PState, j: nat, power: nat -> real)
    requires PInv(c, s) && j < |s.base.work|
    ensures s.base.work[j].index in s.base.recs
    ensures var r := PStep(c, s, j, power);
            if ExpandsAt(c, s, j) then r.explored == s.explored + 1 && r.windowPower == power(s.explored)
            else r.explored == s.explored && r.windowPower == s.windowPower
  {
    hide PStep, PInv, Expansion, Visits;
    PrimedIndex(c, s, j);
    if ExpandsAt(c, s, j) {
      PExpandedRound(c, s, j, power);
    } else if Open(c, s.base.work[j].state) {
      PDeadlockRound(c, s, j, power);
    } else {
      PDecidedRound(c, s, j, power);
    }
  }

  /** The counter of explored states is the number of expansions, and windowPower is that of the count
      before the last of them. */
  lemma {:induction false} BuiltCounts(c: Config, picks: seq<nat>, power: nat -> real)
    requires c.problem.src.WellFormed()
    ensures var s, e := Built(c, picks, power), Expansions(c, picks, power);
            s.explored == e && s.windowPower == if e == 0 then 0.0 else power(e - 1)
  {
    hide PStep, PInv, Drift, Start, ExpandsAt;
    PStartKeeps(c);
    if picks != [] {
      var rest, j := picks[..|picks| - 1], picks[|picks| - 1];
      BuiltCounts(c, rest, power);
      var m := Built(c, rest, power);
      if j < |m.base.work| {
        PStepCounts(c, m, j, power);
      } else {
        assert !ExpandsAt(c, m, j) by {
          NothingAt(c, m, j);
        }
      }
    }
  }

  lemma NothingAt(c: Config, s: PState, j: nat)
    requires j >= |s.base.work|
    ensures !ExpandsAt(c, s, j)
  {
  }

  lemma PStepKeepsDeadlocks(c: Config, s: PState, j: nat, power: nat -> real)
    requires PInv(c, s) && j < |s.base.work| && DeadlocksListed(s.base)
    ensures s.base.work[j].index in s.base.recs
    ensures DeadlocksListed(PStep(c, s, j, power).base)
  {
    hide PStep, PInv, Expand, Ready;
    PrimedIndex(c, s, j);
    if !Open(c, s.base.work[j].state) {
      PDecidedRound(c, s, j, power);
    } else if c.Succ(s.base.work[j].state) == [] {
      PDeadlockRound(c, s, j, power);
    } else {
      PRoundExpands(c, s, j, power);
      ExpandKeepsDeadlocks(c, PopAt(s.base, j), s.base.work[j]);
    }
  }

  lemma {:induction false} PRunKeepsDeadlocks(c: Config, s: PState, picks: seq<nat>, power: nat -> real)
    requires PInv(c, s) && DeadlocksListed(s.base)
    ensures DeadlocksListed(PRun(c, s, picks, power).base)
  {
    hide PStep, PInv, Drift, DeadlocksListed;
    if picks != [] {
      var m, j := PRun(c, s, picks[..|picks| - 1], power), picks[|picks| - 1];
      PRunKeepsDeadlocks(c, s, picks[..|picks| - 1], power);
      if j < |m.base.work| {
        PStepKeeps(c, m, j, power);
        PStepKeepsDeadlocks(c, m, j, power);
      }
    }
  }

  /** After any rounds the list of deadlocks holds index 0 and the states found to be deadlocks. */
  lemma BuiltListsDeadlocks(c: Config, picks: seq<nat>, power: nat -> real)
    requires c.problem.src.WellFormed()
    ensures DeadlocksListed(Built(c, picks, power).base)
  {
    hide PRun, DeadlocksListed;
    PStartKeeps(c);
    StartListsDeadlocks(c, 0.0, c.problem.src.initial);
    PRunKeepsDeadlocks(c, PStart(c), picks, power);
  }
}
