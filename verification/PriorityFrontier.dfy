/** Whole runs of the priority builder: piHat against the probability that waits in the queue. */
module PriorityFrontier {
  import opened SourceChain
  import opened TruncatedModel
  import opened Exploration
  import opened Invariant
  import opened Iterations
  import opened Accounting
  import opened Runs
  import opened Termination
  import opened PriorityExploration

  // ----- Before the loop ---------------------------------------------------------------------------------

  lemma StartQueue(c: Config)
    requires c.problem.src.WellFormed()
    ensures QueueFits(Start(c, 0.0))
    ensures forall i: nat :: i in Start(c, 0.0).recs ==> Queued(Start(c, 0.0), i)
  {
    var states, n := c.problem.src.initial, Start(c, 0.0);
    RegisterInitialsShape(c, 0.0, states);
    NewIndexUnused(c, 0.0, states);
    StartRecords(c, 0.0, states);
    assert n.work == InitialWork(states);
    hide Start;
    InitialDistinct(states);
    forall i: nat | i in n.recs ensures Queued(n, i) {
      assert n.work[i - 1].index == i;
    }
  }

  lemma {:induction false} AllTerminalMass(recs: map<nat, Record>, size: nat)
    requires forall i: nat :: i in recs ==> recs[i].terminal
    ensures Total(TerminalMass, recs, size) == Total(Mass, recs, size)
  {
    if size > 0 {
      AllTerminalMass(recs, size - 1);
    }
  }

  lemma {:induction false} NothingHeld(size: nat)
    ensures HeldSum(map[], size) == 0.0
  {
    if size > 0 {
      NothingHeld(size - 1);
    }
  }

  /** piHat begins as 1, whereas every initial state holds 1. */
  lemma PStartKeeps(c: Config)
    requires c.problem.src.WellFormed()
    ensures PInv(c, PStart(c))
    ensures Drift(PStart(c)) == 1.0 - |c.problem.src.initial| as real
  {
    hide Inv, Charged, QueueFits, Queued, Start, Sum;
    var n := Start(c, 0.0);
    StartValid(c, 0.0);
    StartIs(c);
    StartQueue(c);
    StartSums(c, 0.0, c.problem.src.initial);
    AllTerminalMass(n.recs, |n.ids|);
    NothingHeld(|n.ids|);
    SumsAreTotals(n);
  }

  lemma StartIs(c: Config)
    ensures var n := Start(c, 0.0);
            && n == RegisterInitials(Fresh(c, 0.0), c.problem.src.initial)
            && n.perimeter == [] && n.iteration == 0
            && forall i: nat :: i in n.recs ==> n.recs[i].terminal && n.recs[i].lastSeen == 0
  {
    StartRecords(c, 0.0, c.problem.src.initial);
  }

  lemma SumsAreTotals(n: Snapshot)
    ensures Sum(Mass, n) == Total(Mass, n.recs, |n.ids|) && Sum(TerminalMass, n) == Total(TerminalMass, n.recs, |n.ids|)
  {
  }

  // ----- Runs ----------------------------------------------------------------------------------------------

  /** The builder after the entries at these positions of the queue were on top in turn; a position
      behind the end of the queue stands for no round. */
  function PRun(c: Config, s: PState, picks: seq<nat>, power: nat -> real): (r: PState)
    requires PInv(c, s)
    ensures PInv(c, r) && Drift(r) == Drift(s)
  {
    if picks == [] then s
    else
      var m, j := PRun(c, s, picks[..|picks| - 1], power), picks[|picks| - 1];
      if j < |m.base.work| then
        PStepKeeps(c, m, j, power);
        PStep(c, m, j, power)
      else m
  }

  /** The priority builder after its loop made these choices. */
  function Built(c: Config, picks: seq<nat>, power: nat -> real): PState
    requires c.problem.src.WellFormed()
  {
    PStartKeeps(c);
    PRun(c, PStart(c), picks, power)
  }

  /** Priority accounting.  Whatever the order, piHat is the probability of the terminal states less
      what the settled ones held when they were popped, if and only if there is exactly one initial
      state; each further initial state makes it one too small. */
  lemma PiHatAccounts(c: Config, picks: seq<nat>, power: nat -> real)
    requires c.problem.src.WellFormed()
    ensures var r := Built(c, picks, power);
            && r.piHat
               == Sum(TerminalMass, r.base) - HeldSum(r.held, |r.base.ids|) + 1.0 - |c.problem.src.initial| as real
            && (r.piHat == Sum(TerminalMass, r.base) - HeldSum(r.held, |r.base.ids|) <==> |c.problem.src.initial| == 1)
  {
    hide PRun, PStart, PInv, Sum, HeldSum;
    PStartKeeps(c);
  }

  // ----- The frontier ------------------------------------------------------------------------------------------

  /** The probability held by the queued states. */
  function QueueMass(recs: map<nat, Record>, work: seq<Entry>): real {
    if work == [] then 0.0
    else
      var i := work[|work| - 1].index;
      QueueMass(recs, work[..|work| - 1]) + (if i in recs then recs[i].pi else 0.0)
  }

  /** What the settled states received after they were popped. */
  function Late(recs: map<nat, Record>, held: map<nat, real>, size: nat): real {
    if size == 0 then 0.0
    else
      Late(recs, held, size - 1)
      + (if size - 1 in held && size - 1 in recs then recs[size - 1].pi - held[size - 1] else 0.0)
  }

  lemma {:induction false} LateNonNegative(recs: map<nat, Record>, held: map<nat, real>, size: nat)
    requires forall i: nat :: i in held && i in recs ==> held[i] <= recs[i].pi
    ensures Late(recs, held, size) >= 0.0
  {
    if size > 0 {
      LateNonNegative(recs, held, size - 1);
    }
  }

  lemma {:induction false} LateElsewhere(recs: map<nat, Record>, held: map<nat, real>, size: nat, i: nat, r: Record)
    requires i !in held
    ensures Late(recs[i := r], held, size) == Late(recs, held, size)
  {
    if size > 0 {
      LateElsewhere(recs, held, size - 1, i, r);
    }
  }

  lemma {:induction false} QueueMassElsewhere(recs: map<nat, Record>, work: seq<Entry>, i: nat, r: Record)
    requires forall k :: 0 <= k < |work| ==> work[k].index != i
    ensures QueueMass(recs[i := r], work) == QueueMass(recs, work)
  {
    if work != [] {
      QueueMassElsewhere(recs, work[..|work| - 1], i, r);
    }
  }

  ghost predicate Holder(recs: map<nat, Record>, held: map<nat, real>, i: nat) {
    i in held ==> i in recs && recs[i].terminal
  }

  // A state that is neither queued nor settled holds nothing that counts
  ghost predicate Idle(recs: map<nat, Record>, work: seq<Entry>, held: map<nat, real>, i: nat) {
    i in recs && recs[i].terminal && i !in held && (forall k :: 0 <= k < |work| ==> work[k].index != i) ==>
      recs[i].pi == 0.0
  }

  lemma {:induction false} SettledOnly(recs: map<nat, Record>, held: map<nat, real>, size: nat)
    requires forall i: nat :: Holder(recs, held, i) && Idle(recs, [], held, i)
    ensures Total(TerminalMass, recs, size) - HeldSum(held, size) == Late(recs, held, size)
  {
    if size > 0 {
      SettledOnly(recs, held, size - 1);
      assert Holder(recs, held, size - 1) && Idle(recs, [], held, size - 1);
    }
  }

  /** Terminal probability is that of the queue and that of the settled states. */
  lemma {:induction false} QueueAndSettled(recs: map<nat, Record>, work: seq<Entry>, held: map<nat, real>, size: nat)
    requires forall j, k :: 0 <= j < k < |work| ==> work[j].index != work[k].index
    requires forall k :: 0 <= k < |work| ==>
               work[k].index in recs && recs[work[k].index].terminal && work[k].index !in held && work[k].index < size
    requires forall i: nat :: Holder(recs, held, i) && Idle(recs, work, held, i)
    ensures Total(TerminalMass, recs, size) - HeldSum(held, size) == QueueMass(recs, work) + Late(recs, held, size)
    decreases |work|
  {
    if work == [] {
      SettledOnly(recs, held, size);
    } else {
      var rest, i := work[..|work| - 1], work[|work| - 1].index;
      assert work[|work| - 1].index in recs;
      var r := recs[i].(pi := 0.0);
      var recs' := recs[i := r];
      forall t: nat ensures Holder(recs', held, t) && Idle(recs', rest, held, t) {
        assert Holder(recs, held, t) && Idle(recs, work, held, t);
      }
      QueueAndSettled(recs', rest, held, size);
      QueueMassElsewhere(recs, rest, i, r);
      LateElsewhere(recs, held, size, i, r);
      TotalUpdate(TerminalMass, recs, i, r, size);
    }
  }

  lemma TerminalIsQueuedOrHeld(c: Config, s: PState)
    requires PInv(c, s)
    ensures Sum(TerminalMass, s.base) - HeldSum(s.held, |s.base.ids|)
            == QueueMass(s.base.recs, s.base.work) + Late(s.base.recs, s.held, |s.base.ids|)
    ensures Late(s.base.recs, s.held, |s.base.ids|) >= 0.0
  {
    var recs, work := s.base.recs, s.base.work;
    forall k | 0 <= k < |work|
      ensures work[k].index in recs && recs[work[k].index].terminal && work[k].index !in s.held
              && work[k].index < |s.base.ids|
    {
      assert Unpopped(s.base, work[k]) && Queued(s.base, work[k].index);
    }
    forall i: nat ensures Holder(recs, s.held, i) && Idle(recs, work, s.held, i) {
      assert Queued(s.base, i) ==> exists k :: 0 <= k < |work| && work[k].index == i;
    }
    QueueAndSettled(recs, work, s.held, |s.base.ids|);
    LateNonNegative(recs, s.held, |s.base.ids|);
  }

  /** Priority frontier bound.  In every order, piHat is the probability that waits in the queue and
      whatever reached settled states after they were popped, less one for each initial state after
      the first.  With one initial state the queue never holds more than piHat. */
  lemma PiHatCoversFrontier(c: Config, picks: seq<nat>, power: nat -> real)
    requires c.problem.src.WellFormed()
    ensures var r := Built(c, picks, power);
            && r.piHat + (|c.problem.src.initial| - 1) as real
               == QueueMass(r.base.recs, r.base.work) + Late(r.base.recs, r.held, |r.base.ids|)
            && Late(r.base.recs, r.held, |r.base.ids|) >= 0.0
            && (|c.problem.src.initial| == 1 ==> QueueMass(r.base.recs, r.base.work) <= r.piHat)
  {
    hide PRun, PStart, PInv, Sum, HeldSum, Late, QueueMass;
    PStartKeeps(c);
    PiHatAccounts(c, picks, power);
    TerminalIsQueuedOrHeld(c, Built(c, picks, power));
  }

  /** When the loop is left, the states it leaves unexplored hold at most windowPower divided by the
      approximation factor, and one more for each initial state after the first; nothing if the
      queue is empty. */
  lemma FrontierIsSmall(c: Config, picks: seq<nat>, power: nat -> real, approx: real)
    requires c.problem.src.WellFormed() && approx > 0.0
    requires var r := Built(c, picks, power); r.base.work == [] || r.piHat <= r.windowPower / approx
    ensures var r := Built(c, picks, power);
            QueueMass(r.base.recs, r.base.work)
            <= (if r.base.work == [] then 0.0 else r.windowPower / approx + (|c.problem.src.initial| - 1) as real)
  {
    hide Built;
    PiHatCoversFrontier(c, picks, power);
  }

  // ----- The loop ends -------------------------------------------------------------------------------------------

  /** A round takes one entry from the queue, and adds one for every state that is registered in it. */
  lemma PStepPops(c: Config, s: PState, j: nat, power: nat -> real)
    requires PInv(c, s) && j < |s.base.work|
    ensures s.base.work[j].index in s.base.recs
    ensures var r := PStep(c, s, j, power);
            |r.base.ids| - |r.base.work| == |s.base.ids| - |s.base.work| + 1
  {
    hide PInv, PDistribute, Popped, Spread, PRegisterAll, PPropagateAll;
    PrimedIndex(c, s, j);
    var e, m := s.base.work[j], PopAt(s.base, j);
    if !c.Stops(e.state) && c.Succ(e.state) != [] {
      ExpansionPops(c, s, j);
      PExpandIs(c, s.(base := m), e, power);
      PoppedGrows(c, s, j, PDistribute(c, s.(base := m), e));
    } else if !c.Stops(e.state) {
      PExpandOfNothing(c, s.(base := m), e, power);
    }
  }

  lemma PoppedGrows(c: Config, s: PState, j: nat, p: PState)
    requires j < |s.base.work| && Popped(c, s, j, p)
    ensures |p.base.ids| - |p.base.work| == |s.base.ids| - |s.base.work| + 1
    ensures s.base.work[j].index in p.base.recs
  {
  }

  /** The number of rounds that these choices stand for. */
  function Rounds(c: Config, s: PState, picks: seq<nat>, power: nat -> real): nat
    requires PInv(c, s)
  {
    if picks == [] then 0
    else
      var rest := picks[..|picks| - 1];
      Rounds(c, s, rest, power) + (if picks[|picks| - 1] < |PRun(c, s, rest, power).base.work| then 1 else 0)
  }

  lemma {:induction false} PRunPops(c: Config, s: PState, picks: seq<nat>, power: nat -> real)
    requires PInv(c, s)
    ensures var r := PRun(c, s, picks, power);
            |r.base.ids| - |r.base.work| == |s.base.ids| - |s.base.work| + Rounds(c, s, picks, power)
  {
    hide PInv, PStep;
    if picks != [] {
      var m, j := PRun(c, s, picks[..|picks| - 1], power), picks[|picks| - 1];
      PRunPops(c, s, picks[..|picks| - 1], power);
      if j < |m.base.work| {
        PStepPops(c, m, j, power);
      }
    }
  }

  lemma PStepStaysIn(c: Config, s: PState, j: nat, power: nat -> real, states: set<CompressedState>)
    requires PInv(c, s) && j < |s.base.work| && Encloses(c, states) && KnownIn(c, s.base, states)
    ensures s.base.work[j].index in s.base.recs
    ensures KnownIn(c, PStep(c, s, j, power).base, states)
  {
    var e, m := s.base.work[j], PopAt(s.base, j);
    assert EntryOk(s.base, e) && Known(c.problem, s.base.ids, e.state) && AllIn(c.Succ(e.state), states);
    if !c.Stops(e.state) && c.Succ(e.state) != [] {
      PoppedIsReady(c, s, j);
      PExpandIs(c, s.(base := m), e, power);
      PDistributeIsDistribute(c, s.(base := m), e);
      RegisterAllNewStates(Unflagged(m, e.index), e.index, c.Succ(e.state));
    }
  }

  lemma {:induction false} PRunStaysIn(c: Config, s: PState, picks: seq<nat>, power: nat -> real,
                                       states: set<CompressedState>)
    requires PInv(c, s) && Encloses(c, states) && KnownIn(c, s.base, states)
    ensures KnownIn(c, PRun(c, s, picks, power).base, states)
  {
    hide PInv, PStep, KnownIn, Encloses;
    if picks != [] {
      var m, j := PRun(c, s, picks[..|picks| - 1], power), picks[|picks| - 1];
      PRunStaysIn(c, s, picks[..|picks| - 1], power, states);
      if j < |m.base.work| {
        PStepStaysIn(c, m, j, power, states);
      }
    }
  }

  // Each of these choices stands for a round
  ghost predicate EachIsARound(c: Config, picks: seq<nat>, power: nat -> real)
    requires c.problem.src.WellFormed()
  {
    forall k :: 0 <= k < |picks| ==> picks[k] < |Built(c, picks[..k], power).base.work|
  }

  lemma {:induction false} RoundsOfEach(c: Config, picks: seq<nat>, power: nat -> real)
    requires c.problem.src.WellFormed() && EachIsARound(c, picks, power)
    ensures PInv(c, PStart(c)) && Rounds(c, PStart(c), picks, power) == |picks|
  {
    hide PInv, PRun;
    PStartKeeps(c);
    if picks != [] {
      var rest := picks[..|picks| - 1];
      forall k | 0 <= k < |rest| ensures rest[k] < |Built(c, rest[..k], power).base.work| {
        assert rest[..k] == picks[..k];
      }
      RoundsOfEach(c, rest, power);
      assert picks[|picks| - 1] < |Built(c, rest, power).base.work|;
    }
  }

  /** As many rounds as there are reachable states empty the queue. */
  lemma EnoughRoundsFinish(c: Config, picks: seq<nat>, power: nat -> real, states: set<CompressedState>)
    requires c.problem.src.WellFormed() && EachIsARound(c, picks, power)
    requires Encloses(c, states) && |picks| >= |states|
    ensures Built(c, picks, power).base.work == []
  {
    hide PInv, Built, Rounds, EachIsARound, Encloses;
    RoundsOfEach(c, picks, power);
    EachStateIsPoppedOnce(c, picks, power, states);
  }

  /** No state is popped twice: after any number of rounds the states that were popped and those
      that are queued are all that are registered.  So with finitely many reachable states the loop
      ends after at most as many rounds, whatever the order and the window. */
  lemma EachStateIsPoppedOnce(c: Config, picks: seq<nat>, power: nat -> real, states: set<CompressedState>)
    requires c.problem.src.WellFormed()
    ensures PInv(c, PStart(c))
    ensures Rounds(c, PStart(c), picks, power) + |Built(c, picks, power).base.work|
            == |Built(c, picks, power).base.ids| - 1
    ensures Encloses(c, states) ==> Rounds(c, PStart(c), picks, power) + |Built(c, picks, power).base.work| <= |states|
  {
    hide PInv, PRun;
    PStartKeeps(c);
    PStartSizes(c);
    PRunPops(c, PStart(c), picks, power);
    if Encloses(c, states) {
      PStartIsIn(c, states);
      PRunStaysIn(c, PStart(c), picks, power, states);
      KnownFit(c, Built(c, picks, power).base, states);
    }
  }

  lemma PStartSizes(c: Config)
    requires c.problem.src.WellFormed()
    ensures |PStart(c).base.ids| - |PStart(c).base.work| == 1
  {
    StartSums(c, 0.0, c.problem.src.initial);
    RegisterInitialsShape(c, 0.0, c.problem.src.initial);
  }

  lemma PStartIsIn(c: Config, states: set<CompressedState>)
    requires Encloses(c, states)
    ensures KnownIn(c, PStart(c).base, states)
  {
    RegisterInitialsKnown(c, 0.0, c.problem.src.initial);
  }
}
