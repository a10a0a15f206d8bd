/** What is explored: with property refinement, every registered state can be reached from an initial
    one through registered states that leave the property undecided, and no state that decides it is
    ever expanded. */
module Reachability {
  import opened SourceChain
  import opened TruncatedModel
  import opened Exploration
  import opened Invariant
  import opened Iterations
  import opened Runs
  import opened ReExploring
  import opened PriorityExploration
  import opened PriorityFrontier

  // The exploration may go on from this state
  predicate Open(c: Config, s: CompressedState) {
    c.refine ==> c.problem.Live(s)
  }

  /** The registered states form a path from an initial state along transitions, and the exploration
      may go on from each of them but the last. */
  ghost predicate Path(c: Config, ids: Numbering, path: seq<CompressedState>) {
    && path != [] && path[0] in c.problem.src.initial
    && (forall j :: 0 <= j < |path| ==> Known(c.problem, ids, path[j]))
    && (forall j :: 0 <= j < |path| - 1 ==> Open(c, path[j]) && HasEdge(c, path[j], path[j + 1]))
  }

  ghost predicate PathTo(c: Config, ids: Numbering, path: seq<CompressedState>, s: CompressedState) {
    Path(c, ids, path) && path[|path| - 1] == s
  }

  ghost predicate Reached(c: Config, ids: Numbering) {
    forall s :: Known(c.problem, ids, s) ==> exists path :: PathTo(c, ids, path, s)
  }

  /** A path that gets to a state ends with a transition from a registered state that is open. */
  lemma LastTransition(c: Config, ids: Numbering, s: CompressedState) returns (t: CompressedState)
    requires Reached(c, ids) && Known(c.problem, ids, s) && s !in c.problem.src.initial
    ensures Known(c.problem, ids, t) && Open(c, t) && HasEdge(c, t, s)
  {
    var path :| PathTo(c, ids, path, s);
    assert |path| > 1;
    t := path[|path| - 2];
    assert path[|path| - 2 + 1] == s;
  }

  lemma PathStays(c: Config, a: Numbering, b: Numbering, path: seq<CompressedState>)
    requires SubNumbering(a, b) && Path(c, a, path)
    ensures Path(c, b, path)
  {
    forall j | 0 <= j < |path| ensures Known(c.problem, b, path[j]) {
      assert Known(c.problem, a, path[j]);
    }
  }

  lemma PathExtends(c: Config, a: Numbering, b: Numbering, s: CompressedState, t: CompressedState)
    requires Reached(c, a) && SubNumbering(a, b) && Known(c.problem, a, s) && Open(c, s) && HasEdge(c, s, t)
    requires Known(c.problem, b, t)
    ensures exists path :: PathTo(c, b, path, t)
  {
    var path :| PathTo(c, a, path, s);
    PathStays(c, a, b, path);
    var longer := path + [t];
    forall j | 0 <= j < |longer| ensures Known(c.problem, b, longer[j]) {
      assert j < |path| ==> longer[j] == path[j];
    }
    forall j | 0 <= j < |longer| - 1 ensures Open(c, longer[j]) && HasEdge(c, longer[j], longer[j + 1]) {
      if j < |path| - 1 {
        assert longer[j] == path[j] && longer[j + 1] == path[j + 1];
      }
    }
    assert PathTo(c, b, longer, t);
  }

  /** A round that registers nothing but successors of an open registered state. */
  lemma SuccessorsReached(c: Config, a: Numbering, b: Numbering, s: CompressedState)
    requires Reached(c, a) && SubNumbering(a, b) && Known(c.problem, a, s) && Open(c, s)
    requires forall t :: Known(c.problem, b, t) ==> t in a || HasEdge(c, s, t)
    ensures Reached(c, b)
  {
    forall t | Known(c.problem, b, t) ensures exists path :: PathTo(c, b, path, t) {
      if t in a {
        assert Known(c.problem, a, t);
        var path :| PathTo(c, a, path, t);
        PathStays(c, a, b, path);
        assert PathTo(c, b, path, t);
      } else {
        PathExtends(c, a, b, s, t);
      }
    }
  }

  // ----- The iterative builder --------------------------------------------------------------------------------

  lemma CallBackRegisters(c: Config, n: Snapshot, e: Entry, t: CompressedState)
    requires e.index in n.recs && t in CallBack(c, n, e).ids
    ensures t in n.ids || HasEdge(c, e.state, t)
  {
    RegisterAllNewStates(Unflagged(n, e.index), e.index, c.Succ(e.state));
  }

  lemma StepRegisters(c: Config, n: Snapshot, t: CompressedState)
    requires Valid(c, n) && n.work != [] && n.work[0].index in n.recs && t in Step(c, n).ids
    ensures t in n.ids || (Open(c, n.work[0].state) && HasEdge(c, n.work[0].state, t))
  {
    hide CallBack, HasEdge, Valid;
    var e, m := n.work[0], Pop(n);
    if t !in n.ids {
      assert t in CallBack(c, m, e).ids;
      CallBackRegisters(c, m, e, t);
    }
  }

  lemma StepKeepsReached(c: Config, n: Snapshot)
    requires Valid(c, n) && n.work != [] && Reached(c, n.ids)
    ensures EntryOk(n, n.work[0]) && Reached(c, Step(c, n).ids)
  {
    hide Step, Valid, HasEdge, Reached;
    FrontIsReady(c, n);
    FrontIsKnown(c, n);
    StepGrows(c, n);
    var s, b := n.work[0].state, Step(c, n).ids;
    forall t | t in b ensures t in n.ids || (Open(c, s) && HasEdge(c, s, t)) {
      StepRegisters(c, n, t);
    }
    if Open(c, s) {
      SuccessorsReached(c, n.ids, b, s);
    } else {
      assert b == n.ids by {
        SameKeys(n.ids, b);
      }
    }
  }

  lemma SameKeys(a: Numbering, b: Numbering)
    requires SubNumbering(a, b) && forall t :: t in b ==> t in a
    ensures a == b
  {
  }

  lemma FrontIsKnown(c: Config, n: Snapshot)
    requires Valid(c, n) && n.work != []
    ensures Known(c.problem, n.ids, n.work[0].state)
  {
    assert EntryOk(n, n.work[0]);
  }

  lemma {:induction false} RunKeepsReached(c: Config, n: Snapshot, rounds: nat)
    requires Valid(c, n) && Reached(c, n.ids)
    ensures Reached(c, Run(c, n, rounds).ids)
    decreases rounds
  {
    hide Step, Reached, Valid;
    if rounds != 0 && n.work != [] {
      FrontIsReady(c, n);
      StepKeepsValid(c, n);
      StepKeepsReached(c, n);
      RunKeepsReached(c, Step(c, n), rounds - 1);
    }
  }

  lemma StartReached(c: Config, kappa: real)
    requires c.problem.src.WellFormed()
    ensures Reached(c, Start(c, kappa).ids)
  {
    RegisterInitialsKnown(c, kappa, c.problem.src.initial);
    forall s | Known(c.problem, Start(c, kappa).ids, s) ensures exists path :: PathTo(c, Start(c, kappa).ids, path, s) {
      assert PathTo(c, Start(c, kappa).ids, [s], s);
    }
  }

  // With property refinement no state that decides the property was ever expanded
  ghost predicate DecidedUnexpanded(c: Config, n: Snapshot) {
    c.refine ==> forall s :: Known(c.problem, n.ids, s) && !c.problem.Live(s) ==>
                   n.ids[s] in n.recs && n.recs[n.ids[s]].terminal
  }

  lemma InvKeepsDecided(c: Config, n: Snapshot)
    requires Inv(c, n, 0)
    ensures DecidedUnexpanded(c, n)
  {
    forall s | c.refine && Known(c.problem, n.ids, s) && !c.problem.Live(s)
      ensures n.ids[s] in n.recs && n.recs[n.ids[s]].terminal
    {
      assert StateOk(c, n, Entry(n.ids[s], s), 0);
    }
  }

  lemma ValidKeepsDecided(c: Config, n: Snapshot)
    requires Valid(c, n)
    ensures DecidedUnexpanded(c, n)
  {
    InvKeepsDecided(c, n);
  }

  /** At every point of an inner iteration (rounds may break it off) every registered state is reached
      through open registered states, and no state that decides the property was expanded. */
  lemma {:induction false} IterationReached(c: Config, kappa: real, reduceKappa: real, rounds: nat, k: nat)
    requires c.problem.src.WellFormed() && kappa >= 0.0 && reduceKappa >= 1.0
    ensures Reached(c, Iteration(c, kappa, reduceKappa, rounds, k).ids)
    ensures DecidedUnexpanded(c, Iteration(c, kappa, reduceKappa, rounds, k))
  {
    hide Run, Restart, Reached, Valid, DecidedUnexpanded;
    ValidKeepsDecided(c, Iteration(c, kappa, reduceKappa, rounds, k));
    if k == 0 {
      StartValid(c, kappa);
      StartReached(c, kappa);
      RunKeepsReached(c, Start(c, kappa), rounds);
    } else {
      var n := Iteration(c, kappa, reduceKappa, rounds, k - 1);
      IterationReached(c, kappa, reduceKappa, rounds, k - 1);
      RestartKeepsValid(c, n, reduceKappa);
      RunKeepsReached(c, Restart(c, n, reduceKappa), rounds);
    }
  }

  // ----- The other builders -----------------------------------------------------------------------------------

  /** Neither does the re-exploring builder register or expand anything else. */
  lemma {:induction false} ReIterationReached(c: Config, kappa: real, reduceKappa: real, rounds: nat, k: nat)
    requires c.problem.src.WellFormed() && kappa >= 0.0 && reduceKappa >= 1.0
    ensures Reached(c, ReIteration(c, kappa, reduceKappa, rounds, k).ids)
    ensures DecidedUnexpanded(c, ReIteration(c, kappa, reduceKappa, rounds, k))
  {
    hide Run, Reopen, Reached, Valid, DecidedUnexpanded, KnowsInitials, Exploring;
    ValidKeepsDecided(c, ReIteration(c, kappa, reduceKappa, rounds, k));
    if k == 0 {
      StartValid(c, kappa);
      StartReached(c, kappa);
      RunKeepsReached(c, Start(c, kappa), rounds);
    } else {
      var n := ReIteration(c, kappa, reduceKappa, rounds, k - 1);
      ReIterationReached(c, kappa, reduceKappa, rounds, k - 1);
      if n.work == [] {
        ReopenStarts(c, n, reduceKappa);
        ReopenNumbering(c, n, reduceKappa);
        RunKeepsReached(c, Reopen(c, n, reduceKappa), rounds);
      }
    }
  }

  lemma ReopenNumbering(c: Config, n: Snapshot, reduceKappa: real)
    requires Valid(c, n) && KnowsInitials(c, n) && reduceKappa >= 1.0
    ensures Reopen(c, n, reduceKappa).ids == n.ids
  {
  }

  lemma PExpandNumbering(c: Config, s: PState, e: Entry, power: nat -> real)
    requires c.problem.src.WellFormed() && e.index in s.base.recs
    ensures PExpand(c, s, e, power).base.ids == PRegisterAll(s.base, e.index, c.Succ(e.state)).ids
  {
  }

  lemma PStepRegisters(c: Config, s: PState, j: nat, power: nat -> real)
    requires PInv(c, s) && j < |s.base.work| && Reached(c, s.base.ids)
    ensures Reached(c, PStep(c, s, j, power).base.ids)
  {
    hide PExpand, HasEdge, Ready, Reached;
    PoppedIsReady(c, s, j);
    var e, m, es := s.base.work[j], PopAt(s.base, j), c.Succ(s.base.work[j].state);
    if Open(c, e.state) {
      PExpandNumbering(c, s.(base := m), e, power);
      PRegisterAllIsRegisterAll(m, e.index, es);
      RegisterAllGrows(m, e.index, es);
      var b := RegisterAll(m, e.index, es).ids;
      forall t | t in b ensures t in m.ids || HasEdge(c, e.state, t) {
        CallBackRegisters(c, m, e, t);
      }
      assert Known(c.problem, m.ids, e.state);
      SuccessorsReached(c, m.ids, b, e.state);
    }
  }

  lemma {:induction false} PRunReached(c: Config, s: PState, picks: seq<nat>, power: nat -> real)
    requires PInv(c, s) && Reached(c, s.base.ids)
    ensures Reached(c, PRun(c, s, picks, power).base.ids)
  {
    hide PStep, PInv, Drift, Reached;
    if picks != [] {
      var m, j := PRun(c, s, picks[..|picks| - 1], power), picks[|picks| - 1];
      PRunReached(c, s, picks[..|picks| - 1], power);
      if j < |m.base.work| {
        PStepKeeps(c, m, j, power);
        PStepRegisters(c, m, j, power);
      }
    }
  }

  /** Nor the priority builder, in whatever order it takes the states. */
  lemma BuiltReached(c: Config, picks: seq<nat>, power: nat -> real)
    requires c.problem.src.WellFormed()
    ensures Reached(c, Built(c, picks, power).base.ids)
    ensures DecidedUnexpanded(c, Built(c, picks, power).base)
  {
    hide PRun, Reached, DecidedUnexpanded;
    PStartKeeps(c);
    StartReached(c, 0.0);
    PRunReached(c, PStart(c), picks, power);
    PInvKeepsDecided(c, Built(c, picks, power));
  }

  lemma PInvKeepsDecided(c: Config, s: PState)
    requires PInv(c, s)
    ensures DecidedUnexpanded(c, s.base)
  {
    InvKeepsDecided(c, s.base);
  }
}
