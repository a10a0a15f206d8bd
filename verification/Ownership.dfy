/** The protocol by which exploration threads claim states: a check without the lock, and if that
    finds no owner, the lock, a second check, and the claim.  The threads are interleaved step by
    step in every possible way. */
module Ownership {
  import opened Outcomes
  import opened SourceChain

  datatype Call = Request(state: CompressedState) | Ask(state: CompressedState)

  /** Where a thread is: outside, or about to take the named step of requestOwnership or whoOwns. */
  datatype Place =
    | Outside
    | FastCheck(state: CompressedState)
    | FastRead(state: CompressedState)
    | AwaitLock(state: CompressedState)
    | Recheck(state: CompressedState)
    | LockedRead(state: CompressedState)
    | Claim(state: CompressedState)
    | Unlock(state: CompressedState, owner: nat)
    | AskCheck(state: CompressedState)
    | AskRead(state: CompressedState)
  {
    // The steps between taking and releasing the lock
    predicate Locked() {
      Recheck? || LockedRead? || Claim? || Unlock?
    }
  }

  // That a thread was told who owns a state, 0 standing for nobody
  datatype Answer = Answer(thread: nat, call: Call, owner: nat)

  datatype World = World(
    owners: map<CompressedState, nat>,           // stateThreadMap
    lock: Option<nat>,                           // ownershipMutex
    places: map<nat, Place>,
    answers: seq<Answer>,
    written: seq<CompressedState>)               // the states whose owner was set, in turn

  function PlaceOf(w: World, t: nat): Place {
    if t in w.places then w.places[t] else Outside
  }

  function Move(w: World, t: nat, p: Place): World {
    w.(places := w.places[t := p])
  }

  function Return(w: World, t: nat, call: Call, owner: nat): World {
    Move(w, t, Outside).(answers := w.answers + [Answer(t, call, owner)])
  }

  // findOrAdd does not replace an owner
  function FindOrAdd(w: World, s: CompressedState, t: nat): World {
    if s in w.owners then w else w.(owners := w.owners[s := t], written := w.written + [s])
  }

  /** One step of thread t, which makes this call next if it is outside. */
  function Step(w: World, t: nat, next: Call): World {
    match PlaceOf(w, t)
    case Outside => Move(w, t, if next.Request? then FastCheck(next.state) else AskCheck(next.state))
    case FastCheck(s) => Move(w, t, if s in w.owners then FastRead(s) else AwaitLock(s))
    case FastRead(s) => Return(w, t, Request(s), if s in w.owners then w.owners[s] else 0)
    case AwaitLock(s) => if w.lock.Some? then w else Move(w.(lock := Some(t)), t, Recheck(s))
    case Recheck(s) => Move(w, t, if s in w.owners then LockedRead(s) else Claim(s))
    case LockedRead(s) => Move(w, t, Unlock(s, if s in w.owners then w.owners[s] else 0))
    case Claim(s) => Move(FindOrAdd(w, s, t), t, Unlock(s, t))
    case Unlock(s, owner) => Return(w.(lock := None), t, Request(s), owner)
    case AskCheck(s) => if s in w.owners then Move(w, t, AskRead(s)) else Return(w, t, Ask(s), 0)
    case AskRead(s) => Return(w, t, Ask(s), if s in w.owners then w.owners[s] else 0)
  }

  datatype Turn = Turn(thread: nat, next: Call)

  /** An interleaving: which thread takes the next step.  Threads are numbered from 1. */
  function Run(turns: seq<Turn>): World {
    if turns == [] then World(map[], None, map[], [], [])
    else Step(Run(turns[..|turns| - 1]), turns[|turns| - 1].thread, turns[|turns| - 1].next)
  }

  ghost predicate Threads(turns: seq<Turn>) {
    forall k :: 0 <= k < |turns| ==> turns[k].thread >= 1
  }

  // ----- The invariant ---------------------------------------------------------------------------------

  // What a thread may rely on where it is
  ghost predicate PlaceOk(w: World, t: nat) {
    && (PlaceOf(w, t).Locked() ==> w.lock == Some(t))
    && match PlaceOf(w, t)
       case FastRead(s) => s in w.owners
       case LockedRead(s) => s in w.owners
       case Claim(s) => s !in w.owners
       case Unlock(s, owner) => s in w.owners && w.owners[s] == owner
       case AskRead(s) => s in w.owners
       case _ => true
  }

  /** A request is answered with the owner, a question with the owner or with 0. */
  ghost predicate AnswerOk(w: World, a: Answer) {
    || (a.call.state in w.owners && w.owners[a.call.state] == a.owner && a.owner != 0)
    || (a.call.Ask? && a.owner == 0)
  }

  ghost predicate Inv(w: World) {
    && (forall s :: s in w.owners ==> w.owners[s] != 0)
    && (forall t :: PlaceOk(w, t))
    && (forall k :: 0 <= k < |w.answers| ==> AnswerOk(w, w.answers[k]))
    && (forall s :: s in w.owners <==> s in w.written)
    && (forall j, k :: 0 <= j < k < |w.written| ==> w.written[j] != w.written[k])
  }

  /** No owner is lost or replaced, and no answer is taken back. */
  ghost predicate Extends(v: World, w: World) {
    && (forall s :: s in v.owners ==> s in w.owners && w.owners[s] == v.owners[s])
    && v.answers <= w.answers && v.written <= w.written
  }

  lemma StepExtends(w: World, t: nat, next: Call)
    ensures Extends(w, Step(w, t, next))
  {
  }

  lemma StepKeepsPlaces(w: World, t: nat, next: Call, u: nat)
    requires Inv(w) && t != 0
    ensures PlaceOk(Step(w, t, next), u)
  {
    assert PlaceOk(w, t) && PlaceOk(w, u);
  }

  lemma StepKeepsAnswers(w: World, t: nat, next: Call, k: nat)
    requires Inv(w) && t != 0 && k < |Step(w, t, next).answers|
    ensures AnswerOk(Step(w, t, next), Step(w, t, next).answers[k])
  {
    assert PlaceOk(w, t);
    if k < |w.answers| {
      assert AnswerOk(w, w.answers[k]);
    }
  }

  lemma StepKeepsOwners(w: World, t: nat, next: Call)
    requires Inv(w) && t != 0
    ensures var m := Step(w, t, next);
            && (forall s :: s in m.owners ==> m.owners[s] != 0)
            && (forall s :: s in m.owners <==> s in m.written)
            && (forall j, k :: 0 <= j < k < |m.written| ==> m.written[j] != m.written[k])
  {
    assert PlaceOk(w, t);
  }

  lemma StepKeepsInv(w: World, t: nat, next: Call)
    requires Inv(w) && t != 0
    ensures Inv(Step(w, t, next))
  {
    hide Step, PlaceOk, AnswerOk;
    var m := Step(w, t, next);
    StepKeepsOwners(w, t, next);
    forall u ensures PlaceOk(m, u) {
      StepKeepsPlaces(w, t, next, u);
    }
    forall k | 0 <= k < |m.answers| ensures AnswerOk(m, m.answers[k]) {
      StepKeepsAnswers(w, t, next, k);
    }
  }

  lemma {:induction false} RunKeepsInv(turns: seq<Turn>)
    requires Threads(turns)
    ensures Inv(Run(turns))
  {
    hide Step, Inv;
    if turns == [] {
      NobodyIsInside();
    } else {
      RunKeepsInv(turns[..|turns| - 1]);
      StepKeepsInv(Run(turns[..|turns| - 1]), turns[|turns| - 1].thread, turns[|turns| - 1].next);
    }
  }

  lemma NobodyIsInside()
    ensures Inv(Run([]))
  {
  }

  lemma {:induction false} RunExtends(turns: seq<Turn>, more: seq<Turn>)
    ensures Extends(Run(turns), Run(turns + more))
  {
    hide Step;
    if more == [] {
      assert turns + more == turns;
    } else {
      var rest := more[..|more| - 1];
      RunExtends(turns, rest);
      assert (turns + more)[..|turns + more| - 1] == turns + rest;
      StepExtends(Run(turns + rest), more[|more| - 1].thread, more[|more| - 1].next);
    }
  }

  // ----- What the threads may rely on --------------------------------------------------------------------

  /** Mutual exclusion: no two threads are between taking and releasing the lock. */
  lemma OneThreadHoldsTheLock(turns: seq<Turn>, t: nat, u: nat)
    requires Threads(turns)
    requires PlaceOf(Run(turns), t).Locked() && PlaceOf(Run(turns), u).Locked()
    ensures t == u
  {
    RunKeepsInv(turns);
    assert PlaceOk(Run(turns), t) && PlaceOk(Run(turns), u);
  }

  /** In every interleaving the owner of a state is written at most once, a thread that gets to the
      claim really becomes the owner, and every answer that names a thread names the one that owns
      the state then and for the rest of the run.  A request is always answered with a thread. */
  lemma AnswersStayTrue(turns: seq<Turn>, more: seq<Turn>, k: nat)
    requires Threads(turns) && Threads(more) && k < |Run(turns).answers|
    ensures var a, w := Run(turns).answers[k], Run(turns + more);
            && (a.call.Request? ==> a.owner != 0)
            && (a.owner != 0 ==> a.call.state in w.owners && w.owners[a.call.state] == a.owner)
    ensures var w := Run(turns + more);
            forall i, j :: 0 <= i < j < |w.written| ==> w.written[i] != w.written[j]
  {
    RunKeepsInv(turns);
    RunKeepsInv(turns + more);
    RunExtends(turns, more);
    hide Run;
    assert AnswerOk(Run(turns), Run(turns).answers[k]);
  }

  /** So two threads are never both told that they own the same state. */
  lemma OwnersAreUnique(turns: seq<Turn>, j: nat, k: nat)
    requires Threads(turns) && j < |Run(turns).answers| && k < |Run(turns).answers|
    requires var a, b := Run(turns).answers[j], Run(turns).answers[k];
             a.call.state == b.call.state && a.owner == a.thread && b.owner == b.thread && a.owner != 0 && b.owner != 0
    ensures Run(turns).answers[j].thread == Run(turns).answers[k].thread
  {
    assert turns + [] == turns;
    AnswersStayTrue(turns, [], j);
    AnswersStayTrue(turns, [], k);
  }

  lemma AnswersAfterClaimStep(w: World, t: nat, next: Call, s: CompressedState)
    requires Inv(w) && t != 0 && s in w.owners
    ensures forall k :: |w.answers| <= k < |Step(w, t, next).answers| ==>
              var a := Step(w, t, next).answers[k]; a.call.state == s ==> a.owner == w.owners[s]
  {
    assert PlaceOk(w, t);
  }

  /** From the moment a state has an owner, every answer about it names that owner, whoever asked,
      whatever was asked, and whenever the call began. */
  lemma {:induction false} AnswersAfterClaim(turns: seq<Turn>, more: seq<Turn>, s: CompressedState, k: nat)
    requires Threads(turns) && Threads(more) && s in Run(turns).owners
    requires |Run(turns).answers| <= k < |Run(turns + more).answers|
    ensures var a := Run(turns + more).answers[k]; a.call.state == s ==> a.owner == Run(turns).owners[s]
    decreases |more|
  {
    hide Step, Inv;
    assert turns + [] == turns;
    if more != [] {
      var rest, last := more[..|more| - 1], more[|more| - 1];
      assert (turns + more)[..|turns + more| - 1] == turns + rest;
      RunExtends(turns, rest);
      RunKeepsInv(turns + rest);
      StepExtends(Run(turns + rest), last.thread, last.next);
      if k < |Run(turns + rest).answers| {
        AnswersAfterClaim(turns, rest, s, k);
      } else {
        AnswersAfterClaimStep(Run(turns + rest), last.thread, last.next, s);
      }
    }
  }

  /** A question is answered with 0 only if up to then the state had no owner, in particular when the
      question was asked. */
  lemma NobodyOwnedIt(turns: seq<Turn>, more: seq<Turn>, s: CompressedState, k: nat)
    requires Threads(turns) && Threads(more)
    requires |Run(turns).answers| <= k < |Run(turns + more).answers|
    requires Run(turns + more).answers[k].call == Ask(s) && Run(turns + more).answers[k].owner == 0
    ensures s !in Run(turns).owners
  {
    hide Run;
    RunKeepsInv(turns);
    if s in Run(turns).owners {
      AnswersAfterClaim(turns, more, s, k);
    }
  }

  // ----- Calls come to an end ------------------------------------------------------------------------------

  // How many steps a thread has before it at most, apart from waiting for the lock
  function Remaining(p: Place): nat {
    match p
    case Outside => 0
    case FastRead(_) => 1
    case AskRead(_) => 1
    case Unlock(_, _) => 1
    case LockedRead(_) => 2
    case Claim(_) => 2
    case AskCheck(_) => 2
    case Recheck(_) => 3
    case AwaitLock(_) => 4
    case FastCheck(_) => 5
  }

  function CallOf(p: Place): Call
    requires !p.Outside?
  {
    if p.AskCheck? || p.AskRead? then Ask(p.state) else Request(p.state)
  }

  /** A thread inside a call that does not wait for another one gets nearer to the end with each of its
      steps, its last step gives the answer to the call it made, and the other threads are where they
      were. */
  lemma CallsEnd(w: World, t: nat, next: Call)
    requires !PlaceOf(w, t).Outside? && !(PlaceOf(w, t).AwaitLock? && w.lock.Some?)
    ensures var m := Step(w, t, next);
            && Remaining(PlaceOf(m, t)) < Remaining(PlaceOf(w, t))
            && (if PlaceOf(m, t).Outside?
                then exists owner :: m.answers == w.answers + [Answer(t, CallOf(PlaceOf(w, t)), owner)]
                else m.answers == w.answers && CallOf(PlaceOf(m, t)) == CallOf(PlaceOf(w, t)))
            && (forall u :: u != t ==> PlaceOf(m, u) == PlaceOf(w, u))
  {
    var m := Step(w, t, next);
    if PlaceOf(m, t).Outside? {
      assert m.answers[|w.answers|].thread == t;
      assert m.answers == w.answers + [Answer(t, CallOf(PlaceOf(w, t)), m.answers[|w.answers|].owner)];
    }
  }

  /** A call begins as what it is. */
  lemma CallsBegin(w: World, t: nat, next: Call)
    requires PlaceOf(w, t).Outside?
    ensures var m := Step(w, t, next);
            && !PlaceOf(m, t).Outside? && CallOf(PlaceOf(m, t)) == next
            && m == w.(places := w.places[t := PlaceOf(m, t)])
  {
  }

  function Alone(w: World, t: nat, call: Call, steps: nat): World {
    if steps == 0 then w else Step(Alone(w, t, call, steps - 1), t, call)
  }

  lemma OneMore(w: World, t: nat, call: Call, steps: nat)
    ensures Alone(w, t, call, 0) == w && Alone(w, t, call, steps + 1) == Step(Alone(w, t, call, steps), t, call)
  {
  }

  lemma RequestBegins(w: World, t: nat, s: CompressedState)
    requires PlaceOf(w, t).Outside?
    ensures Alone(w, t, Request(s), 2)
            == Move(w, t, if s in w.owners then FastRead(s) else AwaitLock(s))
  {
    hide Alone;
    OneMore(w, t, Request(s), 0);
    OneMore(w, t, Request(s), 1);
  }

  /** A request made while the lock is free and nobody interferes: an owner is named after three steps
      and without the lock; if there is none, the thread is the owner after six. */
  lemma RequestAlone(w: World, t: nat, s: CompressedState)
    requires PlaceOf(w, t).Outside? && w.lock.None?
    ensures s in w.owners ==>
              Alone(w, t, Request(s), 3)
              == w.(places := w.places[t := Outside], answers := w.answers + [Answer(t, Request(s), w.owners[s])])
    ensures s !in w.owners ==>
              Alone(w, t, Request(s), 6)
              == w.(places := w.places[t := Outside], answers := w.answers + [Answer(t, Request(s), t)],
                    owners := w.owners[s := t], written := w.written + [s])
  {
    hide Alone;
    RequestBegins(w, t, s);
    OneMore(w, t, Request(s), 2);
    if s !in w.owners {
      OneMore(w, t, Request(s), 3);
      var claims := Move(w.(lock := Some(t)), t, Claim(s));
      assert Alone(w, t, Request(s), 4) == claims;
      OneMore(w, t, Request(s), 4);
      OneMore(w, t, Request(s), 5);
      assert Alone(w, t, Request(s), 5) == Move(FindOrAdd(claims, s, t), t, Unlock(s, t));
    }
  }

  /** And a question is answered with the owner after three steps, or with 0 after two. */
  lemma AskAlone(w: World, t: nat, s: CompressedState)
    requires PlaceOf(w, t).Outside?
    ensures s in w.owners ==>
              Alone(w, t, Ask(s), 3)
              == w.(places := w.places[t := Outside], answers := w.answers + [Answer(t, Ask(s), w.owners[s])])
    ensures s !in w.owners ==>
              Alone(w, t, Ask(s), 2)
              == w.(places := w.places[t := Outside], answers := w.answers + [Answer(t, Ask(s), 0)])
  {
    hide Alone;
    OneMore(w, t, Ask(s), 0);
    OneMore(w, t, Ask(s), 1);
    OneMore(w, t, Ask(s), 2);
  }

  // ----- Without the second check --------------------------------------------------------------------------

  /** The step of a protocol that claims as soon as it has the lock. */
  function StepUnchecked(w: World, t: nat, next: Call): World {
    match PlaceOf(w, t)
    case AwaitLock(s) => if w.lock.Some? then w else Move(w.(lock := Some(t)), t, Claim(s))
    case _ => Step(w, t, next)
  }

  function RunUnchecked(turns: seq<Turn>): World {
    if turns == [] then World(map[], None, map[], [], [])
    else StepUnchecked(RunUnchecked(turns[..|turns| - 1]), turns[|turns| - 1].thread, turns[|turns| - 1].next)
  }

  /** Two threads find no owner before either of them takes the lock. */
  function Race(s: CompressedState): seq<Turn> {
    var one, two := Turn(1, Request(s)), Turn(2, Request(s));
    [one, one, two, two, one, one, one, two, two, two]
  }

  lemma RunUncheckedMore(turns: seq<Turn>, next: Turn)
    ensures RunUnchecked(turns + [next]) == StepUnchecked(RunUnchecked(turns), next.thread, next.next)
  {
    assert (turns + [next])[..|turns|] == turns;
  }

  // Both wait for the lock
  lemma RaceBegins(s: CompressedState)
    ensures RunUnchecked(Race(s)[..4]) == World(map[], None, map[1 := AwaitLock(s), 2 := AwaitLock(s)], [], [])
  {
    var one, two := Turn(1, Request(s)), Turn(2, Request(s));
    RunUncheckedMore([], one);
    RunUncheckedMore([one], one);
    RunUncheckedMore([one, one], two);
    RunUncheckedMore([one, one, two], two);
    assert [] + [one] == [one] && [one] + [one] == [one, one] && [one, one] + [two] == [one, one, two];
    assert [one, one, two] + [two] == Race(s)[..4];
  }

  // The first one claims the state
  lemma RaceGoesOn(s: CompressedState)
    ensures RunUnchecked(Race(s)[..7])
            == World(map[s := 1], None, map[1 := Outside, 2 := AwaitLock(s)], [Answer(1, Request(s), 1)], [s])
  {
    RaceBegins(s);
    RunUncheckedMore(Race(s)[..4], Race(s)[4]);
    RunUncheckedMore(Race(s)[..5], Race(s)[5]);
    RunUncheckedMore(Race(s)[..6], Race(s)[6]);
    assert Race(s)[..4] + [Race(s)[4]] == Race(s)[..5];
    assert Race(s)[..5] + [Race(s)[5]] == Race(s)[..6];
    assert Race(s)[..6] + [Race(s)[6]] == Race(s)[..7];
  }

  /** The second check is needed: without it there is an interleaving, for every state, after which
      two threads have been told that they own that state. */
  lemma SecondCheckIsNeeded(s: CompressedState)
    ensures Threads(Race(s))
    ensures var w := RunUnchecked(Race(s));
            && w.answers == [Answer(1, Request(s), 1), Answer(2, Request(s), 2)]
            && w.owners == map[s := 1]
  {
    RaceGoesOn(s);
    RunUncheckedMore(Race(s)[..7], Race(s)[7]);
    RunUncheckedMore(Race(s)[..8], Race(s)[8]);
    RunUncheckedMore(Race(s)[..9], Race(s)[9]);
    assert Race(s)[..7] + [Race(s)[7]] == Race(s)[..8];
    assert Race(s)[..8] + [Race(s)[8]] == Race(s)[..9];
    assert Race(s)[..9] + [Race(s)[9]] == Race(s);
  }
}
