/** What the callbacks of one expansion do, exactly: which states get an index and which one, who is
    marked as seen, and who is enqueued in which order. */
module Callbacks {
  import opened SourceChain
  import opened TruncatedModel
  import opened Exploration
  import opened Invariant

  // This state was not met in this iteration
  predicate Unmet(n: Snapshot, t: CompressedState) {
    t in n.ids && n.ids[t] in n.recs ==> n.recs[n.ids[t]].lastSeen != n.iteration
  }

  /** Exactly the targets of the edges that had no index get one, in the order of the edges. */
  ghost predicate Numbers(a: Numbering, b: Numbering, es: seq<Edge>) {
    && SubNumbering(a, b)
    && (forall t :: t in b <==> t in a || Among(es, t))
    && (forall i, j :: 0 <= i < j < |es| && es[i].to !in a && es[j].to !in a && es[i].to in b && es[j].to in b ==>
          b[es[i].to] < b[es[j].to])
  }

  /** The record of one state: a target is marked as seen, or gets its record now; any other is as
      before. */
  ghost predicate Meets(n: Snapshot, m: Snapshot, es: seq<Edge>, t: CompressedState) {
    t in m.ids ==>
      if !Among(es, t) then
        t in n.ids && (m.ids[t] in n.recs <==> m.ids[t] in m.recs)
        && (m.ids[t] in n.recs ==> m.recs[m.ids[t]] == n.recs[m.ids[t]])
      else
        && m.ids[t] in m.recs
        && m.recs[m.ids[t]] == if t in n.ids && n.ids[t] in n.recs then n.recs[n.ids[t]].(lastSeen := n.iteration)
                               else Record(0.0, true, n.iteration, true, false, false)
  }

  /** Exactly the targets that were not met in this iteration are enqueued, in the order of the edges. */
  ghost predicate Enqueues(n: Snapshot, ids: Numbering, es: seq<Edge>, added: seq<Entry>) {
    && (forall k :: 0 <= k < |added| ==>
          Among(es, added[k].state) && Unmet(n, added[k].state) && EntryIn(ids, added[k]))
    && (forall j :: 0 <= j < |es| && Unmet(n, es[j].to) ==> Enters(added, es[j].to))
    && (forall k, l :: 0 <= k < l < |added| ==> InOrder(es, added[k].state, added[l].state))
  }

  ghost predicate InOrder(es: seq<Edge>, s: CompressedState, t: CompressedState) {
    forall i, j :: 0 <= i < |es| && 0 <= j < |es| && es[i].to == s && es[j].to == t ==> i < j
  }

  ghost predicate EntryIn(ids: Numbering, e: Entry) {
    e.state in ids && ids[e.state] == e.index
  }

  ghost predicate Enters(added: seq<Entry>, t: CompressedState) {
    exists k :: 0 <= k < |added| && added[k].state == t
  }

  ghost predicate Called(n: Snapshot, m: Snapshot, es: seq<Edge>) {
    && Numbers(n.ids, m.ids, es)
    && (forall t :: Meets(n, m, es, t))
    && n.work <= m.work && Enqueues(n, m.ids, es, m.work[|n.work|..])
    && m.numberTerminal == n.numberTerminal + |m.ids| - |n.ids|
    && m == n.(ids := m.ids, recs := m.recs, work := m.work, numberTerminal := m.numberTerminal)
  }

  lemma AmongMore(es: seq<Edge>, t: CompressedState)
    requires es != []
    ensures Among(es, t) <==> Among(es[..|es| - 1], t) || es[|es| - 1].to == t
  {
    if j :| 0 <= j < |es| && es[j].to == t {
      assert j < |es| - 1 ==> es[..|es| - 1][j].to == t;
    }
    var rest := es[..|es| - 1];
    if j :| 0 <= j < |rest| && rest[j].to == t {
      assert es[j].to == t;
    }
    assert es[|es| - 1].to == t ==> Among(es, t);
  }

  // A snapshot in which this index can be given out next
  ghost predicate Numbered(c: Config, n: Snapshot) {
    && ProperNumbering(c.problem, n.ids)
    && (forall i: nat :: i in n.recs <==> 1 <= i < |n.ids|)
  }

  lemma RegisterNumbers(c: Config, n: Snapshot, m: Snapshot, cur: nat, es: seq<Edge>)
    requires es != [] && Numbers(n.ids, m.ids, es[..|es| - 1]) && Numbered(c, m) && cur in m.recs
    requires !Among(es[..|es| - 1], es[|es| - 1].to)
    ensures Numbers(n.ids, Register(m, cur, es[|es| - 1].to).ids, es)
  {
    hide Numbers, Among, ProperNumbering;
    NumbersMore(c.problem, n.ids, m.ids, es);
  }

  lemma NumbersMore(p: Problem, a: Numbering, b: Numbering, es: seq<Edge>)
    requires es != [] && Numbers(a, b, es[..|es| - 1]) && ProperNumbering(p, b)
    requires !Among(es[..|es| - 1], es[|es| - 1].to)
    ensures Numbers(a, b[es[|es| - 1].to := IndexFor(b, es[|es| - 1].to)], es)
  {
    hide Among;
    var rest, s := es[..|es| - 1], es[|es| - 1].to;
    var b' := b[s := IndexFor(b, s)];
    forall t ensures t in b' <==> t in a || Among(es, t) {
      AmongMore(es, t);
    }
    forall i, j | 0 <= i < j < |es| && es[i].to !in a && es[j].to !in a && es[i].to in b' && es[j].to in b'
      ensures b'[es[i].to] < b'[es[j].to]
    {
      NumbersOrder(p, a, b, es, i, j);
    }
  }

  lemma AmongAt(es: seq<Edge>, i: nat)
    requires i < |es|
    ensures Among(es, es[i].to)
  {
  }

  lemma NumbersOrder(p: Problem, a: Numbering, b: Numbering, es: seq<Edge>, i: nat, j: nat)
    requires es != [] && Numbers(a, b, es[..|es| - 1]) && ProperNumbering(p, b)
    requires !Among(es[..|es| - 1], es[|es| - 1].to)
    requires i < j < |es| && es[i].to !in a && es[j].to !in a
    ensures es[i].to in b && es[i].to != es[|es| - 1].to
    ensures j < |es| - 1 ==> es[j].to in b && es[j].to != es[|es| - 1].to && b[es[i].to] < b[es[j].to]
    ensures j == |es| - 1 ==> es[j].to !in b && b[es[i].to] < |b|
  {
    hide Among;
    var rest := es[..|es| - 1];
    assert rest[i] == es[i];
    AmongAt(rest, i);
    if j < |rest| {
      assert rest[j] == es[j];
      AmongAt(rest, j);
    } else {
      assert es[i].to == p.src.Absorbing() || Known(p, b, es[i].to);
    }
  }

  // All that is known before the callback for the last of the edges
  ghost predicate Calling(c: Config, n: Snapshot, m: Snapshot, cur: nat, es: seq<Edge>) {
    && es != [] && Called(n, m, es[..|es| - 1]) && Numbered(c, n) && Numbered(c, m) && cur in m.recs
    && !Among(es[..|es| - 1], es[|es| - 1].to) && es[|es| - 1].to != c.problem.src.Absorbing()
    && (m.recs[cur].pi == 0.0 ==> es[|es| - 1].to in m.ids)
  }

  lemma RegisterOne(c: Config, n: Snapshot, m: Snapshot, cur: nat, es: seq<Edge>)
    requires Calling(c, n, m, cur, es)
    ensures var s, m' := es[|es| - 1].to, Register(m, cur, es[|es| - 1].to);
            && s in m'.ids
            && m'.work == m.work + (if Unmet(n, s) then [Entry(m'.ids[s], s)] else [])
            && (if s in m.ids
                then s in n.ids && m'.ids == m.ids && m.ids[s] in m.recs && m.ids[s] in n.recs
                     && m.recs[m.ids[s]] == n.recs[m.ids[s]]
                     && m'.recs == m.recs[m.ids[s] := n.recs[m.ids[s]].(lastSeen := n.iteration)]
                     && m'.numberTerminal == m.numberTerminal
                else s !in n.ids && m'.ids == m.ids[s := |m.ids|] && |m'.ids| == |m.ids| + 1 && |m.ids| !in m.recs
                     && m'.recs == m.recs[|m.ids| := Record(0.0, true, n.iteration, true, false, false)]
                     && m'.numberTerminal == m.numberTerminal + 1)
  {
    hide Register, Enqueues, Numbers, Meets, Among;
    var s := es[|es| - 1].to;
    LastIsUntouched(c, n, m, cur, es);
    if s in m.ids {
      RegisterOld(m, cur, s);
    } else {
      RegisterFresh(m, cur, s);
    }
  }

  // The last target stands in m as it stood in n
  lemma LastIsUntouched(c: Config, n: Snapshot, m: Snapshot, cur: nat, es: seq<Edge>)
    requires Calling(c, n, m, cur, es)
    ensures var s := es[|es| - 1].to;
            && (s in m.ids <==> s in n.ids) && m.iteration == n.iteration
            && (if s in m.ids
                then m.ids[s] == n.ids[s] && m.ids[s] in m.recs && m.ids[s] in n.recs
                     && m.recs[m.ids[s]] == n.recs[m.ids[s]]
                else |m.ids| !in m.recs && m.recs[cur].pi != 0.0)
  {
    hide Enqueues;
    var s := es[|es| - 1].to;
    assert Meets(n, m, es[..|es| - 1], s);
    if s in m.ids {
      assert Known(c.problem, m.ids, s) && Known(c.problem, n.ids, s);
    }
  }

  lemma RegisterOld(m: Snapshot, cur: nat, s: CompressedState)
    requires cur in m.recs && s in m.ids && m.ids[s] in m.recs
    ensures var i, r := m.ids[s], m.recs[m.ids[s]];
            Register(m, cur, s)
            == m.(recs := m.recs[i := r.(lastSeen := m.iteration)],
                  work := m.work + (if r.lastSeen != m.iteration then [Entry(i, s)] else []))
  {
    assert m.ids[s := m.ids[s]] == m.ids;
    var i, r := m.ids[s], m.recs[m.ids[s]];
    if r.lastSeen == m.iteration {
      assert m.recs[i := r.(lastSeen := m.iteration)] == m.recs && m.work + [] == m.work;
    }
  }

  lemma RegisterFresh(m: Snapshot, cur: nat, s: CompressedState)
    requires cur in m.recs && s !in m.ids && |m.ids| !in m.recs && m.recs[cur].pi != 0.0
    ensures Register(m, cur, s)
            == m.(ids := m.ids[s := |m.ids|], work := m.work + [Entry(|m.ids|, s)],
                  recs := m.recs[|m.ids| := Record(0.0, true, m.iteration, true, false, false)],
                  numberTerminal := m.numberTerminal + 1)
    ensures |m.ids[s := |m.ids|]| == |m.ids| + 1
  {
    assert m.ids[s := |m.ids|].Keys == m.ids.Keys + {s};
  }

  lemma RegisterMeets(c: Config, n: Snapshot, m: Snapshot, cur: nat, es: seq<Edge>, t: CompressedState)
    requires Calling(c, n, m, cur, es)
    ensures Meets(n, Register(m, cur, es[|es| - 1].to), es, t)
  {
    hide Register, Enqueues, Unmet;
    var rest, s := es[..|es| - 1], es[|es| - 1].to;
    RegisterOne(c, n, m, cur, es);
    AmongMore(es, t);
    assert Meets(n, m, rest, t);
    if t != s && t in m.ids {
      assert t == c.problem.src.Absorbing() || Known(c.problem, m.ids, t);
      assert s in m.ids ==> m.ids[t] != m.ids[s];
    }
  }

  lemma RegisterEnqueues(c: Config, n: Snapshot, m: Snapshot, cur: nat, es: seq<Edge>)
    requires Calling(c, n, m, cur, es)
    ensures var m' := Register(m, cur, es[|es| - 1].to);
            n.work <= m'.work && Enqueues(n, m'.ids, es, m'.work[|n.work|..])
  {
    hide Register, Unmet, Meets, Among;
    var rest, s, m' := es[..|es| - 1], es[|es| - 1].to, Register(m, cur, es[|es| - 1].to);
    RegisterOne(c, n, m, cur, es);
    var added, next := m.work[|n.work|..], if Unmet(n, s) then [Entry(m'.ids[s], s)] else [];
    assert m'.work[|n.work|..] == added + next;
    EnqueuesMore(n, m.ids, m'.ids, es, added, next);
  }

  lemma EnqueuesMore(n: Snapshot, a: Numbering, b: Numbering, es: seq<Edge>, added: seq<Entry>, next: seq<Entry>)
    requires es != [] && Enqueues(n, a, es[..|es| - 1], added) && !Among(es[..|es| - 1], es[|es| - 1].to)
    requires SubNumbering(a, b) && es[|es| - 1].to in b
    requires next == if Unmet(n, es[|es| - 1].to) then [Entry(b[es[|es| - 1].to], es[|es| - 1].to)] else []
    ensures Enqueues(n, b, es, added + next)
  {
    hide Unmet, Among;
    var rest, s, all := es[..|es| - 1], es[|es| - 1].to, added + next;
    forall k | 0 <= k < |all|
      ensures Among(es, all[k].state) && Unmet(n, all[k].state) && EntryIn(b, all[k])
    {
      AmongMore(es, all[k].state);
      assert k < |added| ==> all[k] == added[k] && EntryIn(a, added[k]);
    }
    forall j | 0 <= j < |es| && Unmet(n, es[j].to) ensures Enters(all, es[j].to) {
      if j < |rest| {
        assert rest[j] == es[j] && Enters(added, es[j].to);
        var k :| 0 <= k < |added| && added[k].state == es[j].to;
        assert all[k].state == es[j].to;
      } else {
        assert all[|added|].state == s;
      }
    }
    forall k, l | 0 <= k < l < |all| ensures InOrder(es, all[k].state, all[l].state) {
      OrderMore(es, added, next, k, l);
    }
  }

  lemma OrderMore(es: seq<Edge>, added: seq<Entry>, next: seq<Entry>, k: nat, l: nat)
    requires es != [] && !Among(es[..|es| - 1], es[|es| - 1].to) && |next| <= 1
    requires forall e :: e in next ==> e.state == es[|es| - 1].to
    requires k < l < |added + next|
    requires forall k :: 0 <= k < |added| ==> Among(es[..|es| - 1], added[k].state)
    requires l < |added| ==> InOrder(es[..|es| - 1], added[k].state, added[l].state)
    ensures InOrder(es, (added + next)[k].state, (added + next)[l].state)
  {
    var rest, s, t := es[..|es| - 1], (added + next)[k].state, (added + next)[l].state;
    assert Among(rest, s);
    forall i, j | 0 <= i < |es| && 0 <= j < |es| && es[i].to == s && es[j].to == t ensures i < j {
      assert i < |rest|;
      assert rest[i] == es[i];
      if j < |rest| {
        assert rest[j] == es[j];
        assert Among(rest, t);
      }
    }
  }

  lemma {:induction false} RegisterAllIsExact(c: Config, n: Snapshot, e: Entry, es: seq<Edge>)
    requires Expanding(c, n, e) && es <= c.Succ(e.state) && c.problem.src.WellFormed()
    requires n.recs[e.index].pi == 0.0 ==> AllKnown(n.ids, c.Succ(e.state))
    ensures Called(n, RegisterAll(n, e.index, es), es)
  {
    if es == [] {
      assert n.work[|n.work|..] == [];
    } else {
      hide Register, Called, Expanding;
      var rest, m := es[..|es| - 1], RegisterAll(n, e.index, es[..|es| - 1]);
      RegisterAllIsExact(c, n, e, rest);
      CallingNext(c, n, e, es);
      CalledMore(c, n, m, e.index, es);
    }
  }

  lemma CallingNext(c: Config, n: Snapshot, e: Entry, es: seq<Edge>)
    requires Expanding(c, n, e) && es <= c.Succ(e.state) && c.problem.src.WellFormed() && es != []
    requires n.recs[e.index].pi == 0.0 ==> AllKnown(n.ids, c.Succ(e.state))
    requires Called(n, RegisterAll(n, e.index, es[..|es| - 1]), es[..|es| - 1])
    ensures Calling(c, n, RegisterAll(n, e.index, es[..|es| - 1]), e.index, es)
  {
    hide Called, RegisterAll;
    assert c.problem.src.AvoidsAbsorbing(e.state) && c.problem.src.DistinctTargets(e.state);
    RegisterAllKeepsExpanding(c, n, e, es[..|es| - 1]);
    assert c.Succ(e.state)[|es| - 1] == es[|es| - 1];
  }

  lemma CalledMore(c: Config, n: Snapshot, m: Snapshot, cur: nat, es: seq<Edge>)
    requires Calling(c, n, m, cur, es)
    ensures Called(n, Register(m, cur, es[|es| - 1].to), es)
  {
    hide Register, Meets, Enqueues, Numbers;
    RegisterOne(c, n, m, cur, es);
    RegisterNumbers(c, n, m, cur, es);
    RegisterEnqueues(c, n, m, cur, es);
    var m' := Register(m, cur, es[|es| - 1].to);
    forall t ensures Meets(n, m', es, t) {
      RegisterMeets(c, n, m, cur, es, t);
    }
    RegisterFrame(m, cur, es[|es| - 1].to);
  }

  lemma RegisterFrame(m: Snapshot, cur: nat, s: CompressedState)
    requires cur in m.recs
    ensures var m' := Register(m, cur, s);
            m' == m.(ids := m'.ids, recs := m'.recs, work := m'.work, numberTerminal := m'.numberTerminal)
  {
  }
}
