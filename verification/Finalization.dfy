/** Closing the truncation: the perimeter is connected to the absorbing state and the transition
    table is emitted.  Every row of the result is faithful to the chain. */
module Finalization {
  import opened SourceChain
  import opened TruncatedModel
  import opened Exploration
  import opened Invariant

  /** The row a registered state must have in the end. */
  function FinalRow(c: Config, ids: Numbering, e: Entry): seq<Transition> {
    if c.Stops(e.state) || c.Succ(e.state) == [] then SelfLoop(e.index)
    else CutRow(ids, e.index, c.Succ(e.state))
  }

  // ----- Rows, entry by entry --------------------------------------------------------------------

  lemma SourceEdges(c: Config, s: CompressedState)
    requires c.problem.src.WellFormed()
    ensures FromSource(c, c.Succ(s))
  {
    assert c.problem.src.DistinctTargets(s) && c.problem.src.PositiveRates(s) && c.problem.src.AvoidsAbsorbing(s);
  }

  lemma IndexOfKnown(c: Config, ids: Numbering, s: CompressedState)
    requires ProperNumbering(c.problem, ids) && s != c.problem.src.Absorbing()
    ensures s in ids <==> IndexOrAbsorbing(ids, s) != 0
    ensures s in ids ==> IndexOrAbsorbing(ids, s) < |ids|
  {
    assert s in ids ==> Known(c.problem, ids, s);
  }

  lemma {:induction false} AllKnownCutsNothing(c: Config, ids: Numbering, i: nat, es: seq<Edge>)
    requires ProperNumbering(c.problem, ids) && AllKnown(ids, es) && FromSource(c, es)
    ensures UnknownRate(ids, es) == 0.0 && CutRow(ids, i, es) == KnownPart(ids, i, es)
  {
    if es != [] {
      AllKnownCutsNothing(c, ids, i, es[..|es| - 1]);
      IndexOfKnown(c, ids, es[|es| - 1].to);
    }
  }

  lemma {:induction false} UnknownRateNonNegative(ids: Numbering, es: seq<Edge>)
    requires forall j :: 0 <= j < |es| ==> es[j].rate > 0.0
    ensures UnknownRate(ids, es) >= 0.0
    ensures es != [] && KnownPart(ids, 0, es) == [] ==> UnknownRate(ids, es) > 0.0
  {
    if es != [] {
      UnknownRateNonNegative(ids, es[..|es| - 1]);
    }
  }

  lemma {:induction false} KnownPartSize(ids: Numbering, i: nat, j: nat, es: seq<Edge>)
    ensures |KnownPart(ids, i, es)| == |KnownPart(ids, j, es)|
  {
    if es != [] {
      KnownPartSize(ids, i, j, es[..|es| - 1]);
    }
  }

  lemma {:induction false} KnownPartEntries(ids: Numbering, i: nat, es: seq<Edge>)
    requires forall j :: 0 <= j < |es| ==> es[j].rate > 0.0
    ensures forall k :: 0 <= k < |KnownPart(ids, i, es)| ==>
              KnownPart(ids, i, es)[k].from == i && KnownPart(ids, i, es)[k].rate > 0.0
                  && KnownPart(ids, i, es)[k].to != 0
  {
    if es != [] {
      KnownPartEntries(ids, i, es[..|es| - 1]);
    }
  }

  ghost predicate RowWellFormed(row: seq<Transition>, i: nat) {
    row != [] && forall k :: 0 <= k < |row| ==> row[k].from == i && row[k].rate > 0.0
  }

  lemma FinalRowWellFormed(c: Config, ids: Numbering, e: Entry)
    requires c.problem.src.WellFormed()
    ensures RowWellFormed(FinalRow(c, ids, e), e.index)
  {
    var es := c.Succ(e.state);
    SourceEdges(c, e.state);
    KnownPartEntries(ids, e.index, es);
    UnknownRateNonNegative(ids, es);
    KnownPartSize(ids, e.index, 0, es);
  }

  // ----- Connecting the perimeter ------------------------------------------------------------------

  // Still to be connected: flagged, enqueued, and without a row
  ghost predicate ToConnect(n: Snapshot, e: Entry) {
    e.index in n.recs && n.recs[e.index].inQueue && Row(n.table, e.index) == [] && e in n.perimeter
  }

  ghost predicate Closing(c: Config, n: Snapshot) {
    && c.problem.src.WellFormed()
    && Shape(c, n)
    && (forall s {:trigger Known(c.problem, n.ids, s)} :: Known(c.problem, n.ids, s) ==>
          || Row(n.table, n.ids[s]) == FinalRow(c, n.ids, Entry(n.ids[s], s))
          || ToConnect(n, Entry(n.ids[s], s)))
    && (forall j :: 0 <= j < |n.perimeter| ==> QueueEntryOk(c, n, n.perimeter[j]))
  }

  ghost predicate QueueEntryOk(c: Config, n: Snapshot, e: Entry) {
    e.index in n.recs && (n.recs[e.index].inQueue ==> Row(n.table, e.index) == [] && !c.Stops(e.state))
  }

  /** When the worklist is empty, only the perimeter is left to be connected. */
  lemma ClosingStarts(c: Config, n: Snapshot)
    requires Valid(c, n) && n.work == []
    ensures Closing(c, n)
  {
    forall s | Known(c.problem, n.ids, s)
      ensures Row(n.table, n.ids[s]) == FinalRow(c, n.ids, Entry(n.ids[s], s)) || ToConnect(n, Entry(n.ids[s], s))
    {
      var e := Entry(n.ids[s], s);
      assert StateOk(c, n, e, 0);
      if SituationOf(c, s, n.recs[e.index]).Expanded? {
        SourceEdges(c, s);
        AllKnownCutsNothing(c, n.ids, e.index, c.Succ(s));
      }
    }
    forall j | 0 <= j < |n.perimeter| ensures QueueEntryOk(c, n, n.perimeter[j]) {
      assert EntryOk(n, n.perimeter[j]);
      assert Known(c.problem, n.ids, n.perimeter[j].state) && StateOk(c, n, n.perimeter[j], 0);
    }
  }

  lemma {:induction false} ConnectKnownRows(c: Config, ids: Numbering, table: seq<seq<Transition>>, i: nat,
                                            es: seq<Edge>)
    requires ProperNumbering(c.problem, ids) && FromSource(c, es) && i < |ids|
    requires Row(table, i) == [] && |table| <= |ids|
    ensures Row(ConnectKnown(table, ids, i, es), i) == KnownPart(ids, i, es)
    ensures forall r: nat :: r != i ==> Row(ConnectKnown(table, ids, i, es), r) == Row(table, r)
    ensures |ConnectKnown(table, ids, i, es)| <= |ids|
  {
    if es != [] {
      var e, rest := es[|es| - 1], es[..|es| - 1];
      assert FromSource(c, rest);
      ConnectKnownRows(c, ids, table, i, rest);
      var target := IndexOrAbsorbing(ids, e.to);
      IndexOfKnown(c, ids, e.to);
      forall j | 0 <= j < |rest| ensures target == 0 || IndexOrAbsorbing(ids, rest[j].to) != target {
        assert rest[j] == es[j];
      }
      LastEntryDiffers(ids, i, rest, target);
      CreateRow(ConnectKnown(table, ids, i, rest), i, target, e.rate);
    }
  }

  lemma ConnectRows(c: Config, n: Snapshot, e: Entry)
    requires c.problem.src.WellFormed() && ProperNumbering(c.problem, n.ids) && e.index < |n.ids|
             && |n.table| <= |n.ids|
    requires Row(n.table, e.index) == [] && !c.Stops(e.state)
    ensures Row(Connect(c, n, e).table, e.index) == FinalRow(c, n.ids, e)
    ensures forall r: nat :: r != e.index ==> Row(Connect(c, n, e).table, r) == Row(n.table, r)
    ensures |Connect(c, n, e).table| <= |n.ids|
  {
    var i, es := e.index, c.Succ(e.state);
    if es == [] {
      CreateRow(n.table, i, i, 1.0);
      assert [] + SelfLoop(i) == SelfLoop(i);
    } else {
      SourceEdges(c, e.state);
      ConnectKnownRows(c, n.ids, n.table, i, es);
      LastEntryDiffers(n.ids, i, es, 0);
      CreateRow(ConnectKnown(n.table, n.ids, i, es), i, 0, UnknownRate(n.ids, es));
    }
  }

  lemma ConnectOneShape(c: Config, n: Snapshot)
    requires Closing(c, n) && n.perimeter != []
    ensures EntryOk(n, n.perimeter[0])
    ensures var m := ConnectOne(c, n);
            && Shape(c, m) && m.ids == n.ids && m.work == n.work && m.perimeter == n.perimeter[1..]
            && (forall i: nat :: i in n.recs && i != n.perimeter[0].index ==> m.recs[i] == n.recs[i])
            && (forall i: nat :: i != n.perimeter[0].index ==> Row(m.table, i) == Row(n.table, i))
            && (n.recs[n.perimeter[0].index].inQueue ==>
                Row(m.table, n.perimeter[0].index) == FinalRow(c, n.ids, n.perimeter[0]))
            && (!n.recs[n.perimeter[0].index].inQueue ==> m.table == n.table)
  {
    var e := n.perimeter[0];
    assert EntryOk(n, e) && QueueEntryOk(c, n, e);
    var m := ConnectOne(c, n);
    if n.recs[e.index].inQueue {
      ConnectRows(c, n.(perimeter := n.perimeter[1..], recs := n.recs[e.index := n.recs[e.index].(inQueue := false)]),
          e);
    }
    assert m.recs.Keys == n.recs.Keys;
    forall j | 0 <= j < |m.perimeter| ensures EntryOk(m, m.perimeter[j]) {
      assert EntryOk(n, n.perimeter[j + 1]);
    }
    forall j | 0 <= j < |m.work| ensures EntryOk(m, m.work[j]) {
      assert EntryOk(n, n.work[j]);
    }
  }

  lemma ConnectOneKeepsClosing(c: Config, n: Snapshot)
    requires Closing(c, n) && n.perimeter != []
    ensures EntryOk(n, n.perimeter[0]) && Closing(c, ConnectOne(c, n))
    ensures ConnectOne(c, n).ids == n.ids && |ConnectOne(c, n).perimeter| == |n.perimeter| - 1
  {
    ConnectOneShape(c, n);
    hide ConnectOne;
    var e, m := n.perimeter[0], ConnectOne(c, n);
    forall s | Known(c.problem, m.ids, s)
      ensures Row(m.table, m.ids[s]) == FinalRow(c, m.ids, Entry(m.ids[s], s)) || ToConnect(m, Entry(m.ids[s], s))
    {
      var f := Entry(n.ids[s], s);
      assert Known(c.problem, n.ids, s);
      assert f in n.perimeter ==> f == e || f in m.perimeter by {
        assert n.perimeter == [e] + m.perimeter;
      }
    }
    forall j | 0 <= j < |m.perimeter| ensures QueueEntryOk(c, m, m.perimeter[j]) {
      assert QueueEntryOk(c, n, n.perimeter[j + 1]) && EntryOk(n, n.perimeter[j + 1]);
      assert n.perimeter[0].index != n.perimeter[j + 1].index;
    }
  }

  /** connectAllTerminalStatesToAbsorbing. */
  function ConnectAll(c: Config, n: Snapshot): Snapshot
    requires Closing(c, n)
    decreases |n.perimeter|
  {
    if n.perimeter == [] then n
    else
      ConnectOneKeepsClosing(c, n);
      ConnectAll(c, ConnectOne(c, n))
  }

  // Every registered state has its final row, and there are no other rows
  ghost predicate Closed(c: Config, n: Snapshot) {
    && Shape(c, n)
    && forall s {:trigger Known(c.problem, n.ids, s)} :: Known(c.problem, n.ids, s) ==>
         Row(n.table, n.ids[s]) == FinalRow(c, n.ids, Entry(n.ids[s], s))
  }

  /** After connecting, every registered state has its final row, however often it was expanded
      and however many stale entries the queue held. */
  lemma {:induction false} ConnectAllCloses(c: Config, n: Snapshot)
    requires Closing(c, n)
    ensures Closed(c, ConnectAll(c, n)) && ConnectAll(c, n).ids == n.ids
    decreases |n.perimeter|
  {
    hide ConnectOne;
    if n.perimeter != [] {
      ConnectOneKeepsClosing(c, n);
      ConnectAllCloses(c, ConnectOne(c, n));
    }
  }
}
