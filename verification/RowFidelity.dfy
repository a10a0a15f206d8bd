/** What the rows of the emitted chain say about the original one, entry by entry. */
module RowFidelity {
  import opened SourceChain
  import opened TruncatedModel
  import opened Exploration
  import opened Invariant
  import opened Finalization
  import opened Emission

  lemma {:induction false} KnownPartAvoids(ids: Numbering, i: nat, es: seq<Edge>, target: nat)
    requires forall j :: 0 <= j < |es| ==> target == 0 || IndexOrAbsorbing(ids, es[j].to) != target
    ensures forall k :: 0 <= k < |KnownPart(ids, i, es)| ==> KnownPart(ids, i, es)[k].to != target
  {
    if es != [] {
      KnownPartAvoids(ids, i, es[..|es| - 1], target);
    }
  }

  ghost predicate DistinctIndices(row: seq<Transition>) {
    forall k, l :: 0 <= k < l < |row| ==> row[k].to != row[l].to
  }

  lemma {:induction false} KnownPartDistinct(c: Config, ids: Numbering, i: nat, es: seq<Edge>)
    requires ProperNumbering(c.problem, ids) && FromSource(c, es)
    ensures DistinctIndices(KnownPart(ids, i, es))
  {
    if es != [] {
      var e, rest := es[|es| - 1], es[..|es| - 1];
      KnownPartDistinct(c, ids, i, rest);
      var target := IndexOrAbsorbing(ids, e.to);
      IndexOfKnown(c, ids, e.to);
      forall j | 0 <= j < |rest| ensures target == 0 || IndexOrAbsorbing(ids, rest[j].to) != target {
        assert rest[j] == es[j];
      }
      KnownPartAvoids(ids, i, rest, target);
    }
  }

  /** Every transition to a known state has an entry. */
  lemma {:induction false} KnownSuccessorEntry(ids: Numbering, i: nat, es: seq<Edge>, j: nat) returns (k: nat)
    requires j < |es| && IndexOrAbsorbing(ids, es[j].to) != 0
    ensures k < |KnownPart(ids, i, es)|
    ensures KnownPart(ids, i, es)[k] == Transition(i, IndexOrAbsorbing(ids, es[j].to), es[j].rate)
  {
    if j == |es| - 1 {
      k := |KnownPart(ids, i, es[..j])|;
    } else {
      k := KnownSuccessorEntry(ids, i, es[..|es| - 1], j);
    }
  }

  /** Every entry stems from a transition. */
  lemma {:induction false} EntrySuccessor(ids: Numbering, i: nat, es: seq<Edge>, k: nat) returns (j: nat)
    requires k < |KnownPart(ids, i, es)|
    ensures j < |es| && IndexOrAbsorbing(ids, es[j].to) != 0
    ensures KnownPart(ids, i, es)[k] == Transition(i, IndexOrAbsorbing(ids, es[j].to), es[j].rate)
  {
    if k < |KnownPart(ids, i, es[..|es| - 1])| {
      j := EntrySuccessor(ids, i, es[..|es| - 1], k);
    } else {
      j := |es| - 1;
    }
  }

  /** A row that says of a state exactly what the chain says, up to redirection:
      every transition to a known state has one entry, with its rate;
      every other entry goes to the absorbing state, carries the total rate to unknown states, and
      is there exactly if that rate is positive;
      and no two entries go to the same index. */
  ghost predicate Faithful(ids: Numbering, i: nat, es: seq<Edge>, row: seq<Transition>) {
    && (forall j :: 0 <= j < |es| && IndexOrAbsorbing(ids, es[j].to) != 0 ==>
          Transition(i, IndexOrAbsorbing(ids, es[j].to), es[j].rate) in row)
    && (forall t :: t in row && t.to != 0 ==>
          exists j :: 0 <= j < |es| && t == Transition(i, IndexOrAbsorbing(ids, es[j].to), es[j].rate))
    && (forall t :: t in row && t.to == 0 ==> t == Transition(i, 0, UnknownRate(ids, es)))
    && (UnknownRate(ids, es) > 0.0 <==> exists t :: t in row && t.to == 0)
    && DistinctIndices(row)
    && OutRate(row) == Exit(es)
  }

  lemma CutRowEntries(c: Config, ids: Numbering, i: nat, es: seq<Edge>)
    requires ProperNumbering(c.problem, ids) && FromSource(c, es)
    ensures forall j :: 0 <= j < |es| && IndexOrAbsorbing(ids, es[j].to) != 0 ==>
              Transition(i, IndexOrAbsorbing(ids, es[j].to), es[j].rate) in CutRow(ids, i, es)
    ensures forall t :: t in CutRow(ids, i, es) && t.to != 0 ==>
              exists j :: 0 <= j < |es| && t == Transition(i, IndexOrAbsorbing(ids, es[j].to), es[j].rate)
  {
    forall j | 0 <= j < |es| && IndexOrAbsorbing(ids, es[j].to) != 0
      ensures Transition(i, IndexOrAbsorbing(ids, es[j].to), es[j].rate) in CutRow(ids, i, es)
    {
      var k := KnownSuccessorEntry(ids, i, es, j);
      assert KnownPart(ids, i, es)[k] in KnownPart(ids, i, es);
    }
    forall t | t in CutRow(ids, i, es) && t.to != 0
      ensures exists j :: 0 <= j < |es| && t == Transition(i, IndexOrAbsorbing(ids, es[j].to), es[j].rate)
    {
      var k :| 0 <= k < |KnownPart(ids, i, es)| && KnownPart(ids, i, es)[k] == t;
      var j := EntrySuccessor(ids, i, es, k);
    }
  }

  lemma CutRowFaithful(c: Config, ids: Numbering, i: nat, es: seq<Edge>)
    requires ProperNumbering(c.problem, ids) && FromSource(c, es)
    ensures Faithful(ids, i, es, CutRow(ids, i, es))
  {
    CutRowEntries(c, ids, i, es);
    KnownPartDistinct(c, ids, i, es);
    KnownPartAvoids(ids, i, es, 0);
    UnknownRateNonNegative(ids, es);
    CutRowRate(ids, i, es);
    if UnknownRate(ids, es) > 0.0 {
      assert Transition(i, 0, UnknownRate(ids, es)) in CutRow(ids, i, es);
    }
  }

  /** Row fidelity and preservation of exit rates: in the emitted chain the row of every registered
      state that does not settle the property is faithful to the chain, so its total is the exit
      rate; deadlocks, and states that settle the property, have a self-loop and nothing else. */
  lemma EmittedRowsAreFaithful(c: Config, n: Snapshot, s: CompressedState)
    requires Closing(c, n) && Known(c.problem, n.ids, s)
    ensures var row := RowOf(BuiltModel(c, n).entries, n.ids[s]);
            if (c.refine && !c.problem.Live(s)) || c.Succ(s) == [] then row == SelfLoop(n.ids[s])
            else Faithful(n.ids, n.ids[s], c.Succ(s), row)
  {
    var m := ConnectAll(c, n);
    ConnectAllCloses(c, n);
    ClosedTable(c, m);
    EmittedRows(m.table, n.ids[s]);
    SourceEdges(c, s);
    assert Known(c.problem, m.ids, s);
    CutRowFaithful(c, n.ids, n.ids[s], c.Succ(s));
  }

  lemma {:induction false} EntryInRow(entries: seq<Transition>, k: nat)
    requires k < |entries|
    ensures RowOf(entries, entries[k].from) != []
  {
    if k < |entries| - 1 {
      EntryInRow(entries[..|entries| - 1], k);
    }
  }

  /** The emitted matrix has exactly one row for each index, in increasing order, and none but that
      of the absorbing state is empty. */
  lemma EmittedMatrixIsComplete(c: Config, n: Snapshot)
    requires Closing(c, n)
    ensures var entries := BuiltModel(c, n).entries;
            && (forall j, k :: 0 <= j < k < |entries| ==> entries[j].from <= entries[k].from)
            && (forall k :: 0 <= k < |entries| ==> 1 <= entries[k].from < |n.ids|)
            && (forall i: nat :: 1 <= i < |n.ids| ==> RowOf(entries, i) != [])
  {
    hide BuiltModel, ConnectAll, Closing, Closed, TableWellFormed, Emitted, RowOf;
    var m := ConnectAll(c, n);
    WellFormedSource(c, n);
    ConnectAllCloses(c, n);
    BuiltEntries(c, n);
    ClosedTable(c, m);
    EmittedInOrder(m.table);
    EmittedRows(m.table, 0);
    ClosedTableFits(c, m);
    var entries := Emitted(m.table);
    forall k | 0 <= k < |entries| ensures 1 <= entries[k].from < |n.ids| {
      EntryInRow(entries, k);
    }
    forall i: nat | 1 <= i < |n.ids| ensures RowOf(entries, i) != [] {
      EmittedRows(m.table, i);
    }
  }

  lemma ClosedTableFits(c: Config, n: Snapshot)
    requires Closed(c, n)
    ensures |n.table| <= |n.ids| && Row(n.table, 0) == []
  {
  }

  lemma WellFormedSource(c: Config, n: Snapshot)
    requires Closing(c, n)
    ensures c.problem.src.WellFormed() && |n.ids| >= 1
  {
  }

  lemma BuiltEntries(c: Config, n: Snapshot)
    requires Closing(c, n)
    ensures BuiltModel(c, n).entries == Emitted(ConnectAll(c, n).table)
  {
  }
}
