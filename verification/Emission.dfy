/** flushToTransitionMatrix: the transition table becomes the finite chain that is checked. */
module Emission {
  import opened Csl
  import opened SourceChain
  import opened TruncatedModel
  import opened Exploration
  import opened Finalization

  lemma {:induction false} RowOfConcat(a: seq<Transition>, b: seq<Transition>, i: nat)
    ensures RowOf(a + b, i) == RowOf(a, i) + RowOf(b, i)
  {
    if b == [] {
      assert a + b == a;
    } else {
      assert (a + b)[..|a + b| - 1] == a + b[..|b| - 1];
      RowOfConcat(a, b[..|b| - 1], i);
    }
  }

  lemma {:induction false} RowOfRow(row: seq<Transition>, r: nat, i: nat)
    requires forall k :: 0 <= k < |row| ==> row[k].from == r
    ensures RowOf(row, i) == if i == r then row else []
  {
    if row != [] {
      RowOfRow(row[..|row| - 1], r, i);
    }
  }

  lemma {:induction false} NonZeroKeepsAll(row: seq<Transition>)
    requires forall k :: 0 <= k < |row| ==> row[k].rate > 0.0
    ensures NonZero(row) == row
  {
    if row != [] {
      NonZeroKeepsAll(row[..|row| - 1]);
    }
  }

  // Each entry stands in the row of its source, and has a positive rate
  ghost predicate TableWellFormed(table: seq<seq<Transition>>) {
    forall r :: 0 <= r < |table| ==>
      forall k :: 0 <= k < |table[r]| ==> table[r][k].from == r && table[r][k].rate > 0.0
  }

  lemma {:induction false} EmittedRows(table: seq<seq<Transition>>, i: nat)
    requires TableWellFormed(table)
    ensures RowOf(Emitted(table), i) == Row(table, i)
  {
    if table != [] {
      var rest, last := table[..|table| - 1], table[|table| - 1];
      EmittedRows(rest, i);
      NonZeroKeepsAll(last);
      RowOfConcat(Emitted(rest), last, i);
      RowOfRow(last, |table| - 1, i);
    }
  }

  /** The matrix builder receives the entries in the order of their rows. */
  lemma {:induction false} EmittedInOrder(table: seq<seq<Transition>>)
    requires TableWellFormed(table)
    ensures forall j, k :: 0 <= j < k < |Emitted(table)| ==> Emitted(table)[j].from <= Emitted(table)[k].from
    ensures forall k :: 0 <= k < |Emitted(table)| ==> Emitted(table)[k].from < |table|
  {
    if table != [] {
      EmittedInOrder(table[..|table| - 1]);
      NonZeroKeepsAll(table[|table| - 1]);
    }
  }

  /** At the flush the table has one row for each index, and none but that of the absorbing state
      is empty: flushToTransitionMatrix never meets a state without successors. */
  lemma ClosedTable(c: Config, n: Snapshot)
    requires c.problem.src.WellFormed() && Closed(c, n)
    ensures TableWellFormed(n.table)
    ensures forall r :: 1 <= r < |n.table| ==> n.table[r] != []
    ensures |n.ids| > 1 ==> |n.table| == |n.ids|
    ensures |n.table| > 0 ==> n.table[0] == []
  {
    forall r: nat | 1 <= r < |n.ids| ensures RowWellFormed(Row(n.table, r), r) {
      assert IsIndex(n.ids, r);
      var s :| s in n.ids && n.ids[s] == r;
      assert Known(c.problem, n.ids, s);
      FinalRowWellFormed(c, n.ids, Entry(r, s));
    }
    if |n.ids| > 1 {
      assert Row(n.table, |n.ids| - 1) != [];
    }
    assert |n.table| > 0 ==> Row(n.table, 0) == n.table[0];
    forall r | 0 <= r < |n.table|
      ensures r > 0 ==> n.table[r] != []
      ensures forall k :: 0 <= k < |n.table[r]| ==> n.table[r][k].from == r && n.table[r][k].rate > 0.0
    {
      assert n.table[r] == Row(n.table, r);
      if r > 0 {
        assert RowWellFormed(Row(n.table, r), r);
      }
    }
  }

  /** buildStateLabeling: the generator labels every index, index 0 by its all-ones pattern, and
      "Absorbing" is added at 0. */
  ghost function StateOf(ids: Numbering, i: nat): CompressedState
    requires IsIndex(ids, i)
  {
    var s :| s in ids && ids[s] == i;
    s
  }

  ghost function Labelling(c: Config, ids: Numbering): seq<set<string>>
    requires ProperNumbering(c.problem, ids)
  {
    seq(|ids|, i requires 0 <= i < |ids| && IsIndex(ids, i) =>
      c.problem.src.labels(StateOf(ids, i)) + (if i == 0 then {ABSORBING} else {}))
  }

  /** The finite chain that a finished exploration yields. */
  ghost function BuiltModel(c: Config, n: Snapshot): Model
    requires Closing(c, n)
  {
    Model(Emitted(ConnectAll(c, n).table), Labelling(c, n.ids))
  }

  lemma LabellingFits(c: Config, ids: Numbering)
    requires c.problem.src.WellFormed() && ProperNumbering(c.problem, ids)
    ensures |Labelling(c, ids)| == |ids| > 0
    ensures forall s :: Known(c.problem, ids, s) ==> Labelling(c, ids)[ids[s]] == c.problem.src.labels(s)
    ensures forall i :: 0 <= i < |ids| ==> (ABSORBING in Labelling(c, ids)[i] <==> i == 0)
  {
    forall i | 0 <= i < |ids| ensures ABSORBING in Labelling(c, ids)[i] <==> i == 0 {
      assert IsIndex(ids, i);
      var s := StateOf(ids, i);
      assert s in ids && ids[s] == i;
    }
    forall s | Known(c.problem, ids, s) ensures Labelling(c, ids)[ids[s]] == c.problem.src.labels(s) {
      assert IsIndex(ids, ids[s]);
      assert StateOf(ids, ids[s]) == s;
      assert ids[s] != 0;
    }
    assert c.problem.src.Absorbing() in ids;
  }

  /** The built chain represents the truncation at the registered states. */
  lemma BuiltModelRepresents(c: Config, n: Snapshot)
    requires Closing(c, n)
    ensures Represents(c.problem, n.ids, BuiltModel(c, n))
  {
    var m := ConnectAll(c, n);
    ConnectAllCloses(c, n);
    ClosedTable(c, m);
    LabellingFits(c, n.ids);
    EmittedRows(m.table, 0);
    forall s | Known(c.problem, n.ids, s) && c.problem.Live(s)
      ensures RowOf(Emitted(m.table), n.ids[s]) == CutRow(n.ids, n.ids[s], c.Succ(s))
              || (c.Succ(s) == [] && RowOf(Emitted(m.table), n.ids[s]) == SelfLoop(n.ids[s]))
    {
      assert Known(c.problem, m.ids, s);
      EmittedRows(m.table, n.ids[s]);
    }
  }
}
