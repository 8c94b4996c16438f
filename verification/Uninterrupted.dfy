/** Calls that nothing interrupts: performed statement by statement, in any order of the rows, they do
    what the methods of the reporter do at once. */
module Uninterrupted {
  import opened Seqs
  import opened Aggregation
  import opened Database
  import opened Reporting
  import opened Materialization
  import opened Backfilling
  import opened Jobs

  /** The statements one after the other; None when one of them cannot be performed. */
  function Performed(c: Core, steps: seq<Statement>): Option<Core>
    decreases |steps|
  {
    if |steps| == 0 then Some(c)
    else if CanDo(c, steps[0]) then Performed(Perform(c, steps[0]), steps[1..]) else None
  }

  /** Every row once. */
  ghost predicate Enumerates(order: seq<SummaryKey>, keys: set<SummaryKey>) {
    && (forall k :: k in order <==> k in keys)
    && (forall i, j :: 0 <= i < j < |order| ==> order[i] != order[j])
  }

  lemma EnumeratesRest(order: seq<SummaryKey>, keys: set<SummaryKey>)
    requires Enumerates(order, keys) && order != []
    ensures order[0] in keys && Enumerates(order[1..], keys - {order[0]})
  {
    var rest := order[1..];
    forall k ensures k in rest <==> k in keys - {order[0]} {
      if k in rest {
        var i :| 0 <= i < |rest| && rest[i] == k;
        assert order[i + 1] == k && order[0] != order[i + 1];
      }
      if k in keys && k != order[0] {
        var i :| 0 <= i < |order| && order[i] == k;
        assert rest[i - 1] == k;
      }
    }
  }

  lemma PutIsOverwrite(db: Db, done: set<SummaryKey>, row: SummaryKey -> Summary, k: SummaryKey)
    requires k !in done
    ensures Put(WithRows(db, done, row), k, row(k)) == WithRows(db, done + {k}, row)
    ensures RawOf(WithRows(db, done, row)) == RawOf(db)
    ensures GetSummary(WithRows(db, done, row), k) == GetSummary(db, k)
  {
    OverwriteOne(db.summaries, done, row, k);
    OverwriteElsewhere(db.summaries, done, row, k);
  }

  // 1. Reports.

  function ReportScript(j: nat, order: seq<SummaryKey>): seq<Statement> {
    if |order| == 0 then []
    else [ReadRow(j, order[0]), CountRow(j), WriteRow(j)] + ReportScript(j, order[1..])
  }

  /** A report that has written the rows of `done`, starting from `base`. */
  function ReportAt(base: Core, j: nat, done: set<SummaryKey>): Core
    requires j < |base.reports|
  {
    base.(db := WithRows(base.db, done, AccumulatedRow(base.db, base.reports[j].block.raw)),
          reports := base.reports[j := base.reports[j].(done := done, held := None)])
  }

  lemma RowReported(base: Core, j: nat, done: set<SummaryKey>, k: SummaryKey)
    requires j < |base.reports| && k in base.reports[j].keys - done
    ensures var c := ReportAt(base, j, done);
      && CanDo(c, ReadRow(j, k))
      && var c1 := Perform(c, ReadRow(j, k));
         && CanDo(c1, CountRow(j))
         && var c2 := Perform(c1, CountRow(j));
            && CanDo(c2, WriteRow(j)) && Perform(c2, WriteRow(j)) == ReportAt(base, j, done + {k})
  {
    hide WithRows, RawOf, GetSummary, CountFor, Total, Share, Plus, Put, Busy;
    var row := AccumulatedRow(base.db, base.reports[j].block.raw);
    PutIsOverwrite(base.db, done, row, k);
    var c := ReportAt(base, j, done);
    var c2 := Perform(Perform(c, ReadRow(j, k)), CountRow(j));
    assert ReportSummary(c2.reports[j]) == row(k);
    assert c2.reports[j := c2.reports[j].(done := done + {k}, held := None)]
        == base.reports[j := base.reports[j].(done := done + {k}, held := None)];
  }

  lemma NothingToDo(c: Core, steps: seq<Statement>)
    requires steps == []
    ensures Performed(c, steps) == Some(c)
  {
  }

  lemma PerformedStep(c: Core, steps: seq<Statement>)
    requires |steps| > 0 && CanDo(c, steps[0])
    ensures Performed(c, steps) == Performed(Perform(c, steps[0]), steps[1..])
  {
  }

  lemma AllDone(done: set<SummaryKey>, keys: set<SummaryKey>)
    requires done <= keys && Enumerates([], keys - done)
    ensures done == keys
  {
    forall k | k in keys ensures k in done {
      assert k in keys - done ==> k in [];
    }
  }

  lemma {:induction false} RowsReported(base: Core, j: nat, done: set<SummaryKey>, order: seq<SummaryKey>)
    requires j < |base.reports| && done <= base.reports[j].keys
    requires Enumerates(order, base.reports[j].keys - done)
    ensures Performed(ReportAt(base, j, done), ReportScript(j, order))
         == Some(ReportAt(base, j, base.reports[j].keys))
    decreases |order|
  {
    hide ReportAt, Perform, CanDo, Enumerates, Performed;
    var keys := base.reports[j].keys;
    if |order| == 0 {
      AllDone(done, keys);
      NothingToDo(ReportAt(base, j, done), ReportScript(j, order));
    } else {
      var k, steps, c := order[0], ReportScript(j, order), ReportAt(base, j, done);
      EnumeratesRest(order, keys - done);
      RowReported(base, j, done, k);
      var rest := ReportScript(j, order[1..]);
      assert steps[1..] == [CountRow(j), WriteRow(j)] + rest;
      assert steps[1..][1..] == [WriteRow(j)] + rest;
      assert steps[1..][1..][1..] == rest;
      var c1 := Perform(c, ReadRow(j, k));
      var c2 := Perform(c1, CountRow(j));
      PerformedStep(c, steps);
      PerformedStep(c1, steps[1..]);
      PerformedStep(c2, steps[1..][1..]);
      assert keys - done - {k} == keys - (done + {k});
      RowsReported(base, j, done + {k}, order[1..]);
    }
  }

  /** Nothing is written yet. */
  lemma NoRowsYet(base: Core, j: nat)
    requires j < |base.reports| && base.reports[j].done == {} && base.reports[j].held == None
    ensures ReportAt(base, j, {}) == base
  {
    WithNoRows(base.db, AccumulatedRow(base.db, base.reports[j].block.raw));
  }

  /** An uninterrupted `ProcessBlock`, its rows in any order: the state after it is the one that
      `ReportBlock` is proved to reach, and its report is closed. */
  lemma UninterruptedReport(c: Core, owner: Owner, b: Block, order: seq<SummaryKey>)
    requires !Busy(c, owner)
    requires Enumerates(order, ReportedKeys(c.known + NamedServices(b.raw), b.header.blockTime))
    ensures var end := Performed(c, [StoreBlock(owner, b)] + ReportScript(|c.reports|, order));
      && end.Some?
      && Monitor(end.value.db, end.value.known) == Deliver(Monitor(c.db, c.known), b)
      && |end.value.reports| == |c.reports| + 1 && !ReportOpen(end.value.reports[|c.reports|])
  {
    hide Enumerates, ReportedKeys, NamedServices, WithRows, AccumulatedRow, InsertBlock, Busy, Performed;
    var base, j, steps := Inserted(c, owner, b), |c.reports|, [StoreBlock(owner, b)] + ReportScript(|c.reports|, order);
    assert steps[1..] == ReportScript(j, order);
    PerformedStep(c, steps);
    NoRowsYet(base, j);
    assert base.reports[j].keys - {} == base.reports[j].keys;
    RowsReported(base, j, {}, order);
  }

  // 2. Recalculations.

  function RebuildScript(t: nat, order: seq<SummaryKey>): seq<Statement> {
    if |order| == 0 then [] else [CountRebuilt(t, order[0]), Rewrite(t)] + RebuildScript(t, order[1..])
  }

  /** A recalculation that has rewritten the rows of `done`, starting from `base`. */
  function RebuildAt(base: Core, t: nat, done: set<SummaryKey>): Core
    requires t < |base.rebuilds|
  {
    base.(db := WithRows(base.db, done, RebuiltRow(base.db)),
          rebuilds := base.rebuilds[t := base.rebuilds[t].(done := done, counted := None)])
  }

  lemma RowRebuilt(base: Core, t: nat, done: set<SummaryKey>, k: SummaryKey)
    requires t < |base.rebuilds| && k in base.rebuilds[t].keys - done
    requires base.rebuilds[t].queries == 3 && base.rebuilds[t].seen == RawOf(base.db)
    ensures var c := RebuildAt(base, t, done);
      && CanDo(c, CountRebuilt(t, k))
      && var c1 := Perform(c, CountRebuilt(t, k));
         && CanDo(c1, Rewrite(t)) && Perform(c1, Rewrite(t)) == RebuildAt(base, t, done + {k})
  {
    hide WithRows, RawOf, GetSummary, CountFor, Total, Plus, Put, Busy, RowEvents;
    var row := RebuiltRow(base.db);
    PutIsOverwrite(base.db, done, row, k);
    var c1 := Perform(RebuildAt(base, t, done), CountRebuilt(t, k));
    assert RebuildSummary(c1.rebuilds[t]) == row(k);
    assert c1.rebuilds[t := c1.rebuilds[t].(done := done + {k}, counted := None)]
        == base.rebuilds[t := base.rebuilds[t].(done := done + {k}, counted := None)];
  }

  lemma {:induction false} RowsRebuilt(base: Core, t: nat, done: set<SummaryKey>, order: seq<SummaryKey>)
    requires t < |base.rebuilds| && done <= base.rebuilds[t].keys
    requires base.rebuilds[t].queries == 3 && base.rebuilds[t].seen == RawOf(base.db)
    requires Enumerates(order, base.rebuilds[t].keys - done)
    ensures Performed(RebuildAt(base, t, done), RebuildScript(t, order))
         == Some(RebuildAt(base, t, base.rebuilds[t].keys))
    decreases |order|
  {
    hide RebuildAt, Perform, CanDo, Enumerates, RawOf, Performed;
    var keys := base.rebuilds[t].keys;
    if |order| == 0 {
      AllDone(done, keys);
      NothingToDo(RebuildAt(base, t, done), RebuildScript(t, order));
    } else {
      var k, steps := order[0], RebuildScript(t, order);
      EnumeratesRest(order, keys - done);
      RowRebuilt(base, t, done, k);
      var rest := RebuildScript(t, order[1..]);
      assert steps[1..] == [Rewrite(t)] + rest;
      assert steps[1..][1..] == rest;
      var c := RebuildAt(base, t, done);
      PerformedStep(c, steps);
      PerformedStep(Perform(c, CountRebuilt(t, k)), steps[1..]);
      assert keys - done - {k} == keys - (done + {k});
      RowsRebuilt(base, t, done + {k}, order[1..]);
    }
  }

  lemma NothingRewritten(base: Core, t: nat)
    requires t < |base.rebuilds| && base.rebuilds[t].done == {} && base.rebuilds[t].counted == None
    ensures RebuildAt(base, t, {}) == base
  {
    WithNoRows(base.db, RebuiltRow(base.db));
  }

  /** The state after the three queries. */
  function AllQueried(c: Core, owner: Owner, from: int, to: int): Core {
    var known := c.known + NamedServices(DayRange(RawOf(c.db), from, to));
    c.(known := known,
       rebuilds := c.rebuilds + [Rebuild(owner, from, to, 3, RawOf(c.db),
                                         RebuiltKeys(DayRange(RawOf(c.db), from, to), known), {}, None)])
  }

  lemma QueriesPerformed(c: Core, owner: Owner, from: int, to: int, rest: seq<Statement>)
    requires !Busy(c, owner)
    ensures var t := |c.rebuilds|;
      Performed(c, [StartRebuild(owner, from, to), Query(t), Query(t), Query(t)] + rest)
      == Performed(AllQueried(c, owner, from, to), rest)
  {
    hide Busy, RawOf, NamedServices, DayRange, RebuiltKeys, Performed;
    var t := |c.rebuilds|;
    var steps := [StartRebuild(owner, from, to), Query(t), Query(t), Query(t)] + rest;
    PerformedStep(c, steps);
    var c1 := Perform(c, steps[0]);
    assert steps[1..] == [Query(t), Query(t), Query(t)] + rest;
    PerformedStep(c1, steps[1..]);
    var c2 := Perform(c1, Query(t));
    assert steps[1..][1..] == [Query(t), Query(t)] + rest;
    PerformedStep(c2, steps[1..][1..]);
    var c3 := Perform(c2, Query(t));
    assert steps[1..][1..][1..] == [Query(t)] + rest;
    PerformedStep(c3, steps[1..][1..][1..]);
    var c4 := Perform(c3, Query(t));
    assert steps[1..][1..][1..][1..] == rest;
    assert c4 == AllQueried(c, owner, from, to);
  }

  /** An uninterrupted recalculation, its rows in any order: the state after it is the one that
      `RecalculateSummariesForRange` is proved to reach. */
  lemma UninterruptedRebuild(c: Core, owner: Owner, from: int, to: int, order: seq<SummaryKey>)
    requires !Busy(c, owner)
    requires var range := DayRange(RawOf(c.db), from, to);
      Enumerates(order, RebuiltKeys(range, c.known + NamedServices(range)))
    ensures var t := |c.rebuilds|;
      var end := Performed(c, [StartRebuild(owner, from, to), Query(t), Query(t), Query(t)] + RebuildScript(t, order));
      && end.Some?
      && Monitor(end.value.db, end.value.known) == Recalculate(Monitor(c.db, c.known), from, to)
      && |end.value.rebuilds| == |c.rebuilds| + 1 && !RebuildOpen(end.value.rebuilds[t])
  {
    hide Enumerates, RebuiltKeys, NamedServices, WithRows, RebuiltRow, Busy, RawOf, DayRange, Performed;
    var base, t := AllQueried(c, owner, from, to), |c.rebuilds|;
    QueriesPerformed(c, owner, from, to, RebuildScript(t, order));
    NothingRewritten(base, t);
    assert base.rebuilds[t].keys - {} == base.rebuilds[t].keys;
    RowsRebuilt(base, t, {}, order);
    assert RebuildAt(base, t, base.rebuilds[t].keys).rebuilds[t]
        == base.rebuilds[t].(done := base.rebuilds[t].keys, counted := None);
  }
}
