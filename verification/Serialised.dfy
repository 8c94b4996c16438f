/** Where calls of the reporter exclude each other, nothing is overwritten. */
module Serialised {
  import opened Periods
  import opened Aggregation
  import opened Database
  import opened Reporting
  import opened Materialization
  import opened Jobs
  import opened Ledger

  /** No two calls of `ProcessBlock` or of the recalculation are under way: what a lock around each of
      them would give, and what the goroutines do not ensure by themselves. */
  ghost predicate Exclusive(c: Core) {
    && (forall i, j :: 0 <= i < |c.reports| && 0 <= j < |c.reports| ==>
          (ReportOpen(c.reports[i]) && ReportOpen(c.reports[j]) ==> i == j))
    && (forall s, t :: 0 <= s < |c.rebuilds| && 0 <= t < |c.rebuilds| ==>
          (RebuildOpen(c.rebuilds[s]) && RebuildOpen(c.rebuilds[t]) ==> s == t))
    && (forall j, t :: 0 <= j < |c.reports| && 0 <= t < |c.rebuilds| ==>
          !(ReportOpen(c.reports[j]) && RebuildOpen(c.rebuilds[t])))
  }

  /** The network row of a report's hour, or day. */
  function NetworkOf(r: Report, p: Period): SummaryKey { NetworkRow(p, Start(p, r.block.header.blockTime)) }

  /** What is held is what is there. */
  ghost predicate ReportCurrent(db: Db, r: Report) {
    && (r.held.Some? ==> r.held.value.totals == GetSummary(db, r.held.value.key).totals)
    && (r.held.Some? && r.held.value.suppliers.Some? ==>
          r.held.value.suppliers.value == CountFor(RawOf(db), r.held.value.key))
    && (forall p :: NetworkOf(r, p) in r.keys)
  }

  ghost predicate CountCurrent(db: Db, r: Rebuild) {
    r.counted.Some? ==> r.counted.value.1 == CountFor(RawOf(db), r.counted.value.0)
  }

  ghost predicate RebuildCurrent(db: Db, r: Rebuild) {
    RebuildOpen(r) ==>
      && (r.queries >= 1 ==> r.seen.settlements == RawOf(db).settlements)
      && (r.queries >= 2 ==> r.seen.overservices == RawOf(db).overservices)
      && (r.queries >= 3 ==> r.seen.reimbursements == RawOf(db).reimbursements)
      && CountCurrent(db, r)
  }

  ghost predicate NobodyOwes(c: Core, k: SummaryKey) {
    forall j :: 0 <= j < |c.reports| ==> !Owes(c.reports[j], k)
  }

  ghost predicate SuppliersRight(db: Db, k: SummaryKey) {
    GetSummary(db, k).activeSuppliers == |Suppliers(RowEvents(RawOf(db), k))|
  }

  /** The network rows: nothing lacking, and the right supplier count once nobody owes the row. */
  ghost predicate NetworkCurrent(c: Core, k: SummaryKey) {
    && Deficit(c, k) == ZERO
    && (NobodyOwes(c, k) ==> SuppliersRight(c.db, k))
  }

  ghost predicate Current(c: Core) {
    && CoreOk(c) && Exclusive(c)
    && (forall j :: 0 <= j < |c.reports| ==> ReportCurrent(c.db, c.reports[j]))
    && (forall t :: 0 <= t < |c.rebuilds| ==> RebuildCurrent(c.db, c.rebuilds[t]))
    && (forall p, start :: Aligned(p, start) ==> NetworkCurrent(c, NetworkRow(p, start)))
  }

  lemma NetworkKeysReported(known: set<string>, ts: int, p: Period)
    ensures NetworkRow(p, Start(p, ts)) in ReportedKeys(known, ts)
  {
    match p
    case Hour =>
    case Day =>
  }

  /** A row is owed only by a report that is still open. */
  lemma OwedByOpen(c: Core, p: Period, start: int, j: nat)
    requires Current(c) && j < |c.reports| && Owes(c.reports[j], NetworkRow(p, start))
    ensures ReportOpen(c.reports[j])
  {
    hide RawOf, GetSummary, CountFor, CoreOk, Exclusive, NetworkCurrent;
    assert ReportCurrent(c.db, c.reports[j]);
    assert NetworkOf(c.reports[j], p) in c.reports[j].keys;
  }

  lemma FreshStoresAll(db: Db, b: Block, k: SummaryKey)
    requires FreshBlock(db, b.raw, b.header.blockTime)
    ensures Minus(Total(Share(Added(db, b.header.blockTime, b.raw), k)), Total(Share(b.raw, k))) == ZERO
  {
    hide Total, Share, FreshBlock, Stamp, Added;
    FreshBlockAddsAll(db, b.raw, b.header.blockTime);
    StampKeepsTotals(b.raw, b.header.blockTime, k);
  }

  /** Another period's raw events do not change. */
  lemma StoredElsewhere(db: Db, b: Block, k: SummaryKey)
    requires Aligned(k.period, k.start) && k.start != Start(k.period, b.header.blockTime)
    ensures RowEvents(RawOf(InsertBlock(db, b.header, b.raw, b.dists)), k) == RowEvents(RawOf(db), k)
  {
    hide RowEvents, Added, InsertBlock, RawOf;
    var ts := b.header.blockTime;
    InsertBlockAppends(db, b.header, b.raw, b.dists);
    AddedAllAt(db, ts, b.raw);
    EventsOfMoment(Added(db, ts, b.raw), ts, k);
    RowEventsAppend(RawOf(db), Added(db, ts, b.raw), k);
    var mine := RowEvents(RawOf(db), k);
    assert Append(mine, Raw([], [], [])) == mine;
  }

  /** Nothing is open: every row the reports concern is written, nothing is held. */
  lemma ClosedHoldsNothing(c: Core, j: nat)
    requires CoreOk(c) && j < |c.reports| && !ReportOpen(c.reports[j])
    ensures c.reports[j].held.None?
  {
    assert ReportOk(c.reports[j]);
  }

  lemma StoreOverwritesNothing(c: Core, owner: Owner, b: Block, k: SummaryKey)
    requires Current(c) && CanDo(c, StoreBlock(owner, b)) && FreshBlock(c.db, b.raw, b.header.blockTime)
    ensures Overwritten(c, StoreBlock(owner, b), k) == ZERO
  {
    hide Total, Share, FreshBlock, Added, Current, Minus, Busy;
    FreshStoresAll(c.db, b, k);
  }

  lemma SelfMinus(a: Contribution)
    ensures Minus(a, a) == ZERO
  {
  }

  lemma WriteOverwritesNothing(c: Core, j: nat, k: SummaryKey)
    requires Current(c) && CanDo(c, WriteRow(j))
    ensures Overwritten(c, WriteRow(j), k) == ZERO
  {
    hide GetSummary, CoreOk, Exclusive, NetworkCurrent, CountFor, RawOf;
    assert ReportCurrent(c.db, c.reports[j]);
    SelfMinus(GetSummary(c.db, k).totals);
  }

  lemma CountedIsOpen(c: Core, t: nat)
    requires CoreOk(c) && t < |c.rebuilds| && c.rebuilds[t].counted.Some?
    ensures RebuildOpen(c.rebuilds[t]) && c.rebuilds[t].queries == 3
  {
    hide RawOf;
    assert RebuildOk(c.rebuilds[t], RawOf(c.db));
  }

  lemma RewriteOverwritesNothing(c: Core, t: nat, p: Period, start: int)
    requires Current(c) && CanDo(c, Rewrite(t)) && Aligned(p, start)
    ensures Overwritten(c, Rewrite(t), NetworkRow(p, start)) == ZERO
  {
    hide GetSummary, CoreOk, CountFor, RawOf, RowEvents, Total, Minus, Plus, Owes, Deficit;
    var k := NetworkRow(p, start);
    CountedIsOpen(c, t);
    assert RebuildCurrent(c.db, c.rebuilds[t]);
    assert c.rebuilds[t].seen == RawOf(c.db);
    forall j | 0 <= j < |c.reports| ensures !Owes(c.reports[j], k) {
      if Owes(c.reports[j], k) {
        OwedByOpen(c, p, start, j);
      }
    }
    NothingOwed(c.reports, k);
    assert NetworkCurrent(c, k);
    DeficitMeans(c, k);
    PlusLaws(GetSummary(c.db, k).totals, ZERO, ZERO);
    SelfMinus(GetSummary(c.db, k).totals);
  }

  /** A step of a run without errors in which each block that is stored is new to the tables. */
  ghost predicate Clean(c: Core, step: Statement) {
    && !step.AbandonReport? && !step.AbandonRebuild?
    && (step.StoreBlock? ==> FreshBlock(c.db, step.block.raw, step.block.header.blockTime))
  }

  lemma OverwritesNothing(c: Core, step: Statement, p: Period, start: int)
    requires Current(c) && CanDo(c, step) && Clean(c, step) && Aligned(p, start)
    ensures Overwritten(c, step, NetworkRow(p, start)) == ZERO
  {
    hide Current, FreshBlock, CanDo, GetSummary, Total, Minus, Share, Added, RowEvents;
    match step
    case StoreBlock(owner, b) => StoreOverwritesNothing(c, owner, b, NetworkRow(p, start));
    case WriteRow(j) => WriteOverwritesNothing(c, j, NetworkRow(p, start));
    case Rewrite(t) => RewriteOverwritesNothing(c, t, p, start);
    case _ =>
  }

  lemma StoreKeepsJobs(c: Core, owner: Owner, b: Block)
    requires Current(c) && CanDo(c, StoreBlock(owner, b)) && Exclusive(Inserted(c, owner, b))
    ensures var c' := Inserted(c, owner, b);
      && (forall j :: 0 <= j < |c'.reports| ==> ReportCurrent(c'.db, c'.reports[j]))
      && (forall t :: 0 <= t < |c'.rebuilds| ==> RebuildCurrent(c'.db, c'.rebuilds[t]))
  {
    hide RawOf, GetSummary, CountFor, CoreOk, NetworkCurrent, InsertBlock, ReportedKeys, NamedServices, Busy, Start;
    var c', n := Inserted(c, owner, b), |c.reports|;
    forall p ensures NetworkOf(c'.reports[n], p) in c'.reports[n].keys {
      NetworkKeysReported(c'.known, b.header.blockTime, p);
    }
    assert NetworkOf(c'.reports[n], Hour) in c'.reports[n].keys && ReportOpen(c'.reports[n]);
    forall j | 0 <= j < n ensures ReportCurrent(c'.db, c'.reports[j]) {
      assert c'.reports[j] == c.reports[j] && ReportCurrent(c.db, c.reports[j]);
      ClosedHoldsNothing(c, j);
    }
  }

  /** A step of a report touches that report alone. */
  lemma ReportStepKeepsJobs(c: Core, step: Statement)
    requires Current(c) && CanDo(c, step) && (step.ReadRow? || step.CountRow? || step.WriteRow?)
    ensures var c' := Perform(c, step);
      && (forall j :: 0 <= j < |c'.reports| ==> ReportCurrent(c'.db, c'.reports[j]))
      && (forall t :: 0 <= t < |c'.rebuilds| ==> RebuildCurrent(c'.db, c'.rebuilds[t]))
  {
    hide RawOf, GetSummary, CountFor, NetworkCurrent, Put, Total, Share, Plus, Start, Aligned, SeenOk, RebuildOk;
    var c', i := Perform(c, step), step.report;
    assert ReportOk(c.reports[i]) && ReportCurrent(c.db, c.reports[i]);
    assert ReportOpen(c.reports[i]);
    forall j | 0 <= j < |c'.reports| ensures ReportCurrent(c'.db, c'.reports[j]) {
      assert ReportCurrent(c.db, c.reports[j]);
      if j != i {
        assert c'.reports[j] == c.reports[j];
        ClosedHoldsNothing(c, j);
      } else {
        forall p ensures NetworkOf(c'.reports[j], p) in c'.reports[j].keys {
          assert NetworkOf(c.reports[j], p) in c.reports[j].keys;
        }
      }
    }
    forall t | 0 <= t < |c'.rebuilds| ensures RebuildCurrent(c'.db, c'.rebuilds[t]) {
      assert !RebuildOpen(c.rebuilds[t]);
    }
  }

  lemma RebuildStepKeepsJobs(c: Core, step: Statement)
    requires Current(c) && CanDo(c, step) && (step.StartRebuild? || step.Query? || step.CountRebuilt? || step.Rewrite?)
    ensures var c' := Perform(c, step);
      && (forall j :: 0 <= j < |c'.reports| ==> ReportCurrent(c'.db, c'.reports[j]))
      && (forall t :: 0 <= t < |c'.rebuilds| ==> RebuildCurrent(c'.db, c'.rebuilds[t]))
  {
    hide RawOf, GetSummary, CountFor, NetworkCurrent, Put, Total, RowEvents, Start, Aligned, Busy, SeenOk,
        RebuiltKeys, DayRange, NamedServices;
    var c' := Perform(c, step);
    if step.Rewrite? {
      var k := c.rebuilds[step.rebuild].counted.value.0;
      PutKeepsRaw(c.db, k, RebuildSummary(c.rebuilds[step.rebuild]));
      CountedIsOpen(c, step.rebuild);
    }
    forall j | 0 <= j < |c'.reports| ensures ReportCurrent(c'.db, c'.reports[j]) {
      assert ReportCurrent(c.db, c.reports[j]);
      if step.Rewrite? {
        ClosedHoldsNothing(c, j);
      }
    }
    forall t | 0 <= t < |c'.rebuilds| ensures RebuildCurrent(c'.db, c'.rebuilds[t]) {
      if t < |c.rebuilds| {
        assert RebuildCurrent(c.db, c.rebuilds[t]) && RebuildOk(c.rebuilds[t], RawOf(c.db));
      }
    }
  }

  lemma OtherKeepsOwers(c: Core, step: Statement, k: SummaryKey)
    requires CanDo(c, step) && !step.StoreBlock? && !step.WriteRow? && !step.Rewrite?
    requires NobodyOwes(Perform(c, step), k)
    ensures NobodyOwes(c, k) && Perform(c, step).db == c.db
  {
    hide RawOf, GetSummary, CountFor, Busy, Start, Inserted, Written, Rewritten, Queried, NamedServices, DayRange;
    forall j | 0 <= j < |c.reports| ensures !Owes(c.reports[j], k) {
      assert !Owes(Perform(c, step).reports[j], k);
    }
  }

  lemma StoreKeepsSuppliers(c: Core, owner: Owner, b: Block, p: Period, start: int)
    requires NetworkCurrent(c, NetworkRow(p, start)) && Aligned(p, start)
    requires NobodyOwes(Inserted(c, owner, b), NetworkRow(p, start))
    ensures SuppliersRight(Inserted(c, owner, b).db, NetworkRow(p, start))
  {
    hide RawOf, GetSummary, Deficit, RowEvents, Suppliers, InsertBlock, Start, ReportedKeys, NamedServices,
        Total, Added;
    var c', k := Inserted(c, owner, b), NetworkRow(p, start);
    assert !Owes(c'.reports[|c.reports|], k);
    StoredRow(c.db, b, k);
    StoredElsewhere(c.db, b, k);
    forall j | 0 <= j < |c.reports| ensures !Owes(c.reports[j], k) {
      assert !Owes(c'.reports[j], k);
    }
  }

  /** An upsert with a fresh count leaves the row's supplier count right. */
  lemma PutKeepsSuppliers(db: Db, put: SummaryKey, row: Summary, k: SummaryKey)
    requires k.NetworkRow? && (put == k ==> row.activeSuppliers == CountFor(RawOf(db), k))
    requires put != k ==> SuppliersRight(db, k)
    ensures SuppliersRight(Put(db, put, row), k)
  {
    hide RawOf, GetSummary, RowEvents, Suppliers, Put, CountFor, Total;
    PutKeepsRaw(db, put, row);
    CountForIsExact(RawOf(db), k);
  }

  lemma WriteKeepsSuppliers(c: Core, j: nat, k: SummaryKey)
    requires NetworkCurrent(c, k) && CanDo(c, WriteRow(j)) && ReportCurrent(c.db, c.reports[j])
    requires k.NetworkRow? && NobodyOwes(Written(c, j), k)
    ensures SuppliersRight(Written(c, j).db, k)
  {
    hide RawOf, GetSummary, Deficit, RowEvents, Suppliers, Start, Put, Total, Share, Plus, CountFor;
    var r, held := c.reports[j], c.reports[j].held.value;
    if held.key != k {
      forall i | 0 <= i < |c.reports| ensures !Owes(c.reports[i], k) {
        assert !Owes(Written(c, j).reports[i], k);
      }
    }
    PutKeepsSuppliers(c.db, held.key, ReportSummary(r), k);
  }

  lemma RebuildCount(r: Rebuild)
    requires r.counted.Some?
    ensures RebuildSummary(r).activeSuppliers == r.counted.value.1
  {
    hide Total, RowEvents;
  }

  lemma RewriteKeepsSuppliers(c: Core, t: nat, k: SummaryKey)
    requires CanDo(c, Rewrite(t)) && CountCurrent(c.db, c.rebuilds[t])
    requires k.NetworkRow? && SuppliersRight(c.db, k)
    ensures SuppliersRight(Rewritten(c, t).db, k)
  {
    hide RawOf, SuppliersRight, Put, CountFor, RebuildSummary;
    RebuildCount(c.rebuilds[t]);
    PutKeepsSuppliers(c.db, c.rebuilds[t].counted.value.0, RebuildSummary(c.rebuilds[t]), k);
  }

  lemma RewriteKeepsOwers(c: Core, t: nat, k: SummaryKey)
    requires CanDo(c, Rewrite(t)) && NobodyOwes(Rewritten(c, t), k)
    ensures NobodyOwes(c, k)
  {
    hide Owes, RawOf, RowEvents, Total, Put;
    forall j | 0 <= j < |c.reports| ensures !Owes(c.reports[j], k) {
      assert !Owes(Rewritten(c, t).reports[j], k);
    }
  }

  lemma SuppliersStay(c: Core, step: Statement, p: Period, start: int)
    requires Current(c) && CanDo(c, step) && Clean(c, step) && Aligned(p, start)
    requires NobodyOwes(Perform(c, step), NetworkRow(p, start))
    ensures SuppliersRight(Perform(c, step).db, NetworkRow(p, start))
  {
    hide RawOf, GetSummary, CountFor, CountCurrent, SuppliersRight, Deficit, RowEvents, Suppliers, CoreOk,
        Exclusive, FreshBlock, Busy, Start,
         NobodyOwes, ReportCurrent, Inserted, Written, Rewritten, Queried;
    var k := NetworkRow(p, start);
    assert NetworkCurrent(c, k);
    match step
    case StoreBlock(owner, b) => StoreKeepsSuppliers(c, owner, b, p, start);
    case WriteRow(j) => WriteKeepsSuppliers(c, j, k);
    case Rewrite(t) =>
      CountedIsOpen(c, t);
      RewriteKeepsOwers(c, t, k);
      RewriteKeepsSuppliers(c, t, k);
    case _ => OtherKeepsOwers(c, step, k);
  }

  lemma CurrentParts(c: Core, p: Period, start: int)
    requires Current(c) && Aligned(p, start)
    ensures CoreOk(c) && NetworkCurrent(c, NetworkRow(p, start))
  {
    hide CoreOk, Exclusive, ReportCurrent, RebuildCurrent, NetworkCurrent, Aligned;
  }

  lemma NetworkStaysCurrent(c: Core, step: Statement, p: Period, start: int)
    requires Current(c) && CanDo(c, step) && Clean(c, step) && Aligned(p, start)
    ensures NetworkCurrent(Perform(c, step), NetworkRow(p, start))
  {
    hide Current, Perform, CanDo, Clean, CoreOk, Aligned, Deficit, GetSummary, RawOf, RowEvents, Suppliers,
        NobodyOwes, Overwritten, Plus;
    CurrentParts(c, p, start);
    StepMoves(c, step, NetworkRow(p, start));
    OverwritesNothing(c, step, p, start);
    PlusLaws(ZERO, ZERO, ZERO);
    if NobodyOwes(Perform(c, step), NetworkRow(p, start)) {
      SuppliersStay(c, step, p, start);
    }
  }

  lemma StepKeepsJobs(c: Core, step: Statement)
    requires Current(c) && CanDo(c, step) && Clean(c, step) && Exclusive(Perform(c, step))
    ensures var c' := Perform(c, step);
      && (forall j :: 0 <= j < |c'.reports| ==> ReportCurrent(c'.db, c'.reports[j]))
      && (forall t :: 0 <= t < |c'.rebuilds| ==> RebuildCurrent(c'.db, c'.rebuilds[t]))
  {
    if step.StoreBlock? {
      StoreKeepsJobs(c, step.owner, step.block);
    } else {
      hide Current, Exclusive, Perform, ReportCurrent, RebuildCurrent, CanDo, FreshBlock;
      if step.ReadRow? || step.CountRow? || step.WriteRow? {
        ReportStepKeepsJobs(c, step);
      } else {
        RebuildStepKeepsJobs(c, step);
      }
    }
  }

  lemma StepStaysCurrent(c: Core, step: Statement)
    requires Current(c) && CanDo(c, step) && Clean(c, step) && Exclusive(Perform(c, step))
    ensures Current(Perform(c, step))
  {
    hide Perform, CanDo, Clean, CoreOk, Exclusive, ReportCurrent, RebuildCurrent, NetworkCurrent, Aligned;
    StepOk(c, step);
    StepKeepsJobs(c, step);
    forall p, start | Aligned(p, start) ensures NetworkCurrent(Perform(c, step), NetworkRow(p, start)) {
      NetworkStaysCurrent(c, step, p, start);
    }
  }

  /** Network rows that nobody owes are exact. */
  lemma CurrentIsExact(c: Core, p: Period, start: int)
    requires Current(c) && Aligned(p, start) && NobodyOwes(c, NetworkRow(p, start))
    ensures RowExact(c.db, NetworkRow(p, start))
  {
    hide CoreOk, Exclusive, ReportCurrent, RebuildCurrent, Deficit, GetSummary, RawOf, RowEvents, Suppliers, Total,
        Owes, Unwritten, Plus;
    var k := NetworkRow(p, start);
    assert NetworkCurrent(c, k);
    NothingOwed(c.reports, k);
    DeficitMeans(c, k);
    PlusLaws(GetSummary(c.db, k).totals, ZERO, ZERO);
  }

  /** A database with exact network rows and no call under way. */
  lemma StartIsCurrent(c: Core)
    requires c.reports == [] && c.rebuilds == [] && NetworkExact(c.db)
    ensures Current(c)
  {
    hide RowEvents, Suppliers, Total, RawOf, GetSummary;
    forall p, start | Aligned(p, start) ensures NetworkCurrent(c, NetworkRow(p, start)) {
      assert RowExact(c.db, NetworkRow(p, start));
      PlusLaws(GetSummary(c.db, NetworkRow(p, start)).totals, ZERO, ZERO);
      SelfMinus(GetSummary(c.db, NetworkRow(p, start)).totals);
    }
  }

  lemma {:induction false} ExclusiveRunStaysCurrent(cores: seq<Core>, steps: seq<Statement>, i: nat)
    requires IsCoreRun(cores, steps) && i < |cores|
    requires cores[0].reports == [] && cores[0].rebuilds == [] && NetworkExact(cores[0].db)
    requires forall x :: 0 <= x < |cores| ==> Exclusive(cores[x])
    requires forall x :: 0 <= x < |steps| ==> Clean(cores[x], steps[x])
    ensures Current(cores[i])
  {
    hide Current, CanDo, Perform, Clean, Exclusive, NetworkExact, CoreOk;
    if i == 0 {
      StartIsCurrent(cores[0]);
    } else {
      ExclusiveRunStaysCurrent(cores, steps, i - 1);
      assert Exclusive(cores[i]) && cores[i] == Perform(cores[i - 1], steps[i - 1]) by {
        assert cores[i - 1 + 1] == Perform(cores[i - 1], steps[i - 1]);
      }
      StepStaysCurrent(cores[i - 1], steps[i - 1]);
    }
  }

  /** In every interleaving of calls that exclude each other, of fresh blocks and without errors: a
      network row that every report of its period has written is exact. */
  lemma ExclusiveRowsExact(cores: seq<Core>, steps: seq<Statement>, i: nat, p: Period, start: int)
    requires IsCoreRun(cores, steps) && i < |cores| && Aligned(p, start)
    requires cores[0].reports == [] && cores[0].rebuilds == [] && NetworkExact(cores[0].db)
    requires forall x :: 0 <= x < |cores| ==> Exclusive(cores[x])
    requires forall x :: 0 <= x < |steps| ==> Clean(cores[x], steps[x])
    requires NobodyOwes(cores[i], NetworkRow(p, start))
    ensures RowExact(cores[i].db, NetworkRow(p, start))
  {
    hide IsCoreRun, Current, NetworkExact, Clean, Exclusive, NobodyOwes, RowExact;
    ExclusiveRunStaysCurrent(cores, steps, i);
    CurrentIsExact(cores[i], p, start);
  }
}
