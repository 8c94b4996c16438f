/** The ledger of a summary row: what concurrent reports and recalculations lose or count twice. */
module Ledger {
  import opened Seqs
  import opened Periods
  import opened Aggregation
  import opened Database
  import opened Store
  import opened Reporting
  import opened Materialization
  import opened Recalculation
  import opened Jobs

  // The steps keep the shape of the jobs.

  lemma InsertedOk(c: Core, owner: Owner, b: Block)
    requires CoreOk(c)
    ensures CoreOk(Inserted(c, owner, b))
  {
    hide ReportOk, ReportedKeys, InsertBlock, RawOf, Added;
    var c' := Inserted(c, owner, b);
    InsertBlockAppends(c.db, b.header, b.raw, b.dists);
    NewReportOk(owner, b, c'.known);
    forall t | 0 <= t < |c'.rebuilds| ensures RebuildOk(c'.rebuilds[t], RawOf(c'.db)) {
      assert RebuildOk(c.rebuilds[t], RawOf(c.db));
    }
  }

  lemma PutKeepsRaw(db: Db, k: SummaryKey, row: Summary)
    ensures RawOf(Put(db, k, row)) == RawOf(db)
    ensures GetSummary(Put(db, k, row), k) == row
    ensures forall k' :: k' != k ==> GetSummary(Put(db, k, row), k') == GetSummary(db, k')
  {
  }

  lemma QueriedOk(r: Rebuild, raw: Raw, known: set<string>)
    requires RebuildOk(r, raw) && r.queries < 3
    ensures RebuildOk(Queried(r, raw, known), raw)
  {
    hide RebuiltKeys, DayRange, NamedServices;
    if r.queries == 2 {
      var seen := r.seen.(reimbursements := raw.reimbursements);
      forall k ensures k in Queried(r, raw, known).keys ==> Aligned(k.period, k.start) {
        RebuiltKeysAre(seen, known + NamedServices(DayRange(seen, r.from, r.to)), r.from, r.to, k);
      }
    }
  }

  lemma StepOk(c: Core, step: Statement)
    requires CoreOk(c) && CanDo(c, step)
    ensures CoreOk(Perform(c, step))
  {
    hide RawOf, Inserted, CountFor, Queried, Put, Total, Share, RowEvents, NamedServices, Busy, GetSummary,
        ReportedKeys;
    match step
    case StoreBlock(owner, b) => InsertedOk(c, owner, b);
    case Query(t) => QueriedOk(c.rebuilds[t], RawOf(c.db), c.known);
    case WriteRow(j) =>
      var held := c.reports[j].held.value;
      PutKeepsRaw(c.db, held.key, ReportSummary(c.reports[j]));
    case Rewrite(t) =>
      var k := c.rebuilds[t].counted.value.0;
      PutKeepsRaw(c.db, k, RebuildSummary(c.rebuilds[t]));
    case _ =>
  }

  // The ledger.

  function Minus(a: Contribution, b: Contribution): Contribution {
    Contribution(
      a.claimsSettled - b.claimsSettled,
      a.claimsExpired - b.claimsExpired,
      a.claimsSlashed - b.claimsSlashed,
      a.claimsDiscarded - b.claimsDiscarded,
      a.claimedUpokt - b.claimedUpokt,
      a.effectiveUpokt - b.effectiveUpokt,
      a.numRelays - b.numRelays,
      a.estimatedRelays - b.estimatedRelays,
      a.numComputeUnits - b.numComputeUnits,
      a.estimatedComputeUnits - b.estimatedComputeUnits,
      a.overserviceCount - b.overserviceCount,
      a.reimbursementUpokt - b.reimbursementUpokt)
  }

  /** A stored block of the row's period that its report has not written into the row. */
  predicate Owes(r: Report, k: SummaryKey) { k !in r.done && k.start == Start(k.period, r.block.header.blockTime) }

  function Owed(r: Report, k: SummaryKey): Contribution {
    if Owes(r, k) then Total(Share(r.block.raw, k)) else ZERO
  }

  /** The shares of all stored blocks that are not written into the row: not yet, or, for a service
      that was unknown and for a report that failed, never. */
  function Unwritten(reports: seq<Report>, k: SummaryKey): Contribution {
    if |reports| == 0 then ZERO else Plus(Unwritten(reports[..|reports| - 1], k), Owed(reports[|reports| - 1], k))
  }

  /** What the row lacks of the aggregate of its raw events, apart from the unwritten shares. */
  function Deficit(c: Core, k: SummaryKey): Contribution {
    Minus(Total(RowEvents(RawOf(c.db), k)), Plus(GetSummary(c.db, k).totals, Unwritten(c.reports, k)))
  }

  /** How a step moves the deficit: an upsert by what the row had gained since the value it is based on
      was read or queried, and a block's insert by what was ignored of it, which is counted again. */
  function Overwritten(c: Core, step: Statement, k: SummaryKey): Contribution
    requires CanDo(c, step)
  {
    match step
    case StoreBlock(_, b) =>
      if k.start != Start(k.period, b.header.blockTime) then ZERO
      else Minus(Total(Share(Added(c.db, b.header.blockTime, b.raw), k)), Total(Share(b.raw, k)))
    case WriteRow(j) =>
      if c.reports[j].held.value.key != k then ZERO
      else Minus(GetSummary(c.db, k).totals, c.reports[j].held.value.totals)
    case Rewrite(t) =>
      if c.rebuilds[t].counted.value.0 != k then ZERO
      else Minus(GetSummary(c.db, k).totals, Total(RowEvents(c.rebuilds[t].seen, k)))
    case _ => ZERO
  }

  lemma {:induction false} UnwrittenUpdate(reports: seq<Report>, j: nat, r: Report, k: SummaryKey)
    requires j < |reports|
    ensures Unwritten(reports[j := r], k) == Plus(Minus(Unwritten(reports, k), Owed(reports[j], k)), Owed(r, k))
  {
    hide Owed;
    var n := |reports| - 1;
    if j < n {
      UnwrittenUpdate(reports[..n], j, r, k);
      assert reports[j := r][..n] == reports[..n][j := r];
    } else {
      assert reports[j := r][..n] == reports[..n];
    }
  }

  lemma TakeAndGive(a: Contribution, b: Contribution)
    ensures Plus(Minus(a, b), b) == a
  {
  }

  lemma UnwrittenSame(reports: seq<Report>, j: nat, r: Report, k: SummaryKey)
    requires j < |reports| && Owed(r, k) == Owed(reports[j], k)
    ensures Unwritten(reports[j := r], k) == Unwritten(reports, k)
  {
    hide Owed, Plus, Minus, Unwritten;
    UnwrittenUpdate(reports, j, r, k);
    TakeAndGive(Unwritten(reports, k), Owed(r, k));
  }

  lemma StoredRow(db: Db, b: Block, k: SummaryKey)
    requires Aligned(k.period, k.start)
    ensures var db' := InsertBlock(db, b.header, b.raw, b.dists);
      && GetSummary(db', k) == GetSummary(db, k)
      && Total(RowEvents(RawOf(db'), k)) == Plus(Total(RowEvents(RawOf(db), k)),
           if k.start == Start(k.period, b.header.blockTime)
               then Total(Share(Added(db, b.header.blockTime, b.raw), k)) else ZERO)
  {
    hide RowEvents, Share, Added, InsertBlock, Plus, Total;
    var ts := b.header.blockTime;
    InsertSummariesFrame(db, b);
    InsertBlockAppends(db, b.header, b.raw, b.dists);
    AddedAllAt(db, ts, b.raw);
    EventsOfMoment(Added(db, ts, b.raw), ts, k);
    RowEventsAppend(RawOf(db), Added(db, ts, b.raw), k);
    TotalAppend(RowEvents(RawOf(db), k), RowEvents(Added(db, ts, b.raw), k));
    NothingTotals();
  }

  lemma StoreArithmetic(x: Contribution, y: Contribution, r: Contribution, u: Contribution, z: Contribution)
    ensures Minus(Plus(x, y), Plus(r, Plus(u, z))) == Plus(Minus(x, Plus(r, u)), Minus(y, z))
    ensures Minus(ZERO, ZERO) == ZERO
  {
  }

  lemma WriteArithmetic(x: Contribution, r: Contribution, h: Contribution, s: Contribution, u: Contribution)
    ensures Minus(x, Plus(Plus(h, s), Plus(Minus(u, s), ZERO))) == Plus(Minus(x, Plus(r, u)), Minus(r, h))
    ensures Minus(x, Plus(h, u)) == Plus(Minus(x, Plus(r, u)), Minus(r, h))
  {
  }

  lemma StoreMoves(c: Core, owner: Owner, b: Block, k: SummaryKey)
    requires CanDo(c, StoreBlock(owner, b)) && Aligned(k.period, k.start)
    ensures Deficit(Inserted(c, owner, b), k) == Plus(Deficit(c, k), Overwritten(c, StoreBlock(owner, b), k))
  {
    hide RowEvents, Share, Added, InsertBlock, Plus, Minus, Total, RawOf, GetSummary, ReportedKeys, NamedServices, Busy;
    var c' := Inserted(c, owner, b);
    StoredRow(c.db, b, k);
    assert c'.reports[..|c.reports|] == c.reports;
    var report := c'.reports[|c.reports|];
    StoreArithmetic(Total(RowEvents(RawOf(c.db), k)),
                    if k.start == Start(k.period, b.header.blockTime)
                        then Total(Share(Added(c.db, b.header.blockTime, b.raw), k)) else ZERO,
                    GetSummary(c.db, k).totals, Unwritten(c.reports, k), Owed(report, k));
  }

  lemma WriteMoves(c: Core, j: nat, k: SummaryKey)
    requires CoreOk(c) && CanDo(c, WriteRow(j))
    ensures Deficit(Written(c, j), k) == Plus(Deficit(c, k), Overwritten(c, WriteRow(j), k))
  {
    hide RowEvents, Share, Plus, Minus, Total, RawOf, GetSummary, Put, Aligned, Start;
    var r, held := c.reports[j], c.reports[j].held.value;
    var r' := r.(done := r.done + {held.key}, held := None);
    assert ReportOk(r);
    PutKeepsRaw(c.db, held.key, ReportSummary(r));
    UnwrittenUpdate(c.reports, j, r', k);
    if held.key == k {
      WriteArithmetic(Total(RowEvents(RawOf(c.db), k)), GetSummary(c.db, k).totals, held.totals,
                      Total(Share(r.block.raw, k)), Unwritten(c.reports, k));
    } else {
      UnwrittenSame(c.reports, j, r', k);
      PlusLaws(Deficit(c, k), ZERO, ZERO);
    }
  }

  lemma RewriteMoves(c: Core, t: nat, k: SummaryKey)
    requires CanDo(c, Rewrite(t))
    ensures Deficit(Rewritten(c, t), k) == Plus(Deficit(c, k), Overwritten(c, Rewrite(t), k))
  {
    hide RowEvents, Plus, Minus, Total, RawOf, GetSummary, Put, Unwritten;
    var r, k' := c.rebuilds[t], c.rebuilds[t].counted.value.0;
    PutKeepsRaw(c.db, k', RebuildSummary(r));
    WriteArithmetic(Total(RowEvents(RawOf(c.db), k)), GetSummary(c.db, k).totals, Total(RowEvents(r.seen, k)), ZERO,
                    Unwritten(c.reports, k));
    PlusLaws(Deficit(c, k), ZERO, ZERO);
  }

  /** One step: the deficit of every row moves by exactly what the step overwrites. */
  lemma StepMoves(c: Core, step: Statement, k: SummaryKey)
    requires CoreOk(c) && CanDo(c, step) && Aligned(k.period, k.start)
    ensures Deficit(Perform(c, step), k) == Plus(Deficit(c, k), Overwritten(c, step, k))
  {
    hide RowEvents, Plus, Minus, Total, RawOf, GetSummary, Unwritten, Inserted, Written, Rewritten, Share,
        CountFor, Queried, Busy;
    PlusLaws(Deficit(c, k), ZERO, ZERO);
    match step
    case StoreBlock(owner, b) => StoreMoves(c, owner, b, k);
    case WriteRow(j) => WriteMoves(c, j, k);
    case Rewrite(t) => RewriteMoves(c, t, k);
    case ReadRow(j, _) => UnwrittenSame(c.reports, j, Perform(c, step).reports[j], k);
    case CountRow(j) => UnwrittenSame(c.reports, j, Perform(c, step).reports[j], k);
    case AbandonReport(j) => UnwrittenSame(c.reports, j, Perform(c, step).reports[j], k);
    case _ =>
  }

  // Whole runs: any blocks, fresh or repeated, any number of goroutines, any interleaving.

  ghost predicate IsCoreRun(cores: seq<Core>, steps: seq<Statement>) {
    && |cores| == |steps| + 1 && CoreOk(cores[0])
    && forall i :: 0 <= i < |steps| ==> CanDo(cores[i], steps[i]) && cores[i + 1] == Perform(cores[i], steps[i])
  }

  lemma {:induction false} RunOk(cores: seq<Core>, steps: seq<Statement>, i: nat)
    requires IsCoreRun(cores, steps) && i < |cores|
    ensures CoreOk(cores[i])
  {
    hide CoreOk, CanDo, Perform;
    if i > 0 {
      RunOk(cores, steps, i - 1);
      StepOk(cores[i - 1], steps[i - 1]);
    }
  }

  /** Everything overwritten in a row during the first `i` steps. */
  function Drift(cores: seq<Core>, steps: seq<Statement>, i: nat, k: SummaryKey): Contribution
    requires i <= |steps| <= |cores| && forall x :: 0 <= x < |steps| ==> CanDo(cores[x], steps[x])
  {
    if i == 0 then ZERO else Plus(Drift(cores, steps, i - 1, k), Overwritten(cores[i - 1], steps[i - 1], k))
  }

  lemma {:induction false} DeficitIsDrift(cores: seq<Core>, steps: seq<Statement>, i: nat, k: SummaryKey)
    requires IsCoreRun(cores, steps) && i < |cores| && Aligned(k.period, k.start)
    ensures Deficit(cores[i], k) == Plus(Deficit(cores[0], k), Drift(cores, steps, i, k))
  {
    hide CoreOk, CanDo, Perform, Deficit, Overwritten, Plus;
    PlusLaws(Deficit(cores[0], k), ZERO, ZERO);
    if i > 0 {
      DeficitIsDrift(cores, steps, i - 1, k);
      RunOk(cores, steps, i - 1);
      StepMoves(cores[i - 1], steps[i - 1], k);
      PlusLaws(Deficit(cores[0], k), Drift(cores, steps, i - 1, k), Overwritten(cores[i - 1], steps[i - 1], k));
    }
  }

  lemma DeficitMeans(c: Core, k: SummaryKey)
    ensures Total(RowEvents(RawOf(c.db), k)) == Plus(Plus(GetSummary(c.db, k).totals, Unwritten(c.reports, k)),
        Deficit(c, k))
  {
    hide Total, RowEvents, RawOf, GetSummary, Unwritten;
  }

  /** The ledger of every row, in every interleaving and at every moment: what the row shows, what is
      stored but unwritten, what it lacked at the start, and what was overwritten since, are together
      the aggregate of its raw events. */
  lemma LedgerHolds(cores: seq<Core>, steps: seq<Statement>, i: nat, k: SummaryKey)
    requires IsCoreRun(cores, steps) && i < |cores| && Aligned(k.period, k.start)
    ensures Total(RowEvents(RawOf(cores[i].db), k))
      == Plus(Plus(GetSummary(cores[i].db, k).totals, Unwritten(cores[i].reports, k)),
              Plus(Deficit(cores[0], k), Drift(cores, steps, i, k)))
  {
    hide CoreOk, CanDo, Perform, Deficit, Overwritten, Plus, Total, RowEvents, RawOf, GetSummary, Unwritten, Drift;
    DeficitIsDrift(cores, steps, i, k);
    DeficitMeans(cores[i], k);
  }

  lemma {:induction false} NothingOwed(reports: seq<Report>, k: SummaryKey)
    requires forall j :: 0 <= j < |reports| ==> !Owes(reports[j], k)
    ensures Unwritten(reports, k) == ZERO
  {
    hide Owes, Plus, Total, Share;
    if |reports| > 0 {
      assert !Owes(reports[|reports| - 1], k);
      NothingOwed(reports[..|reports| - 1], k);
      PlusLaws(ZERO, ZERO, ZERO);
    }
  }

  lemma BalanceIff(row: Contribution, drift: Contribution)
    ensures row == Plus(Plus(row, ZERO), Plus(ZERO, drift)) <==> drift == ZERO
  {
  }

  /** So once every report of its period has written it, a row that started right shows the aggregate
      if and only if what was overwritten adds up to nothing. */
  lemma TotalsExactIff(cores: seq<Core>, steps: seq<Statement>, i: nat, k: SummaryKey)
    requires IsCoreRun(cores, steps) && i < |cores| && Aligned(k.period, k.start)
    requires Deficit(cores[0], k) == ZERO
    requires forall j :: 0 <= j < |cores[i].reports| ==> !Owes(cores[i].reports[j], k)
    ensures GetSummary(cores[i].db, k).totals == Total(RowEvents(RawOf(cores[i].db), k))
      <==> Drift(cores, steps, i, k) == ZERO
  {
    hide CoreOk, CanDo, Perform, Deficit, Overwritten, Plus, Total, RowEvents, RawOf, GetSummary,
        Unwritten, Drift, Owes;
    LedgerHolds(cores, steps, i, k);
    NothingOwed(cores[i].reports, k);
    BalanceIff(GetSummary(cores[i].db, k).totals, Drift(cores, steps, i, k));
  }

  // What an upsert overwrites.

  /** Steps that end a report's hold on a row. */
  predicate Releases(step: Statement, j: nat) { step == WriteRow(j) || step == AbandonReport(j) }

  predicate Writes(c: Core, step: Statement, k: SummaryKey)
    requires CanDo(c, step)
  {
    || (step.WriteRow? && c.reports[step.report].held.value.key == k)
    || (step.Rewrite? && c.rebuilds[step.rebuild].counted.value.0 == k)
  }

  lemma HeldStays(c: Core, step: Statement, j: nat)
    requires CanDo(c, step) && j < |c.reports| && c.reports[j].held.Some? && !Releases(step, j)
    ensures var c' := Perform(c, step);
      && j < |c'.reports| && c'.reports[j].held.Some?
      && c'.reports[j].held.value.key == c.reports[j].held.value.key
      && c'.reports[j].held.value.totals == c.reports[j].held.value.totals
  {
    hide RawOf, GetSummary, CountFor, Put, ReportedKeys, NamedServices, InsertBlock, Busy, Queried, Total, Share,
        RowEvents, Plus;
  }

  lemma ReadHolds(c: Core, j: nat, k: SummaryKey)
    requires CanDo(c, ReadRow(j, k))
    ensures j < |c.reports| && Perform(c, ReadRow(j, k)).reports
      == c.reports[j := c.reports[j].(held := Some(Held(k, GetSummary(c.db, k).totals, None)))]
  {
  }

  lemma {:induction false} HeldIsRead(cores: seq<Core>, steps: seq<Statement>, r: nat, i: nat, j: nat, k: SummaryKey)
    requires IsCoreRun(cores, steps) && r < i <= |steps| && steps[r] == ReadRow(j, k)
    requires forall x :: r < x < i ==> !Releases(steps[x], j)
    ensures j < |cores[i].reports| && cores[i].reports[j].held.Some?
    ensures cores[i].reports[j].held.value.key == k
    ensures cores[i].reports[j].held.value.totals == GetSummary(cores[r].db, k).totals
    decreases i
  {
    hide CoreOk, CanDo, Perform, GetSummary;
    if r < i - 1 {
      HeldIsRead(cores, steps, r, i - 1, j, k);
      HeldStays(cores[i - 1], steps[i - 1], j);
    } else {
      ReadHolds(cores[r], j, k);
    }
  }

  /** A report overwrites what others changed in the row between its read and its write. */
  lemma ReportOverwrites(cores: seq<Core>, steps: seq<Statement>, r: nat, i: nat, j: nat, k: SummaryKey)
    requires IsCoreRun(cores, steps) && r < i < |steps| && steps[r] == ReadRow(j, k) && steps[i] == WriteRow(j)
    requires forall x :: r < x < i ==> !Releases(steps[x], j)
    ensures Overwritten(cores[i], steps[i], k)
         == Minus(GetSummary(cores[i].db, k).totals, GetSummary(cores[r].db, k).totals)
  {
    hide CoreOk, Perform, GetSummary, Minus;
    HeldIsRead(cores, steps, r, i, j, k);
  }

  lemma OnlyWritersWrite(c: Core, step: Statement, k: SummaryKey)
    requires CanDo(c, step) && !Writes(c, step, k)
    ensures GetSummary(Perform(c, step).db, k) == GetSummary(c.db, k)
  {
    hide RawOf, CountFor, ReportedKeys, NamedServices, Busy, Queried, Total, Share, RowEvents, Plus, InsertBlock;
    if step.StoreBlock? {
      InsertSummariesFrame(c.db, step.block);
    }
  }

  lemma {:induction false} UntouchedRow(cores: seq<Core>, steps: seq<Statement>, r: nat, i: nat, k: SummaryKey)
    requires IsCoreRun(cores, steps) && r <= i <= |steps|
    requires forall x :: r <= x < i ==> !Writes(cores[x], steps[x], k)
    ensures GetSummary(cores[i].db, k) == GetSummary(cores[r].db, k)
    decreases i
  {
    hide CoreOk, CanDo, Perform, GetSummary, Writes;
    if r < i {
      UntouchedRow(cores, steps, r, i - 1, k);
      OnlyWritersWrite(cores[i - 1], steps[i - 1], k);
    }
  }

  /** In particular nothing, when nobody else writes the row in between. */
  lemma UndisturbedReport(cores: seq<Core>, steps: seq<Statement>, r: nat, i: nat, j: nat, k: SummaryKey)
    requires IsCoreRun(cores, steps) && r < i < |steps| && steps[r] == ReadRow(j, k) && steps[i] == WriteRow(j)
    requires forall x :: r < x < i ==> !Releases(steps[x], j) && !Writes(cores[x], steps[x], k)
    ensures Overwritten(cores[i], steps[i], k) == ZERO
  {
    hide CoreOk, Perform, GetSummary;
    ReportOverwrites(cores, steps, r, i, j, k);
    UntouchedRow(cores, steps, r, i, k);
  }

  /** The event rows stored since each of a recalculation's queries. */
  function Later(seen: Raw, raw: Raw): Raw
    requires |seen.settlements| <= |raw.settlements| && |seen.overservices| <= |raw.overservices|
    requires |seen.reimbursements| <= |raw.reimbursements|
  {
    Raw(raw.settlements[|seen.settlements|..], raw.overservices[|seen.overservices|..],
        raw.reimbursements[|seen.reimbursements|..])
  }

  lemma RewriteArithmetic(seen: Contribution, later: Contribution, u: Contribution)
    ensures Minus(Plus(seen, later), Plus(seen, u)) == Minus(later, u)
    ensures Plus(seen, later) == seen <==> later == ZERO
  {
  }

  /** A recalculation forgets every earlier deficit and makes a new one: the row then lacks the events
      stored since its queries, except that blocks still to be reported are added once more. So the
      row is exact right after it if and only if the events stored since the queries contribute nothing. */
  lemma RewriteLeaves(c: Core, t: nat)
    requires CoreOk(c) && CanDo(c, Rewrite(t))
    ensures var k, later := c.rebuilds[t].counted.value.0, Later(c.rebuilds[t].seen, RawOf(c.db));
      && Deficit(Rewritten(c, t), k) == Minus(Total(RowEvents(later, k)), Unwritten(c.reports, k))
      && (GetSummary(Rewritten(c, t).db, k).totals == Total(RowEvents(RawOf(c.db), k)) <==>
            Total(RowEvents(later, k)) == ZERO)
  {
    hide RowEvents, Plus, Minus, Total, RawOf, GetSummary, Put, Unwritten;
    var r, k := c.rebuilds[t], c.rebuilds[t].counted.value.0;
    assert RebuildOk(r, RawOf(c.db));
    var later := Later(r.seen, RawOf(c.db));
    PutKeepsRaw(c.db, k, Summary(Total(RowEvents(r.seen, k)), c.rebuilds[t].counted.value.1));
    assert Append(r.seen, later) == RawOf(c.db);
    RowEventsAppend(r.seen, later, k);
    TotalAppend(RowEvents(r.seen, k), RowEvents(later, k));
    RewriteArithmetic(Total(RowEvents(r.seen, k)), Total(RowEvents(later, k)), Unwritten(c.reports, k));
  }

  // Supplier counts. They are taken afresh, but a count may be old when it is written.

  ghost predicate CountsBounded(c: Core) {
    && (forall k :: GetSummary(c.db, k).activeSuppliers <= CountFor(RawOf(c.db), k))
    && (forall j :: 0 <= j < |c.reports| && c.reports[j].held.Some? && c.reports[j].held.value.suppliers.Some? ==>
          c.reports[j].held.value.suppliers.value <= CountFor(RawOf(c.db), c.reports[j].held.value.key))
    && (forall t :: 0 <= t < |c.rebuilds| && c.rebuilds[t].counted.Some? ==>
          c.rebuilds[t].counted.value.1 <= CountFor(RawOf(c.db), c.rebuilds[t].counted.value.0))
  }

  lemma CountsGrow(a: Raw, b: Raw, k: SummaryKey)
    ensures CountFor(a, k) <= CountFor(Append(a, b), k)
  {
    hide Filter;
    var lo, hi, service := k.start, k.start + Length(k.period), ServiceArgument(k);
    SelectionsAppend(a, b, lo, hi, service);
    SelectionsAppend(During(a, lo, hi), During(b, lo, hi), lo, hi, service);
    SubsetSize(Suppliers(ServiceScope(During(a, lo, hi), service)),
        Suppliers(ServiceScope(During(Append(a, b), lo, hi), service)));
  }

  lemma SameSummary(db: Db, b: Block, k: SummaryKey)
    ensures GetSummary(InsertBlock(db, b.header, b.raw, b.dists), k) == GetSummary(db, k)
  {
    hide InsertBlock;
    InsertSummariesFrame(db, b);
  }

  lemma StoreBounds(c: Core, owner: Owner, b: Block)
    requires CountsBounded(c)
    ensures CountsBounded(Inserted(c, owner, b))
  {
    hide CountFor, RawOf, InsertBlock, GetSummary, Added, ReportedKeys, NamedServices;
    var c' := Inserted(c, owner, b);
    InsertBlockAppends(c.db, b.header, b.raw, b.dists);
    forall k ensures CountFor(RawOf(c.db), k) <= CountFor(RawOf(c'.db), k) && GetSummary(c'.db, k)
        == GetSummary(c.db, k) {
      CountsGrow(RawOf(c.db), Added(c.db, b.header.blockTime, b.raw), k);
      SameSummary(c.db, b, k);
    }
  }

  lemma QueryCountsNothing(r: Rebuild, raw: Raw, known: set<string>)
    requires r.queries < 3
    ensures Queried(r, raw, known).counted == r.counted
  {
    hide RebuiltKeys, DayRange, NamedServices;
  }

  lemma StepBounds(c: Core, step: Statement)
    requires CanDo(c, step) && CountsBounded(c)
    ensures CountsBounded(Perform(c, step))
  {
    hide CountFor, RawOf, GetSummary, Inserted, Put, Total, Share, RowEvents, Queried, Plus, Busy,
        NamedServices, DayRange;
    match step
    case StoreBlock(owner, b) => StoreBounds(c, owner, b);
    case WriteRow(j) => PutKeepsRaw(c.db, c.reports[j].held.value.key, ReportSummary(c.reports[j]));
    case Rewrite(t) => PutKeepsRaw(c.db, c.rebuilds[t].counted.value.0, RebuildSummary(c.rebuilds[t]));
    case Query(t) => QueryCountsNothing(c.rebuilds[t], RawOf(c.db), c.known);
    case _ =>
  }

  /** In every interleaving a row shows at most the suppliers there are. */
  lemma {:induction false} CountsNeverTooHigh(cores: seq<Core>, steps: seq<Statement>, i: nat)
    requires IsCoreRun(cores, steps) && i < |cores| && CountsBounded(cores[0])
    ensures CountsBounded(cores[i])
  {
    hide CountsBounded, CoreOk, CanDo, Perform;
    if i > 0 {
      CountsNeverTooHigh(cores, steps, i - 1);
      StepBounds(cores[i - 1], steps[i - 1]);
    }
  }
}
