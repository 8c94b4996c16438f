/** Reports and recalculations, statement by statement. The store has one connection, so a block's
    insert and every query and upsert is one step; everything else may come in between. */
module Jobs {
  import opened Seqs
  import opened Periods
  import opened Aggregation
  import opened Database
  import opened Reporting
  import opened Materialization

  /** The goroutines that store blocks: the collector's, the start-up backfill's, and one per gap. */
  datatype Owner = CollectorThread | StartupThread | GapThread(task: nat)

  /** A row that was read and is about to be written, first without and then with its supplier count. */
  datatype Held = Held(key: SummaryKey, totals: Contribution, suppliers: Option<nat>)

  /** A `ReportBlock` call: its block, the rows it writes, those it has written, the row in its hands. */
  datatype Report = Report(owner: Owner, block: Block, keys: set<SummaryKey>, done: set<SummaryKey>, held: Option<Held>)

  /** A `RecalculateSummariesForRange` call: how many of its three queries are made and what they saw,
      the rows it writes, those it has written, the row whose suppliers it has counted. */
  datatype Rebuild = Rebuild(owner: Owner, from: int, to: int, queries: nat, seen: Raw,
                             keys: set<SummaryKey>, done: set<SummaryKey>, counted: Option<(SummaryKey, nat)>)

  datatype Core = Core(db: Db, known: set<string>, reports: seq<Report>, rebuilds: seq<Rebuild>)

  datatype Statement =
    | StoreBlock(owner: Owner, block: Block)
    | ReadRow(report: nat, key: SummaryKey)
    | CountRow(report: nat)
    | WriteRow(report: nat)
    | AbandonReport(report: nat)
    | StartRebuild(owner: Owner, from: int, to: int)
    | Query(rebuild: nat)
    | CountRebuilt(rebuild: nat, key: SummaryKey)
    | Rewrite(rebuild: nat)
    | AbandonRebuild(rebuild: nat)

  predicate ReportOpen(r: Report) { !(r.keys <= r.done) }

  predicate RebuildOpen(r: Rebuild) { r.queries < 3 || !(r.keys <= r.done) }

  /** A goroutine's previous call has not returned yet. */
  predicate Busy(c: Core, owner: Owner) {
    || (exists j :: 0 <= j < |c.reports| && c.reports[j].owner == owner && ReportOpen(c.reports[j]))
    || (exists t :: 0 <= t < |c.rebuilds| && c.rebuilds[t].owner == owner && RebuildOpen(c.rebuilds[t]))
  }

  predicate CanDo(c: Core, step: Statement) {
    match step
    case StoreBlock(owner, _) => !Busy(c, owner)
    case StartRebuild(owner, _, _) => !Busy(c, owner)
    case ReadRow(j, k) => j < |c.reports| && c.reports[j].held.None? && k in c.reports[j].keys - c.reports[j].done
    case CountRow(j) => j < |c.reports| && c.reports[j].held.Some? && c.reports[j].held.value.suppliers.None?
    case WriteRow(j) => j < |c.reports| && c.reports[j].held.Some? && c.reports[j].held.value.suppliers.Some?
    case AbandonReport(j) => j < |c.reports| && ReportOpen(c.reports[j])
    case Query(t) => t < |c.rebuilds| && c.rebuilds[t].queries < 3
    case CountRebuilt(t, k) =>
      && t < |c.rebuilds| && c.rebuilds[t].queries == 3 && c.rebuilds[t].counted.None?
      && k in c.rebuilds[t].keys - c.rebuilds[t].done
    case Rewrite(t) => t < |c.rebuilds| && c.rebuilds[t].counted.Some?
    case AbandonRebuild(t) => t < |c.rebuilds| && RebuildOpen(c.rebuilds[t])
  }

  /** The insert transaction; the report that follows learns the block's services and knows its rows. */
  function Inserted(c: Core, owner: Owner, b: Block): Core {
    var known := c.known + NamedServices(b.raw);
    c.(db := InsertBlock(c.db, b.header, b.raw, b.dists), known := known,
       reports := c.reports + [Report(owner, b, ReportedKeys(known, b.header.blockTime), {}, None)])
  }

  function Put(db: Db, k: SummaryKey, row: Summary): Db { db.(summaries := db.summaries[k := row]) }

  /** The next of the three queries; after the last one the rows to write are known. */
  function Queried(r: Rebuild, raw: Raw, known: set<string>): Rebuild
    requires r.queries < 3
  {
    if r.queries == 0 then r.(queries := 1, seen := r.seen.(settlements := raw.settlements))
    else if r.queries == 1 then r.(queries := 2, seen := r.seen.(overservices := raw.overservices))
    else
      var seen := r.seen.(reimbursements := raw.reimbursements);
      r.(queries := 3, seen := seen,
         keys := RebuiltKeys(DayRange(seen, r.from, r.to), known + NamedServices(DayRange(seen, r.from, r.to))))
  }

  /** What a report writes: what it read, plus its block's share, and the suppliers it counted. */
  function ReportSummary(r: Report): Summary
    requires r.held.Some? && r.held.value.suppliers.Some?
  {
    Summary(Plus(r.held.value.totals, Total(Share(r.block.raw, r.held.value.key))), r.held.value.suppliers.value)
  }

  function Written(c: Core, j: nat): Core
    requires CanDo(c, WriteRow(j))
  {
    var r, k := c.reports[j], c.reports[j].held.value.key;
    c.(db := Put(c.db, k, ReportSummary(r)), reports := c.reports[j := r.(done := r.done + {k}, held := None)])
  }

  /** What a recalculation writes: the aggregate of what its queries saw, and the suppliers it counted. */
  function RebuildSummary(r: Rebuild): Summary
    requires r.counted.Some?
  {
    Summary(Total(RowEvents(r.seen, r.counted.value.0)), r.counted.value.1)
  }

  function Rewritten(c: Core, t: nat): Core
    requires CanDo(c, Rewrite(t))
  {
    var r, k := c.rebuilds[t], c.rebuilds[t].counted.value.0;
    c.(db := Put(c.db, k, RebuildSummary(r)), rebuilds := c.rebuilds[t := r.(done := r.done + {k}, counted := None)])
  }

  function Perform(c: Core, step: Statement): Core
    requires CanDo(c, step)
  {
    match step
    case StoreBlock(owner, b) => Inserted(c, owner, b)
    case ReadRow(j, k) =>
      c.(reports := c.reports[j := c.reports[j].(held := Some(Held(k, GetSummary(c.db, k).totals, None)))])
    case CountRow(j) =>
      var held := c.reports[j].held.value;
      c.(reports := c.reports[j := c.reports[j].(held := Some(held.(suppliers := Some(CountFor(RawOf(c.db),
          held.key)))))])
    case WriteRow(j) => Written(c, j)
    case AbandonReport(j) => c.(reports := c.reports[j := c.reports[j].(keys := c.reports[j].done, held := None)])
    case StartRebuild(owner, from, to) =>
      c.(rebuilds := c.rebuilds + [Rebuild(owner, from, to, 0, Raw([], [], []), {}, {}, None)])
    case Query(t) =>
      var r := Queried(c.rebuilds[t], RawOf(c.db), c.known);
      c.(rebuilds := c.rebuilds[t := r],
         known := if r.queries < 3 then c.known else c.known + NamedServices(DayRange(r.seen, r.from, r.to)))
    case CountRebuilt(t, k) =>
      c.(rebuilds := c.rebuilds[t := c.rebuilds[t].(counted := Some((k, CountFor(RawOf(c.db), k))))])
    case Rewrite(t) => Rewritten(c, t)
    case AbandonRebuild(t) =>
      c.(rebuilds := c.rebuilds[t := c.rebuilds[t].(queries := 3, keys := c.rebuilds[t].done, counted := None)])
  }

  // What every step keeps.

  ghost predicate ReportOk(r: Report) {
    && (forall k :: k in r.keys ==> Aligned(k.period, k.start) && k.start == Start(k.period, r.block.header.blockTime))
    && r.done <= r.keys
    && (r.held.Some? ==> r.held.value.key in r.keys - r.done)
  }

  /** The event tables only grow: what a query saw is a beginning of what is there. */
  ghost predicate SeenOk(r: Rebuild, raw: Raw) {
    && r.seen.settlements <= raw.settlements && r.seen.overservices <= raw.overservices
    && r.seen.reimbursements <= raw.reimbursements
  }

  ghost predicate RebuildOk(r: Rebuild, raw: Raw) {
    && r.queries <= 3 && (r.queries < 3 ==> r.keys == {}) && r.done <= r.keys && SeenOk(r, raw)
    && (forall k :: k in r.keys ==> Aligned(k.period, k.start))
    && (r.counted.Some? ==> r.queries == 3 && r.counted.value.0 in r.keys - r.done)
  }

  ghost predicate CoreOk(c: Core) {
    && (forall j :: 0 <= j < |c.reports| ==> ReportOk(c.reports[j]))
    && (forall t :: 0 <= t < |c.rebuilds| ==> RebuildOk(c.rebuilds[t], RawOf(c.db)))
  }

  lemma NewReportOk(owner: Owner, b: Block, known: set<string>)
    ensures ReportOk(Report(owner, b, ReportedKeys(known, b.header.blockTime), {}, None))
  {
    var ts := b.header.blockTime;
    StartIsInterval(Hour, 0, ts);
    StartIsInterval(Day, 0, ts);
    forall k | k in ReportedKeys(known, ts) ensures Aligned(k.period, k.start) && k.start == Start(k.period, ts) {
    }
  }
}
