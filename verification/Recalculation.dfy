/** What a recalculation guarantees, whatever the summary tables held before. */
module Recalculation {
  import opened Seqs
  import opened Periods
  import opened Aggregation
  import opened Database
  import opened Reporting
  import opened Materialization

  /** The rows a recalculation of [from, to] replaces: the hours and days of the whole days
      around the range that hold at least one raw event, for the network and the known services. */
  ghost predicate Touched(raw: Raw, known: set<string>, from: int, to: int, k: SummaryKey) {
    && Aligned(k.period, k.start)
    && DayStart(from) <= k.start < DayEnd(to)
    && InPeriod(raw, k.period, k.start) != Raw([], [], [])
    && (k.ServiceRow? ==> k.service in known)
  }

  lemma StartOccurs<T(!new)>(rows: seq<T>, inRange: T -> bool, inPeriod: T -> bool, startOf: T -> int, start: int)
    requires forall x :: x in rows ==> (inPeriod(x) ==> inRange(x)) && (startOf(x) == start <==> inPeriod(x))
    ensures start in KeysOf(Filter(rows, inRange), startOf) <==> Filter(rows, inPeriod) != []
  {
  }

  lemma StartsAre(raw: Raw, p: Period, from: int, to: int, start: int)
    ensures start in Starts(DayRange(raw, from, to), p) <==>
      Aligned(p, start) && DayStart(from) <= start < DayEnd(to) && InPeriod(raw, p, start) != Raw([], [], [])
  {
    hide Filter, KeysOf;
    if Aligned(p, start) && DayStart(from) <= start < DayEnd(to) {
      var lo, hi, end := DayStart(from), DayEnd(to), start + Length(p);
      PeriodInsideDays(p, start, from, to);
      forall ts ensures Start(p, ts) == start <==> start <= ts < end {
        StartIsInterval(p, start, ts);
      }
      StartOccurs(raw.settlements, SettlementDuring(lo, hi), SettlementDuring(start, end), SettlementStart(p), start);
      StartOccurs(raw.overservices, OverserviceDuring(lo, hi), OverserviceDuring(start, end),
          OverserviceStart(p), start);
      StartOccurs(raw.reimbursements, ReimbursementDuring(lo, hi), ReimbursementDuring(start, end),
          ReimbursementStart(p), start);
    } else if start in Starts(DayRange(raw, from, to), p) {
      StartInRange(raw, p, from, to, start);
    }
  }

  lemma RebuiltKeysAre(raw: Raw, known: set<string>, from: int, to: int, k: SummaryKey)
    ensures k in RebuiltKeys(DayRange(raw, from, to), known) <==> Touched(raw, known, from, to, k)
  {
    hide Starts, InPeriod, DayRange;
    StartsAre(raw, k.period, from, to, k.start);
    match k
    case ServiceRow(Hour, _, _) =>
    case ServiceRow(Day, _, _) =>
    case NetworkRow(Hour, _) =>
    case NetworkRow(Day, _) =>
  }

  /** Full replace: touched rows get the aggregate of ALL raw events of their period, every other
      row stays as it is, and the raw tables are not written. */
  lemma FullReplace(db: Db, known: set<string>, from: int, to: int, k: SummaryKey)
    ensures var db', raw := Recalculated(db, known, from, to), RawOf(db);
      && db'.(summaries := db.summaries) == db
      && (Touched(raw, known, from, to, k) && (k.ServiceRow? ==> k.service != "") ==>
            k in db'.summaries && RowExact(db', k))
      && (!Touched(raw, known, from, to, k) ==>
            (k in db'.summaries <==> k in db.summaries) && GetSummary(db', k) == GetSummary(db, k))
  {
    hide RowEvents, Total, Suppliers, CountFor, Touched, RebuiltKeys, DayRange;
    RebuiltKeysAre(RawOf(db), known, from, to, k);
    if k.ServiceRow? ==> k.service != "" {
      CountForIsExact(RawOf(db), k);
    }
  }

  /** Where nothing was counted twice there is nothing to repair. */
  lemma RecalculationFixesPoint(db: Db, known: set<string>, from: int, to: int, p: Period, start: int)
    requires NetworkExact(db) && Aligned(p, start)
    ensures GetSummary(Recalculated(db, known, from, to), NetworkRow(p, start)) == GetSummary(db, NetworkRow(p, start))
  {
    hide Recalculated, Touched, Exact;
    FullReplace(db, known, from, to, NetworkRow(p, start));
    assert RowExact(db, NetworkRow(p, start));
  }

  /** A stale rewrite: a recalculation has made its queries, a fresh block is stored and reported, then
      the recalculation writes the row. Even from exact rows, the network row is exact afterwards if and
      only if the block contributed nothing; its share is lost for good. */
  lemma StaleRewriteExactIff(m: Monitor, b: Block, p: Period, start: int)
    requires NetworkExact(m.db) && FreshBlock(m.db, b.raw, b.header.blockTime)
    requires Aligned(p, start) && Start(p, b.header.blockTime) == start
    ensures var k, after := NetworkRow(p, start), Deliver(m, b).db;
      var stale := Summary(RebuiltRow(m.db)(k).totals, CountFor(RawOf(after), k));
      RowExact(after.(summaries := after.summaries[k := stale]), k) <==> Total(b.raw) == ZERO
  {
    hide RowEvents, Total, Suppliers, FreshBlock, Deliver, Plus, CountFor, RawOf, Stamp, Added;
    var k, after, ts := NetworkRow(p, start), Deliver(m, b).db, b.header.blockTime;
    RowAfterDelivery(m, b, k);
    FreshBlockAddsAll(m.db, b.raw, ts);
    StampKeepsTotals(b.raw, ts, k);
    TotalAppend(RowEvents(RawOf(m.db), k), Share(Added(m.db, ts, b.raw), k));
    CountForIsExact(RawOf(after), k);
    var stale := Summary(RebuiltRow(m.db)(k).totals, CountFor(RawOf(after), k));
    SummariesLeaveRaw(after, after.(summaries := after.summaries[k := stale]));
    PlusLaws(Total(RowEvents(RawOf(m.db), k)), ZERO, ZERO);
    PlusCancels(Total(RowEvents(RawOf(m.db), k)), Total(b.raw), ZERO);
  }
}
