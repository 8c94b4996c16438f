/** The reporter: summaries accumulated block by block, or rebuilt from raw events. */
module Reporting {
  import opened Seqs
  import opened Model
  import opened Periods
  import opened Aggregation
  import opened Database
  import opened Store

  /** The raw events a summary row is about. */
  function RowEvents(raw: Raw, k: SummaryKey): Raw {
    match k
    case NetworkRow(p, start) => InPeriod(raw, p, start)
    case ServiceRow(p, start, service) => OfService(InPeriod(raw, p, start), service)
  }

  /** The reference: what a summary row has to say about the raw tables. */
  function Exact(raw: Raw, k: SummaryKey): Summary {
    Summary(Total(RowEvents(raw, k)), |Suppliers(RowEvents(raw, k))|)
  }

  // The rows of the raw tables that a summary row is about.

  function SettlementFor(k: SummaryKey): Settlement -> bool {
    (s: Settlement) =>
      k.start <= s.blockTime < k.start + Length(k.period) && (k.ServiceRow? ==> s.serviceId == k.service)
  }
  function OverserviceFor(k: SummaryKey): OverserviceEvent -> bool {
    (o: OverserviceEvent) => k.start <= o.blockTime < k.start + Length(k.period) && k.NetworkRow?
  }
  function ReimbursementFor(k: SummaryKey): ReimbursementEvent -> bool {
    (r: ReimbursementEvent) =>
      k.start <= r.blockTime < k.start + Length(k.period) && (k.ServiceRow? ==> r.serviceId == k.service)
  }

  lemma RowEventsAre(raw: Raw, k: SummaryKey)
    ensures RowEvents(raw, k) == Raw(Filter(raw.settlements, SettlementFor(k)),
        Filter(raw.overservices, OverserviceFor(k)), Filter(raw.reimbursements, ReimbursementFor(k)))
  {
    hide Filter;
    var lo, hi := k.start, k.start + Length(k.period);
    match k
    case NetworkRow(_, _) =>
      FilterSame(raw.settlements, SettlementDuring(lo, hi), SettlementFor(k));
      FilterSame(raw.overservices, OverserviceDuring(lo, hi), OverserviceFor(k));
      FilterSame(raw.reimbursements, ReimbursementDuring(lo, hi), ReimbursementFor(k));
    case ServiceRow(_, _, service) =>
      FilterNone(raw.overservices, OverserviceFor(k));
      forall s | s in raw.settlements
        ensures SettlementFor(k)(s) <==> SettlementDuring(lo, hi)(s) && Keyed(ServiceOfSettlement, service)(s) {
        assert Keyed(ServiceOfSettlement, service)(s) <==> ServiceOfSettlement(s) == service;
      }
      FilterTwice(raw.settlements, SettlementDuring(lo, hi), Keyed(ServiceOfSettlement, service), SettlementFor(k));
      forall r | r in raw.reimbursements
        ensures ReimbursementFor(k)(r)
          <==> ReimbursementDuring(lo, hi)(r) && Keyed(ServiceOfReimbursement, service)(r) {
        assert Keyed(ServiceOfReimbursement, service)(r) <==> ServiceOfReimbursement(r) == service;
      }
      FilterTwice(raw.reimbursements, ReimbursementDuring(lo, hi), Keyed(ServiceOfReimbursement, service),
          ReimbursementFor(k));
  }

  /** What an exact row says, column by column: it counts and adds up the rows of its hour or day, and
      of its service if it is a service's; its suppliers are those of these settlements. */
  lemma ExactTallies(raw: Raw, k: SummaryKey)
    ensures Tallies(Exact(raw, k).totals, Raw(Filter(raw.settlements, SettlementFor(k)),
        Filter(raw.overservices, OverserviceFor(k)), Filter(raw.reimbursements, ReimbursementFor(k))))
    ensures Exact(raw, k).activeSuppliers == |set s | s in raw.settlements && SettlementFor(k)(s) :: s.supplier|
  {
    hide Tallies, Total, RowEvents, Filter;
    RowEventsAre(raw, k);
    TotalTallies(RowEvents(raw, k));
    assert Suppliers(RowEvents(raw, k)) == set s | s in raw.settlements && SettlementFor(k)(s) :: s.supplier;
  }

  /** The service argument of `CountActiveSuppliers`. */
  function ServiceArgument(k: SummaryKey): string {
    if k.ServiceRow? then k.service else ""
  }

  function CountFor(raw: Raw, k: SummaryKey): nat {
    SupplierCount(raw, k.start, k.start + Length(k.period), ServiceArgument(k))
  }

  /** A row for the empty service name counts everybody's suppliers; all others count their own. */
  lemma CountForIsExact(raw: Raw, k: SummaryKey)
    requires k.ServiceRow? ==> k.service != ""
    ensures CountFor(raw, k) == Exact(raw, k).activeSuppliers
  {
  }

  lemma SubsetSize<T>(a: set<T>, b: set<T>)
    requires a <= b
    ensures |a| <= |b|
    ensures |a| == |b| <==> a == b
  {
    assert a + (b - a) == b;
  }

  /** A row for the empty service name has the right count if and only if nobody else was active. */
  lemma EmptyServiceCountIff(raw: Raw, k: SummaryKey)
    requires k.ServiceRow? && k.service == ""
    ensures CountFor(raw, k) == Exact(raw, k).activeSuppliers
      <==> Suppliers(InPeriod(raw, k.period, k.start)) == Suppliers(RowEvents(raw, k))
  {
    hide Filter;
    SubsetSize(Suppliers(RowEvents(raw, k)), Suppliers(InPeriod(raw, k.period, k.start)));
  }

  /** The part of a block that goes into a row of its hour or day. */
  function Share(block: Raw, k: SummaryKey): Raw {
    if k.ServiceRow? then OfService(block, k.service) else block
  }

  function Overwrite<K, V>(m: map<K, V>, keys: set<K>, f: K -> V): map<K, V> {
    map k | k in m.Keys + keys :: if k in keys then f(k) else m[k]
  }

  lemma OverwriteOne<K, V>(m: map<K, V>, keys: set<K>, f: K -> V, k: K)
    ensures Overwrite(m, keys, f)[k := f(k)] == Overwrite(m, keys + {k}, f)
    ensures Overwrite(m, {}, f) == m
  {
  }

  lemma OverwriteElsewhere<K, V>(m: map<K, V>, keys: set<K>, f: K -> V, k: K)
    requires k !in keys
    ensures k in Overwrite(m, keys, f) <==> k in m
    ensures k in m ==> Overwrite(m, keys, f)[k] == m[k]
  {
  }

  /** Read, accumulate, write: the new content of a row after a block. */
  function AccumulatedRow(db: Db, block: Raw): SummaryKey -> Summary {
    k => Summary(Plus(GetSummary(db, k).totals, Total(Share(block, k))), CountFor(RawOf(db), k))
  }

  /** The content of a row rebuilt from the raw tables. */
  function RebuiltRow(db: Db): SummaryKey -> Summary {
    k => Summary(Total(RowEvents(RawOf(db), k)), CountFor(RawOf(db), k))
  }

  function WithRows(db: Db, keys: set<SummaryKey>, row: SummaryKey -> Summary): Db {
    db.(summaries := Overwrite(db.summaries, keys, row))
  }

  lemma WithNoRows(db: Db, row: SummaryKey -> Summary)
    ensures WithRows(db, {}, row) == db
  {
  }

  function ServiceRows(p: Period, start: int, services: set<string>): set<SummaryKey> {
    set service | service in services :: ServiceRow(p, start, service)
  }

  function NamedServices(raw: Raw): set<string> { ServiceIds(raw) - {""} }

  /** The rows `ReportBlock` writes: its hour's and its day's, for each known service and the network. */
  function ReportedKeys(known: set<string>, ts: int): set<SummaryKey> {
    ServiceRows(Hour, HourStart(ts), known) + {NetworkRow(Hour, HourStart(ts))}
    + ServiceRows(Day, DayStart(ts), known) + {NetworkRow(Day, DayStart(ts))}
  }

  function Reported(db: Db, known: set<string>, block: Raw, ts: int): Db {
    WithRows(db, ReportedKeys(known, ts), AccumulatedRow(db, block))
  }

  /** An hour or a day, and a service. */
  datatype HourService = HourService(start: int, service: string)

  function SettlementStart(p: Period): Settlement -> int { (s: Settlement) => Start(p, s.blockTime) }
  function OverserviceStart(p: Period): OverserviceEvent -> int { (o: OverserviceEvent) => Start(p, o.blockTime) }
  function ReimbursementStart(p: Period): ReimbursementEvent -> int { (r: ReimbursementEvent) => Start(p, r.blockTime) }
  function SettlementStartService(p: Period): Settlement -> HourService {
    (s: Settlement) => HourService(Start(p, s.blockTime), s.serviceId)
  }
  function ReimbursementStartService(p: Period): ReimbursementEvent -> HourService {
    (r: ReimbursementEvent) => HourService(Start(p, r.blockTime), r.serviceId)
  }

  /** The hours or days that hold an event. */
  function Starts(raw: Raw, p: Period): set<int> {
    KeysOf(raw.settlements, SettlementStart(p))
    + KeysOf(raw.overservices, OverserviceStart(p))
    + KeysOf(raw.reimbursements, ReimbursementStart(p))
  }

  function PeriodRows(p: Period, starts: set<int>, known: set<string>): set<SummaryKey> {
    (set start, service | start in starts && service in known :: ServiceRow(p, start, service))
    + (set start | start in starts :: NetworkRow(p, start))
  }

  /** The whole days around a range. */
  function DayRange(raw: Raw, from: int, to: int): Raw {
    During(raw, DayStart(from), DayEnd(to))
  }

  function RebuiltKeys(raw: Raw, known: set<string>): set<SummaryKey> {
    PeriodRows(Hour, Starts(raw, Hour), known) + PeriodRows(Day, Starts(raw, Day), known)
  }

  function Recalculated(db: Db, known: set<string>, from: int, to: int): Db {
    WithRows(db, RebuiltKeys(DayRange(RawOf(db), from, to), known), RebuiltRow(db))
  }

  // Grouping keys.

  /** The grouping maps of the recalculation, for hours or for days. */
  datatype Groups = Groups(
    settlements: map<int, seq<Settlement>>,
    overservices: map<int, seq<OverserviceEvent>>,
    reimbursements: map<int, seq<ReimbursementEvent>>,
    settlementsByService: map<HourService, seq<Settlement>>,
    reimbursementsByService: map<HourService, seq<ReimbursementEvent>>)

  lemma PeriodRowsGrow(p: Period, starts: set<int>, start: int, known: set<string>)
    ensures PeriodRows(p, starts + {start}, known) == PeriodRows(p, starts, known) + PeriodRows(p, {start}, known)
    ensures PeriodRows(p, {}, known) == {}
  {
  }

  ghost predicate GroupsOf(groups: Groups, p: Period, raw: Raw) {
    && (forall start :: Lookup(groups.settlements, start) == Filter(raw.settlements, Keyed(SettlementStart(p), start)))
    && (forall start ::
          Lookup(groups.overservices, start) == Filter(raw.overservices, Keyed(OverserviceStart(p), start)))
    && (forall start ::
          Lookup(groups.reimbursements, start) == Filter(raw.reimbursements, Keyed(ReimbursementStart(p), start)))
    && (forall key: HourService ::
          Lookup(groups.settlementsByService, key) == Filter(raw.settlements, Keyed(SettlementStartService(p), key)))
    && (forall key: HourService ::
          Lookup(groups.reimbursementsByService, key)
          == Filter(raw.reimbursements, Keyed(ReimbursementStartService(p), key)))
  }

  ghost predicate GroupsAreRows(groups: Groups, raw: Raw, p: Period, start: int) {
    && RowEvents(raw, NetworkRow(p, start)) ==
         Raw(Lookup(groups.settlements, start), Lookup(groups.overservices, start),
             Lookup(groups.reimbursements, start))
    && forall service :: RowEvents(raw, ServiceRow(p, start, service))
         == Raw(Lookup(groups.settlementsByService, HourService(start, service)), [],
             Lookup(groups.reimbursementsByService, HourService(start, service)))
  }

  /** A start that occurs in the range names a period that lies inside it. */
  lemma StartInRange(raw: Raw, p: Period, from: int, to: int, start: int)
    requires start in Starts(DayRange(raw, from, to), p)
    ensures Aligned(p, start) && DayStart(from) <= start && start + Length(p) <= DayEnd(to)
  {
    var range := DayRange(raw, from, to);
    var ts: int;
    if start in KeysOf(range.settlements, SettlementStart(p)) {
      var i :| 0 <= i < |range.settlements| && SettlementStart(p)(range.settlements[i]) == start;
      assert range.settlements[i] in range.settlements;
      ts := range.settlements[i].blockTime;
    } else if start in KeysOf(range.overservices, OverserviceStart(p)) {
      var i :| 0 <= i < |range.overservices| && OverserviceStart(p)(range.overservices[i]) == start;
      assert range.overservices[i] in range.overservices;
      ts := range.overservices[i].blockTime;
    } else {
      var i :| 0 <= i < |range.reimbursements| && ReimbursementStart(p)(range.reimbursements[i]) == start;
      assert range.reimbursements[i] in range.reimbursements;
      ts := range.reimbursements[i].blockTime;
    }
    StartIsInterval(p, start, ts);
    DaysCover(p, from, to, ts);
    PeriodInsideDays(p, start, from, to);
  }

  lemma SettlementGroup(ss: seq<Settlement>, p: Period, start: int, lo: int, hi: int, service: string)
    requires Aligned(p, start) && lo <= start && start + Length(p) <= hi
    ensures var inRange, inPeriod := SettlementDuring(lo, hi), SettlementDuring(start, start + Length(p));
      && Filter(Filter(ss, inRange), Keyed(SettlementStart(p), start)) == Filter(ss, inPeriod)
      && Filter(Filter(ss, inRange), Keyed(SettlementStartService(p), HourService(start, service)))
         == Filter(Filter(ss, inPeriod), Keyed(ServiceOfSettlement, service))
  {
    hide Filter;
    forall s | s in ss ensures SettlementStart(p)(s) == start <==> SettlementDuring(start, start + Length(p))(s) {
      StartIsInterval(p, start, s.blockTime);
    }
    var both := (s: Settlement) => start <= s.blockTime < start + Length(p) && s.serviceId == service;
    forall s | s in ss ensures both(s) <==>
      SettlementDuring(start, start + Length(p))(s) && Keyed(ServiceOfSettlement, service)(s) {
      assert Keyed(ServiceOfSettlement, service)(s) <==> ServiceOfSettlement(s) == service;
    }
    FilterTwice(ss, SettlementDuring(lo, hi), Keyed(SettlementStart(p), start),
        SettlementDuring(start, start + Length(p)));
    FilterTwice(ss, SettlementDuring(lo, hi), Keyed(SettlementStartService(p), HourService(start, service)), both);
    FilterTwice(ss, SettlementDuring(start, start + Length(p)), Keyed(ServiceOfSettlement, service), both);
  }

  lemma ReimbursementGroup(rs: seq<ReimbursementEvent>, p: Period, start: int, lo: int, hi: int, service: string)
    requires Aligned(p, start) && lo <= start && start + Length(p) <= hi
    ensures var inRange, inPeriod := ReimbursementDuring(lo, hi), ReimbursementDuring(start, start + Length(p));
      && Filter(Filter(rs, inRange), Keyed(ReimbursementStart(p), start)) == Filter(rs, inPeriod)
      && Filter(Filter(rs, inRange), Keyed(ReimbursementStartService(p), HourService(start, service)))
         == Filter(Filter(rs, inPeriod), Keyed(ServiceOfReimbursement, service))
  {
    hide Filter;
    forall r | r in rs ensures ReimbursementStart(p)(r) == start <==> ReimbursementDuring(start, start + Length(p))(r) {
      StartIsInterval(p, start, r.blockTime);
    }
    var both := (r: ReimbursementEvent) => start <= r.blockTime < start + Length(p) && r.serviceId == service;
    forall r | r in rs ensures both(r) <==>
      ReimbursementDuring(start, start + Length(p))(r) && Keyed(ServiceOfReimbursement, service)(r) {
      assert Keyed(ServiceOfReimbursement, service)(r) <==> ServiceOfReimbursement(r) == service;
    }
    FilterTwice(rs, ReimbursementDuring(lo, hi), Keyed(ReimbursementStart(p), start),
        ReimbursementDuring(start, start + Length(p)));
    FilterTwice(rs, ReimbursementDuring(lo, hi), Keyed(ReimbursementStartService(p),
        HourService(start, service)), both);
    FilterTwice(rs, ReimbursementDuring(start, start + Length(p)), Keyed(ServiceOfReimbursement, service), both);
  }

  lemma OverserviceGroup(os: seq<OverserviceEvent>, p: Period, start: int, lo: int, hi: int)
    requires Aligned(p, start) && lo <= start && start + Length(p) <= hi
    ensures Filter(Filter(os, OverserviceDuring(lo, hi)), Keyed(OverserviceStart(p), start))
         == Filter(os, OverserviceDuring(start, start + Length(p)))
  {
    hide Filter;
    forall o | o in os ensures OverserviceStart(p)(o) == start <==> OverserviceDuring(start, start + Length(p))(o) {
      StartIsInterval(p, start, o.blockTime);
    }
    FilterTwice(os, OverserviceDuring(lo, hi), Keyed(OverserviceStart(p), start),
        OverserviceDuring(start, start + Length(p)));
  }

  /** The groups of the expanded range are complete: they hold ALL events of their period. */
  lemma GroupedByStart(raw: Raw, p: Period, from: int, to: int, start: int, groups: Groups)
    requires GroupsOf(groups, p, DayRange(raw, from, to))
    requires start in Starts(DayRange(raw, from, to), p)
    ensures GroupsAreRows(groups, raw, p, start)
  {
    hide Filter;
    StartInRange(raw, p, from, to, start);
    forall service ensures RowEvents(raw, ServiceRow(p, start, service))
                        == Raw(Lookup(groups.settlementsByService, HourService(start, service)), [],
                               Lookup(groups.reimbursementsByService, HourService(start, service))) {
      SettlementGroup(raw.settlements, p, start, DayStart(from), DayEnd(to), service);
      ReimbursementGroup(raw.reimbursements, p, start, DayStart(from), DayEnd(to), service);
    }
    SettlementGroup(raw.settlements, p, start, DayStart(from), DayEnd(to), "");
    ReimbursementGroup(raw.reimbursements, p, start, DayStart(from), DayEnd(to), "");
    OverserviceGroup(raw.overservices, p, start, DayStart(from), DayEnd(to));
  }

  class Reporter {
    const store: SQLiteStore
    var knownServiceIDs: set<string>

    /** A restarted reporter knows the services of the stored settlements. */
    constructor (store: SQLiteStore)
      ensures this.store == store
      ensures knownServiceIDs == ServiceIds(RawOf(store.Contents()))
    {
      this.store := store;
      var ids := store.DistinctServiceIDs();
      knownServiceIDs := ids;
    }

    method LearnServices(settlements: seq<Settlement>)
      modifies this`knownServiceIDs
      ensures knownServiceIDs == old(knownServiceIDs) + NamedServices(Raw(settlements, [], []))
    {
      for i := 0 to |settlements|
        invariant knownServiceIDs == old(knownServiceIDs) + NamedServices(Raw(settlements[..i], [], []))
      {
        assert settlements[..i + 1] == settlements[..i] + [settlements[i]];
        if settlements[i].serviceId != "" {
          knownServiceIDs := knownServiceIDs + {settlements[i].serviceId};
        }
      }
      assert settlements[..|settlements|] == settlements;
    }

    /** One row of `ReportBlock`. The ghosts say which rows of the block are written already. */
    method AccumulateRow(k: SummaryKey, ss: seq<Settlement>, os: seq<OverserviceEvent>, rs: seq<ReimbursementEvent>,
                         ghost base: Db, ghost block: Raw, ghost done: set<SummaryKey>)
      requires store.Contents() == WithRows(base, done, AccumulatedRow(base, block))
      requires k !in done && Share(block, k) == Raw(ss, os, rs)
      modifies store
      ensures store.Contents() == WithRows(base, done + {k}, AccumulatedRow(base, block))
    {
      hide Plus, Total, SupplierCount, Overwrite;
      ghost var row := AccumulatedRow(base, block);
      var bc := AggregateBlock(ss, os, rs);
      var current := store.ReadSummary(k);
      var suppliers := store.CountActiveSuppliers(k.start, k.start + Length(k.period), ServiceArgument(k));
      OverwriteElsewhere(base.summaries, done, row, k);
      assert Summary(Plus(current.totals, bc), suppliers) == row(k);
      store.UpsertSummary(k, Summary(Plus(current.totals, bc), suppliers));
      OverwriteOne(base.summaries, done, row, k);
    }

    method AccumulateServices(p: Period, start: int,
                              settlementsByService: map<string, seq<Settlement>>,
                              reimbursementsByService: map<string, seq<ReimbursementEvent>>,
                              ghost base: Db, ghost block: Raw, ghost done: set<SummaryKey>)
      requires store.Contents() == WithRows(base, done, AccumulatedRow(base, block))
      requires ServiceRows(p, start, knownServiceIDs) !! done
      requires forall service :: OfService(block, service)
                              == Raw(Lookup(settlementsByService, service), [],
                                  Lookup(reimbursementsByService, service))
      modifies store
      ensures store.Contents() == WithRows(base, done + ServiceRows(p, start, knownServiceIDs),
          AccumulatedRow(base, block))
    {
      hide AccumulatedRow, WithRows;
      var todo := knownServiceIDs;
      assert done + ServiceRows(p, start, knownServiceIDs - todo) == done;
      while todo != {}
        invariant todo <= knownServiceIDs
        invariant store.Contents() ==
          WithRows(base, done + ServiceRows(p, start, knownServiceIDs - todo), AccumulatedRow(base, block))
        decreases todo
      {
        ghost var some := SomeMember(todo);
        assert some in todo;
        var service :| service in todo;
        ghost var written := done + ServiceRows(p, start, knownServiceIDs - todo);
        var k := ServiceRow(p, start, service);
        assert k in ServiceRows(p, start, knownServiceIDs);
        AccumulateRow(k, Lookup(settlementsByService, service), [], Lookup(reimbursementsByService, service),
                      base, block, written);
        todo := todo - {service};
        assert written + {k} == done + ServiceRows(p, start, knownServiceIDs - todo);
      }
      assert knownServiceIDs - todo == knownServiceIDs;
    }

    method ReportBlock(height: int, ts: int, ss: seq<Settlement>, os: seq<OverserviceEvent>,
        rs: seq<ReimbursementEvent>)
      modifies this, store
      ensures knownServiceIDs == old(knownServiceIDs) + NamedServices(Raw(ss, os, rs))
      ensures store.Contents() == Reported(old(store.Contents()), knownServiceIDs, Raw(ss, os, rs), ts)
    {
      hide AccumulatedRow, WithRows, HourStart, DayStart, Filter;
      var hs, ds := HourStart(ts), DayStart(ts);
      LearnServices(ss);
      var settlementsByService := GroupBy(ss, ServiceOfSettlement);
      var reimbursementsByService := GroupBy(rs, ServiceOfReimbursement);
      ghost var base, block := store.Contents(), Raw(ss, os, rs);
      WithNoRows(base, AccumulatedRow(base, block));
      AccumulateServices(Hour, hs, settlementsByService, reimbursementsByService, base, block, {});
      ghost var hourly := ServiceRows(Hour, hs, knownServiceIDs);
      AccumulateRow(NetworkRow(Hour, hs), ss, os, rs, base, block, {} + hourly);
      AccumulateServices(Day, ds, settlementsByService, reimbursementsByService, base, block,
                         {} + hourly + {NetworkRow(Hour, hs)});
      AccumulateRow(NetworkRow(Day, ds), ss, os, rs, base, block,
                    {} + hourly + {NetworkRow(Hour, hs)} + ServiceRows(Day, ds, knownServiceIDs));
      assert {} + hourly + {NetworkRow(Hour, hs)} + ServiceRows(Day, ds, knownServiceIDs) + {NetworkRow(Day, ds)}
          == ReportedKeys(knownServiceIDs, ts);
    }

    /** One row of `RecalculateSummariesForRange`: written without reading the old one. */
    method RebuildRow(k: SummaryKey, ss: seq<Settlement>, os: seq<OverserviceEvent>, rs: seq<ReimbursementEvent>,
                      ghost base: Db, ghost done: set<SummaryKey>)
      requires store.Contents() == WithRows(base, done, RebuiltRow(base))
      requires RowEvents(RawOf(base), k) == Raw(ss, os, rs)
      modifies store
      ensures store.Contents() == WithRows(base, done + {k}, RebuiltRow(base))
    {
      hide Plus, Total, SupplierCount, Overwrite;
      ghost var row := RebuiltRow(base);
      var bc := AggregateBlock(ss, os, rs);
      var suppliers := store.CountActiveSuppliers(k.start, k.start + Length(k.period), ServiceArgument(k));
      assert Summary(bc, suppliers) == row(k);
      store.UpsertSummary(k, Summary(bc, suppliers));
      OverwriteOne(base.summaries, done, row, k);
    }

    /** The body of the loop over distinct hours (or days). */
    method RebuildStart(p: Period, start: int, groups: Groups, ghost base: Db, ghost done: set<SummaryKey>)
      requires store.Contents() == WithRows(base, done, RebuiltRow(base))
      requires GroupsAreRows(groups, RawOf(base), p, start)
      modifies store
      ensures store.Contents() == WithRows(base, done + PeriodRows(p, {start}, knownServiceIDs), RebuiltRow(base))
    {
      hide RebuiltRow, WithRows, RowEvents;
      var todo := knownServiceIDs;
      assert done + ServiceRows(p, start, knownServiceIDs - todo) == done;
      while todo != {}
        invariant todo <= knownServiceIDs
        invariant store.Contents() ==
          WithRows(base, done + ServiceRows(p, start, knownServiceIDs - todo), RebuiltRow(base))
        decreases todo
      {
        ghost var some := SomeMember(todo);
        assert some in todo;
        var service :| service in todo;
        ghost var written := done + ServiceRows(p, start, knownServiceIDs - todo);
        RebuildRow(ServiceRow(p, start, service),
                   Lookup(groups.settlementsByService, HourService(start, service)), [],
                   Lookup(groups.reimbursementsByService, HourService(start, service)), base, written);
        todo := todo - {service};
        assert written + {ServiceRow(p, start, service)} == done + ServiceRows(p, start, knownServiceIDs - todo);
      }
      assert knownServiceIDs - todo == knownServiceIDs;
      RebuildRow(NetworkRow(p, start), Lookup(groups.settlements, start), Lookup(groups.overservices, start),
                 Lookup(groups.reimbursements, start), base, done + ServiceRows(p, start, knownServiceIDs));
      assert done + ServiceRows(p, start, knownServiceIDs) + {NetworkRow(p, start)}
          == done + PeriodRows(p, {start}, knownServiceIDs);
    }

    /** Grouping by hour (or day) and by service, then the loop over the distinct hours (or days). */
    method RebuildPeriods(p: Period, from: int, to: int,
                          ss: seq<Settlement>, os: seq<OverserviceEvent>, rs: seq<ReimbursementEvent>,
                          ghost base: Db, ghost done: set<SummaryKey>)
      requires store.Contents() == WithRows(base, done, RebuiltRow(base))
      requires DayRange(RawOf(base), from, to) == Raw(ss, os, rs)
      modifies store
      ensures store.Contents() ==
        WithRows(base, done + PeriodRows(p, Starts(Raw(ss, os, rs), p), knownServiceIDs), RebuiltRow(base))
    {
      hide RebuiltRow, WithRows, RowEvents, PeriodRows, GroupsOf, Starts;
      var groups := MakeGroups(p, ss, os, rs);
      ghost var starts := Starts(Raw(ss, os, rs), p);
      var todo := groups.settlements.Keys + groups.overservices.Keys + groups.reimbursements.Keys;
      ghost var finished: set<int> := {};
      PeriodRowsGrow(p, {}, 0, knownServiceIDs);
      assert done + {} == done;
      while todo != {}
        invariant todo <= starts && finished + todo == starts
        invariant store.Contents() == WithRows(base, done + PeriodRows(p, finished, knownServiceIDs), RebuiltRow(base))
        decreases todo
      {
        ghost var some := SomeMember(todo);
        assert some in todo;
        var start :| start in todo;
        GroupedByStart(RawOf(base), p, from, to, start, groups);
        RebuildStart(p, start, groups, base, done + PeriodRows(p, finished, knownServiceIDs));
        PeriodRowsGrow(p, finished, start, knownServiceIDs);
        assert done + PeriodRows(p, finished, knownServiceIDs) + PeriodRows(p, {start}, knownServiceIDs)
            == done + PeriodRows(p, finished + {start}, knownServiceIDs);
        todo, finished := todo - {start}, finished + {start};
      }
    }

    method MakeGroups(p: Period, ss: seq<Settlement>, os: seq<OverserviceEvent>, rs: seq<ReimbursementEvent>)
      returns (groups: Groups)
      ensures GroupsOf(groups, p, Raw(ss, os, rs))
      ensures groups.settlements.Keys + groups.overservices.Keys + groups.reimbursements.Keys
          == Starts(Raw(ss, os, rs), p)
    {
      hide Filter, KeysOf;
      var settlementsByService := GroupBy(ss, SettlementStartService(p));
      var settlements := GroupBy(ss, SettlementStart(p));
      var overservices := GroupBy(os, OverserviceStart(p));
      var reimbursementsByService := GroupBy(rs, ReimbursementStartService(p));
      var reimbursements := GroupBy(rs, ReimbursementStart(p));
      groups := Groups(settlements, overservices, reimbursements, settlementsByService, reimbursementsByService);
    }

    method RecalculateSummariesForRange(from: int, to: int)
      modifies this, store
      ensures knownServiceIDs ==
        old(knownServiceIDs) + NamedServices(DayRange(RawOf(old(store.Contents())), from, to))
      ensures store.Contents() == Recalculated(old(store.Contents()), knownServiceIDs, from, to)
    {
      hide RebuiltRow, WithRows, RowEvents;
      var first, last := DayStart(from), DayEnd(to);
      var ss := store.QuerySettlementsForPeriod(first, last);
      var os := store.QueryOverserviceEventsForPeriod(first, last);
      var rs := store.QueryReimbursementEventsForPeriod(first, last);
      LearnServices(ss);
      ghost var base := store.Contents();
      WithNoRows(base, RebuiltRow(base));
      RebuildPeriods(Hour, from, to, ss, os, rs, base, {});
      RebuildPeriods(Day, from, to, ss, os, rs, base,
          {} + PeriodRows(Hour, Starts(Raw(ss, os, rs), Hour), knownServiceIDs));
      assert {} + PeriodRows(Hour, Starts(Raw(ss, os, rs), Hour), knownServiceIDs)
             + PeriodRows(Day, Starts(Raw(ss, os, rs), Day), knownServiceIDs)
          == RebuiltKeys(Raw(ss, os, rs), knownServiceIDs);
    }
  }
}
