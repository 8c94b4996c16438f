/** When the accumulated summaries agree with the raw events, and what recalculation restores. */
module Materialization {
  import opened Seqs
  import opened Tables
  import opened Model
  import opened Periods
  import opened Aggregation
  import opened Database
  import opened Store
  import opened Reporting

  /** What `ProcessBlock` hands to the store and to the reporter. */
  datatype Block = Block(header: ProcessedBlock, raw: Raw, dists: Dists)

  /** The database together with the reporter's memory. */
  datatype Monitor = Monitor(db: Db, known: set<string>)

  function Deliver(m: Monitor, b: Block): Monitor {
    var known := m.known + NamedServices(b.raw);
    Monitor(Reported(InsertBlock(m.db, b.header, b.raw, b.dists), known, b.raw, b.header.blockTime), known)
  }

  /** A new process over the same database. */
  function Restart(m: Monitor): Monitor {
    Monitor(m.db, ServiceIds(RawOf(m.db)))
  }

  // Stamping changes no amount.

  lemma {:induction false} SumOfMapped<T(!new)>(s: seq<T>, g: T -> T, p: T -> bool, f: T -> Contribution)
    requires forall x :: x in s ==> p(g(x)) == p(x) && f(g(x)) == f(x)
    ensures Sum(Filter(Map(s, g), p), f) == Sum(Filter(s, p), f)
  {
    hide Plus;
    if |s| > 0 {
      var n := |s| - 1;
      assert s[n] in s;
      assert Map(s, g)[..n] == Map(s[..n], g);
      SumOfMapped(s[..n], g, p, f);
      SumOfFilterLast(s, p, f);
      SumOfFilterLast(Map(s, g), p, f);
    }
  }

  lemma SumOfAllMapped<T(!new)>(s: seq<T>, g: T -> T, f: T -> Contribution)
    requires forall x :: x in s ==> f(g(x)) == f(x)
    ensures Sum(Map(s, g), f) == Sum(s, f)
  {
    var all := (x: T) => true;
    SumOfMapped(s, g, all, f);
    FilterAll(s, all);
    FilterAll(Map(s, g), all);
  }

  lemma StampKeepsTotals(raw: Raw, ts: int, k: SummaryKey)
    ensures Total(Share(Stamp(raw, ts), k)) == Total(Share(raw, k))
  {
    hide Plus, Sum, Filter;
    if k.ServiceRow? {
      var mine, mine' := Keyed(ServiceOfSettlement, k.service), Keyed(ServiceOfReimbursement, k.service);
      forall s ensures mine(StampSettlement(ts)(s)) == mine(s) {
        assert ServiceOfSettlement(StampSettlement(ts)(s)) == ServiceOfSettlement(s);
      }
      forall r ensures mine'(StampReimbursement(ts)(r)) == mine'(r) {
        assert ServiceOfReimbursement(StampReimbursement(ts)(r)) == ServiceOfReimbursement(r);
      }
      SumOfMapped(raw.settlements, StampSettlement(ts), Keyed(ServiceOfSettlement, k.service), OfSettlement);
      SumOfMapped(raw.reimbursements, StampReimbursement(ts), Keyed(ServiceOfReimbursement, k.service),
          OfReimbursement);
    } else {
      SumOfAllMapped(raw.settlements, StampSettlement(ts), OfSettlement);
      SumOfAllMapped(raw.overservices, StampOverservice(ts), OfOverservice);
      SumOfAllMapped(raw.reimbursements, StampReimbursement(ts), OfReimbursement);
    }
  }

  /** All rows carry the same timestamp. */
  ghost predicate AllAt(raw: Raw, ts: int) {
    && (forall s :: s in raw.settlements ==> s.blockTime == ts)
    && (forall o :: o in raw.overservices ==> o.blockTime == ts)
    && (forall r :: r in raw.reimbursements ==> r.blockTime == ts)
  }

  lemma StampedAt(raw: Raw, ts: int)
    ensures AllAt(Stamp(raw, ts), ts)
  {
  }

  lemma AddedAllAt(db: Db, ts: int, raw: Raw)
    ensures AllAt(Added(db, ts, raw), ts)
  {
    var stored, rows := RawOf(db), Stamp(raw, ts);
    KeptAreOffered(stored.settlements, KeyOfSettlement, rows.settlements);
    KeptAreOffered(stored.overservices, KeyOfOverservice, rows.overservices);
    KeptAreOffered(stored.reimbursements, KeyOfReimbursement, rows.reimbursements);
    StampedAt(raw, ts);
  }

  /** Rows of one moment belong to a row's period altogether or not at all. */
  lemma EventsOfMoment(raw: Raw, ts: int, k: SummaryKey)
    requires AllAt(raw, ts) && Aligned(k.period, k.start)
    ensures RowEvents(raw, k) == if Start(k.period, ts) == k.start then Share(raw, k) else Raw([], [], [])
  {
    hide Filter;
    var lo, hi := k.start, k.start + Length(k.period);
    StartIsInterval(k.period, k.start, ts);
    if Start(k.period, ts) == k.start {
      FilterAll(raw.settlements, SettlementDuring(lo, hi));
      FilterAll(raw.overservices, OverserviceDuring(lo, hi));
      FilterAll(raw.reimbursements, ReimbursementDuring(lo, hi));
    } else {
      FilterNone(raw.settlements, SettlementDuring(lo, hi));
      FilterNone(raw.overservices, OverserviceDuring(lo, hi));
      FilterNone(raw.reimbursements, ReimbursementDuring(lo, hi));
    }
  }

  lemma RowEventsAppend(a: Raw, b: Raw, k: SummaryKey)
    ensures RowEvents(Append(a, b), k) == Append(RowEvents(a, k), RowEvents(b, k))
  {
    hide During, OfService;
    var lo, hi := k.start, k.start + Length(k.period);
    SelectionsAppend(a, b, lo, hi, "");
    if k.ServiceRow? {
      SelectionsAppend(During(a, lo, hi), During(b, lo, hi), lo, hi, k.service);
    }
  }

  lemma RowWritten(known: set<string>, ts: int, k: SummaryKey)
    requires k.ServiceRow? ==> k.service in known
    ensures k in ReportedKeys(known, ts) <==> k.start == Start(k.period, ts)
  {
  }

  lemma InsertSummariesFrame(db: Db, b: Block)
    ensures InsertBlock(db, b.header, b.raw, b.dists).summaries == db.summaries
  {
    InsertSettlementsFrame(db, Stamp(b.raw, b.header.blockTime).settlements, b.dists);
  }

  /** What one delivery does to a row it may concern, in terms of the rows that were not ignored. */
  lemma RowAfterDelivery(m: Monitor, b: Block, k: SummaryKey)
    requires Aligned(k.period, k.start)
    requires k.ServiceRow? ==> k.service in Deliver(m, b).known && k.service != ""
    ensures var db', added := Deliver(m, b).db, Added(m.db, b.header.blockTime, b.raw);
      && RawOf(db') == Append(RawOf(m.db), added)
      && if k.start == Start(k.period, b.header.blockTime) then
        && GetSummary(db', k) == Summary(Plus(GetSummary(m.db, k).totals, Total(Share(b.raw, k))),
            Exact(RawOf(db'), k).activeSuppliers)
        && RowEvents(RawOf(db'), k) == Append(RowEvents(RawOf(m.db), k), Share(added, k))
      else
        && GetSummary(db', k) == GetSummary(m.db, k)
        && RowEvents(RawOf(db'), k) == RowEvents(RawOf(m.db), k)
  {
    hide RowEvents, Share, Total, Exact, CountFor, Stamp, Added, Plus, Sum;
    var ts, db' := b.header.blockTime, Deliver(m, b).db;
    var added := Added(m.db, ts, b.raw);
    InsertSummariesFrame(m.db, b);
    InsertBlockAppends(m.db, b.header, b.raw, b.dists);
    AddedAllAt(m.db, ts, b.raw);
    EventsOfMoment(added, ts, k);
    RowEventsAppend(RawOf(m.db), added, k);
    RowWritten(Deliver(m, b).known, ts, k);
    CountForIsExact(RawOf(db'), k);
    var none := RowEvents(RawOf(m.db), k);
    assert Append(none, Raw([], [], [])) == none;
  }

  // 1. Network rows.

  ghost predicate RowExact(db: Db, k: SummaryKey) {
    GetSummary(db, k) == Exact(RawOf(db), k)
  }

  /** Every hourly and daily network row, absent rows reading as zero, equals the aggregate of
      the raw events of its period. */
  ghost predicate NetworkExact(db: Db) {
    forall p, start :: Aligned(p, start) ==> RowExact(db, NetworkRow(p, start))
  }

  /** No settlement and no overservice row of the block is ignored as a duplicate, and the
      reimbursements that are ignored add up to nothing. */
  ghost predicate NothingIgnored(db: Db, b: Block) {
    var added := Added(db, b.header.blockTime, b.raw);
    && |added.settlements| == |b.raw.settlements|
    && |added.overservices| == |b.raw.overservices|
    && Sum(added.reimbursements, OfReimbursement) == Sum(b.raw.reimbursements, OfReimbursement)
  }

  lemma TotalOfAdded(db: Db, b: Block)
    ensures Total(Added(db, b.header.blockTime, b.raw)) == Total(b.raw) <==> NothingIgnored(db, b)
  {
    hide Sum, Kept;
    var ts := b.header.blockTime;
    var stored, rows, added := RawOf(db), Stamp(b.raw, ts), Added(db, ts, b.raw);
    EveryClaimCounted(b.raw.settlements);
    EveryClaimCounted(added.settlements);
    SettlementSumHasNoEvents(b.raw.settlements);
    SettlementSumHasNoEvents(added.settlements);
    OverserviceSum(b.raw.overservices);
    OverserviceSum(added.overservices);
    ReimbursementSum(b.raw.reimbursements);
    ReimbursementSum(added.reimbursements);
    AllKeptIffFresh(stored.settlements, KeyOfSettlement, rows.settlements);
    if |added.settlements| == |b.raw.settlements| {
      assert added.settlements == rows.settlements;
      SumOfAllMapped(b.raw.settlements, StampSettlement(ts), OfSettlement);
    }
  }

  lemma PlusCancels(a: Contribution, b: Contribution, c: Contribution)
    ensures Plus(a, b) == Plus(a, c) <==> b == c
  {
  }

  lemma NetworkRowAfterDelivery(m: Monitor, b: Block, p: Period, start: int)
    requires Aligned(p, start) && RowExact(m.db, NetworkRow(p, start))
    ensures RowExact(Deliver(m, b).db, NetworkRow(p, start)) <==>
      start != Start(p, b.header.blockTime) || Total(Added(m.db, b.header.blockTime, b.raw)) == Total(b.raw)
  {
    hide RowEvents, Total, Deliver, Plus, Added;
    var k, added := NetworkRow(p, start), Added(m.db, b.header.blockTime, b.raw);
    RowAfterDelivery(m, b, k);
    TotalAppend(RowEvents(RawOf(m.db), k), added);
    PlusCancels(Total(RowEvents(RawOf(m.db), k)), Total(b.raw), Total(added));
  }

  /** The exact condition under which accumulating keeps the network rows right: from exact rows,
      after any block, they are exact again if and only if nothing of the block was ignored. */
  lemma AccumulationExactIff(m: Monitor, b: Block)
    requires NetworkExact(m.db)
    ensures NetworkExact(Deliver(m, b).db) <==> NothingIgnored(m.db, b)
  {
    hide RowEvents, Total, NothingIgnored, Deliver, Plus;
    var ts, db' := b.header.blockTime, Deliver(m, b).db;
    TotalOfAdded(m.db, b);
    forall p, start | Aligned(p, start)
      ensures RowExact(db', NetworkRow(p, start)) <==> start != Start(p, ts) || NothingIgnored(m.db, b)
    {
      NetworkRowAfterDelivery(m, b, p, start);
    }
    StartIsInterval(Hour, 0, ts);
    assert RowExact(db', NetworkRow(Hour, Start(Hour, ts))) <==> NothingIgnored(m.db, b);
  }

  lemma FreshIgnoresNothing(db: Db, b: Block)
    requires FreshBlock(db, b.raw, b.header.blockTime)
    ensures NothingIgnored(db, b)
  {
    FreshBlockAddsAll(db, b.raw, b.header.blockTime);
    SumOfAllMapped(b.raw.reimbursements, StampReimbursement(b.header.blockTime), OfReimbursement);
  }

  // 2. Whole runs: deliveries and restarts, from an empty database.

  datatype Step = Delivered(block: Block) | Restarted

  function Apply(m: Monitor, step: Step): Monitor {
    match step
    case Delivered(b) => Deliver(m, b)
    case Restarted => Restart(m)
  }

  function Run(steps: seq<Step>): Monitor {
    if |steps| == 0 then Monitor(EMPTY, {}) else Apply(Run(steps[..|steps| - 1]), steps[|steps| - 1])
  }

  /** Every delivered block's rows are new to the tables, and no row comes twice in one block. */
  ghost predicate FreshRun(steps: seq<Step>) {
    |steps| == 0 ||
    (var init, last := steps[..|steps| - 1], steps[|steps| - 1];
     FreshRun(init) && (last.Delivered? ==> FreshBlock(Run(init).db, last.block.raw, last.block.header.blockTime)))
  }

  lemma NothingSelected(lo: int, hi: int, service: string)
    ensures During(Raw([], [], []), lo, hi) == Raw([], [], [])
    ensures OfService(Raw([], [], []), service) == Raw([], [], [])
  {
  }

  lemma NothingTotals()
    ensures Total(Raw([], [], [])) == ZERO && Suppliers(Raw([], [], [])) == {}
  {
    PlusLaws(ZERO, ZERO, ZERO);
  }

  lemma NothingInEmpty(k: SummaryKey)
    ensures RowEvents(RawOf(EMPTY), k) == Raw([], [], []) && Exact(RawOf(EMPTY), k) == NO_SUMMARY
  {
    hide Total, Suppliers, Plus, Sum;
    var raw := RawOf(EMPTY);
    assert raw == Raw([], [], []);
    NothingSelected(k.start, k.start + Length(k.period), if k.ServiceRow? then k.service else "");
    NothingTotals();
  }

  /** Incremental equals recompute, for the network. */
  lemma {:induction false} IncrementalNetwork(steps: seq<Step>)
    requires FreshRun(steps)
    ensures NetworkExact(Run(steps).db)
  {
    hide RowEvents, Deliver, NothingIgnored, FreshBlock;
    if |steps| == 0 {
      forall p, start | Aligned(p, start) ensures RowExact(EMPTY, NetworkRow(p, start)) {
        NothingInEmpty(NetworkRow(p, start));
      }
    } else {
      var init, last := steps[..|steps| - 1], steps[|steps| - 1];
      IncrementalNetwork(init);
      if last.Delivered? {
        FreshIgnoresNothing(Run(init).db, last.block);
        AccumulationExactIff(Run(init), last.block);
      } else {
        assert Run(steps).db == Run(init).db;
      }
    }
  }

  // 3. Service rows. They miss the reimbursements of services that are not known yet.

  /** A block of the row's period that leaves the row's service unknown. */
  predicate MissesRow(after: Monitor, step: Step, k: SummaryKey)
    requires k.ServiceRow?
  {
    step.Delivered? && k.service !in after.known && Start(k.period, step.block.header.blockTime) == k.start
  }

  function Reimbursed(b: Block, service: string): int {
    Sum(OfService(b.raw, service).reimbursements, OfReimbursement).reimbursementUpokt
  }

  /** The reimbursements of a row's service and period that came before any settlement of the service. */
  function Missed(steps: seq<Step>, k: SummaryKey): int
    requires k.ServiceRow?
  {
    if |steps| == 0 then 0
    else
      var last := steps[|steps| - 1];
      Missed(steps[..|steps| - 1], k) + (if MissesRow(Run(steps), last, k)
          then Reimbursed(last.block, k.service) else 0)
  }

  ghost predicate KnowsAllNamed(m: Monitor) {
    forall s :: s in RawOf(m.db).settlements && s.serviceId != "" ==> s.serviceId in m.known
  }

  ghost predicate KnowsOnlyStored(m: Monitor) {
    forall service :: service in m.known && service != "" ==> service in ServiceIds(RawOf(m.db))
  }

  lemma DeliveredEvents(m: Monitor, b: Block)
    ensures RawOf(Deliver(m, b).db) == Append(RawOf(m.db), Added(m.db, b.header.blockTime, b.raw))
  {
    hide Added;
    InsertBlockAppends(m.db, b.header, b.raw, b.dists);
  }

  /** A stored settlement comes from the block, up to its timestamp. */
  lemma AddedComesFromBlock(db: Db, ts: int, raw: Raw, s: Settlement) returns (i: nat)
    requires s in Added(db, ts, raw).settlements
    ensures i < |raw.settlements| && s == raw.settlements[i].(blockTime := ts)
  {
    var rows := Stamp(raw, ts).settlements;
    KeptAreOffered(RawOf(db).settlements, KeyOfSettlement, rows);
    i :| 0 <= i < |rows| && rows[i] == s;
    assert s == StampSettlement(ts)(raw.settlements[i]);
  }

  lemma DeliveryLearns(m: Monitor, b: Block)
    requires KnowsAllNamed(m)
    ensures KnowsAllNamed(Deliver(m, b))
  {
    hide Reported, InsertBlock, RawOf, Added;
    var m' := Deliver(m, b);
    DeliveredEvents(m, b);
    forall s | s in RawOf(m'.db).settlements && s.serviceId != "" ensures s.serviceId in m'.known {
      if s !in RawOf(m.db).settlements {
        var i := AddedComesFromBlock(m.db, b.header.blockTime, b.raw, s);
        assert b.raw.settlements[i] in b.raw.settlements;
      }
    }
  }

  lemma {:induction false} RunKnowsAllNamed(steps: seq<Step>)
    ensures KnowsAllNamed(Run(steps))
  {
    hide Deliver;
    if |steps| > 0 {
      RunKnowsAllNamed(steps[..|steps| - 1]);
      if steps[|steps| - 1].Delivered? {
        DeliveryLearns(Run(steps[..|steps| - 1]), steps[|steps| - 1].block);
      }
    }
  }

  /** Nothing settled is stored for an unknown service. */
  lemma UnknownHasNoSettlements(m: Monitor, k: SummaryKey)
    requires KnowsAllNamed(m) && k.ServiceRow? && k.service != "" && k.service !in m.known
    ensures RowEvents(RawOf(m.db), k).settlements == []
    ensures Suppliers(RowEvents(RawOf(m.db), k)) == {}
  {
    hide Filter;
    var mine := InPeriod(RawOf(m.db), k.period, k.start).settlements;
    forall s | s in mine ensures !Keyed(ServiceOfSettlement, k.service)(s) {
      assert s in RawOf(m.db).settlements;
      assert ServiceOfSettlement(s) == s.serviceId;
    }
    FilterNone(mine, Keyed(ServiceOfSettlement, k.service));
  }

  lemma FreshDeliveryKnowsOnlyStored(m: Monitor, b: Block)
    requires KnowsOnlyStored(m) && FreshBlock(m.db, b.raw, b.header.blockTime)
    ensures KnowsOnlyStored(Deliver(m, b))
  {
    hide FreshBlock, Reported, InsertBlock, RawOf, Added;
    var ts, m' := b.header.blockTime, Deliver(m, b);
    DeliveredEvents(m, b);
    FreshBlockAddsAll(m.db, b.raw, ts);
    forall service | service in m'.known && service != "" ensures service in ServiceIds(RawOf(m'.db)) {
      if service in m.known {
        var s :| s in RawOf(m.db).settlements && s.serviceId == service;
        assert s in RawOf(m'.db).settlements;
      } else {
        var i :| 0 <= i < |b.raw.settlements| && b.raw.settlements[i].serviceId == service;
        var s := Stamp(b.raw, ts).settlements[i];
        assert s == StampSettlement(ts)(b.raw.settlements[i]) && s in Stamp(b.raw, ts).settlements;
        assert s in RawOf(m'.db).settlements;
      }
    }
  }

  /** A restart changes nothing for named services. */
  lemma {:induction false} RestartIsTransparent(steps: seq<Step>)
    requires FreshRun(steps)
    ensures KnowsOnlyStored(Run(steps))
    ensures Restart(Run(steps)).known - {""} == Run(steps).known - {""}
  {
    hide Deliver, FreshBlock;
    if |steps| > 0 {
      var init, last := steps[..|steps| - 1], steps[|steps| - 1];
      RestartIsTransparent(init);
      if last.Delivered? {
        FreshDeliveryKnowsOnlyStored(Run(init), last.block);
      }
    }
    RunKnowsAllNamed(steps);
  }

  /** The row of a service that stays unknown is not written. */
  lemma UnknownAfterDelivery(m: Monitor, b: Block, k: SummaryKey)
    requires k.ServiceRow? && k.service !in Deliver(m, b).known
    ensures k.service !in m.known
    ensures GetSummary(Deliver(m, b).db, k) == GetSummary(m.db, k)
  {
    hide InsertBlock, AccumulatedRow;
    InsertSummariesFrame(m.db, b);
    assert k !in ReportedKeys(Deliver(m, b).known, b.header.blockTime);
  }

  /** Distinct suppliers are counted afresh, so they stay exact even when blocks repeat. */
  lemma {:induction false} SupplierCountsExact(steps: seq<Step>, k: SummaryKey)
    requires Aligned(k.period, k.start) && (k.ServiceRow? ==> k.service != "")
    ensures GetSummary(Run(steps).db, k).activeSuppliers == Exact(RawOf(Run(steps).db), k).activeSuppliers
  {
    hide Deliver, RowEvents, Suppliers;
    if |steps| == 0 {
      NothingInEmpty(k);
    } else {
      var init, last := steps[..|steps| - 1], steps[|steps| - 1];
      SupplierCountsExact(init, k);
      if last.Delivered? {
        if k.NetworkRow? || k.service in Run(steps).known {
          RowAfterDelivery(Run(init), last.block, k);
        } else {
          RunKnowsAllNamed(init);
          RunKnowsAllNamed(steps);
          UnknownAfterDelivery(Run(init), last.block, k);
          UnknownHasNoSettlements(Run(init), k);
          UnknownHasNoSettlements(Run(steps), k);
        }
      }
    }
  }

  /** A known empty service name gets a row, with the count of all suppliers. */
  lemma EmptyServiceRow(m: Monitor, b: Block, k: SummaryKey)
    requires k.ServiceRow? && k.service == "" && "" in Deliver(m, b).known
    requires k.start == Start(k.period, b.header.blockTime)
    ensures GetSummary(Deliver(m, b).db, k).activeSuppliers == CountFor(RawOf(Deliver(m, b).db), k)
  {
    hide CountFor, Total, Share, Plus, InsertBlock;
    RowWritten(Deliver(m, b).known, b.header.blockTime, k);
  }

  function Claim(service: string, supplier: string): Settlement {
    Settlement(1, 0, Settled, supplier, "app", service, 0, 0, 0, 0, 0, 0, 0, 0, false, 0, 0, "", "", 0)
  }

  /** An input where the count is wrong: a claim without a service and one of another supplier with
      a service; the process restarts, which makes the empty name known; a block without events
      follows in the same hour. */
  function EmptyNameRun(): seq<Step> {
    [Delivered(Block(ProcessedBlock(1, 0, 2, Live), Raw([Claim("", "a"), Claim("x", "b")], [], []), map[])),
     Restarted,
     Delivered(Block(ProcessedBlock(2, 0, 0, Live), Raw([], [], []), map[]))]
  }

  lemma EmptyNameTables()
    ensures RawOf(Run(EmptyNameRun()[..1]).db) == Raw([Claim("", "a"), Claim("x", "b")], [], [])
  {
    hide Reported;
    var claims := [Claim("", "a"), Claim("x", "b")];
    var raw := Raw(claims, [], []);
    var b := Block(ProcessedBlock(1, 0, 2, Live), raw, map[]);
    assert EmptyNameRun()[..1] == [Delivered(b)] && [Delivered(b)][..0] == [];
    assert Stamp(raw, 0) == raw;
    assert FreshBlock(EMPTY, raw, 0);
    FreshBlockAddsAll(EMPTY, raw, 0);
    DeliveredEvents(Monitor(EMPTY, {}), b);
    assert Append(RawOf(EMPTY), raw) == raw;
  }

  lemma EmptyNameSuppliers()
    ensures var raw, k := Raw([Claim("", "a"), Claim("x", "b")], [], []), ServiceRow(Hour, 0, "");
      Suppliers(InPeriod(raw, Hour, 0)) == {"a", "b"} && Suppliers(RowEvents(raw, k)) == {"a"}
  {
    hide Filter;
    var claims := [Claim("", "a"), Claim("x", "b")];
    var raw := Raw(claims, [], []);
    var period := InPeriod(raw, Hour, 0).settlements;
    forall s ensures s in period <==> s == claims[0] || s == claims[1] {
      assert SettlementDuring(0, 3600)(s) <==> 0 <= s.blockTime < 3600;
      assert claims[0] in claims && claims[1] in claims;
    }
    forall s ensures s in RowEvents(raw, ServiceRow(Hour, 0, "")).settlements <==> s == claims[0] {
      assert Keyed(ServiceOfSettlement, "")(s) <==> ServiceOfSettlement(s) == "";
    }
    assert claims[0].supplier == "a" && claims[1].supplier == "b";
  }

  lemma KnownGrows(m: Monitor, b: Block)
    ensures m.known <= Deliver(m, b).known
  {
  }

  lemma NothingAdded(db: Db)
    ensures Added(db, 0, Raw([], [], [])) == Raw([], [], [])
  {
  }

  lemma EmptyNameEnd()
    ensures var steps := EmptyNameRun();
      && |steps| == 3 && steps[2].Delivered? && steps[2].block.header.blockTime == 0
      && Run(steps) == Deliver(Run(steps[..2]), steps[2].block) && "" in Run(steps).known
      && RawOf(Run(steps).db) == Raw([Claim("", "a"), Claim("x", "b")], [], [])
  {
    hide Deliver, RawOf, Added;
    var steps := EmptyNameRun();
    var before, raw := Run(steps[..2]), Raw([Claim("", "a"), Claim("x", "b")], [], []);
    assert steps[..2][..1] == steps[..1] && steps[..2][1] == Restarted && steps[..3][..2] == steps[..2];
    EmptyNameTables();
    assert raw.settlements[0] in raw.settlements && "" in before.known;
    DeliveredEvents(before, steps[2].block);
    NothingAdded(before.db);
    assert Append(raw, Raw([], [], [])) == raw;
    KnownGrows(before, steps[2].block);
  }

  lemma EmptyNameCount(m: Monitor, b: Block, p: Period)
    requires "" in Deliver(m, b).known
    ensures var start := Start(p, b.header.blockTime);
      GetSummary(Deliver(m, b).db, ServiceRow(p, start, "")).activeSuppliers
      == |Suppliers(InPeriod(RawOf(Deliver(m, b).db), p, start))|
  {
    hide Deliver, RawOf, Suppliers, During, GetSummary;
    EmptyServiceRow(m, b, ServiceRow(p, Start(p, b.header.blockTime), ""));
  }

  lemma TwoNames()
    ensures |{"a", "b"}| == 2 && |{"a"}| == 1
  {
    assert "a"[0] != "b"[0];
  }

  lemma HourZero(raw: Raw, k: SummaryKey)
    ensures Start(Hour, 0) == 0 && Exact(raw, k).activeSuppliers == |Suppliers(RowEvents(raw, k))|
  {
  }

  lemma EmptyNameCountsTwo()
    ensures var k, db := ServiceRow(Hour, 0, ""), Run(EmptyNameRun()).db;
      GetSummary(db, k).activeSuppliers == 2 && Exact(RawOf(db), k).activeSuppliers == 1
  {
    hide *;
    var steps := EmptyNameRun();
    EmptyNameEnd();
    EmptyNameCount(Run(steps[..2]), steps[2].block, Hour);
    EmptyNameSuppliers();
    TwoNames();
    HourZero(RawOf(Run(steps).db), ServiceRow(Hour, 0, ""));
  }

  lemma MissedNothing(steps: seq<Step>, k: SummaryKey)
    requires k.ServiceRow? && |steps| == 0
    ensures Missed(steps, k) == 0
  {
  }

  lemma MissedStep(steps: seq<Step>, k: SummaryKey)
    requires k.ServiceRow? && |steps| > 0
    ensures var last := steps[|steps| - 1];
      Missed(steps, k) == Missed(steps[..|steps| - 1], k) +
        (if MissesRow(Run(steps), last, k) then Reimbursed(last.block, k.service) else 0)
  {
  }

  lemma PlusShuffle(a: Contribution, b: Contribution, c: Contribution)
    ensures Plus(Plus(a, b), c) == Plus(Plus(a, c), b)
  {
  }

  lemma PlusGap(row: Contribution, x: int, y: int)
    ensures Plus(row, ZERO.(reimbursementUpokt := x + y))
         == Plus(Plus(row, ZERO.(reimbursementUpokt := x)), ZERO.(reimbursementUpokt := y))
  {
  }

  lemma TotalOfReimbursements(rs: seq<ReimbursementEvent>)
    ensures Total(Raw([], [], rs)) == ZERO.(reimbursementUpokt := Sum(rs, OfReimbursement).reimbursementUpokt)
  {
    hide Plus;
    ReimbursementSum(rs);
    PlusLaws(ZERO, ZERO, ZERO);
    PlusLaws(Sum(rs, OfReimbursement), ZERO, ZERO);
  }

  lemma OnlyReimbursed(row: Contribution, missed: int, b: Block, service: string)
    requires OfService(b.raw, service).settlements == []
    ensures Plus(row, ZERO.(reimbursementUpokt := missed + Reimbursed(b, service)))
         == Plus(Plus(row, ZERO.(reimbursementUpokt := missed)), Total(OfService(b.raw, service)))
  {
    hide Plus, Sum, Filter, Total;
    TotalOfReimbursements(OfService(b.raw, service).reimbursements);
    PlusGap(row, missed, Reimbursed(b, service));
  }

  lemma UnknownInBlock(m: Monitor, b: Block, service: string)
    requires service != "" && service !in Deliver(m, b).known
    ensures OfService(b.raw, service).settlements == []
  {
    hide Filter;
    forall s | s in b.raw.settlements ensures !Keyed(ServiceOfSettlement, service)(s) {
      assert ServiceOfSettlement(s) == s.serviceId;
      assert s.serviceId in ServiceIds(b.raw);
    }
    FilterNone(b.raw.settlements, Keyed(ServiceOfSettlement, service));
  }

  lemma UnknownRowEvents(m: Monitor, b: Block, k: SummaryKey)
    requires FreshBlock(m.db, b.raw, b.header.blockTime)
    requires Aligned(k.period, k.start) && k.ServiceRow?
    ensures RowEvents(RawOf(Deliver(m, b).db), k) ==
      if Start(k.period, b.header.blockTime) == k.start
      then Append(RowEvents(RawOf(m.db), k), Share(Stamp(b.raw, b.header.blockTime), k))
      else RowEvents(RawOf(m.db), k)
  {
    hide RowEvents, Share, Stamp, Added, FreshBlock;
    var ts := b.header.blockTime;
    InsertBlockAppends(m.db, b.header, b.raw, b.dists);
    FreshBlockAddsAll(m.db, b.raw, ts);
    StampedAt(b.raw, ts);
    EventsOfMoment(Stamp(b.raw, ts), ts, k);
    RowEventsAppend(RawOf(m.db), Stamp(b.raw, ts), k);
    var mine := RowEvents(RawOf(m.db), k);
    assert Append(mine, Raw([], [], [])) == mine;
  }

  lemma LedgerStep(m: Monitor, b: Block, k: SummaryKey, missed: int)
    requires FreshBlock(m.db, b.raw, b.header.blockTime) && KnowsAllNamed(m)
    requires Aligned(k.period, k.start) && k.ServiceRow? && k.service != ""
    requires Plus(GetSummary(m.db, k).totals, ZERO.(reimbursementUpokt := missed)) == Exact(RawOf(m.db), k).totals
    ensures var m' := Deliver(m, b);
      var missed' := missed + if MissesRow(m', Delivered(b), k) then Reimbursed(b, k.service) else 0;
      Plus(GetSummary(m'.db, k).totals, ZERO.(reimbursementUpokt := missed')) == Exact(RawOf(m'.db), k).totals
  {
    hide Deliver, RowEvents, Plus, Total, Reimbursed, FreshBlock, Stamp, Added, Sum, OfService;
    var ts, m' := b.header.blockTime, Deliver(m, b);
    var row, gap := GetSummary(m.db, k).totals, ZERO.(reimbursementUpokt := missed);
    var mine := RowEvents(RawOf(m.db), k);
    FreshBlockAddsAll(m.db, b.raw, ts);
    StampKeepsTotals(b.raw, ts, k);
    TotalAppend(mine, Share(Stamp(b.raw, ts), k));
    if k.service in m'.known {
      RowAfterDelivery(m, b, k);
      PlusShuffle(row, Total(Share(b.raw, k)), gap);
    } else {
      UnknownAfterDelivery(m, b, k);
      UnknownRowEvents(m, b, k);
      UnknownInBlock(m, b, k.service);
      OnlyReimbursed(row, missed, b, k.service);
    }
  }

  /** The ledger of a service row: what it shows plus what it missed is the aggregate of the raw events. */
  lemma {:induction false} ServiceLedger(steps: seq<Step>, k: SummaryKey)
    requires FreshRun(steps) && Aligned(k.period, k.start) && k.ServiceRow? && k.service != ""
    ensures Plus(GetSummary(Run(steps).db, k).totals, ZERO.(reimbursementUpokt := Missed(steps, k)))
         == Exact(RawOf(Run(steps).db), k).totals
  {
    hide Deliver, RowEvents, Plus, Total, Reimbursed, Missed, FreshBlock;
    if |steps| == 0 {
      NothingInEmpty(k);
      PlusLaws(ZERO, ZERO, ZERO);
      MissedNothing(steps, k);
    } else {
      var init, last := steps[..|steps| - 1], steps[|steps| - 1];
      ServiceLedger(init, k);
      MissedStep(steps, k);
      if last.Delivered? {
        RunKnowsAllNamed(init);
        LedgerStep(Run(init), last.block, k, Missed(init, k));
      }
    }
  }

  /** A reimbursement of a row's service and period that came while the service was unknown. */
  ghost predicate LateService(steps: seq<Step>, k: SummaryKey)
    requires k.ServiceRow?
  {
    |steps| > 0 &&
    (LateService(steps[..|steps| - 1], k) ||
     (MissesRow(Run(steps), steps[|steps| - 1], k)
      && exists r :: r in steps[|steps| - 1].block.raw.reimbursements && r.serviceId == k.service && r.amountUpokt > 0))
  }

  ghost predicate AmountsNonNegative(steps: seq<Step>) {
    forall step :: step in steps && step.Delivered? ==>
      forall r :: r in step.block.raw.reimbursements ==> r.amountUpokt >= 0
  }

  lemma {:induction false} PositiveSum(rs: seq<ReimbursementEvent>)
    requires forall r :: r in rs ==> r.amountUpokt >= 0
    ensures Sum(rs, OfReimbursement).reimbursementUpokt >= 0
    ensures Sum(rs, OfReimbursement).reimbursementUpokt > 0 <==> exists r :: r in rs && r.amountUpokt > 0
  {
    if |rs| > 0 {
      var init, last := rs[..|rs| - 1], rs[|rs| - 1];
      assert rs == init + [last];
      PositiveSum(init);
    }
  }

  lemma OfServiceReimbursements(raw: Raw, service: string)
    ensures forall r :: r in OfService(raw, service).reimbursements <==>
      r in raw.reimbursements && r.serviceId == service
  {
    assert forall r :: Keyed(ServiceOfReimbursement, service)(r) <==> ServiceOfReimbursement(r) == service;
  }

  lemma {:induction false} MissedIff(steps: seq<Step>, k: SummaryKey)
    requires k.ServiceRow? && AmountsNonNegative(steps)
    ensures Missed(steps, k) >= 0
    ensures Missed(steps, k) > 0 <==> LateService(steps, k)
  {
    hide Run, Sum, Filter;
    if |steps| > 0 {
      var init, last := steps[..|steps| - 1], steps[|steps| - 1];
      assert forall step :: step in init ==> step in steps;
      MissedIff(init, k);
      if MissesRow(Run(steps), last, k) {
        assert last in steps;
        var rs := OfService(last.block.raw, k.service).reimbursements;
        OfServiceReimbursements(last.block.raw, k.service);
        PositiveSum(rs);
      }
    }
  }

  /** A named service's row is exact if and only if none of its reimbursements came before the
      service was known from a settlement. */
  lemma ServiceRowExactIff(steps: seq<Step>, k: SummaryKey)
    requires FreshRun(steps) && AmountsNonNegative(steps)
    requires Aligned(k.period, k.start) && k.ServiceRow? && k.service != ""
    ensures RowExact(Run(steps).db, k) <==> !LateService(steps, k)
  {
    hide RowEvents, Run, Missed, Total, FreshRun;
    ServiceLedger(steps, k);
    SupplierCountsExact(steps, k);
    MissedIff(steps, k);
  }

  // 4. Two goroutines at once. ReportBlock reads, accumulates and writes a row without a lock.

  function BothStored(db: Db, a: Block, b: Block): Db {
    InsertBlock(InsertBlock(db, a.header, a.raw, a.dists), b.header, b.raw, b.dists)
  }

  function WriteRow(db: Db, k: SummaryKey, read: Summary, block: Block): Db {
    db.(summaries := db.summaries[k := Summary(Plus(read.totals, Total(Share(block.raw, k))), CountFor(RawOf(db), k))])
  }

  /** Both blocks are stored and both reporters have read the row before either writes it. */
  function Overlapped(db: Db, a: Block, b: Block, k: SummaryKey): Db {
    var stored := BothStored(db, a, b);
    WriteRow(WriteRow(stored, k, GetSummary(stored, k), a), k, GetSummary(stored, k), b)
  }

  lemma FreshInsertRow(db: Db, b: Block, k: SummaryKey)
    requires FreshBlock(db, b.raw, b.header.blockTime)
    requires Aligned(k.period, k.start) && Start(k.period, b.header.blockTime) == k.start
    ensures var db' := InsertBlock(db, b.header, b.raw, b.dists);
      && GetSummary(db', k) == GetSummary(db, k)
      && Total(RowEvents(RawOf(db'), k)) == Plus(Total(RowEvents(RawOf(db), k)), Total(Share(b.raw, k)))
  {
    hide RowEvents, Share, Stamp, Added, FreshBlock, InsertBlock, Plus, Total;
    var ts := b.header.blockTime;
    InsertSummariesFrame(db, b);
    InsertBlockAppends(db, b.header, b.raw, b.dists);
    FreshBlockAddsAll(db, b.raw, ts);
    StampedAt(b.raw, ts);
    EventsOfMoment(Stamp(b.raw, ts), ts, k);
    RowEventsAppend(RawOf(db), Stamp(b.raw, ts), k);
    TotalAppend(RowEvents(RawOf(db), k), Share(Stamp(b.raw, ts), k));
    StampKeepsTotals(b.raw, ts, k);
  }

  lemma PlusNothing(a: Contribution, b: Contribution, c: Contribution)
    ensures Plus(a, c) == Plus(Plus(a, b), c) <==> b == ZERO
  {
  }

  lemma SummariesLeaveRaw(a: Db, b: Db)
    requires b == a.(summaries := b.summaries)
    ensures RawOf(b) == RawOf(a)
  {
  }

  /** An overlap loses the first write: even for two fresh blocks of one period, the network row
      is exact afterwards if and only if the overwritten block contributed nothing. */
  lemma OverlapExactIff(db: Db, a: Block, b: Block, p: Period, start: int)
    requires NetworkExact(db) && Aligned(p, start)
    requires Start(p, a.header.blockTime) == start == Start(p, b.header.blockTime)
    requires FreshBlock(db, a.raw, a.header.blockTime)
    requires FreshBlock(InsertBlock(db, a.header, a.raw, a.dists), b.raw, b.header.blockTime)
    ensures RowExact(Overlapped(db, a, b, NetworkRow(p, start)), NetworkRow(p, start)) <==> Total(a.raw) == ZERO
  {
    hide RowEvents, Total, FreshBlock, InsertBlock, Plus, CountFor, Suppliers, RawOf;
    var k := NetworkRow(p, start);
    assert RowExact(db, k);
    FreshInsertRow(db, a, k);
    FreshInsertRow(InsertBlock(db, a.header, a.raw, a.dists), b, k);
    var stored := BothStored(db, a, b);
    SummariesLeaveRaw(stored, WriteRow(stored, k, GetSummary(stored, k), a));
    SummariesLeaveRaw(stored, Overlapped(db, a, b, k));
    CountForIsExact(RawOf(stored), k);
    PlusNothing(GetSummary(db, k).totals, Total(a.raw), Total(b.raw));
  }
}
