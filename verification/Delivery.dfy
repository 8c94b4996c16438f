/** Live and backfill deliveries of the same chain: any order, any repetition. */
module Delivery {
  import opened Seqs
  import opened Tables
  import opened Model
  import opened Periods
  import opened Aggregation
  import opened Database
  import opened Reporting
  import opened Materialization
  import opened Recalculation

  /** What a height decodes to; both paths see the same. */
  datatype Payload = Payload(blockTime: int, eventCount: nat, raw: Raw, dists: Dists)

  type Chain = int -> Payload

  datatype Arrival = Arrival(height: int, source: Source)

  function BlockAt(chain: Chain, a: Arrival): Block {
    var payload := chain(a.height);
    Block(ProcessedBlock(a.height, payload.blockTime, payload.eventCount, a.source), payload.raw, payload.dists)
  }

  function ToStep(chain: Chain): Arrival -> Step { a => Delivered(BlockAt(chain, a)) }

  function Ingested(chain: Chain, arrivals: seq<Arrival>): Monitor { Run(Map(arrivals, ToStep(chain))) }

  function Heights(arrivals: seq<Arrival>): set<int> { set a | a in arrivals :: a.height }

  ghost predicate OwnHeight(raw: Raw, h: int) {
    && (forall s :: s in raw.settlements ==> s.blockHeight == h)
    && (forall o :: o in raw.overservices ==> o.blockHeight == h)
    && (forall r :: r in raw.reimbursements ==> r.blockHeight == h)
  }

  /** The converters stamp every row with the height of its block. */
  ghost predicate Labelled(chain: Chain) {
    forall h: int :: OwnHeight(chain(h).raw, h)
  }

  lemma IngestLast(chain: Chain, arrivals: seq<Arrival>)
    requires |arrivals| > 0
    ensures var n := |arrivals| - 1;
      Ingested(chain, arrivals) == Deliver(Ingested(chain, arrivals[..n]), BlockAt(chain, arrivals[n]))
    ensures var n := |arrivals| - 1;
      Heights(arrivals) == Heights(arrivals[..n]) + {arrivals[n].height}
  {
    hide Deliver;
    var n := |arrivals| - 1;
    assert arrivals == arrivals[..n] + [arrivals[n]];
    assert Map(arrivals, ToStep(chain))[..n] == Map(arrivals[..n], ToStep(chain));
  }

  lemma DeliveredTables(m: Monitor, b: Block)
    ensures var db', inserted := Deliver(m, b).db, InsertBlock(m.db, b.header, b.raw, b.dists);
      db' == inserted.(summaries := db'.summaries)
  {
  }

  lemma StampOwnHeight(raw: Raw, ts: int, h: int)
    requires OwnHeight(raw, h)
    ensures OwnHeight(Stamp(raw, ts), h)
  {
  }

  // 1. A closed form of the tables: each height contributes its own rows, once.

  lemma {:induction false} OfferedElsewhere(settlements: seq<Settlement>, dists: Dists, h: int, k: SettlementKey)
    requires forall s :: s in settlements ==> s.blockHeight == h
    requires k.height != h
    ensures Offered(settlements, dists, k) == None
  {
    if |settlements| > 0 {
      assert settlements[|settlements| - 1] in settlements;
      OfferedElsewhere(settlements[..|settlements| - 1], dists, h, k);
    }
  }

  function RowsAt(chain: Chain, h: int): Raw { Stamp(chain(h).raw, chain(h).blockTime) }

  lemma SummariesDoNotMatter(a: Db, b: Db, k: SettlementKey)
    requires b == a.(summaries := b.summaries)
    ensures Stored(a, k) == Stored(b, k) && (Consistent(a) ==> Consistent(b))
  {
  }

  lemma EmptyRun(chain: Chain, arrivals: seq<Arrival>)
    requires arrivals == []
    ensures Ingested(chain, arrivals) == Monitor(EMPTY, {}) && Consistent(EMPTY)
    ensures RawOf(EMPTY) == Raw([], [], [])
  {
  }

  /** The settlement and the rewards stored under a key, whatever the schedule was. */
  lemma {:induction false} StoredSettlement(chain: Chain, arrivals: seq<Arrival>, k: SettlementKey)
    requires Labelled(chain)
    ensures Consistent(Ingested(chain, arrivals).db)
    ensures Stored(Ingested(chain, arrivals).db, k) ==
      if k.height in Heights(arrivals) then Offered(RowsAt(chain, k.height).settlements,
          chain(k.height).dists, k) else None
  {
    hide Consistent, Ingested, Deliver, InsertBlock, Offered, Stamp;
    if |arrivals| == 0 {
      EmptyRun(chain, arrivals);
    } else {
      var n := |arrivals| - 1;
      var b := BlockAt(chain, arrivals[n]);
      var before := Ingested(chain, arrivals[..n]);
      StoredSettlement(chain, arrivals[..n], k);
      IngestLast(chain, arrivals);
      DeliveredTables(before, b);
      InsertBlockConsistent(before.db, b.header, b.raw, b.dists);
      StoredAfterBlock(before.db, b.header, b.raw, b.dists, k);
      SummariesDoNotMatter(InsertBlock(before.db, b.header, b.raw, b.dists), Ingested(chain, arrivals).db, k);
      if k.height != arrivals[n].height {
        StampOwnHeight(b.raw, b.header.blockTime, arrivals[n].height);
        OfferedElsewhere(RowsAt(chain, arrivals[n].height).settlements, b.dists, arrivals[n].height, k);
      }
    }
  }

  lemma NotThere<R(!new), K>(rows: seq<R>, key: R -> K, k: K)
    requires forall r :: r in rows ==> key(r) != k
    ensures Find(rows, key, k) == None
  {
  }

  lemma {:induction false} StoredOverservice(chain: Chain, arrivals: seq<Arrival>, k: OverserviceKey)
    requires Labelled(chain)
    ensures Find(Ingested(chain, arrivals).db.overservices, KeyOfOverservice, k) ==
      if k.height in Heights(arrivals) then Find(RowsAt(chain, k.height).overservices, KeyOfOverservice, k) else None
  {
    hide Ingested, Deliver, Stamp, Find;
    if |arrivals| == 0 {
      EmptyRun(chain, arrivals);
    } else {
      var n := |arrivals| - 1;
      var b := BlockAt(chain, arrivals[n]);
      var before, rows := Ingested(chain, arrivals[..n]), RowsAt(chain, arrivals[n].height).overservices;
      StoredOverservice(chain, arrivals[..n], k);
      IngestLast(chain, arrivals);
      DeliveredTables(before, b);
      FindInsertAll(before.db.overservices, KeyOfOverservice, rows, k);
      if k.height != arrivals[n].height {
        StampOwnHeight(b.raw, b.header.blockTime, arrivals[n].height);
        NotThere(rows, KeyOfOverservice, k);
      }
    }
  }

  lemma {:induction false} StoredReimbursement(chain: Chain, arrivals: seq<Arrival>, k: ReimbursementKey)
    requires Labelled(chain)
    ensures Find(Ingested(chain, arrivals).db.reimbursements, KeyOfReimbursement, k) ==
      if k.height in Heights(arrivals) then Find(RowsAt(chain, k.height).reimbursements,
          KeyOfReimbursement, k) else None
  {
    hide Ingested, Deliver, Stamp, Find;
    if |arrivals| == 0 {
      EmptyRun(chain, arrivals);
    } else {
      var n := |arrivals| - 1;
      var b := BlockAt(chain, arrivals[n]);
      var before, rows := Ingested(chain, arrivals[..n]), RowsAt(chain, arrivals[n].height).reimbursements;
      StoredReimbursement(chain, arrivals[..n], k);
      IngestLast(chain, arrivals);
      DeliveredTables(before, b);
      FindInsertAll(before.db.reimbursements, KeyOfReimbursement, rows, k);
      if k.height != arrivals[n].height {
        StampOwnHeight(b.raw, b.header.blockTime, arrivals[n].height);
        NotThere(rows, KeyOfReimbursement, k);
      }
    }
  }

  /** A processed block up to the path that brought it. */
  function WithoutSource(b: ProcessedBlock): ProcessedBlock { b.(source := Live) }

  lemma {:induction false} ProcessedHeights(chain: Chain, arrivals: seq<Arrival>)
    ensures var processed := Ingested(chain, arrivals).db.processed;
      && processed.Keys == Heights(arrivals)
      && forall h :: h in processed ==>
           WithoutSource(processed[h]) == ProcessedBlock(h, chain(h).blockTime, chain(h).eventCount, Live)
  {
    hide Ingested, Deliver;
    if |arrivals| == 0 {
      EmptyRun(chain, arrivals);
    } else {
      var n := |arrivals| - 1;
      ProcessedHeights(chain, arrivals[..n]);
      IngestLast(chain, arrivals);
      DeliveredTables(Ingested(chain, arrivals[..n]), BlockAt(chain, arrivals[n]));
    }
  }

  /** The source column tells which path was first. */
  lemma {:induction false} FirstSourceStays(chain: Chain, arrivals: seq<Arrival>, i: nat)
    requires i < |arrivals| && forall j :: 0 <= j < i ==> arrivals[j].height != arrivals[i].height
    ensures var h, processed := arrivals[i].height, Ingested(chain, arrivals).db.processed;
      h in processed && processed[h].source == arrivals[i].source
  {
    hide Ingested, Deliver;
    var n := |arrivals| - 1;
    IngestLast(chain, arrivals);
    DeliveredTables(Ingested(chain, arrivals[..n]), BlockAt(chain, arrivals[n]));
    if i < n {
      FirstSourceStays(chain, arrivals[..n], i);
    } else {
      ProcessedHeights(chain, arrivals[..n]);
    }
  }

  /** Equal settlements with equal rewards, equal events, equal processed heights: everything
      except row ids and the source column. */
  ghost predicate SameTables(a: Db, b: Db) {
    && (forall k :: Stored(a, k) == Stored(b, k))
    && (forall k :: Find(a.overservices, KeyOfOverservice, k) == Find(b.overservices, KeyOfOverservice, k))
    && (forall k :: Find(a.reimbursements, KeyOfReimbursement, k) == Find(b.reimbursements, KeyOfReimbursement, k))
    && a.processed.Keys == b.processed.Keys
    && (forall h :: h in a.processed ==> WithoutSource(a.processed[h]) == WithoutSource(b.processed[h]))
  }

  /** Equal in everything but the summaries. */
  ghost predicate SameRaw(a: Db, b: Db) { a == b.(summaries := a.summaries) }

  lemma {:induction false} InsertSettlementsSameRaw(a: Db, b: Db, settlements: seq<Settlement>, dists: Dists)
    requires SameRaw(a, b)
    ensures SameRaw(InsertSettlements(a, settlements, dists), InsertSettlements(b, settlements, dists))
  {
    if |settlements| > 0 {
      InsertSettlementsSameRaw(a, b, settlements[..|settlements| - 1], dists);
    }
  }

  lemma InsertSameRaw(a: Db, b: Db, block: Block)
    requires SameRaw(a, b)
    ensures SameRaw(InsertBlock(a, block.header, block.raw, block.dists),
        InsertBlock(b, block.header, block.raw, block.dists))
  {
    InsertSettlementsSameRaw(a, b, Stamp(block.raw, block.header.blockTime).settlements, block.dists);
  }

  lemma DeliveredSameRaw(m: Monitor, b: Block)
    ensures SameRaw(InsertBlock(m.db, b.header, b.raw, b.dists), Deliver(m, b).db)
  {
    hide InsertBlock;
    DeliveredTables(m, b);
  }

  lemma SameRawTrans(a: Db, b: Db, c: Db)
    requires SameRaw(a, b) && SameRaw(b, c)
    ensures SameRaw(a, c)
  {
  }

  lemma DeliverSameRaw(m: Monitor, m': Monitor, b: Block)
    requires SameRaw(m.db, m'.db)
    ensures SameRaw(Deliver(m, b).db, Deliver(m', b).db)
  {
    hide InsertBlock, Deliver;
    DeliveredTables(m, b);
    DeliveredTables(m', b);
    InsertSameRaw(m.db, m'.db, b);
  }

  lemma SameRawSameTables(a: Db, b: Db, c: Db)
    requires SameRaw(a, b) && SameTables(b, c)
    ensures SameTables(a, c)
  {
  }

  /** Confluence: schedules that cover the same heights, in any order, from any source and with
      any repetition, leave the same tables. */
  lemma Confluence(chain: Chain, a: seq<Arrival>, b: seq<Arrival>)
    requires Labelled(chain) && Heights(a) == Heights(b)
    ensures SameTables(Ingested(chain, a).db, Ingested(chain, b).db)
  {
    hide Ingested, Stored, Find, Offered, Stamp, Labelled;
    forall k ensures Stored(Ingested(chain, a).db, k) == Stored(Ingested(chain, b).db, k) {
      StoredSettlement(chain, a, k);
      StoredSettlement(chain, b, k);
    }
    forall k ensures Find(Ingested(chain, a).db.overservices, KeyOfOverservice, k)
                  == Find(Ingested(chain, b).db.overservices, KeyOfOverservice, k) {
      StoredOverservice(chain, a, k);
      StoredOverservice(chain, b, k);
    }
    forall k ensures Find(Ingested(chain, a).db.reimbursements, KeyOfReimbursement, k)
                  == Find(Ingested(chain, b).db.reimbursements, KeyOfReimbursement, k) {
      StoredReimbursement(chain, a, k);
      StoredReimbursement(chain, b, k);
    }
    ProcessedHeights(chain, a);
    ProcessedHeights(chain, b);
  }

  lemma {:induction false} PlainFind(rows: seq<SettlementRow>, k: SettlementKey)
    ensures Find(Map(rows, RowSettlement), KeyOfSettlement, k) ==
      match Find(rows, RowKey, k) case None => None case Some(row) => Some(row.settlement)
  {
    if |rows| > 0 {
      var n := |rows| - 1;
      assert Map(rows, RowSettlement)[..n] == Map(rows[..n], RowSettlement);
      PlainFind(rows[..n], k);
    }
  }

  lemma PlainDistinct(db: Db)
    requires Consistent(db)
    ensures Distinct(RawOf(db).settlements, KeyOfSettlement)
  {
  }

  lemma SameTablesSameEvents(a: Db, b: Db)
    requires Consistent(a) && Consistent(b) && SameTables(a, b)
    ensures SameEvents(RawOf(a), RawOf(b))
  {
    hide Find;
    forall k ensures Find(RawOf(a).settlements, KeyOfSettlement, k) == Find(RawOf(b).settlements, KeyOfSettlement, k) {
      assert Stored(a, k) == Stored(b, k);
      PlainFind(a.settlements, k);
      PlainFind(b.settlements, k);
    }
    PlainDistinct(a);
    PlainDistinct(b);
    SameAnswersSameRows(RawOf(a).settlements, RawOf(b).settlements, KeyOfSettlement);
    SameAnswersSameRows(a.overservices, b.overservices, KeyOfOverservice);
    SameAnswersSameRows(a.reimbursements, b.reimbursements, KeyOfReimbursement);
  }

  // 2. Repair.

  /** Every stored event lies at the time of a delivered height. */
  ghost predicate FromChain(chain: Chain, heights: set<int>, raw: Raw) {
    && (forall s :: s in raw.settlements ==> s.blockHeight in heights && s.blockTime == chain(s.blockHeight).blockTime)
    && (forall o :: o in raw.overservices ==> o.blockHeight in heights && o.blockTime == chain(o.blockHeight).blockTime)
    && (forall r :: r in raw.reimbursements ==>
          r.blockHeight in heights && r.blockTime == chain(r.blockHeight).blockTime)
  }

  lemma AddedOwnHeight(db: Db, ts: int, raw: Raw, h: int)
    requires OwnHeight(raw, h)
    ensures OwnHeight(Added(db, ts, raw), h)
  {
    hide Kept;
    var rows := Stamp(raw, ts);
    StampOwnHeight(raw, ts, h);
    KeptAreOffered(RawOf(db).settlements, KeyOfSettlement, rows.settlements);
    KeptAreOffered(RawOf(db).overservices, KeyOfOverservice, rows.overservices);
    KeptAreOffered(RawOf(db).reimbursements, KeyOfReimbursement, rows.reimbursements);
  }

  lemma {:induction false} StoredFromChain(chain: Chain, arrivals: seq<Arrival>)
    requires Labelled(chain)
    ensures FromChain(chain, Heights(arrivals), RawOf(Ingested(chain, arrivals).db))
  {
    hide Ingested, Deliver, Stamp, Added, RawOf;
    if |arrivals| == 0 {
      EmptyRun(chain, arrivals);
    } else {
      var n := |arrivals| - 1;
      var h, b, before := arrivals[n].height, BlockAt(chain, arrivals[n]), Ingested(chain, arrivals[..n]);
      StoredFromChain(chain, arrivals[..n]);
      IngestLast(chain, arrivals);
      DeliveredEvents(before, b);
      AddedAllAt(before.db, b.header.blockTime, b.raw);
      AddedOwnHeight(before.db, b.header.blockTime, b.raw, h);
    }
  }

  /** No two rows of one block share a key. */
  ghost predicate DistinctWithin(raw: Raw) {
    && Distinct(raw.settlements, KeyOfSettlement)
    && Distinct(raw.overservices, KeyOfOverservice)
    && Distinct(raw.reimbursements, KeyOfReimbursement)
  }

  lemma StampDistinct(raw: Raw, ts: int)
    requires DistinctWithin(raw)
    ensures DistinctWithin(Stamp(raw, ts))
  {
  }

  ghost predicate OnceEach(arrivals: seq<Arrival>) {
    forall i, j :: 0 <= i < j < |arrivals| ==> arrivals[i].height != arrivals[j].height
  }

  lemma NewHeightIsFresh(db: Db, ts: int, raw: Raw, h: int, chain: Chain, heights: set<int>)
    requires FromChain(chain, heights, RawOf(db)) && h !in heights
    requires OwnHeight(raw, h) && DistinctWithin(raw)
    ensures FreshBlock(db, raw, ts)
  {
    hide RawOf, Stamp;
    var stored, rows := RawOf(db), Stamp(raw, ts);
    StampOwnHeight(raw, ts, h);
    StampDistinct(raw, ts);
    forall i, j | 0 <= i < |stored.settlements| && 0 <= j < |rows.settlements|
      ensures KeyOfSettlement(stored.settlements[i]) != KeyOfSettlement(rows.settlements[j]) {
      assert stored.settlements[i] in stored.settlements && rows.settlements[j] in rows.settlements;
    }
    forall i, j | 0 <= i < |stored.overservices| && 0 <= j < |rows.overservices|
      ensures KeyOfOverservice(stored.overservices[i]) != KeyOfOverservice(rows.overservices[j]) {
      assert stored.overservices[i] in stored.overservices && rows.overservices[j] in rows.overservices;
    }
    forall i, j | 0 <= i < |stored.reimbursements| && 0 <= j < |rows.reimbursements|
      ensures KeyOfReimbursement(stored.reimbursements[i]) != KeyOfReimbursement(rows.reimbursements[j]) {
      assert stored.reimbursements[i] in stored.reimbursements && rows.reimbursements[j] in rows.reimbursements;
    }
  }

  /** Distinct heights with distinct row keys inside each block make a fresh run. */
  lemma {:induction false} OnceEachIsFresh(chain: Chain, arrivals: seq<Arrival>)
    requires Labelled(chain) && OnceEach(arrivals)
    requires forall h: int :: DistinctWithin(chain(h).raw)
    ensures FreshRun(Map(arrivals, ToStep(chain)))
  {
    hide FreshBlock, FromChain, DistinctWithin, Run;
    if |arrivals| > 0 {
      var n := |arrivals| - 1;
      var h, b := arrivals[n].height, BlockAt(chain, arrivals[n]);
      OnceEachIsFresh(chain, arrivals[..n]);
      assert Map(arrivals, ToStep(chain))[..n] == Map(arrivals[..n], ToStep(chain));
      StoredFromChain(chain, arrivals[..n]);
      NewHeightIsFresh(Ingested(chain, arrivals[..n]).db, b.header.blockTime, b.raw, h, chain, Heights(arrivals[..n]));
    }
  }

  lemma SettlementInPeriod(chain: Chain, heights: set<int>, raw: Raw, p: Period, k: SettlementKey)
    requires FromChain(chain, heights, raw) && Has(raw.settlements, KeyOfSettlement, k)
    ensures InPeriod(raw, p, Start(p, chain(k.height).blockTime)).settlements != []
  {
    var ts := chain(k.height).blockTime;
    var i :| 0 <= i < |raw.settlements| && KeyOfSettlement(raw.settlements[i]) == k;
    StartIsInterval(p, Start(p, ts), ts);
    assert raw.settlements[i] in InPeriod(raw, p, Start(p, ts)).settlements;
  }

  lemma OverserviceInPeriod(chain: Chain, heights: set<int>, raw: Raw, p: Period, k: OverserviceKey)
    requires FromChain(chain, heights, raw) && Has(raw.overservices, KeyOfOverservice, k)
    ensures InPeriod(raw, p, Start(p, chain(k.height).blockTime)).overservices != []
  {
    var ts := chain(k.height).blockTime;
    var i :| 0 <= i < |raw.overservices| && KeyOfOverservice(raw.overservices[i]) == k;
    StartIsInterval(p, Start(p, ts), ts);
    assert raw.overservices[i] in InPeriod(raw, p, Start(p, ts)).overservices;
  }

  lemma ReimbursementInPeriod(chain: Chain, heights: set<int>, raw: Raw, p: Period, k: ReimbursementKey)
    requires FromChain(chain, heights, raw) && Has(raw.reimbursements, KeyOfReimbursement, k)
    ensures InPeriod(raw, p, Start(p, chain(k.height).blockTime)).reimbursements != []
  {
    var ts := chain(k.height).blockTime;
    var i :| 0 <= i < |raw.reimbursements| && KeyOfReimbursement(raw.reimbursements[i]) == k;
    StartIsInterval(p, Start(p, ts), ts);
    assert raw.reimbursements[i] in InPeriod(raw, p, Start(p, ts)).reimbursements;
  }

  /** A block with rows leaves events in its period, ignored or not. */
  lemma RowsLeaveEvents(chain: Chain, arrivals: seq<Arrival>, p: Period)
    requires Labelled(chain) && |arrivals| > 0
    requires chain(arrivals[|arrivals| - 1].height).raw != Raw([], [], [])
    ensures InPeriod(RawOf(Ingested(chain, arrivals).db), p,
        Start(p, chain(arrivals[|arrivals| - 1].height).blockTime)) != Raw([], [], [])
  {
    hide Ingested, Deliver, FromChain, Find, InsertAll, Filter, Tables.Has;
    var n := |arrivals| - 1;
    var h := arrivals[n].height;
    var ts, b, before, db' := chain(h).blockTime, BlockAt(chain, arrivals[n]), Ingested(chain, arrivals[..n]).db,
        Ingested(chain, arrivals).db;
    var rows, raw' := Stamp(b.raw, ts), RawOf(db');
    IngestLast(chain, arrivals);
    DeliveredTables(Ingested(chain, arrivals[..n]), b);
    StoredFromChain(chain, arrivals);
    StampOwnHeight(b.raw, ts, h);
    if rows.settlements != [] {
      SettlementsAsTable(before, rows.settlements, b.dists);
      FirstKeyIsThere(RawOf(before).settlements, KeyOfSettlement, rows.settlements);
      SettlementInPeriod(chain, Heights(arrivals), raw', p, KeyOfSettlement(rows.settlements[0]));
    } else if rows.overservices != [] {
      FirstKeyIsThere(before.overservices, KeyOfOverservice, rows.overservices);
      OverserviceInPeriod(chain, Heights(arrivals), raw', p, KeyOfOverservice(rows.overservices[0]));
    } else {
      FirstKeyIsThere(before.reimbursements, KeyOfReimbursement, rows.reimbursements);
      ReimbursementInPeriod(chain, Heights(arrivals), raw', p, KeyOfReimbursement(rows.reimbursements[0]));
    }
  }

  lemma NothingShared(k: SummaryKey)
    ensures Share(Raw([], [], []), k) == Raw([], [], [])
  {
    NothingSelected(0, 0, if k.ServiceRow? then k.service else "");
  }

  lemma NothingInPeriod(raw: Raw, k: SummaryKey)
    requires InPeriod(raw, k.period, k.start) == Raw([], [], [])
    ensures RowEvents(raw, k) == Raw([], [], []) && Exact(raw, k) == NO_SUMMARY
  {
    hide InPeriod, Total, Suppliers;
    NothingShared(k);
    NothingTotals();
  }

  /** Even with repeats, a period without events has no counts, for the network and for every service. */
  lemma {:induction false} NoEventsNoCounts(chain: Chain, arrivals: seq<Arrival>, k: SummaryKey)
    requires Labelled(chain) && Aligned(k.period, k.start) && (k.ServiceRow? ==> k.service != "")
    requires InPeriod(RawOf(Ingested(chain, arrivals).db), k.period, k.start) == Raw([], [], [])
    ensures GetSummary(Ingested(chain, arrivals).db, k) == NO_SUMMARY
  {
    hide Ingested, Deliver, RawOf, InPeriod, Total, Suppliers, Share, Labelled, Start;
    if |arrivals| == 0 {
      EmptyRun(chain, arrivals);
    } else {
      var n := |arrivals| - 1;
      var b, before, after := BlockAt(chain, arrivals[n]), Ingested(chain, arrivals[..n]), Ingested(chain, arrivals);
      IngestLast(chain, arrivals);
      RowAfterDelivery(before, b, NetworkRow(k.period, k.start));
      NoEventsNoCounts(chain, arrivals[..n], k);
      if k.ServiceRow? && k.service !in after.known {
        UnknownAfterDelivery(before, b, k);
      } else {
        RowAfterDelivery(before, b, k);
        if k.start == Start(k.period, b.header.blockTime) {
          if b.raw != Raw([], [], []) {
            RowsLeaveEvents(chain, arrivals, k.period);
          }
          NothingShared(k);
          NothingTotals();
          PlusLaws(ZERO, ZERO, ZERO);
          NothingInPeriod(RawOf(after.db), k);
        }
      }
    }
  }

  /** A service that no settlement has named has no row. */
  lemma {:induction false} UnknownHasNoRow(chain: Chain, arrivals: seq<Arrival>, k: SummaryKey)
    requires k.ServiceRow? && k.service !in Ingested(chain, arrivals).known
    ensures GetSummary(Ingested(chain, arrivals).db, k) == NO_SUMMARY
  {
    hide Ingested, Deliver;
    if |arrivals| == 0 {
      EmptyRun(chain, arrivals);
    } else {
      var n := |arrivals| - 1;
      IngestLast(chain, arrivals);
      UnknownAfterDelivery(Ingested(chain, arrivals[..n]), BlockAt(chain, arrivals[n]), k);
      UnknownHasNoRow(chain, arrivals[..n], k);
    }
  }

  /** Without a restart the empty service name never becomes known, so it has no row. */
  lemma {:induction false} EmptyNameStaysUnknown(chain: Chain, arrivals: seq<Arrival>, p: Period, start: int)
    ensures "" !in Ingested(chain, arrivals).known
    ensures GetSummary(Ingested(chain, arrivals).db, ServiceRow(p, start, "")) == NO_SUMMARY
  {
    hide Ingested;
    if |arrivals| == 0 {
      EmptyRun(chain, arrivals);
    } else {
      EmptyNameStaysUnknown(chain, arrivals[..|arrivals| - 1], p, start);
      IngestLast(chain, arrivals);
    }
    UnknownHasNoRow(chain, arrivals, ServiceRow(p, start, ""));
  }

  lemma IngestedOnceIsExact(chain: Chain, once: seq<Arrival>, p: Period, start: int)
    requires Labelled(chain) && Aligned(p, start) && OnceEach(once)
    requires forall h: int :: DistinctWithin(chain(h).raw)
    ensures GetSummary(Ingested(chain, once).db, NetworkRow(p, start))
        == Exact(RawOf(Ingested(chain, once).db), NetworkRow(p, start))
  {
    hide Run, FreshRun, Exact, DistinctWithin;
    OnceEachIsFresh(chain, once);
    IncrementalNetwork(Map(once, ToStep(chain)));
    assert RowExact(Ingested(chain, once).db, NetworkRow(p, start));
  }

  lemma ExactEitherWay(chain: Chain, a: seq<Arrival>, b: seq<Arrival>, p: Period, start: int)
    requires Labelled(chain) && Heights(a) == Heights(b)
    ensures Exact(RawOf(Ingested(chain, a).db), NetworkRow(p, start))
        == Exact(RawOf(Ingested(chain, b).db), NetworkRow(p, start))
  {
    hide Ingested, Consistent, SameTables, SameEvents, RawOf, Total, Suppliers, InPeriod;
    Confluence(chain, a, b);
    var any := SettlementKey(0, Settled, "", "", 0);
    StoredSettlement(chain, a, any);
    StoredSettlement(chain, b, any);
    SameTablesSameEvents(Ingested(chain, a).db, Ingested(chain, b).db);
    PeriodOfPermutation(RawOf(Ingested(chain, a).db), RawOf(Ingested(chain, b).db), p, start);
  }

  /** A raw event of a covered run lies in the recalculated range, together with its period. */
  lemma CoveredPeriodTouched(chain: Chain, arrivals: seq<Arrival>, from: int, to: int, p: Period, start: int)
    requires Labelled(chain) && Aligned(p, start)
    requires forall h :: h in Heights(arrivals) ==> DayStart(from) <= chain(h).blockTime < DayEnd(to)
    requires InPeriod(RawOf(Ingested(chain, arrivals).db), p, start) != Raw([], [], [])
    ensures DayStart(from) <= start < DayEnd(to)
  {
    hide Ingested, Filter;
    StoredFromChain(chain, arrivals);
    var mine := InPeriod(RawOf(Ingested(chain, arrivals).db), p, start);
    var ts: int;
    if mine.settlements != [] {
      assert mine.settlements[0] in mine.settlements;
      ts := mine.settlements[0].blockTime;
    } else if mine.overservices != [] {
      assert mine.overservices[0] in mine.overservices;
      ts := mine.overservices[0].blockTime;
    } else {
      assert mine.reimbursements[0] in mine.reimbursements;
      ts := mine.reimbursements[0].blockTime;
    }
    StartIsInterval(p, start, ts);
    DaysCover(p, from, to, ts);
  }

  lemma RawIgnoresSummaries(a: Db, b: Db)
    requires b.(summaries := a.summaries) == a
    ensures RawOf(a) == RawOf(b) && a.processed == b.processed
  {
  }

  /** After a recalculation that covers the run, every row is exact: the network's, and that of
      every named service that is known. */
  lemma RepairedIsExact(chain: Chain, arrivals: seq<Arrival>, from: int, to: int, k: SummaryKey)
    requires Labelled(chain) && Aligned(k.period, k.start)
    requires k.ServiceRow? ==> k.service != "" && k.service in Ingested(chain, arrivals).known
    requires forall h :: h in Heights(arrivals) ==> DayStart(from) <= chain(h).blockTime < DayEnd(to)
    ensures var m := Ingested(chain, arrivals);
      GetSummary(Recalculated(m.db, m.known, from, to), k) == Exact(RawOf(m.db), k)
  {
    hide Ingested, Recalculated, Total, Suppliers, InPeriod, RowEvents, RawOf, GetSummary, Labelled, Heights;
    var m := Ingested(chain, arrivals);
    FullReplace(m.db, m.known, from, to, k);
    RawIgnoresSummaries(m.db, Recalculated(m.db, m.known, from, to));
    if InPeriod(RawOf(m.db), k.period, k.start) == Raw([], [], []) {
      NoEventsNoCounts(chain, arrivals, k);
      NothingInPeriod(RawOf(m.db), k);
    } else {
      CoveredPeriodTouched(chain, arrivals, from, to, k.period, k.start);
    }
  }

  /** Repair: after any deliveries, however repeated, recalculating a range that covers them gives
      exactly the network summaries of a run that delivers each height once. */
  lemma Repair(chain: Chain, arrivals: seq<Arrival>, once: seq<Arrival>, from: int, to: int, p: Period, start: int)
    requires Labelled(chain) && Aligned(p, start)
    requires forall h: int :: DistinctWithin(chain(h).raw)
    requires Heights(arrivals) == Heights(once) && OnceEach(once)
    requires forall h :: h in Heights(arrivals) ==> DayStart(from) <= chain(h).blockTime < DayEnd(to)
    ensures var m := Ingested(chain, arrivals);
      GetSummary(Recalculated(m.db, m.known, from, to), NetworkRow(p, start))
      == GetSummary(Ingested(chain, once).db, NetworkRow(p, start))
  {
    hide Ingested, Recalculated, InPeriod, Total, Suppliers, SameTables, SameEvents, NetworkExact, DistinctWithin,
        OnceEach, FreshRun, Consistent, RawOf;
    var m, k := Ingested(chain, arrivals), NetworkRow(p, start);
    RepairedIsExact(chain, arrivals, from, to, k);
    ExactEitherWay(chain, arrivals, once, p, start);
    IngestedOnceIsExact(chain, once, p, start);
  }

  lemma IngestedKnows(chain: Chain, arrivals: seq<Arrival>)
    ensures KnowsAllNamed(Ingested(chain, arrivals))
  {
    RunKnowsAllNamed(Map(arrivals, ToStep(chain)));
  }

  /** For a service that is still unknown nothing is written: its row is exact if and only if it has
      no reimbursements to show either. */
  lemma RepairedUnknownIff(chain: Chain, arrivals: seq<Arrival>, from: int, to: int, k: SummaryKey)
    requires k.ServiceRow? && k.service != "" && k.service !in Ingested(chain, arrivals).known
    ensures var m := Ingested(chain, arrivals);
      && GetSummary(Recalculated(m.db, m.known, from, to), k) == NO_SUMMARY
      && (NO_SUMMARY == Exact(RawOf(m.db), k) <==> Total(RowEvents(RawOf(m.db), k)) == ZERO)
  {
    hide Ingested, Recalculated, Total, Suppliers, RowEvents, RawOf, GetSummary, Run;
    var m := Ingested(chain, arrivals);
    UnknownHasNoRow(chain, arrivals, k);
    FullReplace(m.db, m.known, from, to, k);
    IngestedKnows(chain, arrivals);
    UnknownHasNoSettlements(m, k);
  }
}
