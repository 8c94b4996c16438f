/** Backfilling a range of heights over RPC, with bounded retries, then recalculating. */
module Backfilling {
  import opened Seqs
  import opened Model
  import opened Periods
  import opened Aggregation
  import opened Database
  import opened Store
  import opened Reporting
  import opened Materialization
  import opened Recalculation
  import opened Delivery
  import opened Converter
  import opened Processing
  import opened Archive

  const MAX_ATTEMPT := 10

  /** Outcome of one attempt: block results, then header; either request may fail. */
  datatype Fetch = Fetched(block: BlockEvents) | ResultsError | HeaderError

  /** The node's answers, by height and attempt. */
  type Rpc = (int, nat) -> Fetch

  /** The first success among the attempts from `attempt` to 10. */
  function FirstFetch(rpc: Rpc, h: int, attempt: nat): Option<BlockEvents>
    decreases MAX_ATTEMPT + 1 - attempt
  {
    if attempt > MAX_ATTEMPT then None
    else match rpc(h, attempt)
      case Fetched(block) => Some(block)
      case _ => FirstFetch(rpc, h, attempt + 1)
  }

  predicate Fetchable(rpc: Rpc, h: int) { FirstFetch(rpc, h, 0).Some? }

  /** At most eleven attempts: one success among them is enough, and is needed. */
  lemma {:induction false} FetchableIff(rpc: Rpc, h: int, attempt: nat)
    requires attempt <= 11
    ensures FirstFetch(rpc, h, attempt).Some? <==> exists a: nat :: attempt <= a <= 10 && rpc(h, a).Fetched?
    decreases 11 - attempt
  {
    if attempt <= 10 {
      FetchableIff(rpc, h, attempt + 1);
      if rpc(h, attempt).Fetched? {
        assert attempt <= attempt <= 10 && rpc(h, attempt).Fetched?;
      }
    }
  }

  /** What is fetched is what the first successful attempt brings. */
  lemma {:induction false} FirstSuccessCounts(rpc: Rpc, h: int, attempt: nat, a: nat)
    requires attempt <= a <= 10 && rpc(h, a).Fetched? && forall b: nat :: attempt <= b < a ==> !rpc(h, b).Fetched?
    ensures FirstFetch(rpc, h, attempt) == Some(rpc(h, a).block)
    decreases a - attempt
  {
    if attempt < a {
      assert !rpc(h, attempt).Fetched?;
      FirstSuccessCounts(rpc, h, attempt + 1, a);
    }
  }

  /** What the backfill sees at a height. */
  function Seen(rpc: Rpc): int -> BlockEvents {
    h => if Fetchable(rpc, h) then FirstFetch(rpc, h, 0).value else BlockEvents(0, [])
  }

  /** The first height of from..to that stays unavailable, or to + 1. */
  function FirstFailure(rpc: Rpc, from: int, to: int): int
    decreases to - from
  {
    if from > to || !Fetchable(rpc, from) then from else FirstFailure(rpc, from + 1, to)
  }

  lemma {:induction false} FirstFailureIs(rpc: Rpc, from: int, to: int)
    requires from <= to + 1
    ensures from <= FirstFailure(rpc, from, to) <= to + 1
    ensures forall h :: from <= h < FirstFailure(rpc, from, to) ==> Fetchable(rpc, h)
    ensures FirstFailure(rpc, from, to) <= to ==> !Fetchable(rpc, FirstFailure(rpc, from, to))
    decreases 1 + to - from
  {
    if from <= to && Fetchable(rpc, from) {
      FirstFailureIs(rpc, from + 1, to);
    }
  }

  /** Deliveries of the heights below `upTo`, in order. */
  function DeliverRange(m: Monitor, filter: SupplierFilter, rpc: Rpc, live: int -> bool, from: int, upTo: int): Monitor
    decreases upTo - from
  {
    if upTo <= from then m
    else
      var block := Seen(rpc)(upTo - 1);
      Deliver(DeliverRange(m, filter, rpc, live, from, upTo - 1),
          BlockOf(filter, upTo - 1, block.time, block.events, live(upTo - 1)))
  }

  function Recalculate(m: Monitor, from: int, to: int): Monitor {
    var known := m.known + NamedServices(DayRange(RawOf(m.db), from, to));
    Monitor(Recalculated(m.db, known, from, to), known)
  }

  /** The height a start-up backfill begins at; None when there is nothing to do on a first run. */
  function StartHeight(lastHeight: int, requestedFrom: int): Option<int> {
    if lastHeight == 0 && requestedFrom == 0 then None
    else if lastHeight == 0 && requestedFrom > 0 then Some(requestedFrom)
    else if 0 < requestedFrom < lastHeight then Some(requestedFrom)
    else Some(lastHeight + 1)
  }

  /** A database with blocks: everything above them, and everything from an earlier requested height.
      A fresh one: everything from a requested height, a negative one meaning all, or else nothing. */
  lemma StartReachesIff(lastHeight: int, requestedFrom: int, h: int)
    requires lastHeight >= 0 && h > 0
    ensures var start := StartHeight(lastHeight, requestedFrom);
      (start.Some? && start.value <= h) <==>
        if lastHeight > 0 then h > lastHeight || (0 < requestedFrom <= h && requestedFrom < lastHeight)
        else requestedFrom != 0 && requestedFrom <= h
    ensures StartHeight(lastHeight, requestedFrom).None? <==> lastHeight == 0 && requestedFrom == 0
  {
  }

  datatype Outcome = Nothing | Canceled | FetchFailed | Completed

  function Never(): int -> bool { h => false }

  lemma NothingDelivered(m: Monitor, filter: SupplierFilter, rpc: Rpc, live: int -> bool, from: int)
    ensures DeliverRange(m, filter, rpc, live, from, from) == m
  {
  }

  ghost predicate IsLastHeight(db: Db, height: int) {
    if db.processed == map[] then height == 0
    else height in db.processed && forall h :: h in db.processed ==> h <= height
  }

  class Backfiller {
    const processor: Processor
    const liveCatchupThreshold: int

    constructor (processor: Processor, liveCatchupThreshold: int)
      ensures this.processor == processor && this.liveCatchupThreshold == liveCatchupThreshold
    {
      this.processor, this.liveCatchupThreshold := processor, liveCatchupThreshold;
    }

    method FetchBlock(rpc: Rpc, h: int) returns (block: Option<BlockEvents>)
      ensures block == FirstFetch(rpc, h, 0)
    {
      for attempt := 0 to MAX_ATTEMPT + 1
        invariant FirstFetch(rpc, h, 0) == FirstFetch(rpc, h, attempt)
      {
        match rpc(h, attempt) {
          case Fetched(b) => return Some(b);
          case ResultsError =>
          case HeaderError =>
        }
      }
      block := None;
    }

    /** A gap block that is recent enough is treated as live. */
    function IsLive(now: int, blockTime: int): bool {
      liveCatchupThreshold > 0 && now - blockTime <= liveCatchupThreshold
    }

    function LiveAt(rpc: Rpc, clock: int -> int): int -> bool {
      h => IsLive(clock(h), Seen(rpc)(h).time)
    }

    /** One height: fetched and processed, or given up without a trace. */
    method BackfillHeight(h: int, rpc: Rpc, catchUp: bool, now: int, ghost m: Monitor, ghost live: int -> bool,
        ghost from: int)
      returns (time: Option<int>)
      requires processor.reporter.store == processor.store
      requires from <= h && live(h) == (catchUp && IsLive(now, Seen(rpc)(h).time))
      requires processor.State() == DeliverRange(m, processor.filter, rpc, live, from, h)
      modifies processor.store, processor.reporter
      ensures time == if Fetchable(rpc, h) then Some(Seen(rpc)(h).time) else None
      ensures processor.State() == DeliverRange(m, processor.filter, rpc, live, from, if time.Some? then h + 1 else h)
    {
      hide Deliver, BlockOf;
      var block := FetchBlock(rpc, h);
      if block.None? {
        return None;
      }
      processor.ProcessBlock(h, block.value.time, block.value.events, catchUp && IsLive(now, block.value.time));
      time := Some(block.value.time);
    }

    /** The summaries of the backfilled range are rebuilt from its first to its last block time. */
    method RebuildSummaries(firstBlockTime: int, lastBlockTime: int)
      requires processor.reporter.store == processor.store
      modifies processor.store, processor.reporter
      ensures processor.State() == Recalculate(old(processor.State()), firstBlockTime, lastBlockTime)
    {
      hide Recalculated, RawOf;
      processor.reporter.RecalculateSummariesForRange(firstBlockTime, lastBlockTime);
    }

    /** Recovery of a gap the subscriber reported. `reached` is the first height not processed. */
    method BackfillRange(fromHeight: int, toHeight: int, rpc: Rpc, clock: int -> int)
      returns (outcome: Outcome, ghost reached: int)
      requires fromHeight <= toHeight
      requires processor.reporter.store == processor.store
      modifies processor.store, processor.reporter
      ensures reached == FirstFailure(rpc, fromHeight, toHeight)
      ensures outcome == if reached > toHeight then Completed else FetchFailed
      ensures var delivered := DeliverRange(old(processor.State()), processor.filter, rpc, LiveAt(rpc, clock),
          fromHeight, reached);
        processor.State() == if outcome == Completed
          then Recalculate(delivered, Seen(rpc)(fromHeight).time, Seen(rpc)(toHeight).time)
          else delivered
    {
      hide DeliverRange, Recalculate, FirstFetch, Seen, Fetchable;
      ghost var m := processor.State();
      NothingDelivered(m, processor.filter, rpc, LiveAt(rpc, clock), fromHeight);
      var h, firstBlockTime, lastBlockTime := fromHeight, 0, 0;
      while h <= toHeight
        invariant fromHeight <= h <= toHeight + 1
        invariant FirstFailure(rpc, fromHeight, toHeight) == FirstFailure(rpc, h, toHeight)
        invariant processor.State() == DeliverRange(m, processor.filter, rpc, LiveAt(rpc, clock), fromHeight, h)
        invariant h > fromHeight ==> firstBlockTime == Seen(rpc)(fromHeight).time
        invariant h > fromHeight ==> lastBlockTime == Seen(rpc)(h - 1).time
      {
        var blockTime := BackfillHeight(h, rpc, true, clock(h), m, LiveAt(rpc, clock), fromHeight);
        if blockTime.None? {
          return FetchFailed, h;
        }
        if h == fromHeight {
          firstBlockTime := blockTime.value;
        }
        lastBlockTime := blockTime.value;
        h := h + 1;
      }
      RebuildSummaries(firstBlockTime, lastBlockTime);
      return Completed, h;
    }

    /** The switch that picks where a start-up backfill begins; None ends the run. */
    method ChooseStart(lastHeight: int, requestedFrom: int) returns (start: Option<int>)
      ensures start == StartHeight(lastHeight, requestedFrom)
    {
      var fromHeight := lastHeight + 1;
      if lastHeight == 0 && requestedFrom == 0 {
        return None;
      } else if lastHeight == 0 && requestedFrom > 0 {
        fromHeight := requestedFrom;
      } else if requestedFrom > 0 && requestedFrom < lastHeight {
        fromHeight := requestedFrom;
      }
      start := Some(fromHeight);
    }

    /** The start-up backfill. `canceled(h)` says that a shutdown is noticed before height `h` is
        processed: between two blocks, in a retry's wait, or in the pause behind the last block. */
    method RunIfNeeded(currentHeight: int, requestedFrom: int, rpc: Rpc, canceled: int -> bool)
      returns (outcome: Outcome, ghost lastHeight: int, ghost reached: int)
      requires processor.reporter.store == processor.store
      modifies processor.store, processor.reporter
      ensures IsLastHeight(old(processor.State()).db, lastHeight)
      ensures var start := StartHeight(lastHeight, requestedFrom);
        if start.None? || start.value > currentHeight then
          outcome == Nothing && processor.State() == old(processor.State())
        else
          && start.value <= reached <= currentHeight + 1
          && (forall h :: start.value <= h < reached ==> Fetchable(rpc, h) && !canceled(h))
          && outcome == (if canceled(reached) then Canceled else if reached > currentHeight then Completed
              else FetchFailed)
          && (outcome == FetchFailed ==> !Fetchable(rpc, reached))
          && var delivered := DeliverRange(old(processor.State()), processor.filter, rpc, Never(),
              start.value, reached);
             processor.State() == if outcome == Completed
               then Recalculate(delivered, Seen(rpc)(start.value).time, Seen(rpc)(currentHeight).time)
               else delivered
    {
      hide DeliverRange, Recalculate, FirstFetch, Seen, Fetchable, StartHeight;
      reached := 0;
      ghost var m := processor.State();
      var last := processor.store.LastProcessedHeight();
      lastHeight := last;
      var start := ChooseStart(last, requestedFrom);
      if start.None? || start.value > currentHeight {
        return Nothing, last, reached;
      }
      var fromHeight := start.value;
      NothingDelivered(m, processor.filter, rpc, Never(), fromHeight);
      var h, firstBlockTime, lastBlockTime := fromHeight, 0, 0;
      while h <= currentHeight
        invariant fromHeight <= h <= currentHeight + 1
        invariant forall x :: fromHeight <= x < h ==> Fetchable(rpc, x) && !canceled(x)
        invariant processor.State() == DeliverRange(m, processor.filter, rpc, Never(), fromHeight, h)
        invariant h > fromHeight ==> firstBlockTime == Seen(rpc)(fromHeight).time
        invariant h > fromHeight ==> lastBlockTime == Seen(rpc)(h - 1).time
      {
        if canceled(h) {
          return Canceled, last, h;
        }
        var blockTime := BackfillHeight(h, rpc, false, 0, m, Never(), fromHeight);
        if blockTime.None? {
          return FetchFailed, last, h;
        }
        if h == fromHeight {
          firstBlockTime := blockTime.value;
        }
        lastBlockTime := blockTime.value;
        h := h + 1;
      }
      if canceled(h) {
        return Canceled, last, h;
      }
      RebuildSummaries(firstBlockTime, lastBlockTime);
      return Completed, last, h;
    }
  }

  /** Newer heights are not older in time, and heights are positive. */
  ghost predicate BlocksInOrder(db: Db) {
    && (forall h :: h in db.processed ==> h > 0)
    && (forall a, b :: a in db.processed && b in db.processed && a <= b ==>
          db.processed[a].blockTime <= db.processed[b].blockTime)
  }

  /** Retention and resumption: a cleanup keeps the newest processed height exactly when that block
      is not expired itself. Otherwise it forgets all of them, and the next start without a
      requested height takes the database for a fresh one and fills no gap. */
  lemma CleanupKeepsProgressIff(db: Db, now: int, retention: nat, last: int, after: int)
    requires BlocksInOrder(db) && db.processed != map[] && IsLastHeight(db, last)
    requires IsLastHeight(Expire(db, now, retention), after)
    ensures after == last <==> retention == 0 || db.processed[last].blockTime >= now - retention
    ensures after != last ==> after == 0 && StartHeight(after, 0) == None
    ensures after == last ==> StartHeight(after, 0) == Some(last + 1)
  {
    hide RawOf, Filter, ExpiredIds, UnexpiredSummaries;
    if retention > 0 {
      var left := Expire(db, now, retention).processed;
      if db.processed[last].blockTime >= now - retention {
        assert last in left;
      } else {
        assert forall h :: h !in left;
        assert left == map[];
      }
    }
  }

  // What a completed backfill guarantees.

  lemma BlockHeight(filter: SupplierFilter, height: int, ts: int, events: seq<Event>, isLive: bool)
    ensures BlockOf(filter, height, ts, events, isLive).header.height == height
  {
  }

  lemma DeliveryMarks(m: Monitor, b: Block)
    ensures Deliver(m, b).db.processed.Keys == m.db.processed.Keys + {b.header.height}
  {
  }

  lemma {:induction false} RangeProcessed(m: Monitor, filter: SupplierFilter, rpc: Rpc, live: int -> bool,
      from: int, upTo: int)
    ensures forall h :: h in DeliverRange(m, filter, rpc, live, from, upTo).db.processed <==>
      h in m.db.processed || from <= h < upTo
    decreases upTo - from
  {
    hide Deliver, BlockOf;
    if from < upTo {
      RangeProcessed(m, filter, rpc, live, from, upTo - 1);
      var block := Seen(rpc)(upTo - 1);
      var b := BlockOf(filter, upTo - 1, block.time, block.events, live(upTo - 1));
      BlockHeight(filter, upTo - 1, block.time, block.events, live(upTo - 1));
      DeliveryMarks(DeliverRange(m, filter, rpc, live, from, upTo - 1), b);
    }
  }

  // The range as arrivals of the chain.

  function RangeArrivals(from: int, upTo: int, live: int -> bool): seq<Arrival> {
    seq(if from < upTo then upTo - from else 0, i => Arrival(from + i, if live(from + i) then Live else Backfill))
  }

  lemma OneMoreArrival(from: int, upTo: int, live: int -> bool)
    requires from < upTo
    ensures RangeArrivals(from, upTo, live)
         == RangeArrivals(from, upTo - 1, live) + [Arrival(upTo - 1, if live(upTo - 1) then Live else Backfill)]
  {
  }

  lemma RangeHeights(history: seq<Arrival>, from: int, upTo: int, live: int -> bool, heights: set<int>)
    requires forall h :: h in heights <==> h in Heights(history) || from <= h < upTo
    ensures Heights(history + RangeArrivals(from, upTo, live)) == heights
  {
    var range := RangeArrivals(from, upTo, live);
    forall h | from <= h < upTo ensures h in Heights(history + range) {
      assert range[h - from].height == h;
      assert range[h - from] in history + range;
    }
  }

  /** What a backfill delivers: when the node's answers decode to the chain, a range leaves what one
      arrival per height leaves, after any earlier deliveries. Whatever is proved of schedules of
      arrivals holds of it. */
  lemma {:induction false} RangeIsIngested(decoded: int -> BlockEvents, history: seq<Arrival>, filter: SupplierFilter,
                                           rpc: Rpc, live: int -> bool, from: int, upTo: int)
    requires forall h :: from <= h < upTo ==> Seen(rpc)(h) == decoded(h)
    ensures var chain := DecodedChain(filter, decoded);
      DeliverRange(Ingested(chain, history), filter, rpc, live, from, upTo)
      == Ingested(chain, history + RangeArrivals(from, upTo, live))
    decreases upTo - from
  {
    hide Deliver, BlockOf, Ingested, DecodedChain;
    var chain := DecodedChain(filter, decoded);
    if upTo <= from {
      assert history + RangeArrivals(from, upTo, live) == history;
    } else {
      var before, h := history + RangeArrivals(from, upTo - 1, live), upTo - 1;
      var all := history + RangeArrivals(from, upTo, live);
      RangeIsIngested(decoded, history, filter, rpc, live, from, h);
      OneMoreArrival(from, upTo, live);
      assert all == before + [Arrival(h, if live(h) then Live else Backfill)];
      assert all[..|all| - 1] == before;
      IngestLast(chain, all);
      ProcessingIsArrival(filter, decoded, h, live(h));
    }
  }

  /** Neither the summaries nor the reporter's memory have a say in what is stored. */
  lemma {:induction false} RangeSameRaw(m: Monitor, m': Monitor, filter: SupplierFilter, rpc: Rpc, live: int -> bool,
                                        from: int, upTo: int)
    requires SameRaw(m.db, m'.db)
    ensures SameRaw(DeliverRange(m, filter, rpc, live, from, upTo).db,
        DeliverRange(m', filter, rpc, live, from, upTo).db)
    decreases upTo - from
  {
    hide Deliver, BlockOf, SameRaw, InsertBlock;
    if from < upTo {
      var block := Seen(rpc)(upTo - 1);
      var b := BlockOf(filter, upTo - 1, block.time, block.events, live(upTo - 1));
      var before, before' := DeliverRange(m, filter, rpc, live, from, upTo - 1),
          DeliverRange(m', filter, rpc, live, from, upTo - 1);
      RangeSameRaw(m, m', filter, rpc, live, from, upTo - 1);
      DeliverSameRaw(before, before', b);
    }
  }

  /** So the tables are those of any schedule over the same heights, live or backfilled, whatever
      process made the earlier deliveries and whatever the summaries say. */
  lemma RangeTables(decoded: int -> BlockEvents, history: seq<Arrival>, m: Monitor, filter: SupplierFilter, rpc: Rpc,
                    live: int -> bool, from: int, upTo: int, schedule: seq<Arrival>)
    requires SameRaw(m.db, Ingested(DecodedChain(filter, decoded), history).db)
    requires forall h :: from <= h < upTo ==> Seen(rpc)(h) == decoded(h)
    requires forall h :: h in Heights(schedule) <==> h in Heights(history) || from <= h < upTo
    ensures SameTables(DeliverRange(m, filter, rpc, live, from, upTo).db,
        Ingested(DecodedChain(filter, decoded), schedule).db)
  {
    hide DecodedChain, Ingested, SameTables, SameRaw, DeliverRange, Heights, RangeArrivals;
    var chain := DecodedChain(filter, decoded);
    RangeSameRaw(m, Ingested(chain, history), filter, rpc, live, from, upTo);
    RangeIsIngested(decoded, history, filter, rpc, live, from, upTo);
    RangeHeights(history, from, upTo, live, Heights(schedule));
    ProcessingIsArrival(filter, decoded, 0, true);
    Confluence(chain, history + RangeArrivals(from, upTo, live), schedule);
    SameRawSameTables(DeliverRange(m, filter, rpc, live, from, upTo).db,
        Ingested(chain, history + RangeArrivals(from, upTo, live)).db, Ingested(chain, schedule).db);
  }

  /** Every event of the fetched blocks is in the tables, whatever was there before. */
  lemma RangeHolds(decoded: int -> BlockEvents, history: seq<Arrival>, m: Monitor, filter: SupplierFilter, rpc: Rpc,
                   live: int -> bool, from: int, upTo: int, heights: set<int>)
    requires SameRaw(m.db, Ingested(DecodedChain(filter, decoded), history).db)
    requires forall h :: from <= h < upTo ==> Seen(rpc)(h) == decoded(h)
    requires forall h :: h in heights <==> h in Heights(history) || from <= h < upTo
    ensures Holds(DeliverRange(m, filter, rpc, live, from, upTo).db, filter, decoded, heights)
  {
    hide DecodedChain, Ingested, SameRaw, DeliverRange, Heights, RangeArrivals, Holds;
    var chain, all := DecodedChain(filter, decoded), history + RangeArrivals(from, upTo, live);
    RangeSameRaw(m, Ingested(chain, history), filter, rpc, live, from, upTo);
    RangeIsIngested(decoded, history, filter, rpc, live, from, upTo);
    RangeHeights(history, from, upTo, live, heights);
    TablesHoldTheChain(filter, decoded, all);
    HoldsSameRaw(DeliverRange(m, filter, rpc, live, from, upTo).db, Ingested(chain, all).db, filter, decoded, heights);
  }

  /** Which of the newly backfilled blocks of a gap count as live: those younger than the threshold,
      unless it is switched off. */
  lemma BackfilledSource(b: Backfiller, decoded: int -> BlockEvents, history: seq<Arrival>, rpc: Rpc,
                         clock: int -> int, from: int, upTo: int, h: int)
    requires forall h :: from <= h < upTo ==> Seen(rpc)(h) == decoded(h)
    requires from <= h < upTo && h !in Heights(history)
    ensures var filter := b.processor.filter;
      var processed := DeliverRange(Ingested(DecodedChain(filter, decoded), history), filter, rpc,
          b.LiveAt(rpc, clock), from, upTo).db.processed;
      && h in processed
      && processed[h].source ==
           if b.liveCatchupThreshold > 0 && clock(h) - decoded(h).time <= b.liveCatchupThreshold then Live else Backfill
  {
    hide DecodedChain, Ingested, DeliverRange, Seen;
    var live := b.LiveAt(rpc, clock);
    var all, i := history + RangeArrivals(from, upTo, live), |history| + h - from;
    RangeIsIngested(decoded, history, b.processor.filter, rpc, live, from, upTo);
    forall j | 0 <= j < i ensures all[j].height != all[i].height {
      if j < |history| {
        assert all[j] in history;
      }
    }
    assert Seen(rpc)(h) == decoded(h);
    FirstSourceStays(DecodedChain(b.processor.filter, decoded), all, i);
  }

  lemma NothingToLearn(m: Monitor, from: int, to: int)
    requires KnowsAllNamed(m)
    ensures Recalculate(m, from, to) == Monitor(Recalculated(m.db, m.known, from, to), m.known)
  {
    hide Recalculated, Filter;
    var range := DayRange(RawOf(m.db), from, to);
    forall service | service in NamedServices(range) ensures service in m.known {
      var s :| s in range.settlements && s.serviceId == service;
      assert s in RawOf(m.db).settlements;
    }
    assert m.known + NamedServices(range) == m.known;
  }

  /** A completed backfill around everything that was delivered repairs the summaries: whatever was
      delivered before, and how often, the network rows are those of one delivery per height. */
  lemma BackfillRepairs(decoded: int -> BlockEvents, history: seq<Arrival>, filter: SupplierFilter, rpc: Rpc,
                        live: int -> bool, from: int, to: int, once: seq<Arrival>, p: Period, start: int)
    requires from <= to && Aligned(p, start) && forall h :: from <= h <= to ==> Seen(rpc)(h) == decoded(h)
    requires var chain := DecodedChain(filter, decoded); forall h: int :: DistinctWithin(chain(h).raw)
    requires OnceEach(once) && forall h :: h in Heights(once) <==> h in Heights(history) || from <= h <= to
    requires forall h :: h in Heights(once) ==>
      DayStart(decoded(from).time) <= decoded(h).time < DayEnd(decoded(to).time)
    ensures var chain := DecodedChain(filter, decoded);
      var done := Recalculate(DeliverRange(Ingested(chain, history), filter, rpc, live, from, to + 1),
          Seen(rpc)(from).time, Seen(rpc)(to).time);
      GetSummary(done.db, NetworkRow(p, start)) == GetSummary(Ingested(chain, once).db, NetworkRow(p, start))
  {
    hide Ingested, DeliverRange, Heights, RangeArrivals, DistinctWithin, OnceEach, Recalculate, Recalculated,
        GetSummary, BlockOf, KnowsAllNamed;
    var chain, all := DecodedChain(filter, decoded), history + RangeArrivals(from, to + 1, live);
    RangeIsIngested(decoded, history, filter, rpc, live, from, to + 1);
    RangeHeights(history, from, to + 1, live, Heights(once));
    ProcessingIsArrival(filter, decoded, 0, true);
    IngestedKnows(chain, all);
    NothingToLearn(Ingested(chain, all), decoded(from).time, decoded(to).time);
    Repair(chain, all, once, decoded(from).time, decoded(to).time, p, start);
  }

  /** A hole that stays: a backfill stops at a height it cannot fetch, a live block beyond it is
      processed, the process restarts. The height is missing, and the next start-up backfill reaches
      it if and only if it is asked to begin there or earlier. */
  lemma HoleIsSkippedIff(m: Monitor, filter: SupplierFilter, rpc: Rpc, from: int, to: int, liveHeight: int, ts: int,
                         events: seq<Event>, last: int, requestedFrom: int)
    requires var failed := FirstFailure(rpc, from, to);
      0 < from <= failed <= to && failed !in m.db.processed && liveHeight > failed
    requires var stopped := DeliverRange(m, filter, rpc, Never(), from, FirstFailure(rpc, from, to));
      IsLastHeight(Deliver(stopped, BlockOf(filter, liveHeight, ts, events, true)).db, last)
    ensures var failed := FirstFailure(rpc, from, to);
      var stopped := DeliverRange(m, filter, rpc, Never(), from, failed);
      && failed !in Deliver(stopped, BlockOf(filter, liveHeight, ts, events, true)).db.processed
      && StartHeight(last, requestedFrom).Some?
      && (StartHeight(last, requestedFrom).value <= failed <==> 0 < requestedFrom <= failed)
  {
    hide Deliver, BlockOf, DeliverRange, StartHeight;
    var failed := FirstFailure(rpc, from, to);
    var stopped, b := DeliverRange(m, filter, rpc, Never(), from, failed),
        BlockOf(filter, liveHeight, ts, events, true);
    RangeProcessed(m, filter, rpc, Never(), from, failed);
    BlockHeight(filter, liveHeight, ts, events, true);
    DeliveryMarks(stopped, b);
    assert liveHeight in Deliver(stopped, b).db.processed;
    StartReachesIff(last, requestedFrom, failed);
  }

  lemma RecalculationHeals(m: Monitor, from: int, to: int, ts: int, k: SummaryKey)
    requires from <= ts <= to && k.start == Start(k.period, ts)
    ensures var done := Recalculate(m, from, to);
      && done.db.processed == m.db.processed
      && RawOf(done.db) == RawOf(m.db)
      && ((InPeriod(RawOf(done.db), k.period, k.start) != Raw([], [], [])
           && (k.ServiceRow? ==> k.service in done.known && k.service != "")) ==> RowExact(done.db, k))
  {
    hide Recalculated, InPeriod, Exact, RawOf, GetSummary;
    FullReplace(m.db, Recalculate(m, from, to).known, from, to, k);
    RawIgnoresSummaries(m.db, Recalculate(m, from, to).db);
    DayRangeCovers(from, to, ts);
    DaysCover(k.period, from, to, ts);
    StartIsInterval(k.period, k.start, ts);
  }

  /** Every height of the range is processed, whatever happened before and whatever else was
      delivered; and with header times in order, every hour or day row that a backfilled block
      falls into shows exactly the raw events of its period: the network's always, a named
      known service's too. */
  lemma BackfillHeals(m: Monitor, filter: SupplierFilter, rpc: Rpc, live: int -> bool, from: int, to: int, h: int,
      k: SummaryKey)
    requires from <= h <= to
    requires forall a, b :: from <= a <= b <= to ==> Seen(rpc)(a).time <= Seen(rpc)(b).time
    requires k.start == Start(k.period, Seen(rpc)(h).time)
    ensures var delivered := DeliverRange(m, filter, rpc, live, from, to + 1);
      var done := Recalculate(delivered, Seen(rpc)(from).time, Seen(rpc)(to).time);
      && h in done.db.processed
      && RawOf(done.db) == RawOf(delivered.db)
      && ((InPeriod(RawOf(done.db), k.period, k.start) != Raw([], [], [])
           && (k.ServiceRow? ==> k.service in done.known && k.service != "")) ==> RowExact(done.db, k))
  {
    hide DeliverRange;
    var delivered := DeliverRange(m, filter, rpc, live, from, to + 1);
    RangeProcessed(m, filter, rpc, live, from, to + 1);
    assert Seen(rpc)(from).time <= Seen(rpc)(h).time <= Seen(rpc)(to).time;
    RecalculationHeals(delivered, Seen(rpc)(from).time, Seen(rpc)(to).time, Seen(rpc)(h).time, k);
  }
}
