/** What the event tables hold, told by the chain's events alone. */
module Archive {
  import opened Seqs
  import opened Tables
  import opened Model
  import opened Aggregation
  import opened Database
  import opened Materialization
  import opened Delivery
  import opened Converter
  import opened Processing

  // The events of a block that ask for the same unique row.

  predicate IsOfType(e: Event, kind: EventType) {
    match kind
    case Settled => e.ClaimSettled?
    case Expired => e.ClaimExpired?
    case Slashed => e.SupplierSlashed?
    case Discarded => e.ClaimDiscarded?
  }

  function AsksForSettlement(k: SettlementKey): Event -> bool {
    (e: Event) => IsOfType(e, k.eventType) && e.supplier == k.supplier && e.application == k.application
                  && e.sessionEnd == k.sessionEnd
  }
  function AsksForOverservice(k: OverserviceKey): Event -> bool {
    (e: Event) => e.ApplicationOverserviced? && e.supplier == k.supplier && e.application == k.application
  }
  function AsksForReimbursement(k: ReimbursementKey): Event -> bool {
    (e: Event) => e.ReimbursementRequested? && e.supplier == k.supplier && e.application == k.application
                  && e.sessionId == k.sessionId
  }

  /** The events of a height, when it has been delivered, that ask for a row and are monitored. */
  function Asking(filter: SupplierFilter, decoded: int -> BlockEvents, heights: set<int>, h: int, supplier: string,
                  asks: Event -> bool): seq<Event>
  {
    if h in heights && Matches(filter, supplier) then Filter(decoded(h).events, asks) else []
  }

  lemma {:induction false} FilterHead<T(!new)>(s: seq<T>, keep: T -> bool, i: nat)
    requires i <= |s| && (forall j :: 0 <= j < i ==> !keep(s[j])) && (i < |s| ==> keep(s[i]))
    ensures if i == |s| then Filter(s, keep) == [] else Filter(s, keep) != [] && Filter(s, keep)[0] == s[i]
  {
    if |s| > 0 {
      var n := |s| - 1;
      FilterHead(s[..n], keep, if i <= n then i else n);
      assert i == n ==> Filter(s, keep) == [] + [s[n]];
    }
  }

  /** The first row with a key is the one made from the first source that asks for it. */
  lemma FirstIndex<E(!new), R, K>(rows: seq<R>, key: R -> K, k: K, sources: seq<E>, asks: E -> bool)
    returns (i: nat)
    requires |rows| == |sources| && forall j :: 0 <= j < |rows| ==> (key(rows[j]) == k <==> asks(sources[j]))
    ensures i <= |rows| && (i == |rows| <==> Filter(sources, asks) == [])
    ensures forall j :: 0 <= j < i ==> key(rows[j]) != k
    ensures i < |rows| ==> key(rows[i]) == k && sources[i] == Filter(sources, asks)[0]
  {
    hide Filter;
    i := 0;
    while i < |rows| && key(rows[i]) != k
      invariant i <= |rows| && forall j :: 0 <= j < i ==> key(rows[j]) != k
    {
      i := i + 1;
    }
    FilterHead(sources, asks, i);
  }

  lemma {:induction false} FindFirst<R, K>(rows: seq<R>, key: R -> K, k: K, i: nat)
    requires i <= |rows| && (forall j :: 0 <= j < i ==> key(rows[j]) != k) && (i < |rows| ==> key(rows[i]) == k)
    ensures Find(rows, key, k) == if i < |rows| then Some(rows[i]) else None
  {
    if |rows| > 0 && i < |rows| - 1 {
      FindFirst(rows[..|rows| - 1], key, k, i);
    }
  }

  lemma {:induction false} OfferedFirst(rows: seq<Settlement>, dists: Dists, k: SettlementKey, i: nat)
    requires i <= |rows| && forall j :: 0 <= j < i ==> KeyOfSettlement(rows[j]) != k
    requires i < |rows| ==> KeyOfSettlement(rows[i]) == k
    ensures Offered(rows, dists, k) == if i < |rows| then Some((rows[i], FirstPerAddress(Lookup(dists, i)))) else None
  {
    if |rows| > 0 {
      var n := |rows| - 1;
      OfferedFirst(rows[..n], dists, k, if i <= n then i else n);
    }
  }

  /** Nothing changes when rows are stamped with the time they already carry. */
  lemma StampedAlready(raw: Raw, ts: int)
    requires AllAt(raw, ts)
    ensures Stamp(raw, ts) == raw
  {
  }

  lemma RowsAtHeight(filter: SupplierFilter, decoded: int -> BlockEvents, h: int)
    ensures var chain := DecodedChain(filter, decoded);
      && Labelled(chain)
      && RowsAt(chain, h) == BlockOf(filter, h, decoded(h).time, decoded(h).events, true).raw
      && chain(h).dists == BlockOf(filter, h, decoded(h).time, decoded(h).events, true).dists
  {
    hide BlockOf;
    ProcessingIsArrival(filter, decoded, h, true);
    PipelineRows(filter, h, decoded(h).time, decoded(h).events, true);
    StampedAlready(BlockOf(filter, h, decoded(h).time, decoded(h).events, true).raw, decoded(h).time);
  }

  lemma SameAsking(filter: SupplierFilter, events: seq<Event>, asks: Event -> bool, kind: Event -> bool,
                   supplier: string)
    requires forall e :: asks(e) ==> !e.OtherMessage? && e.supplier == supplier
    requires forall e :: kind(e) ==> !e.OtherMessage? && Matches(filter, e.supplier)
    requires forall e :: asks(e) && Matches(filter, supplier) ==> kind(e)
    ensures Filter(Filter(events, kind), asks) == if Matches(filter, supplier) then Filter(events, asks) else []
  {
    hide Filter, Matches;
    if Matches(filter, supplier) {
      FilterTwice(events, kind, asks, asks);
    } else {
      FilterNone(Filter(events, kind), asks);
    }
  }

  ghost predicate NoEntryTwice(e: Event) {
    e.ClaimSettled? ==> forall i, j :: 0 <= i < j < |e.rewards| ==> e.rewards[i].0 != e.rewards[j].0
  }

  /** The rewards of a map are all stored. */
  lemma AllRewardsKept(rewards: seq<RewardDistribution>, e: Event)
    requires RecordsRewards(rewards, e) && NoEntryTwice(e)
    ensures FirstPerAddress(rewards) == rewards
  {
    AllKeptIffFresh([], RewardAddress, rewards);
  }

  /** Under a settlement key: nothing when no event asks for it, else the record of the first that does,
      with the block's overservice columns and with the claim's rewards, when no address is there twice. */
  ghost predicate HoldsClaim(found: Option<(Settlement, seq<RewardDistribution>)>, mine: seq<Event>, height: int,
                             block: BlockEvents)
  {
    if mine == [] then found == None
    else
      && found.Some?
      && RecordsClaim(found.value.0, mine[0], height, block.time)
      && ShowsOverservice(found.value.0, block.events)
      && (NoEntryTwice(mine[0]) ==> RecordsRewards(found.value.1, mine[0]))
  }

  ghost predicate HoldsOverservice(found: Option<OverserviceEvent>, mine: seq<Event>, height: int, time: int) {
    if mine == [] then found == None else found.Some? && RecordsOverservice(found.value, mine[0], height, time)
  }

  ghost predicate HoldsReimbursement(found: Option<ReimbursementEvent>, mine: seq<Event>, height: int, time: int) {
    if mine == [] then found == None else found.Some? && RecordsReimbursement(found.value, mine[0], height, time)
  }

  /** The event tables and the table of processed blocks are those of the heights' events: every event of a
      monitored supplier is there under its key, unless an earlier one of its block took it, and nothing
      else is. */
  ghost predicate Holds(db: Db, filter: SupplierFilter, decoded: int -> BlockEvents, heights: set<int>) {
    && (forall k: SettlementKey ::
          HoldsClaim(Stored(db, k), Asking(filter, decoded, heights, k.height, k.supplier, AsksForSettlement(k)),
                     k.height, decoded(k.height)))
    && (forall k: OverserviceKey ::
          HoldsOverservice(Find(db.overservices, KeyOfOverservice, k),
                           Asking(filter, decoded, heights, k.height, k.supplier, AsksForOverservice(k)),
                           k.height, decoded(k.height).time))
    && (forall k: ReimbursementKey ::
          HoldsReimbursement(Find(db.reimbursements, KeyOfReimbursement, k),
                             Asking(filter, decoded, heights, k.height, k.supplier, AsksForReimbursement(k)),
                             k.height, decoded(k.height).time))
    && db.processed.Keys == heights
    && (forall h :: h in db.processed ==>
          && db.processed[h].height == h && db.processed[h].blockTime == decoded(h).time
          && db.processed[h].eventCount == |Filter(decoded(h).events, Passes(filter))|)
  }

  lemma ClaimOfBlock(filter: SupplierFilter, decoded: int -> BlockEvents, k: SettlementKey)
    ensures var chain, block := DecodedChain(filter, decoded), decoded(k.height);
      var mine := Asking(filter, decoded, {k.height}, k.height, k.supplier, AsksForSettlement(k));
      HoldsClaim(Offered(RowsAt(chain, k.height).settlements, chain(k.height).dists, k), mine, k.height, block)
  {
    hide Filter, BlockOf, RowsAt, DecodedChain, ShowsOverservice, RecordsRewards, Offered, FirstPerAddress, Matches;
    var block := decoded(k.height);
    var b, claims := BlockOf(filter, k.height, block.time, block.events, true),
        Filter(block.events, MonitoredClaims(filter));
    RowsAtHeight(filter, decoded, k.height);
    PipelineRecords(filter, k.height, block.time, block.events, true);
    forall j | 0 <= j < |claims|
      ensures KeyOfSettlement(b.raw.settlements[j]) == k <==> AsksForSettlement(k)(claims[j]) {
      assert RecordsClaim(b.raw.settlements[j], claims[j], k.height, block.time);
    }
    SameAsking(filter, block.events, AsksForSettlement(k), MonitoredClaims(filter), k.supplier);
    var i := FirstIndex(b.raw.settlements, KeyOfSettlement, k, claims, AsksForSettlement(k));
    OfferedFirst(b.raw.settlements, b.dists, k, i);
    if i < |claims| && NoEntryTwice(claims[i]) {
      AllRewardsKept(Lookup(b.dists, i), claims[i]);
    }
  }

  /** The settlements table and its rewards, for every history of deliveries by any path. */
  lemma SettlementsAreTheChains(filter: SupplierFilter, decoded: int -> BlockEvents, arrivals: seq<Arrival>,
                                k: SettlementKey)
    ensures HoldsClaim(Stored(Ingested(DecodedChain(filter, decoded), arrivals).db, k),
        Asking(filter, decoded, Heights(arrivals), k.height, k.supplier, AsksForSettlement(k)),
        k.height, decoded(k.height))
  {
    hide Filter, RowsAt, DecodedChain, ShowsOverservice, RecordsRewards, RecordsClaim, Offered, Stored, Ingested,
        Matches;
    RowsAtHeight(filter, decoded, k.height);
    StoredSettlement(DecodedChain(filter, decoded), arrivals, k);
    ClaimOfBlock(filter, decoded, k);
  }

  /** The same for overservice events. */
  lemma OverservicesAreTheChains(filter: SupplierFilter, decoded: int -> BlockEvents, arrivals: seq<Arrival>,
                                 k: OverserviceKey)
    ensures HoldsOverservice(
        Find(Ingested(DecodedChain(filter, decoded), arrivals).db.overservices, KeyOfOverservice, k),
        Asking(filter, decoded, Heights(arrivals), k.height, k.supplier, AsksForOverservice(k)),
        k.height, decoded(k.height).time)
  {
    hide Filter, BlockOf, RowsAt, DecodedChain, Ingested, Matches, RecordsClaim, ShowsOverservice, RecordsRewards,
        RecordsReimbursement, Find;
    var block := decoded(k.height);
    var rows, overs := BlockOf(filter, k.height, block.time, block.events, true).raw.overservices,
        Filter(block.events, MonitoredOverservices(filter));
    RowsAtHeight(filter, decoded, k.height);
    PipelineRecords(filter, k.height, block.time, block.events, true);
    StoredOverservice(DecodedChain(filter, decoded), arrivals, k);
    forall j | 0 <= j < |overs| ensures KeyOfOverservice(rows[j]) == k <==> AsksForOverservice(k)(overs[j]) {
      assert RecordsOverservice(rows[j], overs[j], k.height, block.time);
    }
    SameAsking(filter, block.events, AsksForOverservice(k), MonitoredOverservices(filter), k.supplier);
    var i := FirstIndex(rows, KeyOfOverservice, k, overs, AsksForOverservice(k));
    FindFirst(rows, KeyOfOverservice, k, i);
  }

  /** The same for reimbursements. */
  lemma ReimbursementsAreTheChains(filter: SupplierFilter, decoded: int -> BlockEvents, arrivals: seq<Arrival>,
                                   k: ReimbursementKey)
    ensures HoldsReimbursement(
        Find(Ingested(DecodedChain(filter, decoded), arrivals).db.reimbursements, KeyOfReimbursement, k),
        Asking(filter, decoded, Heights(arrivals), k.height, k.supplier, AsksForReimbursement(k)),
        k.height, decoded(k.height).time)
  {
    hide Filter, BlockOf, RowsAt, DecodedChain, Ingested, Matches, RecordsClaim, ShowsOverservice, RecordsRewards,
        RecordsOverservice, Find;
    var block := decoded(k.height);
    var rows, reimbs := BlockOf(filter, k.height, block.time, block.events, true).raw.reimbursements,
        Filter(block.events, MonitoredReimbursements(filter));
    RowsAtHeight(filter, decoded, k.height);
    PipelineRecords(filter, k.height, block.time, block.events, true);
    StoredReimbursement(DecodedChain(filter, decoded), arrivals, k);
    forall j | 0 <= j < |reimbs| ensures KeyOfReimbursement(rows[j]) == k <==> AsksForReimbursement(k)(reimbs[j]) {
      assert RecordsReimbursement(rows[j], reimbs[j], k.height, block.time);
    }
    SameAsking(filter, block.events, AsksForReimbursement(k), MonitoredReimbursements(filter), k.supplier);
    var i := FirstIndex(rows, KeyOfReimbursement, k, reimbs, AsksForReimbursement(k));
    FindFirst(rows, KeyOfReimbursement, k, i);
  }

  /** The table of processed blocks: a row for each delivered height, with the block's time and the number
      of its events that pass the filter, and with the path that was first to bring it. */
  lemma ProcessedAreTheChains(filter: SupplierFilter, decoded: int -> BlockEvents, arrivals: seq<Arrival>)
    ensures var processed := Ingested(DecodedChain(filter, decoded), arrivals).db.processed;
      && processed.Keys == Heights(arrivals)
      && (forall h :: h in processed ==>
            && processed[h].height == h && processed[h].blockTime == decoded(h).time
            && processed[h].eventCount == |Filter(decoded(h).events, Passes(filter))|)
      && (forall i :: 0 <= i < |arrivals| && (forall j :: 0 <= j < i ==> arrivals[j].height != arrivals[i].height) ==>
            processed[arrivals[i].height].source == arrivals[i].source)
  {
    hide Ingested, Filter, Convert;
    var chain := DecodedChain(filter, decoded);
    ProcessedHeights(chain, arrivals);
    forall i | 0 <= i < |arrivals| && forall j :: 0 <= j < i ==> arrivals[j].height != arrivals[i].height
      ensures Ingested(chain, arrivals).db.processed[arrivals[i].height].source == arrivals[i].source
    {
      FirstSourceStays(chain, arrivals, i);
    }
  }

  /** After any deliveries, in any order, from either path and with any repetition. */
  lemma TablesHoldTheChain(filter: SupplierFilter, decoded: int -> BlockEvents, arrivals: seq<Arrival>)
    ensures Holds(Ingested(DecodedChain(filter, decoded), arrivals).db, filter, decoded, Heights(arrivals))
  {
    hide HoldsClaim, HoldsOverservice, HoldsReimbursement, Ingested, Stored, Find, Asking, Filter, DecodedChain,
        Heights;
    var db := Ingested(DecodedChain(filter, decoded), arrivals).db;
    forall k: SettlementKey
      ensures HoldsClaim(Stored(db, k),
          Asking(filter, decoded, Heights(arrivals), k.height, k.supplier, AsksForSettlement(k)),
          k.height, decoded(k.height))
    {
      SettlementsAreTheChains(filter, decoded, arrivals, k);
    }
    forall k: OverserviceKey
      ensures HoldsOverservice(Find(db.overservices, KeyOfOverservice, k),
          Asking(filter, decoded, Heights(arrivals), k.height, k.supplier, AsksForOverservice(k)),
          k.height, decoded(k.height).time)
    {
      OverservicesAreTheChains(filter, decoded, arrivals, k);
    }
    forall k: ReimbursementKey
      ensures HoldsReimbursement(Find(db.reimbursements, KeyOfReimbursement, k),
          Asking(filter, decoded, Heights(arrivals), k.height, k.supplier, AsksForReimbursement(k)),
          k.height, decoded(k.height).time)
    {
      ReimbursementsAreTheChains(filter, decoded, arrivals, k);
    }
    ProcessedAreTheChains(filter, decoded, arrivals);
  }

  /** The summaries have no say in it. */
  lemma HoldsSameRaw(a: Db, b: Db, filter: SupplierFilter, decoded: int -> BlockEvents, heights: set<int>)
    requires SameRaw(a, b) && Holds(b, filter, decoded, heights)
    ensures Holds(a, filter, decoded, heights)
  {
    hide HoldsClaim, HoldsOverservice, HoldsReimbursement, Find, Asking, Filter;
    forall k: SettlementKey ensures Stored(a, k) == Stored(b, k) {
    }
  }
}
