/** The block pipeline: filter, convert, correlate, store, report. */
module Processing {
  import opened Seqs
  import opened Model
  import opened Aggregation
  import opened Database
  import opened Store
  import opened Reporting
  import opened Materialization
  import opened Delivery
  import opened Converter

  /** The block that reaches the store and the reporter. */
  function BlockOf(filter: SupplierFilter, height: int, ts: int, events: seq<Event>, isLive: bool): Block {
    var filtered := Filter(events, Passes(filter));
    var c := Convert(filtered, height, ts);
    Block(ProcessedBlock(height, ts, |filtered|, if isLive then Live else Backfill),
          Raw(Map(c.settlements, Correlated(events)), c.overservices, c.reimbursements),
          c.dists)
  }

  lemma SameNames(raw: Raw)
    ensures NamedServices(Raw(raw.settlements, [], [])) == NamedServices(raw)
  {
  }

  class Processor {
    const store: SQLiteStore
    const reporter: Reporter
    const filter: SupplierFilter

    ghost function State(): Monitor
      reads store, reporter
    {
      Monitor(store.Contents(), reporter.knownServiceIDs)
    }

    constructor (store: SQLiteStore, reporter: Reporter, filter: SupplierFilter)
      ensures this.store == store && this.reporter == reporter && this.filter == filter
    {
      this.store, this.reporter, this.filter := store, reporter, filter;
    }

    method FilterEvents(events: seq<Event>) returns (filtered: seq<Event>)
      ensures filtered == Filter(events, Passes(filter))
    {
      filtered := [];
      for i := 0 to |events|
        invariant filtered == Filter(events[..i], Passes(filter))
      {
        FilterPrefix(events, i, Passes(filter));
        if Matches(filter, SupplierAddress(events[i])) {
          filtered := filtered + [events[i]];
        }
      }
      assert events[..|events|] == events;
    }

    /** The type switch over the filtered events. */
    method ConvertEvents(events: seq<Event>, height: int, ts: int) returns (c: Converted)
      ensures c == Convert(events, height, ts)
      ensures RecordsAll(c, events, height, ts)
    {
      var settlements: seq<Settlement>, overservices: seq<OverserviceEvent>,
          reimbursements: seq<ReimbursementEvent> := [], [], [];
      var dists: Dists := map[];
      for i := 0 to |events|
        invariant Converted(settlements, overservices, reimbursements, dists) == Convert(events[..i], height, ts)
      {
        assert events[..i + 1][..i] == events[..i];
        var e := events[i];
        match e {
          case ClaimSettled(_, _, _, _, _, _, _, _, _, _, _, _) =>
            var settlement, rewards := ConvertSettledEventWithRewards(e, height, ts);
            dists := dists[|settlements| := rewards];
            settlements := settlements + [settlement];
          case ClaimExpired(_, _, _, _, _, _, _, _, _, _, _) =>
            settlements := settlements + [ConvertClaim(e, height, ts)];
          case SupplierSlashed(_, _, _, _, _, _) => settlements := settlements + [ConvertClaim(e, height, ts)];
          case ClaimDiscarded(_, _, _, _, _, _) => settlements := settlements + [ConvertClaim(e, height, ts)];
          case ApplicationOverserviced(_, _, _, _) =>
            overservices := overservices + [ConvertOverservice(e, height, ts)];
          case ReimbursementRequested(_, _, _, _, _, _) =>
            reimbursements := reimbursements + [ConvertReimbursement(e, height, ts)];
          case OtherMessage =>
        }
      }
      assert events[..|events|] == events;
      c := Converted(settlements, overservices, reimbursements, dists);
      ConvertRecords(events, height, ts);
    }

    method ProcessBlock(height: int, ts: int, events: seq<Event>, isLive: bool)
      requires reporter.store == store
      modifies store, reporter
      ensures State() == Deliver(old(State()), BlockOf(filter, height, ts, events, isLive))
    {
      hide Reported, InsertBlock, RecordsAll, Convert, Filter, Correlated, NamedServices;
      var filtered := FilterEvents(events);
      var c := ConvertEvents(filtered, height, ts);
      var rows := new Settlement[|c.settlements|](i requires 0 <= i < |c.settlements| => c.settlements[i]);
      assert rows[..] == c.settlements;
      var correlations := CorrelateOverservice(events, rows);
      var header := ProcessedBlock(height, ts, |filtered|, if isLive then Live else Backfill);
      store.InsertBlockEvents(header, rows[..], c.dists, c.overservices, c.reimbursements);
      SameNames(Raw(rows[..], c.overservices, c.reimbursements));
      reporter.ReportBlock(height, ts, rows[..], c.overservices, c.reimbursements);
    }
  }

  /** Everything the pipeline stores for a block is labelled with its height and time, and the
      join sees exactly the events of monitored suppliers. */
  lemma PipelineRows(filter: SupplierFilter, height: int, ts: int, events: seq<Event>, isLive: bool)
    ensures var b, filtered := BlockOf(filter, height, ts, events, isLive), Filter(events, Passes(filter));
      && OwnHeight(b.raw, height) && AllAt(b.raw, ts)
      && b.raw.settlements == Map(Convert(filtered, height, ts).settlements, Correlated(filtered))
  {
    hide Filter;
    var filtered := Filter(events, Passes(filter));
    var c, rows := Convert(filtered, height, ts), BlockOf(filter, height, ts, events, isLive).raw.settlements;
    ConvertedRows(filtered, height, ts, filter);
    JoinIgnoresFilter(filter, events, c.settlements);
    forall s | s in rows ensures s.blockHeight == height && s.blockTime == ts {
      var i :| 0 <= i < |rows| && rows[i] == s;
      assert c.settlements[i] in c.settlements;
      JoinChangesOnlyOverservice(events, c.settlements[i]);
    }
  }

  // The events of monitored suppliers, by kind.

  function MonitoredClaims(filter: SupplierFilter): Event -> bool {
    (e: Event) => IsClaim(e) && Matches(filter, e.supplier)
  }
  function MonitoredOverservices(filter: SupplierFilter): Event -> bool {
    (e: Event) => e.ApplicationOverserviced? && Matches(filter, e.supplier)
  }
  function MonitoredReimbursements(filter: SupplierFilter): Event -> bool {
    (e: Event) => e.ReimbursementRequested? && Matches(filter, e.supplier)
  }

  lemma KindsOfFiltered(filter: SupplierFilter, events: seq<Event>)
    ensures var filtered := Filter(events, Passes(filter));
      && Filter(filtered, IsClaim) == Filter(events, MonitoredClaims(filter))
      && Filter(filtered, IsOverservice) == Filter(events, MonitoredOverservices(filter))
      && Filter(filtered, IsReimbursement) == Filter(events, MonitoredReimbursements(filter))
  {
    hide Filter, Matches;
    FilterTwice(events, Passes(filter), IsClaim, MonitoredClaims(filter));
    FilterTwice(events, Passes(filter), IsOverservice, MonitoredOverservices(filter));
    FilterTwice(events, Passes(filter), IsReimbursement, MonitoredReimbursements(filter));
  }

  lemma JoinedRecord(events: seq<Event>, s: Settlement, e: Event, height: int, ts: int)
    requires RecordsClaim(s, e, height, ts)
    ensures RecordsClaim(Correlated(events)(s), e, height, ts)
  {
    hide IsCorrelated;
    JoinChangesOnlyOverservice(events, s);
  }

  /** A block's rows, column by column: one per event of a monitored supplier, list by list and in
      order, with the overservice columns of its last matching event and the claim's own rewards. */
  lemma PipelineRecords(filter: SupplierFilter, height: int, ts: int, events: seq<Event>, isLive: bool)
    ensures var b := BlockOf(filter, height, ts, events, isLive);
      var claims, overs, reimbs := Filter(events, MonitoredClaims(filter)),
          Filter(events, MonitoredOverservices(filter)), Filter(events, MonitoredReimbursements(filter));
      && b.header == ProcessedBlock(height, ts, |Filter(events, Passes(filter))|, if isLive then Live else Backfill)
      && |b.raw.settlements| == |claims| && |b.raw.overservices| == |overs| && |b.raw.reimbursements| == |reimbs|
      && (forall i :: 0 <= i < |claims| ==>
            && RecordsClaim(b.raw.settlements[i], claims[i], height, ts)
            && ShowsOverservice(b.raw.settlements[i], events)
            && RecordsRewards(Lookup(b.dists, i), claims[i]))
      && (forall i :: 0 <= i < |overs| ==> RecordsOverservice(b.raw.overservices[i], overs[i], height, ts))
      && (forall i :: 0 <= i < |reimbs| ==> RecordsReimbursement(b.raw.reimbursements[i], reimbs[i], height, ts))
  {
    hide Filter, Convert, Correlated, RecordsClaim, ShowsOverservice, RecordsRewards, RecordsOverservice,
        RecordsReimbursement;
    var filtered := Filter(events, Passes(filter));
    var c, claims := Convert(filtered, height, ts), Filter(events, MonitoredClaims(filter));
    KindsOfFiltered(filter, events);
    ConvertRecords(filtered, height, ts);
    ConvertedRows(filtered, height, ts, filter);
    forall i | 0 <= i < |claims|
      ensures RecordsClaim(Correlated(events)(c.settlements[i]), claims[i], height, ts)
      ensures ShowsOverservice(Correlated(events)(c.settlements[i]), events)
    {
      assert c.settlements[i] in c.settlements;
      JoinedRecord(events, c.settlements[i], claims[i], height, ts);
      JoinShows(events, c.settlements[i]);
    }
  }

  // The chain as both delivery paths decode it.

  datatype BlockEvents = BlockEvents(time: int, events: seq<Event>)

  function DecodedChain(filter: SupplierFilter, decoded: int -> BlockEvents): Chain {
    h =>
      var b := BlockOf(filter, h, decoded(h).time, decoded(h).events, true);
      Payload(decoded(h).time, b.header.eventCount, b.raw, b.dists)
  }

  lemma SourceOnly(filter: SupplierFilter, height: int, ts: int, events: seq<Event>, isLive: bool)
    ensures var b, live := BlockOf(filter, height, ts, events, isLive), BlockOf(filter, height, ts, events, true);
      && b.raw == live.raw && b.dists == live.dists
      && b.header == ProcessedBlock(height, ts, live.header.eventCount, if isLive then Live else Backfill)
  {
  }

  /** Processing a height, live or by backfill, is an arrival of the decoded chain, so confluence
      and repair apply to every history of `ProcessBlock` calls. */
  lemma ProcessingIsArrival(filter: SupplierFilter, decoded: int -> BlockEvents, h: int, isLive: bool)
    ensures Labelled(DecodedChain(filter, decoded))
    ensures BlockOf(filter, h, decoded(h).time, decoded(h).events, isLive)
         == BlockAt(DecodedChain(filter, decoded), Arrival(h, if isLive then Live else Backfill))
  {
    hide BlockOf;
    forall h: int ensures OwnHeight(DecodedChain(filter, decoded)(h).raw, h) {
      PipelineRows(filter, h, decoded(h).time, decoded(h).events, true);
    }
    SourceOnly(filter, h, decoded(h).time, decoded(h).events, isLive);
  }
}
