/** Decoded events to store rows, and the same-block overservice join. */
module Converter {
  import opened Seqs
  import opened Model
  import opened Decimal
  import opened Coins
  import opened Database

  // Amounts are coin strings. `estimatedRelays` is what computeDifficulty yields for the event.
  // A reward map is the list of its entries in the order an iteration visits them.
  datatype Event =
    | ClaimSettled(supplier: string, application: string, serviceId: string, sessionEnd: int, proofStatus: int,
                   claimed: string, numRelays: nat, claimedUnits: nat, estimatedUnits: nat,
                   proofRequirement: int, estimatedRelays: int, rewards: seq<(string, string)>)
    | ClaimExpired(supplier: string, application: string, serviceId: string, sessionEnd: int, proofStatus: int,
                   claimed: string, numRelays: nat, claimedUnits: nat, estimatedUnits: nat,
                   estimatedRelays: int, reason: string)
    | SupplierSlashed(supplier: string, application: string, serviceId: string, sessionEnd: int, proofStatus: int,
                      penalty: string)
    | ClaimDiscarded(supplier: string, application: string, serviceId: string, sessionEnd: int, proofStatus: int,
                     error: string)
    | ApplicationOverserviced(application: string, supplier: string, expectedBurn: string, effectiveBurn: string)
    | ReimbursementRequested(application: string, supplier: string, owner: string, serviceId: string,
                             sessionId: string, amount: string)
    | OtherMessage

  function SupplierAddress(e: Event): string {
    if e.OtherMessage? then "" else e.supplier
  }

  predicate IsClaim(e: Event) {
    e.ClaimSettled? || e.ClaimExpired? || e.SupplierSlashed? || e.ClaimDiscarded?
  }

  /** The four claim converters. Go's int64(uint64) wraps. */
  function ConvertClaim(e: Event, height: int, ts: int): Settlement
    requires IsClaim(e)
  {
    match e
    case ClaimSettled(_, _, _, _, _, _, _, _, _, _, _, _) =>
      Settlement(height, ts, Settled, e.supplier, e.application, e.serviceId, e.sessionEnd, e.proofStatus,
                 ParseCoinAmount(e.claimed), Wrap64(e.numRelays), Wrap64(e.claimedUnits), Wrap64(e.estimatedUnits),
                 e.proofRequirement, e.estimatedRelays, false, 0, 0, "", "", 0)
    case ClaimExpired(_, _, _, _, _, _, _, _, _, _, _) =>
      Settlement(height, ts, Expired, e.supplier, e.application, e.serviceId, e.sessionEnd, e.proofStatus,
                 ParseCoinAmount(e.claimed), Wrap64(e.numRelays), Wrap64(e.claimedUnits), Wrap64(e.estimatedUnits),
                 0, e.estimatedRelays, false, 0, 0, e.reason, "", 0)
    case SupplierSlashed(_, _, _, _, _, _) =>
      Settlement(height, ts, Slashed, e.supplier, e.application, e.serviceId, e.sessionEnd, e.proofStatus,
                 0, 0, 0, 0, 0, 0, false, 0, 0, "", "", ParseCoinAmount(e.penalty))
    case ClaimDiscarded(_, _, _, _, _, _) =>
      Settlement(height, ts, Discarded, e.supplier, e.application, e.serviceId, e.sessionEnd, e.proofStatus,
                 0, 0, 0, 0, 0, 0, false, 0, 0, "", e.error, 0)
  }

  function ConvertOverservice(e: Event, height: int, ts: int): OverserviceEvent
    requires e.ApplicationOverserviced?
  {
    OverserviceEvent(height, ts, e.application, e.supplier, ParseCoinAmount(e.expectedBurn),
        ParseCoinAmount(e.effectiveBurn))
  }

  function ConvertReimbursement(e: Event, height: int, ts: int): ReimbursementEvent
    requires e.ReimbursementRequested?
  {
    ReimbursementEvent(height, ts, e.application, e.supplier, e.owner, e.serviceId, e.sessionId,
        ParseCoinAmount(e.amount))
  }

  function ToReward(entry: (string, string)): RewardDistribution {
    RewardDistribution(entry.0, ParseCoinAmount(entry.1))
  }

  /** The rewards an event brings along; only settled claims have any. */
  function RewardsIn(e: Event): seq<RewardDistribution> {
    if e.ClaimSettled? then Map(e.rewards, ToReward) else []
  }

  // What the rows have to record, column by column.

  ghost predicate RecordsClaim(s: Settlement, e: Event, height: int, ts: int) {
    && IsClaim(e) && s.blockHeight == height && s.blockTime == ts
    && s.supplier == e.supplier && s.application == e.application && s.serviceId == e.serviceId
    && s.sessionEnd == e.sessionEnd && s.claimProofStatus == e.proofStatus
    && s.proofRequirement == (if e.ClaimSettled? then e.proofRequirement else 0)
    && (e.ClaimSettled? ==> s.eventType == Settled)
    && (e.ClaimExpired? ==> s.eventType == Expired)
    && (e.SupplierSlashed? ==> s.eventType == Slashed)
    && (e.ClaimDiscarded? ==> s.eventType == Discarded)
    && (e.ClaimSettled? || e.ClaimExpired? ==>
          && s.claimedUpokt == ParseCoinAmount(e.claimed) && s.estimatedRelays == e.estimatedRelays
          && s.numRelays == Wrap64(e.numRelays) && s.claimedComputeUnits == Wrap64(e.claimedUnits)
          && s.estimatedComputeUnits == Wrap64(e.estimatedUnits))
    && (e.SupplierSlashed? || e.ClaimDiscarded? ==>
          && s.claimedUpokt == s.numRelays == s.estimatedRelays == 0
          && s.claimedComputeUnits == s.estimatedComputeUnits == 0)
    && s.slashPenaltyUpokt == (if e.SupplierSlashed? then ParseCoinAmount(e.penalty) else 0)
    && s.expirationReason == (if e.ClaimExpired? then e.reason else "")
    && s.errorMessage == (if e.ClaimDiscarded? then e.error else "")
  }

  ghost predicate RecordsOverservice(o: OverserviceEvent, e: Event, height: int, ts: int) {
    && e.ApplicationOverserviced? && o.blockHeight == height && o.blockTime == ts
    && o.application == e.application && o.supplier == e.supplier
    && o.expectedBurnUpokt == ParseCoinAmount(e.expectedBurn)
    && o.effectiveBurnUpokt == ParseCoinAmount(e.effectiveBurn)
  }

  ghost predicate RecordsReimbursement(r: ReimbursementEvent, e: Event, height: int, ts: int) {
    && e.ReimbursementRequested? && r.blockHeight == height && r.blockTime == ts
    && r.application == e.application && r.supplier == e.supplier && r.owner == e.owner
    && r.serviceId == e.serviceId && r.sessionId == e.sessionId && r.amountUpokt == ParseCoinAmount(e.amount)
  }

  /** A settled claim's reward map, entry by entry; other events bring no rewards. */
  ghost predicate RecordsRewards(rewards: seq<RewardDistribution>, e: Event) {
    if e.ClaimSettled? then
      && |rewards| == |e.rewards|
      && forall j :: 0 <= j < |rewards| ==>
           rewards[j].address == e.rewards[j].0 && rewards[j].amountUpokt == ParseCoinAmount(e.rewards[j].1)
    else rewards == []
  }

  lemma ConvertersRecord(e: Event, height: int, ts: int)
    ensures IsClaim(e) ==> RecordsClaim(ConvertClaim(e, height, ts), e, height, ts)
    ensures e.ApplicationOverserviced? ==> RecordsOverservice(ConvertOverservice(e, height, ts), e, height, ts)
    ensures e.ReimbursementRequested? ==> RecordsReimbursement(ConvertReimbursement(e, height, ts), e, height, ts)
    ensures RecordsRewards(RewardsIn(e), e)
  {
  }

  method ConvertSettledEventWithRewards(e: Event, height: int, ts: int)
      returns (s: Settlement, rewards: seq<RewardDistribution>)
    requires e.ClaimSettled?
    ensures s == ConvertClaim(e, height, ts) && rewards == RewardsIn(e)
  {
    s := ConvertClaim(e, height, ts);
    rewards := [];
    for i := 0 to |e.rewards|
      invariant rewards == Map(e.rewards[..i], ToReward)
    {
      rewards := rewards + [RewardDistribution(e.rewards[i].0, ParseCoinAmount(e.rewards[i].1))];
      assert e.rewards[..i + 1] == e.rewards[..i] + [e.rewards[i]];
    }
    assert e.rewards[..|e.rewards|] == e.rewards;
  }

  // Overservice correlation.

  datatype OverserviceData = OverserviceData(expectedBurn: int, effectiveBurn: int)
  datatype CorrelationKey = CorrelationKey(supplier: string, application: string)

  function DataOf(e: Event): OverserviceData
    requires e.ApplicationOverserviced?
  {
    OverserviceData(ParseCoinAmount(e.expectedBurn), ParseCoinAmount(e.effectiveBurn))
  }

  predicate Concerns(e: Event, k: CorrelationKey) {
    e.ApplicationOverserviced? && e.supplier == k.supplier && e.application == k.application
  }

  /** The reference: the last overservice event for a supplier and an application. */
  function LastOverservice(events: seq<Event>, k: CorrelationKey): Option<OverserviceData> {
    if |events| == 0 then None
    else
      var last := events[|events| - 1];
      if Concerns(last, k) then Some(DataOf(last)) else LastOverservice(events[..|events| - 1], k)
  }

  function CorrelationKeyOf(s: Settlement): CorrelationKey { CorrelationKey(s.supplier, s.application) }

  predicate IsCorrelated(events: seq<Event>, s: Settlement) {
    s.eventType.Settled? && LastOverservice(events, CorrelationKeyOf(s)).Some?
  }

  /** A row after the join, found by scanning the events for that row alone. */
  function Correlated(events: seq<Event>): Settlement -> Settlement {
    (s: Settlement) =>
      if IsCorrelated(events, s) then
        var data := LastOverservice(events, CorrelationKeyOf(s)).value;
        s.(isOverserviced := true,
           effectiveBurnUpokt := data.effectiveBurn,
           overserviceDiffUpokt := data.expectedBurn - data.effectiveBurn)
      else s
  }

  /** The map answers every key with the last overservice event for it. */
  ghost predicate AnswersLast(m: map<CorrelationKey, OverserviceData>, events: seq<Event>) {
    forall k :: (if k in m then Some(m[k]) else None) == LastOverservice(events, k)
  }

  method BuildOverserviceMap(events: seq<Event>) returns (m: map<CorrelationKey, OverserviceData>)
    ensures AnswersLast(m, events)
  {
    m := map[];
    for i := 0 to |events|
      invariant AnswersLast(m, events[..i])
    {
      assert events[..i + 1][..i] == events[..i];
      var e := events[i];
      if e.ApplicationOverserviced? {
        m := m[CorrelationKey(e.supplier, e.application) :=
               OverserviceData(ParseCoinAmount(e.expectedBurn), ParseCoinAmount(e.effectiveBurn))];
      }
    }
    assert events[..|events|] == events;
  }

  /** The body of the second pass. */
  method CorrelateRow(overservices: map<CorrelationKey, OverserviceData>, s: Settlement, ghost events: seq<Event>)
    returns (row: Settlement, found: bool)
    requires AnswersLast(overservices, events)
    ensures row == Correlated(events)(s) && (found <==> IsCorrelated(events, s))
  {
    row, found := s, false;
    if s.eventType.Settled? {
      var k := CorrelationKey(s.supplier, s.application);
      assert (if k in overservices then Some(overservices[k]) else None) == LastOverservice(events, k);
      if k in overservices {
        var data := overservices[k];
        row := s.(isOverserviced := true,
                  effectiveBurnUpokt := data.effectiveBurn,
                  overserviceDiffUpokt := data.expectedBurn - data.effectiveBurn);
        found := true;
      }
    }
  }

  function CorrelatedIn(events: seq<Event>): Settlement -> bool { s => IsCorrelated(events, s) }

  lemma NothingCorrelates(events: seq<Event>, rows: seq<Settlement>)
    requires AnswersLast(map[], events)
    ensures Map(rows, Correlated(events)) == rows
    ensures Filter(rows, CorrelatedIn(events)) == []
  {
  }

  /** The two passes over the block, in place. */
  method CorrelateOverservice(events: seq<Event>, settlements: array<Settlement>) returns (count: nat)
    modifies settlements
    ensures settlements[..] == Map(old(settlements[..]), Correlated(events))
    ensures count == |Filter(old(settlements[..]), CorrelatedIn(events))|
  {
    hide AnswersLast, Correlated, IsCorrelated, LastOverservice, Filter;
    var overservices := BuildOverserviceMap(events);
    ghost var before := settlements[..];
    if overservices == map[] {
      NothingCorrelates(events, before);
      return 0;
    }
    count := 0;
    FilterNone(before[..0], CorrelatedIn(events));
    for i := 0 to settlements.Length
      invariant settlements[..i] == Map(before, Correlated(events))[..i]
      invariant settlements[i..] == before[i..]
      invariant count == |Filter(before[..i], CorrelatedIn(events))|
    {
      assert settlements[i] == settlements[i..][0] == before[i];
      assert settlements[i + 1..] == settlements[i..][1..] == before[i + 1..];
      var row, found := CorrelateRow(overservices, settlements[i], events);
      FilterPrefix(before, i, CorrelatedIn(events));
      settlements[i] := row;
      assert settlements[..i + 1] == settlements[..i] + [row];
      if found {
        count := count + 1;
      }
    }
    assert settlements[..] == settlements[..settlements.Length];
    assert before[..settlements.Length] == before;
  }

  // Filtering by supplier.

  /** No addresses configured means every supplier is monitored. */
  datatype SupplierFilter = SupplierFilter(addresses: set<string>, monitorAll: bool)

  predicate Matches(filter: SupplierFilter, address: string) {
    filter.monitorAll || address in filter.addresses
  }

  function NewSupplierFilter(addresses: seq<string>): (filter: SupplierFilter)
    ensures forall a :: Matches(filter, a) <==> |addresses| == 0 || a in addresses
  {
    if |addresses| == 0 then SupplierFilter({}, true) else SupplierFilter(set a | a in addresses, false)
  }

  function Passes(filter: SupplierFilter): Event -> bool { e => Matches(filter, SupplierAddress(e)) }

  lemma {:induction false} LastOverserviceOfFiltered(filter: SupplierFilter, events: seq<Event>, k: CorrelationKey)
    requires Matches(filter, k.supplier)
    ensures LastOverservice(events, k) == LastOverservice(Filter(events, Passes(filter)), k)
  {
    if |events| > 0 {
      var init, last := events[..|events| - 1], events[|events| - 1];
      LastOverserviceOfFiltered(filter, init, k);
      var kept := Filter(init, Passes(filter));
      assert (kept + [last])[..|kept|] == kept && kept + [] == kept;
      assert Passes(filter)(last) <==> Matches(filter, SupplierAddress(last));
    }
  }

  /** Joining against the block's unfiltered events, as the processor does, is joining against
      the filtered ones: the rows come from monitored suppliers. */
  lemma JoinIgnoresFilter(filter: SupplierFilter, events: seq<Event>, rows: seq<Settlement>)
    requires forall s :: s in rows ==> Matches(filter, s.supplier)
    ensures Map(rows, Correlated(events)) == Map(rows, Correlated(Filter(events, Passes(filter))))
  {
    forall i | 0 <= i < |rows|
      ensures Correlated(events)(rows[i]) == Correlated(Filter(events, Passes(filter)))(rows[i])
    {
      assert rows[i] in rows;
      LastOverserviceOfFiltered(filter, events, CorrelationKeyOf(rows[i]));
    }
  }

  /** The join changes overservice columns of settled rows and nothing else. */
  lemma JoinChangesOnlyOverservice(events: seq<Event>, s: Settlement)
    ensures var joined := Correlated(events)(s);
      && joined.(isOverserviced := s.isOverserviced, effectiveBurnUpokt := s.effectiveBurnUpokt,
                 overserviceDiffUpokt := s.overserviceDiffUpokt) == s
      && (joined != s ==> s.eventType.Settled? && joined.isOverserviced)
      && KeyOfSettlement(joined) == KeyOfSettlement(s)
  {
  }

  /** Position `p` holds the last overservice event of a supplier and an application. */
  ghost predicate IsLastFor(events: seq<Event>, p: nat, supplier: string, application: string) {
    && p < |events| && events[p].ApplicationOverserviced?
    && events[p].supplier == supplier && events[p].application == application
    && forall q :: p < q < |events| && events[q].ApplicationOverserviced? ==>
         events[q].supplier != supplier || events[q].application != application
  }

  lemma {:induction false} LastOverserviceIs(events: seq<Event>, k: CorrelationKey)
    ensures LastOverservice(events, k).Some? <==> exists p: nat :: IsLastFor(events, p, k.supplier, k.application)
    ensures forall p: nat :: IsLastFor(events, p, k.supplier, k.application) ==>
      LastOverservice(events, k) == Some(OverserviceData(ParseCoinAmount(events[p].expectedBurn),
                                                         ParseCoinAmount(events[p].effectiveBurn)))
  {
    if |events| > 0 {
      var n := |events| - 1;
      LastOverserviceIs(events[..n], k);
      if Concerns(events[n], k) {
        assert IsLastFor(events, n, k.supplier, k.application);
      } else {
        forall p: nat ensures
          IsLastFor(events, p, k.supplier, k.application) <==> IsLastFor(events[..n], p, k.supplier, k.application) {
        }
      }
    }
  }

  /** The overservice columns of a stored row: those of the last overservice event of the block for its
      supplier and application if the row is settled and there is one, blank otherwise. */
  ghost predicate ShowsOverservice(s: Settlement, events: seq<Event>) {
    && (forall p: nat :: s.eventType.Settled? && IsLastFor(events, p, s.supplier, s.application) ==>
          && s.isOverserviced && s.effectiveBurnUpokt == ParseCoinAmount(events[p].effectiveBurn)
          && s.overserviceDiffUpokt == ParseCoinAmount(events[p].expectedBurn)
                - ParseCoinAmount(events[p].effectiveBurn))
    && ((s.eventType.Settled? && exists p: nat :: IsLastFor(events, p, s.supplier, s.application))
        || (!s.isOverserviced && s.effectiveBurnUpokt == s.overserviceDiffUpokt == 0))
  }

  /** What the join writes, in terms of the block's events alone. */
  lemma JoinShows(events: seq<Event>, s: Settlement)
    requires !s.isOverserviced && s.effectiveBurnUpokt == s.overserviceDiffUpokt == 0
    ensures ShowsOverservice(Correlated(events)(s), events)
  {
    hide LastOverservice, IsLastFor;
    LastOverserviceIs(events, CorrelationKeyOf(s));
  }

  // The conversion loop.

  /** The lists the conversion loop builds. */
  datatype Converted = Converted(
    settlements: seq<Settlement>,
    overservices: seq<OverserviceEvent>,
    reimbursements: seq<ReimbursementEvent>,
    dists: Dists)

  function ConvertOne(c: Converted, e: Event, height: int, ts: int): Converted {
    if e.ClaimSettled? then
      c.(dists := c.dists[|c.settlements| := RewardsIn(e)],
         settlements := c.settlements + [ConvertClaim(e, height, ts)])
    else if IsClaim(e) then
      c.(settlements := c.settlements + [ConvertClaim(e, height, ts)])
    else if e.ApplicationOverserviced? then
      c.(overservices := c.overservices + [ConvertOverservice(e, height, ts)])
    else if e.ReimbursementRequested? then
      c.(reimbursements := c.reimbursements + [ConvertReimbursement(e, height, ts)])
    else c
  }

  function Convert(events: seq<Event>, height: int, ts: int): Converted {
    if |events| == 0 then Converted([], [], [], map[])
    else ConvertOne(Convert(events[..|events| - 1], height, ts), events[|events| - 1], height, ts)
  }

  /** Every converted row carries the height and the time of its block and a monitored supplier. */
  lemma {:induction false} ConvertedRows(events: seq<Event>, height: int, ts: int, filter: SupplierFilter)
    requires forall e :: e in events ==> Passes(filter)(e)
    ensures var c := Convert(events, height, ts);
      && (forall s :: s in c.settlements ==>
            s.blockHeight == height && s.blockTime == ts && Matches(filter, s.supplier)
            && !s.isOverserviced && s.effectiveBurnUpokt == s.overserviceDiffUpokt == 0)
      && (forall o :: o in c.overservices ==> o.blockHeight == height && o.blockTime == ts)
      && (forall r :: r in c.reimbursements ==> r.blockHeight == height && r.blockTime == ts)
  {
    if |events| > 0 {
      assert events[|events| - 1] in events;
      ConvertedRows(events[..|events| - 1], height, ts, filter);
    }
  }

  predicate IsOverservice(e: Event) { e.ApplicationOverserviced? }
  predicate IsReimbursement(e: Event) { e.ReimbursementRequested? }

  // Nothing is skipped and nothing is mixed up.

  /** The i-th row records the i-th claim, and reward list i is that claim's. */
  ghost predicate RecordsEach(settlements: seq<Settlement>, dists: Dists, claims: seq<Event>, height: int, ts: int) {
    && |settlements| == |claims|
    && (forall i :: 0 <= i < |claims| ==>
          RecordsClaim(settlements[i], claims[i], height, ts) && RecordsRewards(Lookup(dists, i), claims[i]))
    && (forall i :: i in dists ==> i < |settlements|)
  }

  ghost predicate RecordsClaims(c: Converted, events: seq<Event>, height: int, ts: int) {
    RecordsEach(c.settlements, c.dists, Filter(events, IsClaim), height, ts)
  }

  ghost predicate RecordsOverservices(c: Converted, events: seq<Event>, height: int, ts: int) {
    var overs := Filter(events, IsOverservice);
    && |c.overservices| == |overs|
    && (forall i :: 0 <= i < |overs| ==> RecordsOverservice(c.overservices[i], overs[i], height, ts))
  }

  ghost predicate RecordsReimbursements(c: Converted, events: seq<Event>, height: int, ts: int) {
    var reimbs := Filter(events, IsReimbursement);
    && |c.reimbursements| == |reimbs|
    && (forall i :: 0 <= i < |reimbs| ==> RecordsReimbursement(c.reimbursements[i], reimbs[i], height, ts))
  }

  ghost predicate RecordsAll(c: Converted, events: seq<Event>, height: int, ts: int) {
    && RecordsClaims(c, events, height, ts)
    && RecordsOverservices(c, events, height, ts)
    && RecordsReimbursements(c, events, height, ts)
  }

  /** The three kinds of events are filed in three lists. */
  lemma ConvertOneLists(c: Converted, e: Event, height: int, ts: int)
    ensures var c' := ConvertOne(c, e, height, ts);
      && c'.settlements == c.settlements + (if IsClaim(e) then [ConvertClaim(e, height, ts)] else [])
      && c'.dists == (if e.ClaimSettled? then c.dists[|c.settlements| := RewardsIn(e)] else c.dists)
      && c'.overservices == c.overservices + (if IsOverservice(e) then [ConvertOverservice(e, height, ts)] else [])
      && c'.reimbursements == c.reimbursements
           + (if IsReimbursement(e) then [ConvertReimbursement(e, height, ts)] else [])
  {
    hide ConvertClaim, ConvertOverservice, ConvertReimbursement, RewardsIn;
  }

  lemma OneMoreRow(settlements: seq<Settlement>, dists: Dists, claims: seq<Event>, s: Settlement, e: Event, height: int,
                   ts: int)
    requires RecordsEach(settlements, dists, claims, height, ts) && RecordsClaim(s, e, height, ts)
    ensures RecordsRewards(RewardsIn(e), e) ==>
      RecordsEach(settlements + [s], dists[|settlements| := RewardsIn(e)], claims + [e], height, ts)
    ensures RecordsRewards([], e) ==> RecordsEach(settlements + [s], dists, claims + [e], height, ts)
  {
    hide RecordsClaim, RecordsRewards, RewardsIn;
    assert |settlements| !in dists;
  }

  lemma OneMoreClaim(c: Converted, events: seq<Event>, height: int, ts: int)
    requires |events| > 0 && RecordsClaims(c, events[..|events| - 1], height, ts)
    ensures RecordsClaims(ConvertOne(c, events[|events| - 1], height, ts), events, height, ts)
  {
    hide Filter, RecordsEach, RecordsClaim, ConvertOne, ConvertClaim;
    var n := |events| - 1;
    assert events[..n + 1] == events;
    FilterPrefix(events, n, IsClaim);
    ConvertOneLists(c, events[n], height, ts);
    ConvertersRecord(events[n], height, ts);
    if IsClaim(events[n]) {
      OneMoreRow(c.settlements, c.dists, Filter(events[..n], IsClaim), ConvertClaim(events[n], height, ts), events[n],
          height, ts);
    } else {
      assert c.settlements + [] == c.settlements;
    }
  }

  lemma OneMoreOverservice(c: Converted, events: seq<Event>, height: int, ts: int)
    requires |events| > 0 && RecordsOverservices(c, events[..|events| - 1], height, ts)
    ensures RecordsOverservices(ConvertOne(c, events[|events| - 1], height, ts), events, height, ts)
  {
    hide Filter, RecordsOverservice, ConvertOne, ConvertOverservice, ConvertReimbursement, ConvertClaim, RewardsIn;
    var n := |events| - 1;
    assert events[..n + 1] == events;
    FilterPrefix(events, n, IsOverservice);
    ConvertOneLists(c, events[n], height, ts);
    ConvertersRecord(events[n], height, ts);
  }

  lemma OneMoreReimbursement(c: Converted, events: seq<Event>, height: int, ts: int)
    requires |events| > 0 && RecordsReimbursements(c, events[..|events| - 1], height, ts)
    ensures RecordsReimbursements(ConvertOne(c, events[|events| - 1], height, ts), events, height, ts)
  {
    hide Filter, RecordsReimbursement, ConvertOne, ConvertReimbursement, ConvertOverservice, ConvertClaim, RewardsIn;
    var n := |events| - 1;
    assert events[..n + 1] == events;
    FilterPrefix(events, n, IsReimbursement);
    ConvertOneLists(c, events[n], height, ts);
    ConvertersRecord(events[n], height, ts);
  }

  lemma {:induction false} ConvertRecords(events: seq<Event>, height: int, ts: int)
    ensures RecordsAll(Convert(events, height, ts), events, height, ts)
  {
    if |events| > 0 {
      hide RecordsClaims, RecordsOverservices, RecordsReimbursements, ConvertOne;
      var before := Convert(events[..|events| - 1], height, ts);
      ConvertRecords(events[..|events| - 1], height, ts);
      OneMoreClaim(before, events, height, ts);
      OneMoreOverservice(before, events, height, ts);
      OneMoreReimbursement(before, events, height, ts);
    }
  }
}
