/** The SQLite store: one connection, so every method is one atomic step. */
module Store {
  import opened Seqs
  import opened Tables
  import opened Model
  import opened Periods
  import opened Aggregation
  import opened Database

  // Retention.

  datatype SummaryTable = HourlyService | HourlyNetwork | DailyService | DailyNetwork

  function TableOf(k: SummaryKey): SummaryTable {
    match k
    case ServiceRow(Hour, _, _) => HourlyService
    case NetworkRow(Hour, _) => HourlyNetwork
    case ServiceRow(Day, _, _) => DailyService
    case NetworkRow(Day, _) => DailyNetwork
  }

  datatype RetentionResult = RetentionResult(
    settlementsDeleted: nat,
    rewardsDeleted: nat,
    overservicesDeleted: nat,
    reimbursementsDeleted: nat,
    processedDeleted: nat,
    summariesDeleted: map<SummaryTable, nat>,
    rawCutoff: int,
    hourlyCutoff: int,
    dailyCutoff: int)

  function RowNotBefore(cutoff: int): SettlementRow -> bool {
    (row: SettlementRow) => row.settlement.blockTime >= cutoff
  }
  function OverserviceNotBefore(cutoff: int): OverserviceEvent -> bool {
    (o: OverserviceEvent) => o.blockTime >= cutoff
  }
  function ReimbursementNotBefore(cutoff: int): ReimbursementEvent -> bool {
    (r: ReimbursementEvent) => r.blockTime >= cutoff
  }
  function OwnerNotIn(ids: set<nat>): RewardRow -> bool { (r: RewardRow) => r.settlementId !in ids }

  function Multiplier(p: Period): int {
    match p
    case Hour => 3
    case Day => 6
  }

  function ExpiredIds(rows: seq<SettlementRow>, cutoff: int): set<nat> {
    set row | row in rows && row.settlement.blockTime < cutoff :: row.id
  }

  function BlocksNotBefore(processed: map<int, ProcessedBlock>, cutoff: int): map<int, ProcessedBlock> {
    map h | h in processed && processed[h].blockTime >= cutoff :: processed[h]
  }

  function UnexpiredSummaries(m: map<SummaryKey, Summary>, now: int, retention: nat): map<SummaryKey, Summary> {
    map k | k in m && k.start >= now - Multiplier(k.period) * retention :: m[k]
  }

  /** The database without everything older than 1x (raw), 3x (hourly) and 6x (daily) retention. */
  function Expire(db: Db, now: int, retention: nat): Db {
    if retention == 0 then db
    else
      var cutoff := now - retention;
      db.(
        rewards := Filter(db.rewards, OwnerNotIn(ExpiredIds(db.settlements, cutoff))),
        settlements := Filter(db.settlements, RowNotBefore(cutoff)),
        overservices := Filter(db.overservices, OverserviceNotBefore(cutoff)),
        reimbursements := Filter(db.reimbursements, ReimbursementNotBefore(cutoff)),
        processed := BlocksNotBefore(db.processed, cutoff),
        summaries := UnexpiredSummaries(db.summaries, now, retention))
  }

  lemma ExpireByField(db: Db, now: int, retention: nat)
    requires retention > 0
    ensures Expire(db, now, retention) == Db(
      Filter(db.settlements, RowNotBefore(now - retention)),
      db.nextId,
      Filter(db.rewards, OwnerNotIn(ExpiredIds(db.settlements, now - retention))),
      Filter(db.overservices, OverserviceNotBefore(now - retention)),
      Filter(db.reimbursements, ReimbursementNotBefore(now - retention)),
      BlocksNotBefore(db.processed, now - retention),
      UnexpiredSummaries(db.summaries, now, retention))
  {
  }

  /** Retention 0 keeps everything. */
  lemma NothingExpires(db: Db, now: int)
    ensures Expire(db, now, 0) == db
  {
  }

  lemma SomeMember<T>(s: set<T>) returns (x: T)
    requires s != {}
    ensures x in s
  {
    x :| x in s;
  }

  lemma InsertNone<R, K>(table: seq<R>, key: R -> K)
    ensures InsertAll(table, key, []) == table
  {
  }

  function AllTables(): set<SummaryTable> { {HourlyService, HourlyNetwork, DailyService, DailyNetwork} }

  function CutoffOf(t: SummaryTable, hourlyCutoff: int, dailyCutoff: int): int {
    if t == HourlyService || t == HourlyNetwork then hourlyCutoff else dailyCutoff
  }

  /** The rows of one table that start before a cutoff. */
  function Outdated(m: map<SummaryKey, Summary>, t: SummaryTable, cutoff: int): set<SummaryKey> {
    set k | k in m && TableOf(k) == t && k.start < cutoff
  }

  /** Each count is the number of rows of its own table that start before the table's cutoff. */
  ghost predicate CountsOutdated(counts: map<SummaryTable, nat>, m: map<SummaryKey, Summary>, hourlyCutoff: int,
                                 dailyCutoff: int)
  {
    && counts.Keys == {HourlyService, HourlyNetwork, DailyService, DailyNetwork}
    && counts[HourlyService] == |set k | k in m && k.ServiceRow? && k.period.Hour? && k.start < hourlyCutoff|
    && counts[HourlyNetwork] == |set k | k in m && k.NetworkRow? && k.period.Hour? && k.start < hourlyCutoff|
    && counts[DailyService] == |set k | k in m && k.ServiceRow? && k.period.Day? && k.start < dailyCutoff|
    && counts[DailyNetwork] == |set k | k in m && k.NetworkRow? && k.period.Day? && k.start < dailyCutoff|
  }

  lemma OutdatedByTable(m: map<SummaryKey, Summary>, hourlyCutoff: int, dailyCutoff: int)
    ensures CountsOutdated(map[
      HourlyService := |Outdated(m, HourlyService, hourlyCutoff)|,
      HourlyNetwork := |Outdated(m, HourlyNetwork, hourlyCutoff)|,
      DailyService := |Outdated(m, DailyService, dailyCutoff)|,
      DailyNetwork := |Outdated(m, DailyNetwork, dailyCutoff)|], m, hourlyCutoff, dailyCutoff)
  {
    assert Outdated(m, HourlyService, hourlyCutoff)
        == set k | k in m && k.ServiceRow? && k.period.Hour? && k.start < hourlyCutoff;
    assert Outdated(m, HourlyNetwork, hourlyCutoff)
        == set k | k in m && k.NetworkRow? && k.period.Hour? && k.start < hourlyCutoff;
    assert Outdated(m, DailyService, dailyCutoff)
        == set k | k in m && k.ServiceRow? && k.period.Day? && k.start < dailyCutoff;
    assert Outdated(m, DailyNetwork, dailyCutoff)
        == set k | k in m && k.NetworkRow? && k.period.Day? && k.start < dailyCutoff;
  }

  function Pruned(m: map<SummaryKey, Summary>, hourlyCutoff: int, dailyCutoff: int, done: set<SummaryTable>)
    : map<SummaryKey, Summary>
  {
    map k | k in m && (TableOf(k) in done ==> k.start >= CutoffOf(TableOf(k), hourlyCutoff, dailyCutoff)) :: m[k]
  }

  lemma PruneStart(m: map<SummaryKey, Summary>, hourlyCutoff: int, dailyCutoff: int)
    ensures Pruned(m, hourlyCutoff, dailyCutoff, {}) == m
  {
  }

  lemma PruneStep(m: map<SummaryKey, Summary>, hourlyCutoff: int, dailyCutoff: int, done: set<SummaryTable>,
      t: SummaryTable)
    requires t !in done
    ensures var before, cutoff := Pruned(m, hourlyCutoff, dailyCutoff, done), CutoffOf(t, hourlyCutoff, dailyCutoff);
      && Outdated(before, t, cutoff) == Outdated(m, t, cutoff)
      && before - Outdated(before, t, cutoff) == Pruned(m, hourlyCutoff, dailyCutoff, done + {t})
  {
  }

  lemma PruneAll(m: map<SummaryKey, Summary>, now: int, retention: nat)
    ensures Pruned(m, now - 3 * retention, now - 6 * retention, AllTables()) == UnexpiredSummaries(m, now, retention)
  {
  }

  lemma RemoveCount<K, V>(m: map<K, V>, gone: set<K>)
    requires gone <= m.Keys
    ensures |m - gone| == |m| - |gone|
  {
  }

  function ServiceIds(raw: Raw): set<string> {
    set s | s in raw.settlements :: s.serviceId
  }

  function ServiceScope(raw: Raw, service: string): Raw {
    if service != "" then OfService(raw, service) else raw
  }

  function SupplierCount(raw: Raw, from: int, to: int, service: string): nat {
    |Suppliers(ServiceScope(During(raw, from, to), service))|
  }

  predicate InScope(row: SettlementRow, from: int, to: int, service: string) {
    from <= row.settlement.blockTime < to && (service == "" || row.settlement.serviceId == service)
  }

  lemma CountedSuppliers(db: Db, from: int, to: int, service: string)
    ensures Suppliers(ServiceScope(During(RawOf(db), from, to), service))
         == set row | row in db.settlements && InScope(row, from, to, service) :: row.settlement.supplier
  {
    hide Filter;
    var raw := RawOf(db);
    var scope := ServiceScope(During(raw, from, to), service);
    forall s: Settlement ensures s in scope.settlements <==>
      s in raw.settlements && from <= s.blockTime < to && (service == "" || s.serviceId == service) {
      assert SettlementDuring(from, to)(s) <==> from <= s.blockTime < to;
      assert Keyed(ServiceOfSettlement, service)(s) <==> ServiceOfSettlement(s) == service;
    }
    forall row | row in db.settlements ensures row.settlement in raw.settlements {
      var i :| 0 <= i < |db.settlements| && db.settlements[i] == row;
      assert raw.settlements[i] == row.settlement;
    }
    forall s | s in raw.settlements ensures exists row :: row in db.settlements && row.settlement == s {
      var i :| 0 <= i < |raw.settlements| && raw.settlements[i] == s;
      assert db.settlements[i] in db.settlements && db.settlements[i].settlement == s;
    }
  }

  lemma {:induction false} InsertSettlementsFrame(db: Db, settlements: seq<Settlement>, dists: Dists)
    ensures var db' := InsertSettlements(db, settlements, dists);
      db'.overservices == db.overservices && db'.reimbursements == db.reimbursements
      && db'.processed == db.processed && db'.summaries == db.summaries
  {
    if |settlements| > 0 {
      InsertSettlementsFrame(db, settlements[..|settlements| - 1], dists);
    }
  }

  class SQLiteStore {
    var settlements: seq<SettlementRow>
    var nextId: nat
    var rewards: seq<RewardRow>
    var overservices: seq<OverserviceEvent>
    var reimbursements: seq<ReimbursementEvent>
    var processed: map<int, ProcessedBlock>
    var summaries: map<SummaryKey, Summary>
    const retention: nat

    ghost function Contents(): Db
      reads this
    {
      Db(settlements, nextId, rewards, overservices, reimbursements, processed, summaries)
    }

    constructor Open(retention: nat)
      ensures Contents() == EMPTY && this.retention == retention
    {
      settlements, nextId, rewards := [], 1, [];
      overservices, reimbursements := [], [];
      processed, summaries := map[], map[];
      this.retention := retention;
    }

    /** One execution of the settlement statement, followed by its reward statements. */
    method ExecSettlement(s: Settlement, dists: seq<RewardDistribution>)
      modifies this
      ensures Contents() == InsertSettlement(old(Contents()), s, dists)
    {
      if !Has(settlements, RowKey, KeyOfSettlement(s)) {
        var id := nextId;
        settlements, nextId := settlements + [SettlementRow(id, s)], id + 1;
        ghost var offered := Map(dists, OwnedBy(id));
        InsertNone(rewards, RewardKey);
        for j := 0 to |dists|
          invariant rewards == InsertAll(old(rewards), RewardKey, offered[..j])
          invariant Contents() == InsertSettlement(old(Contents()), s, dists).(rewards := rewards)
        {
          assert offered[..j + 1] == offered[..j] + [RewardRow(id, dists[j])];
          InsertOneMore(old(rewards), RewardKey, offered[..j], RewardRow(id, dists[j]));
          rewards := Insert(rewards, RewardKey, RewardRow(id, dists[j]));
        }
        assert offered[..|dists|] == offered;
      }
    }

    method InsertSettlementRows(ts: int, ss: seq<Settlement>, dists: Dists)
      modifies this
      ensures Contents() == InsertSettlements(old(Contents()), Map(ss, StampSettlement(ts)), dists)
    {
      ghost var rows := Map(ss, StampSettlement(ts));
      for i := 0 to |ss|
        invariant Contents() == InsertSettlements(old(Contents()), rows[..i], dists)
      {
        assert rows[..i + 1][..i] == rows[..i];
        ExecSettlement(ss[i].(blockTime := ts), Lookup(dists, i));
      }
      assert rows[..|ss|] == rows;
    }

    method InsertOverserviceRows(ts: int, os: seq<OverserviceEvent>)
      modifies this`overservices
      ensures overservices == InsertAll(old(overservices), KeyOfOverservice, Map(os, StampOverservice(ts)))
    {
      ghost var rows := Map(os, StampOverservice(ts));
      InsertNone(overservices, KeyOfOverservice);
      for i := 0 to |os|
        invariant overservices == InsertAll(old(overservices), KeyOfOverservice, rows[..i])
      {
        var o := os[i].(blockTime := ts);
        assert rows[..i + 1] == rows[..i] + [o];
        InsertOneMore(old(overservices), KeyOfOverservice, rows[..i], o);
        overservices := Insert(overservices, KeyOfOverservice, o);
      }
      assert rows[..|os|] == rows;
    }

    method InsertReimbursementRows(ts: int, rs: seq<ReimbursementEvent>)
      modifies this`reimbursements
      ensures reimbursements == InsertAll(old(reimbursements), KeyOfReimbursement, Map(rs, StampReimbursement(ts)))
    {
      ghost var rows := Map(rs, StampReimbursement(ts));
      InsertNone(reimbursements, KeyOfReimbursement);
      for i := 0 to |rs|
        invariant reimbursements == InsertAll(old(reimbursements), KeyOfReimbursement, rows[..i])
      {
        var r := rs[i].(blockTime := ts);
        assert rows[..i + 1] == rows[..i] + [r];
        InsertOneMore(old(reimbursements), KeyOfReimbursement, rows[..i], r);
        reimbursements := Insert(reimbursements, KeyOfReimbursement, r);
      }
      assert rows[..|rs|] == rows;
    }

    method InsertBlockEvents(block: ProcessedBlock, ss: seq<Settlement>, dists: Dists,
                             os: seq<OverserviceEvent>, rs: seq<ReimbursementEvent>)
      modifies this
      ensures Contents() == InsertBlock(old(Contents()), block, Raw(ss, os, rs), dists)
    {
      var ts := block.blockTime;
      InsertSettlementsFrame(Contents(), Map(ss, StampSettlement(ts)), dists);
      InsertSettlementRows(ts, ss, dists);
      InsertOverserviceRows(ts, os);
      InsertReimbursementRows(ts, rs);
      if block.height !in processed {
        processed := processed[block.height := block];
      }
    }

    /** `SELECT MAX(height)`: 0 when no block has been processed. */
    method LastProcessedHeight() returns (height: int)
      ensures processed == map[] ==> height == 0
      ensures processed != map[] ==> height in processed && forall h :: h in processed ==> h <= height
    {
      height := 0;
      var rest: set<int> := processed.Keys;
      if rest != {} {
        ghost var some := SomeMember(rest);
        assert some in rest;
        height :| height in rest;
        while rest != {}
          invariant rest <= processed.Keys
          invariant height in processed && forall h :: h in processed && h !in rest ==> h <= height
          decreases rest
        {
          ghost var some := SomeMember(rest);
          assert some in rest;
          var h :| h in rest;
          rest := rest - {h};
          if h > height {
            height := h;
          }
        }
      }
    }

    method UpsertSummary(k: SummaryKey, row: Summary)
      modifies this`summaries
      ensures summaries == old(summaries)[k := row]
    {
      summaries := summaries[k := row];
    }

    method ReadSummary(k: SummaryKey) returns (row: Summary)
      ensures row == GetSummary(Contents(), k)
    {
      row := NO_SUMMARY;
      if k in summaries {
        row := summaries[k];
      }
    }

    method DistinctServiceIDs() returns (ids: set<string>)
      ensures ids == ServiceIds(RawOf(Contents()))
    {
      ids := {};
      for i := 0 to |settlements|
        invariant ids == set j | 0 <= j < i :: settlements[j].settlement.serviceId
      {
        ids := ids + {settlements[i].settlement.serviceId};
      }
      ghost var raw := RawOf(Contents());
      forall id ensures id in ids <==> id in ServiceIds(raw) {
        if id in ids {
          var j :| 0 <= j < |settlements| && settlements[j].settlement.serviceId == id;
          assert raw.settlements[j] in raw.settlements;
        }
      }
    }

    method QuerySettlementsForPeriod(from: int, to: int) returns (found: seq<Settlement>)
      ensures found == During(RawOf(Contents()), from, to).settlements
    {
      found := [];
      ghost var all := RawOf(Contents()).settlements;
      for i := 0 to |settlements|
        invariant found == Filter(all[..i], SettlementDuring(from, to))
      {
        assert all[..i + 1][..i] == all[..i];
        var s := settlements[i].settlement;
        if from <= s.blockTime && s.blockTime < to {
          found := found + [s];
        }
      }
      assert all[..|all|] == all;
    }

    method QueryOverserviceEventsForPeriod(from: int, to: int) returns (found: seq<OverserviceEvent>)
      ensures found == During(RawOf(Contents()), from, to).overservices
    {
      found := [];
      for i := 0 to |overservices|
        invariant found == Filter(overservices[..i], OverserviceDuring(from, to))
      {
        assert overservices[..i + 1][..i] == overservices[..i];
        if from <= overservices[i].blockTime && overservices[i].blockTime < to {
          found := found + [overservices[i]];
        }
      }
      assert overservices[..|overservices|] == overservices;
    }

    method QueryReimbursementEventsForPeriod(from: int, to: int) returns (found: seq<ReimbursementEvent>)
      ensures found == During(RawOf(Contents()), from, to).reimbursements
    {
      found := [];
      for i := 0 to |reimbursements|
        invariant found == Filter(reimbursements[..i], ReimbursementDuring(from, to))
      {
        assert reimbursements[..i + 1][..i] == reimbursements[..i];
        if from <= reimbursements[i].blockTime && reimbursements[i].blockTime < to {
          found := found + [reimbursements[i]];
        }
      }
      assert reimbursements[..|reimbursements|] == reimbursements;
    }

    /** `COUNT(DISTINCT supplier_operator_address)`; the empty service means all of them. */
    method CountActiveSuppliers(from: int, to: int, service: string) returns (count: nat)
      ensures count == SupplierCount(RawOf(Contents()), from, to, service)
      ensures count == |set row | row in settlements && InScope(row, from, to, service) :: row.settlement.supplier|
    {
      var seen: set<string> := {};
      for i := 0 to |settlements|
        invariant seen ==
          set row | row in settlements[..i] && InScope(row, from, to, service) :: row.settlement.supplier
      {
        assert settlements[..i + 1] == settlements[..i] + [settlements[i]];
        var s := settlements[i].settlement;
        if from <= s.blockTime && s.blockTime < to && (service == "" || s.serviceId == service) {
          seen := seen + {s.supplier};
        }
      }
      assert settlements[..|settlements|] == settlements;
      CountedSuppliers(Contents(), from, to, service);
      count := |seen|;
    }

    /** `DELETE` on one summary table, with the number of rows affected. */
    method DeleteSummariesBefore(table: SummaryTable, cutoff: int) returns (deleted: nat)
      modifies this`summaries
      ensures summaries == old(summaries) - Outdated(old(summaries), table, cutoff)
      ensures deleted == |Outdated(old(summaries), table, cutoff)|
    {
      var gone := Outdated(summaries, table, cutoff);
      summaries := summaries - gone;
      deleted := |gone|;
    }

    method DeleteProcessedBefore(cutoff: int) returns (deleted: nat)
      modifies this`processed
      ensures processed == BlocksNotBefore(old(processed), cutoff)
      ensures deleted == |old(processed)| - |processed|
    {
      var gone := set h | h in processed && processed[h].blockTime < cutoff;
      RemoveCount(processed, gone);
      processed := processed - gone;
      deleted := |gone|;
    }

    /** The deletes on the event tables, rewards first. */
    method DeleteEventsBefore(cutoff: int)
      returns (ss: nat, rds: nat, os: nat, rs: nat)
      modifies this`rewards, this`settlements, this`overservices, this`reimbursements
      ensures rewards == Filter(old(rewards), OwnerNotIn(ExpiredIds(old(settlements), cutoff)))
      ensures settlements == Filter(old(settlements), RowNotBefore(cutoff))
      ensures overservices == Filter(old(overservices), OverserviceNotBefore(cutoff))
      ensures reimbursements == Filter(old(reimbursements), ReimbursementNotBefore(cutoff))
      ensures ss == |old(settlements)| - |settlements| && rds == |old(rewards)| - |rewards|
      ensures os == |old(overservices)| - |overservices| && rs == |old(reimbursements)| - |reimbursements|
    {
      hide *;
      var keptRewards := Filter(rewards, OwnerNotIn(ExpiredIds(settlements, cutoff)));
      rds, rewards := |rewards| - |keptRewards|, keptRewards;
      var keptSettlements := Filter(settlements, RowNotBefore(cutoff));
      ss, settlements := |settlements| - |keptSettlements|, keptSettlements;
      var keptOverservices := Filter(overservices, OverserviceNotBefore(cutoff));
      os, overservices := |overservices| - |keptOverservices|, keptOverservices;
      var keptReimbursements := Filter(reimbursements, ReimbursementNotBefore(cutoff));
      rs, reimbursements := |reimbursements| - |keptReimbursements|, keptReimbursements;
    }

    method DeleteSummaries(hourlyCutoff: int, dailyCutoff: int) returns (counts: map<SummaryTable, nat>)
      modifies this`summaries
      ensures summaries == Pruned(old(summaries), hourlyCutoff, dailyCutoff, AllTables())
      ensures CountsOutdated(counts, old(summaries), hourlyCutoff, dailyCutoff)
    {
      hide Pruned, Outdated, CountsOutdated;
      ghost var was := summaries;
      PruneStart(was, hourlyCutoff, dailyCutoff);
      PruneStep(was, hourlyCutoff, dailyCutoff, {}, HourlyService);
      var n1 := DeleteSummariesBefore(HourlyService, hourlyCutoff);
      PruneStep(was, hourlyCutoff, dailyCutoff, {HourlyService}, HourlyNetwork);
      var n2 := DeleteSummariesBefore(HourlyNetwork, hourlyCutoff);
      PruneStep(was, hourlyCutoff, dailyCutoff, {HourlyService, HourlyNetwork}, DailyService);
      var n3 := DeleteSummariesBefore(DailyService, dailyCutoff);
      PruneStep(was, hourlyCutoff, dailyCutoff, {HourlyService, HourlyNetwork, DailyService}, DailyNetwork);
      var n4 := DeleteSummariesBefore(DailyNetwork, dailyCutoff);
      assert {HourlyService} + {HourlyNetwork} == {HourlyService, HourlyNetwork};
      assert {HourlyService, HourlyNetwork} + {DailyService} == {HourlyService, HourlyNetwork, DailyService};
      assert {HourlyService, HourlyNetwork, DailyService} + {DailyNetwork} == AllTables();
      assert {} + {HourlyService} == {HourlyService};
      counts := map[HourlyService := n1, HourlyNetwork := n2, DailyService := n3, DailyNetwork := n4];
      OutdatedByTable(was, hourlyCutoff, dailyCutoff);
    }

    /** The deletes of one cleanup transaction. */
    method DeleteExpired(now: int) returns (ss: nat, rds: nat, os: nat, rs: nat, pbs: nat,
        counts: map<SummaryTable, nat>)
      requires retention > 0
      modifies this
      ensures Contents() == Expire(old(Contents()), now, retention)
      ensures ss == |old(settlements)| - |settlements| && rds == |old(rewards)| - |rewards|
      ensures os == |old(overservices)| - |overservices| && rs == |old(reimbursements)| - |reimbursements|
      ensures pbs == |old(processed)| - |processed|
      ensures CountsOutdated(counts, old(summaries), now - 3 * retention, now - 6 * retention)
    {
      hide Expire, Filter, Pruned, UnexpiredSummaries, BlocksNotBefore, ExpiredIds, CountsOutdated;
      ss, rds, os, rs := DeleteEventsBefore(now - retention);
      pbs := DeleteProcessedBefore(now - retention);
      counts := DeleteSummaries(now - 3 * retention, now - 6 * retention);
      PruneAll(old(summaries), now, retention);
      ExpireByField(old(Contents()), now, retention);
    }

    method RunRetentionCleanup(now: int) returns (result: RetentionResult)
      modifies this
      ensures Contents() == Expire(old(Contents()), now, retention)
      ensures retention == 0 ==> result == RetentionResult(0, 0, 0, 0, 0, map[], 0, 0, 0)
      ensures retention > 0 ==>
        && result.rawCutoff == now - retention
        && result.hourlyCutoff == now - 3 * retention
        && result.dailyCutoff == now - 6 * retention
        && result.settlementsDeleted == |old(settlements)| - |settlements|
        && result.rewardsDeleted == |old(rewards)| - |rewards|
        && result.overservicesDeleted == |old(overservices)| - |overservices|
        && result.reimbursementsDeleted == |old(reimbursements)| - |reimbursements|
        && result.processedDeleted == |old(processed)| - |processed|
        && CountsOutdated(result.summariesDeleted, old(summaries), now - 3 * retention, now - 6 * retention)
    {
      hide Expire, CountsOutdated;
      if retention == 0 {
        NothingExpires(Contents(), now);
        return RetentionResult(0, 0, 0, 0, 0, map[], 0, 0, 0);
      }
      var ss, rds, os, rs, pbs, counts := DeleteExpired(now);
      result := RetentionResult(ss, rds, os, rs, pbs, counts, now - retention, now - 3 * retention,
          now - 6 * retention);
    }
  }

  // What retention leaves behind.

  lemma {:induction false} FilterKeepsDistinct<R(!new), K>(table: seq<R>, key: R -> K, keep: R -> bool)
    requires Distinct(table, key)
    ensures Distinct(Filter(table, keep), key)
  {
    if |table| > 0 {
      var init, last := table[..|table| - 1], table[|table| - 1];
      FilterKeepsDistinct(init, key, keep);
      forall r | r in Filter(init, keep) ensures key(r) != key(last) {
        var i :| 0 <= i < |init| && init[i] == r;
        assert key(table[i]) != key(table[|init|]);
      }
    }
  }

  ghost predicate IdsGrow(rows: seq<SettlementRow>) {
    forall i, j :: 0 <= i < j < |rows| ==> rows[i].id < rows[j].id
  }

  lemma {:induction false} FilterKeepsIdOrder(rows: seq<SettlementRow>, keep: SettlementRow -> bool)
    requires IdsGrow(rows)
    ensures IdsGrow(Filter(rows, keep))
  {
    if |rows| > 0 {
      var init, last := rows[..|rows| - 1], rows[|rows| - 1];
      FilterKeepsIdOrder(init, keep);
      forall r | r in Filter(init, keep) ensures r.id < last.id {
        assert r in init;
        var i :| 0 <= i < |init| && init[i] == r;
        assert rows[i].id < rows[|init|].id;
      }
    }
  }

  ghost predicate Owned(db: Db, r: RewardRow) {
    Has(db.settlements, RowId, r.settlementId)
  }

  lemma ExpireKeepsOwners(db: Db, now: int, retention: nat, r: RewardRow)
    requires retention > 0 && forall r :: r in db.rewards ==> Owned(db, r)
    requires r in Expire(db, now, retention).rewards
    ensures Owned(Expire(db, now, retention), r)
  {
    var db' := Expire(db, now, retention);
    assert r in db.rewards && Owned(db, r);
    var n :| 0 <= n < |db.settlements| && RowId(db.settlements[n]) == r.settlementId;
    var row := db.settlements[n];
    assert OwnerNotIn(ExpiredIds(db.settlements, now - retention))(r);
    assert RowNotBefore(now - retention)(row);
    assert row in db'.settlements;
    var m :| 0 <= m < |db'.settlements| && db'.settlements[m] == row;
    assert RowId(db'.settlements[m]) == r.settlementId;
  }

  lemma ExpireKeepsIds(db: Db, now: int, retention: nat)
    requires Consistent(db) && retention > 0
    ensures var db' := Expire(db, now, retention);
      IdsGrow(db'.settlements) && forall i :: 0 <= i < |db'.settlements| ==> db'.settlements[i].id < db'.nextId
  {
    var db' := Expire(db, now, retention);
    assert IdsGrow(db.settlements);
    FilterKeepsIdOrder(db.settlements, RowNotBefore(now - retention));
    forall i | 0 <= i < |db'.settlements| ensures db'.settlements[i].id < db'.nextId {
      assert db'.settlements[i] in db.settlements;
    }
  }

  lemma ExpireKeepsKeys(db: Db, now: int, retention: nat)
    requires Consistent(db) && retention > 0
    ensures var db' := Expire(db, now, retention);
      && Distinct(db'.settlements, RowKey) && Distinct(db'.rewards, RewardKey)
      && Distinct(db'.overservices, KeyOfOverservice) && Distinct(db'.reimbursements, KeyOfReimbursement)
      && forall h :: h in db'.processed ==> db'.processed[h].height == h
  {
    hide Filter, Distinct, ExpiredIds, UnexpiredSummaries;
    var cutoff := now - retention;
    FilterKeepsDistinct(db.settlements, RowKey, RowNotBefore(cutoff));
    FilterKeepsDistinct(db.rewards, RewardKey, OwnerNotIn(ExpiredIds(db.settlements, cutoff)));
    FilterKeepsDistinct(db.overservices, KeyOfOverservice, OverserviceNotBefore(cutoff));
    FilterKeepsDistinct(db.reimbursements, KeyOfReimbursement, ReimbursementNotBefore(cutoff));
  }

  /** Cleanup leaves the schema intact; in particular no reward row without its settlement,
      so ON DELETE CASCADE finds nothing to do. */
  lemma ExpireConsistent(db: Db, now: int, retention: nat)
    requires Consistent(db)
    ensures Consistent(Expire(db, now, retention))
  {
    if retention == 0 {
      NothingExpires(db, now);
    } else {
      hide Expire, Distinct;
      var db' := Expire(db, now, retention);
      ExpireKeepsKeys(db, now, retention);
      ExpireKeepsIds(db, now, retention);
      assert forall r :: r in db.rewards ==> Owned(db, r);
      forall i | 0 <= i < |db'.rewards|
        ensures Has(db'.settlements, RowId, db'.rewards[i].settlementId)
      {
        ExpireKeepsOwners(db, now, retention, db'.rewards[i]);
      }
    }
  }

  /** An id names one settlement row, so it is expired exactly when that row is. */
  lemma OwnerIsExpired(db: Db, cutoff: int, row: SettlementRow)
    requires Consistent(db) && row in db.settlements
    ensures row.id in ExpiredIds(db.settlements, cutoff) <==> row.settlement.blockTime < cutoff
  {
    forall other | other in db.settlements && other.id == row.id ensures other == row {
      var i, j :| 0 <= i < |db.settlements| && 0 <= j < |db.settlements|
        && db.settlements[i] == other && db.settlements[j] == row;
    }
  }

  lemma OwnersExist(db: Db, r: RewardRow)
    requires Consistent(db) && r in db.rewards
    ensures Owned(db, r)
  {
  }

  lemma RewardSurvivesIff(db: Db, now: int, retention: nat, r: RewardRow)
    requires Consistent(db) && retention > 0 && r in db.rewards
    ensures r in Expire(db, now, retention).rewards <==>
      exists row :: row in db.settlements && row.id == r.settlementId && row.settlement.blockTime >= now - retention
  {
    hide Consistent, ExpiredIds;
    OwnersExist(db, r);
    var n :| 0 <= n < |db.settlements| && RowId(db.settlements[n]) == r.settlementId;
    assert OwnerNotIn(ExpiredIds(db.settlements, now - retention))(r) <==>
      r.settlementId !in ExpiredIds(db.settlements, now - retention);
    forall row | row in db.settlements
      ensures row.id in ExpiredIds(db.settlements, now - retention) <==> row.settlement.blockTime < now - retention {
      OwnerIsExpired(db, now - retention, row);
    }
    assert db.settlements[n] in db.settlements;
  }

  /** What a cleanup keeps, table by table: raw rows not older than the retention, rewards whose
      settlement is not, hourly summaries not older than three times and daily ones not older than six
      times the retention. */
  lemma ExpireKeepsExactly(db: Db, now: int, retention: nat)
    requires Consistent(db) && retention > 0
    ensures var db', cutoff := Expire(db, now, retention), now - retention;
      && (forall row :: row in db'.settlements <==> row in db.settlements && row.settlement.blockTime >= cutoff)
      && (forall r :: r in db'.rewards <==> r in db.rewards && exists row ::
            row in db.settlements && row.id == r.settlementId && row.settlement.blockTime >= cutoff)
      && (forall o :: o in db'.overservices <==> o in db.overservices && o.blockTime >= cutoff)
      && (forall r :: r in db'.reimbursements <==> r in db.reimbursements && r.blockTime >= cutoff)
      && (forall h :: h in db'.processed <==> h in db.processed && db.processed[h].blockTime >= cutoff)
      && (forall h :: h in db'.processed ==> db'.processed[h] == db.processed[h])
      && (forall k :: k in db'.summaries <==>
            k in db.summaries && k.start >= now - (if k.period.Hour? then 3 * retention else 6 * retention))
      && (forall k :: k in db'.summaries ==> db'.summaries[k] == db.summaries[k])
  {
    hide Consistent, ExpiredIds;
    var db' := Expire(db, now, retention);
    forall r | r in db.rewards
      ensures r in db'.rewards <==>
        exists row :: row in db.settlements && row.id == r.settlementId && row.settlement.blockTime >= now - retention
    {
      RewardSurvivesIff(db, now, retention, r);
    }
  }

  lemma LastKeyIsNew<R, K>(init: seq<R>, last: R, key: R -> K)
    requires Distinct(init + [last], key)
    ensures Distinct(init, key) && !Has(init, key, key(last))
  {
    var table := init + [last];
    assert forall i :: 0 <= i < |init| ==> table[i] == init[i];
    assert table[|init|] == last;
  }

  lemma {:induction false} FindOfFilter<R(!new), K>(table: seq<R>, key: R -> K, keep: R -> bool, k: K)
    requires Distinct(table, key)
    ensures var found := Find(table, key, k);
      Find(Filter(table, keep), key, k) == if found.Some? && keep(found.value) then found else None
  {
    if |table| > 0 {
      hide Find, Filter, Distinct, Has;
      var n := |table| - 1;
      var init, last := table[..n], table[n];
      assert table == init + [last];
      assert table[..n + 1] == table;
      LastKeyIsNew(init, last, key);
      FindOfFilter(init, key, keep, k);
      FilterPrefix(table, n, keep);
      FindLast(Filter(init, keep), last, key, k);
      FindLast(init, last, key, k);
    }
  }

  lemma SettlementKeysDistinct(db: Db)
    requires Consistent(db)
    ensures Distinct(db.settlements, RowKey)
  {
  }

  /** A settlement that is kept keeps its rewards; one that is not is gone with them. */
  lemma StoredAfterExpiry(db: Db, now: int, retention: nat, k: SettlementKey)
    requires Consistent(db) && retention > 0
    ensures var stored := Stored(db, k);
      Stored(Expire(db, now, retention), k) ==
        if stored.Some? && stored.value.0.blockTime >= now - retention then stored else None
  {
    hide Filter, Find, ExpiredIds, Consistent;
    var cutoff := now - retention;
    var ids := ExpiredIds(db.settlements, cutoff);
    SettlementKeysDistinct(db);
    FindOfFilter(db.settlements, RowKey, RowNotBefore(cutoff), k);
    var found := Find(db.settlements, RowKey, k);
    if found.Some? && found.value.settlement.blockTime >= cutoff {
      OwnerIsExpired(db, cutoff, found.value);
      forall r | r in db.rewards
        ensures Keyed(RewardOwner, found.value.id)(r) <==> OwnerNotIn(ids)(r) && Keyed(RewardOwner, found.value.id)(r) {
        assert Keyed(RewardOwner, found.value.id)(r) <==> RewardOwner(r) == found.value.id;
      }
      FilterTwice(db.rewards, OwnerNotIn(ids), Keyed(RewardOwner, found.value.id), Keyed(RewardOwner, found.value.id));
    }
  }

  /** An event at `ts` that survives a cleanup at `now` keeps the summary of its period. */
  predicate SummaryOutlives(p: Period, retention: nat, now: int, ts: int) {
    ts >= now - retention ==> Start(p, ts) >= now - Multiplier(p) * retention
  }

  function SafeRetention(p: Period): nat {
    match p
    case Hour => 1800
    case Day => 17280
  }

  /** Half an hour of retention protects hours, 4h48m protects days; any less does not. */
  lemma SummaryOutlivesIff(p: Period, retention: nat)
    requires retention > 0
    ensures (forall now, ts :: SummaryOutlives(p, retention, now, ts)) <==> retention >= SafeRetention(p)
  {
    match p
    case Hour =>
      if retention < 1800 {
        assert !SummaryOutlives(p, retention, 3599 + retention, 3599);
      }
    case Day =>
      if retention < 17280 {
        assert !SummaryOutlives(p, retention, 86399 + retention, 86399);
      }
  }

  /** The same for a database: the summary rows of surviving events survive. */
  lemma CleanupKeepsLiveSummaries(db: Db, now: int, retention: nat, k: SummaryKey)
    requires retention >= SafeRetention(k.period)
    requires k in db.summaries && Aligned(k.period, k.start)
    requires InPeriod(RawOf(Expire(db, now, retention)), k.period, k.start) != Raw([], [], [])
    ensures k in Expire(db, now, retention).summaries
  {
    var raw := RawOf(Expire(db, now, retention));
    var live := InPeriod(raw, k.period, k.start);
    var ts: int;
    if live.settlements != [] {
      var s := live.settlements[0];
      assert s in live.settlements;
      assert s in raw.settlements;
      var i :| 0 <= i < |raw.settlements| && raw.settlements[i] == s;
      assert Expire(db, now, retention).settlements[i] in Expire(db, now, retention).settlements;
      ts := s.blockTime;
    } else if live.overservices != [] {
      assert live.overservices[0] in live.overservices;
      assert live.overservices[0] in raw.overservices;
      ts := live.overservices[0].blockTime;
    } else {
      assert live.reimbursements[0] in live.reimbursements;
      assert live.reimbursements[0] in raw.reimbursements;
      ts := live.reimbursements[0].blockTime;
    }
    SummaryOutlivesIff(k.period, retention);
    assert SummaryOutlives(k.period, retention, now, ts);
    StartIsInterval(k.period, k.start, ts);
  }
}
