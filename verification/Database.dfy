/** The value of the whole database, and one block's transaction on it. */
module Database {
  import opened Seqs
  import opened Tables
  import opened Model
  import opened Periods
  import opened Aggregation

  datatype SettlementRow = SettlementRow(id: nat, settlement: Settlement)

  datatype RewardRow = RewardRow(settlementId: nat, reward: RewardDistribution)

  /** A summary row without its key: the added-up columns and the distinct-supplier count. */
  datatype Summary = Summary(totals: Contribution, activeSuppliers: nat)

  const NO_SUMMARY := Summary(ZERO, 0)

  /** Names a row of one of the four summary tables by its UNIQUE columns. */
  datatype SummaryKey =
    | ServiceRow(period: Period, start: int, service: string)
    | NetworkRow(period: Period, start: int)

  datatype Db = Db(
    settlements: seq<SettlementRow>,
    nextId: nat,
    rewards: seq<RewardRow>,
    overservices: seq<OverserviceEvent>,
    reimbursements: seq<ReimbursementEvent>,
    processed: map<int, ProcessedBlock>,
    summaries: map<SummaryKey, Summary>)

  const EMPTY := Db([], 1, [], [], [], map[], map[])

  function RowId(row: SettlementRow): nat { row.id }
  function RowKey(row: SettlementRow): SettlementKey { KeyOfSettlement(row.settlement) }
  function RowSettlement(row: SettlementRow): Settlement { row.settlement }
  function RewardOwner(row: RewardRow): nat { row.settlementId }
  function RewardKey(row: RewardRow): (nat, string) { (row.settlementId, row.reward.address) }
  function RewardOf(row: RewardRow): RewardDistribution { row.reward }
  function RewardAddress(reward: RewardDistribution): string { reward.address }
  function OwnedBy(id: nat): RewardDistribution -> RewardRow { reward => RewardRow(id, reward) }

  function RawOf(db: Db): Raw {
    Raw(Map(db.settlements, RowSettlement), db.overservices, db.reimbursements)
  }

  /** Reading a summary that is not there yields the zero row. */
  function GetSummary(db: Db, k: SummaryKey): Summary {
    if k in db.summaries then db.summaries[k] else NO_SUMMARY
  }

  // Event rows are stored under the block's timestamp, whatever their own says.

  function StampSettlement(ts: int): Settlement -> Settlement { (s: Settlement) => s.(blockTime := ts) }
  function StampOverservice(ts: int): OverserviceEvent -> OverserviceEvent {
    (o: OverserviceEvent) => o.(blockTime := ts)
  }
  function StampReimbursement(ts: int): ReimbursementEvent -> ReimbursementEvent {
    (r: ReimbursementEvent) => r.(blockTime := ts)
  }

  function Stamp(raw: Raw, ts: int): Raw {
    Raw(Map(raw.settlements, StampSettlement(ts)),
        Map(raw.overservices, StampOverservice(ts)),
        Map(raw.reimbursements, StampReimbursement(ts)))
  }

  type Dists = map<nat, seq<RewardDistribution>>

  /** One settlement: ignored as a duplicate, or stored with its rewards under a new id. */
  function InsertSettlement(db: Db, s: Settlement, rewards: seq<RewardDistribution>): Db {
    if Has(db.settlements, RowKey, KeyOfSettlement(s)) then db
    else db.(
      settlements := db.settlements + [SettlementRow(db.nextId, s)],
      nextId := db.nextId + 1,
      rewards := InsertAll(db.rewards, RewardKey, Map(rewards, OwnedBy(db.nextId))))
  }

  function InsertSettlements(db: Db, settlements: seq<Settlement>, dists: Dists): Db {
    if |settlements| == 0 then db
    else
      var n := |settlements| - 1;
      InsertSettlement(InsertSettlements(db, settlements[..n], dists), settlements[n], Lookup(dists, n))
  }

  /** `INSERT OR IGNORE` into processed_blocks. */
  function MarkProcessed(processed: map<int, ProcessedBlock>, block: ProcessedBlock): map<int, ProcessedBlock> {
    if block.height in processed then processed else processed[block.height := block]
  }

  /** The transaction of `InsertBlockEvents`. */
  function InsertBlock(db: Db, block: ProcessedBlock, raw: Raw, dists: Dists): Db {
    var rows := Stamp(raw, block.blockTime);
    InsertSettlements(db, rows.settlements, dists).(
      overservices := InsertAll(db.overservices, KeyOfOverservice, rows.overservices),
      reimbursements := InsertAll(db.reimbursements, KeyOfReimbursement, rows.reimbursements),
      processed := MarkProcessed(db.processed, block))
  }

  /** What the schema enforces: unique keys, growing ids, and rewards that reference a settlement. */
  ghost predicate Consistent(db: Db) {
    && Distinct(db.settlements, RowKey)
    && (forall i, j :: 0 <= i < j < |db.settlements| ==> db.settlements[i].id < db.settlements[j].id)
    && (forall i :: 0 <= i < |db.settlements| ==> db.settlements[i].id < db.nextId)
    && Distinct(db.rewards, RewardKey)
    && (forall i :: 0 <= i < |db.rewards| ==> Has(db.settlements, RowId, db.rewards[i].settlementId))
    && Distinct(db.overservices, KeyOfOverservice)
    && Distinct(db.reimbursements, KeyOfReimbursement)
    && (forall h :: h in db.processed ==> db.processed[h].height == h)
  }

  lemma RewardIdsAreOld(db: Db)
    requires Consistent(db)
    ensures forall r :: r in db.rewards ==> r.settlementId < db.nextId
  {
  }

  lemma {:induction false} KeptAreOffered<R, K>(table: seq<R>, key: R -> K, rows: seq<R>)
    ensures forall r :: r in Kept(table, key, rows) ==> r in rows
  {
    if |rows| > 0 {
      KeptAreOffered(table, key, rows[..|rows| - 1]);
    }
  }

  lemma InsertSettlementConsistent(db: Db, s: Settlement, rewards: seq<RewardDistribution>)
    requires Consistent(db)
    ensures Consistent(InsertSettlement(db, s, rewards))
  {
    if !Has(db.settlements, RowKey, KeyOfSettlement(s)) {
      var db' := InsertSettlement(db, s, rewards);
      var offered := Map(rewards, OwnedBy(db.nextId));
      InsertAllDistinct(db.rewards, RewardKey, offered);
      KeptAreOffered(db.rewards, RewardKey, offered);
      forall i | 0 <= i < |db'.rewards|
        ensures Has(db'.settlements, RowId, db'.rewards[i].settlementId)
      {
        HasConcat(db.settlements, [SettlementRow(db.nextId, s)], RowId, db'.rewards[i].settlementId);
        if i >= |db.rewards| {
          assert db'.rewards[i] in offered;
          assert RowId(db'.settlements[|db.settlements|]) == db.nextId;
        }
      }
      forall i, j | 0 <= i < j < |db'.settlements|
        ensures RowKey(db'.settlements[i]) != RowKey(db'.settlements[j])
      {
        if j == |db.settlements| {
          assert RowKey(db.settlements[i]) != KeyOfSettlement(s);
        }
      }
    }
  }

  lemma {:induction false} InsertSettlementsConsistent(db: Db, settlements: seq<Settlement>, dists: Dists)
    requires Consistent(db)
    ensures var db' := InsertSettlements(db, settlements, dists);
      && Consistent(db')
      && db'.overservices == db.overservices && db'.reimbursements == db.reimbursements
      && db'.processed == db.processed && db'.summaries == db.summaries
  {
    hide Consistent;
    if |settlements| > 0 {
      var n := |settlements| - 1;
      InsertSettlementsConsistent(db, settlements[..n], dists);
      InsertSettlementConsistent(InsertSettlements(db, settlements[..n], dists), settlements[n], Lookup(dists, n));
    }
  }

  /** The transaction keeps every schema constraint and touches no summary. */
  lemma InsertBlockConsistent(db: Db, block: ProcessedBlock, raw: Raw, dists: Dists)
    requires Consistent(db)
    ensures Consistent(InsertBlock(db, block, raw, dists))
    ensures InsertBlock(db, block, raw, dists).summaries == db.summaries
  {
    var rows := Stamp(raw, block.blockTime);
    InsertSettlementsConsistent(db, rows.settlements, dists);
    InsertAllDistinct(db.overservices, KeyOfOverservice, rows.overservices);
    InsertAllDistinct(db.reimbursements, KeyOfReimbursement, rows.reimbursements);
  }

  lemma HasPlain(rows: seq<SettlementRow>, k: SettlementKey)
    ensures Has(rows, RowKey, k) <==> Has(Map(rows, RowSettlement), KeyOfSettlement, k)
  {
  }

  /** Seen without ids, the settlements table is a plain keyed table. */
  lemma {:induction false} SettlementsAsTable(db: Db, settlements: seq<Settlement>, dists: Dists)
    ensures Map(InsertSettlements(db, settlements, dists).settlements, RowSettlement)
         == InsertAll(Map(db.settlements, RowSettlement), KeyOfSettlement, settlements)
  {
    var plain := Map(db.settlements, RowSettlement);
    if |settlements| == 0 {
      assert InsertAll(plain, KeyOfSettlement, settlements) == plain;
    } else {
      var n := |settlements| - 1;
      var init, s := settlements[..n], settlements[n];
      SettlementsAsTable(db, init, dists);
      assert settlements == init + [s];
      InsertOneMore(plain, KeyOfSettlement, init, s);
      var before := InsertSettlements(db, init, dists).settlements;
      HasPlain(before, KeyOfSettlement(s));
      if !Has(before, RowKey, KeyOfSettlement(s)) {
        var after := InsertSettlements(db, settlements, dists).settlements;
        assert Map(after, RowSettlement) == Map(before, RowSettlement) + [s];
      }
    }
  }

  /** The rows a block adds: those INSERT OR IGNORE does not ignore. */
  function Added(db: Db, ts: int, raw: Raw): Raw {
    var stored, rows := RawOf(db), Stamp(raw, ts);
    Raw(Kept(stored.settlements, KeyOfSettlement, rows.settlements),
        Kept(stored.overservices, KeyOfOverservice, rows.overservices),
        Kept(stored.reimbursements, KeyOfReimbursement, rows.reimbursements))
  }

  lemma InsertBlockAppends(db: Db, block: ProcessedBlock, raw: Raw, dists: Dists)
    ensures RawOf(InsertBlock(db, block, raw, dists)) == Append(RawOf(db), Added(db, block.blockTime, raw))
  {
    SettlementsAsTable(db, Stamp(raw, block.blockTime).settlements, dists);
  }

  /** A block none of whose rows is in the tables, with no row twice. */
  ghost predicate FreshBlock(db: Db, raw: Raw, ts: int) {
    var stored, rows := RawOf(db), Stamp(raw, ts);
    && Fresh(stored.settlements, KeyOfSettlement, rows.settlements)
    && Fresh(stored.overservices, KeyOfOverservice, rows.overservices)
    && Fresh(stored.reimbursements, KeyOfReimbursement, rows.reimbursements)
  }

  lemma FreshBlockAddsAll(db: Db, raw: Raw, ts: int)
    requires FreshBlock(db, raw, ts)
    ensures Added(db, ts, raw) == Stamp(raw, ts)
  {
    var stored, rows := RawOf(db), Stamp(raw, ts);
    AllKeptIffFresh(stored.settlements, KeyOfSettlement, rows.settlements);
    AllKeptIffFresh(stored.overservices, KeyOfOverservice, rows.overservices);
    AllKeptIffFresh(stored.reimbursements, KeyOfReimbursement, rows.reimbursements);
  }

  // Rewards.

  function RewardsOf(db: Db, id: nat): seq<RewardDistribution> {
    Map(Filter(db.rewards, Keyed(RewardOwner, id)), RewardOf)
  }

  /** UNIQUE(settlement_id, address): the first amount of each address. */
  function FirstPerAddress(rewards: seq<RewardDistribution>): seq<RewardDistribution> {
    Kept([], RewardAddress, rewards)
  }

  /** The settlement stored under a key, with the rewards its row owns. */
  function Stored(db: Db, k: SettlementKey): Option<(Settlement, seq<RewardDistribution>)> {
    match Find(db.settlements, RowKey, k)
    case None => None
    case Some(row) => Some((row.settlement, RewardsOf(db, row.id)))
  }

  /** What the first of the offered settlements with that key brings. */
  function Offered(settlements: seq<Settlement>, dists: Dists, k: SettlementKey)
    : Option<(Settlement, seq<RewardDistribution>)>
  {
    if |settlements| == 0 then None
    else
      var n := |settlements| - 1;
      var earlier := Offered(settlements[..n], dists, k);
      if earlier.Some? || KeyOfSettlement(settlements[n]) != k then earlier
      else Some((settlements[n], FirstPerAddress(Lookup(dists, n))))
  }

  lemma HasUnderNewId(table: seq<RewardRow>, kept: seq<RewardDistribution>, id: nat, address: string)
    requires forall r :: r in table ==> r.settlementId != id
    ensures Has(table + Map(kept, OwnedBy(id)), RewardKey, (id, address)) <==> Has(kept, RewardAddress, address)
  {
    var mine := Map(kept, OwnedBy(id));
    HasConcat(table, mine, RewardKey, (id, address));
    if Has(kept, RewardAddress, address) {
      var i :| 0 <= i < |kept| && RewardAddress(kept[i]) == address;
      assert RewardKey(mine[i]) == (id, address);
    }
    if Has(mine, RewardKey, (id, address)) {
      var i :| 0 <= i < |mine| && RewardKey(mine[i]) == (id, address);
      assert RewardAddress(kept[i]) == address;
    }
  }

  lemma {:induction false} KeptUnderNewId(table: seq<RewardRow>, rewards: seq<RewardDistribution>, id: nat)
    requires forall r :: r in table ==> r.settlementId != id
    ensures Kept(table, RewardKey, Map(rewards, OwnedBy(id))) == Map(FirstPerAddress(rewards), OwnedBy(id))
  {
    if |rewards| > 0 {
      var n := |rewards| - 1;
      KeptUnderNewId(table, rewards[..n], id);
      assert Map(rewards, OwnedBy(id))[..n] == Map(rewards[..n], OwnedBy(id));
      var kept := FirstPerAddress(rewards[..n]);
      assert [] + kept == kept;
      HasUnderNewId(table, kept, id, rewards[n].address);
    }
  }

  lemma RewardsOfConcat(table: seq<RewardRow>, rewards: seq<RewardDistribution>, owner: nat, id: nat)
    requires forall r :: r in table ==> r.settlementId != owner
    ensures Map(Filter(table + Map(rewards, OwnedBy(owner)), Keyed(RewardOwner, id)), RewardOf)
         == if id == owner then rewards else Map(Filter(table, Keyed(RewardOwner, id)), RewardOf)
  {
    hide Filter;
    var mine := Map(rewards, OwnedBy(owner));
    FilterConcat(table, mine, Keyed(RewardOwner, id));
    forall r | r in mine ensures RewardOwner(r) == owner {
      var i :| 0 <= i < |mine| && mine[i] == r;
      assert mine[i] == OwnedBy(owner)(rewards[i]);
    }
    if id == owner {
      FilterNone(table, Keyed(RewardOwner, id));
      FilterAll(mine, Keyed(RewardOwner, id));
      assert Map([] + mine, RewardOf) == rewards;
    } else {
      FilterNone(mine, Keyed(RewardOwner, id));
      assert Filter(table, Keyed(RewardOwner, id)) + [] == Filter(table, Keyed(RewardOwner, id));
    }
  }

  /** A newly stored settlement owns its own rewards; everybody else's stay as they were. */
  lemma InsertSettlementRewards(db: Db, s: Settlement, rewards: seq<RewardDistribution>, id: nat)
    requires Consistent(db) && !Has(db.settlements, RowKey, KeyOfSettlement(s))
    ensures RewardsOf(InsertSettlement(db, s, rewards), id)
         == if id == db.nextId then FirstPerAddress(rewards) else RewardsOf(db, id)
  {
    hide Consistent;
    RewardIdsAreOld(db);
    var mine := Map(FirstPerAddress(rewards), OwnedBy(db.nextId));
    KeptUnderNewId(db.rewards, rewards, db.nextId);
    assert InsertSettlement(db, s, rewards).rewards == db.rewards + mine;
    RewardsOfConcat(db.rewards, FirstPerAddress(rewards), db.nextId, id);
  }

  lemma StoredAfterOne(db: Db, s: Settlement, rewards: seq<RewardDistribution>, k: SettlementKey)
    requires Consistent(db)
    ensures Stored(InsertSettlement(db, s, rewards), k)
         == if Stored(db, k).Some? || KeyOfSettlement(s) != k then Stored(db, k)
            else Some((s, FirstPerAddress(rewards)))
  {
    if !Has(db.settlements, RowKey, KeyOfSettlement(s)) {
      var row := SettlementRow(db.nextId, s);
      FindLast(db.settlements, row, RowKey, k);
      InsertSettlementRewards(db, s, rewards, db.nextId);
      var found := Find(db.settlements, RowKey, k);
      if found.Some? {
        InsertSettlementRewards(db, s, rewards, found.value.id);
      }
    }
  }

  /** First write wins for a settlement together with its rewards. */
  lemma {:induction false} StoredAfterInsert(db: Db, settlements: seq<Settlement>, dists: Dists, k: SettlementKey)
    requires Consistent(db)
    ensures Stored(InsertSettlements(db, settlements, dists), k)
         == if Stored(db, k).Some? then Stored(db, k) else Offered(settlements, dists, k)
  {
    hide Consistent;
    if |settlements| > 0 {
      var n := |settlements| - 1;
      StoredAfterInsert(db, settlements[..n], dists, k);
      InsertSettlementsConsistent(db, settlements[..n], dists);
      StoredAfterOne(InsertSettlements(db, settlements[..n], dists), settlements[n], Lookup(dists, n), k);
    }
  }

  /** Reward alignment for one block, through the whole transaction. */
  lemma StoredAfterBlock(db: Db, block: ProcessedBlock, raw: Raw, dists: Dists, k: SettlementKey)
    requires Consistent(db)
    ensures Stored(InsertBlock(db, block, raw, dists), k)
         == if Stored(db, k).Some? then Stored(db, k)
            else Offered(Stamp(raw, block.blockTime).settlements, dists, k)
  {
    StoredAfterInsert(db, Stamp(raw, block.blockTime).settlements, dists, k);
  }
}
