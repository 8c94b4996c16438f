/** Go visits a claim's reward map in any order, and a redelivery may use another one. */
module RewardOrder {
  import opened Seqs
  import opened Tables
  import opened Model
  import opened Database
  import opened Materialization
  import opened Delivery

  /** The same rewards for every settlement, in possibly different orders. */
  ghost predicate SameRewards(a: Dists, b: Dists) {
    forall i: nat :: multiset(Lookup(a, i)) == multiset(Lookup(b, i))
  }

  ghost predicate NoAddressTwice(rewards: seq<RewardDistribution>) {
    Distinct(rewards, RewardAddress)
  }

  /** The keys of a map: no address occurs twice. */
  ghost predicate MapLike(dists: Dists) {
    forall i: nat :: NoAddressTwice(Lookup(dists, i))
  }

  /** Equal event tables and equal reward rows as multisets. */
  ghost predicate SameUpToOrder(a: Db, b: Db) {
    && b.(rewards := a.rewards, summaries := a.summaries) == a
    && multiset(a.rewards) == multiset(b.rewards)
  }

  lemma {:induction false} OwnedCount(rewards: seq<RewardDistribution>, id: nat, row: RewardRow)
    ensures multiset(Map(rewards, OwnedBy(id)))[row] ==
      if row.settlementId == id then multiset(rewards)[row.reward] else 0
  {
    if |rewards| > 0 {
      var init, last := rewards[..|rewards| - 1], rewards[|rewards| - 1];
      OwnedCount(init, id, row);
      assert rewards == init + [last];
      assert Map(rewards, OwnedBy(id)) == Map(init, OwnedBy(id)) + [RewardRow(id, last)];
    }
  }

  lemma OwnedRowsSame(a: seq<RewardDistribution>, b: seq<RewardDistribution>, id: nat)
    requires multiset(a) == multiset(b)
    ensures multiset(Map(a, OwnedBy(id))) == multiset(Map(b, OwnedBy(id)))
  {
    forall row ensures multiset(Map(a, OwnedBy(id)))[row] == multiset(Map(b, OwnedBy(id)))[row] {
      OwnedCount(a, id, row);
      OwnedCount(b, id, row);
    }
  }

  /** Under a new id, rewards of distinct addresses are all stored. */
  lemma NewRewardRows(db: Db, s: Settlement, rewards: seq<RewardDistribution>)
    requires Consistent(db) && NoAddressTwice(rewards)
    requires !Has(db.settlements, RowKey, KeyOfSettlement(s))
    ensures InsertSettlement(db, s, rewards) == db.(
      settlements := db.settlements + [SettlementRow(db.nextId, s)],
      nextId := db.nextId + 1,
      rewards := db.rewards + Map(rewards, OwnedBy(db.nextId)))
  {
    hide Consistent, Kept;
    RewardIdsAreOld(db);
    KeptUnderNewId(db.rewards, rewards, db.nextId);
    AllKeptIffFresh([], RewardAddress, rewards);
  }

  lemma InsertSettlementSame(a: Db, b: Db, s: Settlement, r: seq<RewardDistribution>, r': seq<RewardDistribution>)
    requires Consistent(a) && Consistent(b) && SameUpToOrder(a, b) && multiset(r) == multiset(r')
    requires NoAddressTwice(r) && NoAddressTwice(r')
    ensures SameUpToOrder(InsertSettlement(a, s, r), InsertSettlement(b, s, r'))
  {
    hide Consistent, NoAddressTwice;
    if !Has(a.settlements, RowKey, KeyOfSettlement(s)) {
      NewRewardRows(a, s, r);
      NewRewardRows(b, s, r');
      OwnedRowsSame(r, r', a.nextId);
    }
  }

  lemma RewardsAt(d: Dists, d': Dists, i: nat)
    requires SameRewards(d, d') && MapLike(d) && MapLike(d')
    ensures multiset(Lookup(d, i)) == multiset(Lookup(d', i))
    ensures NoAddressTwice(Lookup(d, i)) && NoAddressTwice(Lookup(d', i))
  {
  }

  lemma {:induction false} InsertSettlementsSame(a: Db, b: Db, settlements: seq<Settlement>, d: Dists, d': Dists)
    requires Consistent(a) && Consistent(b) && SameUpToOrder(a, b)
    requires SameRewards(d, d') && MapLike(d) && MapLike(d')
    ensures SameUpToOrder(InsertSettlements(a, settlements, d), InsertSettlements(b, settlements, d'))
  {
    hide Consistent, SameUpToOrder, InsertSettlement, NoAddressTwice;
    if |settlements| > 0 {
      var n := |settlements| - 1;
      InsertSettlementsSame(a, b, settlements[..n], d, d');
      InsertSettlementsConsistent(a, settlements[..n], d);
      InsertSettlementsConsistent(b, settlements[..n], d');
      RewardsAt(d, d', n);
      InsertSettlementSame(InsertSettlements(a, settlements[..n], d), InsertSettlements(b, settlements[..n], d'),
                           settlements[n], Lookup(d, n), Lookup(d', n));
    }
  }

  lemma ConsistentIgnoresSummaries(a: Db, b: Db)
    requires b == a.(summaries := b.summaries) && Consistent(a)
    ensures Consistent(b)
  {
  }

  lemma DeliverSame(a: Monitor, b: Monitor, block: Block, d: Dists)
    requires Consistent(a.db) && Consistent(b.db) && SameUpToOrder(a.db, b.db)
    requires SameRewards(block.dists, d) && MapLike(block.dists) && MapLike(d)
    ensures SameUpToOrder(Deliver(a, block.(dists := d)).db, Deliver(b, block).db)
    ensures Consistent(Deliver(a, block.(dists := d)).db) && Consistent(Deliver(b, block).db)
  {
    hide Consistent, MapLike, Deliver, Stamp;
    var rows := Stamp(block.raw, block.header.blockTime).settlements;
    InsertSettlementsSame(a.db, b.db, rows, d, block.dists);
    InsertBlockConsistent(a.db, block.header, block.raw, d);
    InsertBlockConsistent(b.db, block.header, block.raw, block.dists);
    DeliveredTables(a, block.(dists := d));
    DeliveredTables(b, block);
    ConsistentIgnoresSummaries(InsertBlock(a.db, block.header, block.raw, d), Deliver(a, block.(dists := d)).db);
    ConsistentIgnoresSummaries(InsertBlock(b.db, block.header, block.raw, block.dists), Deliver(b, block).db);
  }

  /** Deliveries that each bring the rewards of their claims in an order of their own. */
  function Reordered(chain: Chain, arrivals: seq<Arrival>, orders: seq<Dists>): Monitor
    requires |orders| == |arrivals|
  {
    if |arrivals| == 0 then Monitor(EMPTY, {})
    else
      var n := |arrivals| - 1;
      Deliver(Reordered(chain, arrivals[..n], orders[..n]), BlockAt(chain, arrivals[n]).(dists := orders[n]))
  }

  ghost predicate OrdersOf(chain: Chain, arrivals: seq<Arrival>, orders: seq<Dists>) {
    && |orders| == |arrivals|
    && forall i :: 0 <= i < |arrivals| ==>
         SameRewards(chain(arrivals[i].height).dists, orders[i]) && MapLike(orders[i])
  }

  lemma EmptySame()
    ensures SameUpToOrder(EMPTY, EMPTY)
  {
  }

  lemma {:induction false} ReorderedSame(chain: Chain, arrivals: seq<Arrival>, orders: seq<Dists>)
    requires OrdersOf(chain, arrivals, orders) && forall h: int :: MapLike(chain(h).dists)
    ensures SameUpToOrder(Reordered(chain, arrivals, orders).db, Ingested(chain, arrivals).db)
    ensures Consistent(Reordered(chain, arrivals, orders).db) && Consistent(Ingested(chain, arrivals).db)
  {
    hide Consistent, SameUpToOrder, SameRewards, MapLike, Deliver, Ingested;
    if |arrivals| == 0 {
      EmptyRun(chain, arrivals);
      EmptySame();
    } else {
      var n := |arrivals| - 1;
      ReorderedSame(chain, arrivals[..n], orders[..n]);
      IngestLast(chain, arrivals);
      DeliverSame(Reordered(chain, arrivals[..n], orders[..n]), Ingested(chain, arrivals[..n]),
                  BlockAt(chain, arrivals[n]), orders[n]);
    }
  }

  /** The same settlement, owning the same rewards in some order. */
  ghost predicate SameStored(a: Db, b: Db, k: SettlementKey) {
    match (Stored(a, k), Stored(b, k))
    case (Some(x), Some(y)) => x.0 == y.0 && multiset(x.1) == multiset(y.1)
    case (None, None) => true
    case _ => false
  }

  lemma {:induction false} RewardCount(table: seq<RewardRow>, id: nat, reward: RewardDistribution)
    ensures multiset(Map(Filter(table, Keyed(RewardOwner, id)), RewardOf))[reward]
         == multiset(table)[RewardRow(id, reward)]
  {
    if |table| > 0 {
      var init, last := table[..|table| - 1], table[|table| - 1];
      RewardCount(init, id, reward);
      assert table == init + [last];
      var kept := Filter(init, Keyed(RewardOwner, id));
      assert Keyed(RewardOwner, id)(last) <==> RewardOwner(last) == id;
      assert Map(kept + [last], RewardOf) == Map(kept, RewardOf) + [last.reward];
      assert kept + [] == kept;
    }
  }

  lemma SameUpToOrderStored(a: Db, b: Db, k: SettlementKey)
    requires SameUpToOrder(a, b)
    ensures SameStored(a, b, k)
  {
    hide Filter;
    match Find(a.settlements, RowKey, k)
    case None =>
    case Some(row) =>
      forall r ensures multiset(RewardsOf(a, row.id))[r] == multiset(RewardsOf(b, row.id))[r] {
        RewardCount(a.rewards, row.id, r);
        RewardCount(b.rewards, row.id, r);
      }
  }

  /** Confluence without a fixed reward order: schedules that cover the same heights store the same
      settlements with the same rewards up to order, whatever order each delivery brings them in. */
  lemma ConfluenceUpToOrder(chain: Chain, a: seq<Arrival>, ordersA: seq<Dists>, b: seq<Arrival>, ordersB: seq<Dists>)
    requires Labelled(chain) && (forall h: int :: MapLike(chain(h).dists))
    requires Heights(a) == Heights(b) && OrdersOf(chain, a, ordersA) && OrdersOf(chain, b, ordersB)
    ensures var x, y := Reordered(chain, a, ordersA).db, Reordered(chain, b, ordersB).db;
      && (forall k :: SameStored(x, y, k))
      && (forall k :: Find(x.overservices, KeyOfOverservice, k) == Find(y.overservices, KeyOfOverservice, k))
      && (forall k :: Find(x.reimbursements, KeyOfReimbursement, k) == Find(y.reimbursements, KeyOfReimbursement, k))
      && x.processed.Keys == y.processed.Keys
  {
    hide Consistent, SameRewards, MapLike, Reordered, Ingested, Labelled, Stored, Find;
    ReorderedSame(chain, a, ordersA);
    ReorderedSame(chain, b, ordersB);
    Confluence(chain, a, b);
    var x, y := Reordered(chain, a, ordersA).db, Reordered(chain, b, ordersB).db;
    forall k ensures SameStored(x, y, k) {
      SameUpToOrderStored(x, Ingested(chain, a).db, k);
      SameUpToOrderStored(y, Ingested(chain, b).db, k);
      assert Stored(Ingested(chain, a).db, k) == Stored(Ingested(chain, b).db, k);
    }
  }
}
