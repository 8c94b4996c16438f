# Pocket settlement monitor: a verified model

The monitor watches a chain for settlement blocks. A subscriber reads them from a
WebSocket and reports height gaps; a collector batches them by height; a processor filters,
converts and correlates their events, stores them in SQLite and hands them to a reporter,
which keeps hourly and daily summary tables beside the raw rows. Gaps are filled by
backfills that go through the same processor at the same time. A notifier posts to Discord.

This project models that pipeline in Dafny, component by component, and proves what its
parts promise each other. `dafny verify dfyconfig.toml` checks all of it.

## How it is built

The source's loops, classes and in-place updates are methods and classes; each is proved
against a function on values, and the theorems are about those functions.

| file | component | imperative part |
|---|---|---|
| `Seqs`, `Periods`, `Model`, `Tables` | filtering and grouping, UTC hours and days, row types, unique-key tables | `GroupBy` |
| `Aggregation` | `aggregateBlock` and its algebra | `AggregateBlock` |
| `Database`, `Store` | the database as a value; the SQLite store | class `SQLiteStore` |
| `Reporter`, `Materialization`, `Recalculation`, `Rollup` | summaries: accumulated, rebuilt, when they agree, how they add up | class `Reporter` |
| `Delivery`, `RewardOrder` | live and backfill deliveries of one chain: confluence and repair | |
| `Archive` | what the tables hold, told by the chain's events | |
| `Retention` | recalculation after a cleanup | |
| `Jobs`, `Ledger`, `Serialised`, `Uninterrupted` | reports and recalculations statement by statement: what overlapping ones lose, and that single ones do what the methods do | |
| `Converter`, `Processor`, `Coins`, `Decimal` | the block pipeline and the overservice join | `CorrelateOverservice` (on an array), class `Processor` |
| `Collector`, `Subscriber`, `Backfiller` | the three drivers of the processor | classes of the same names |
| `Coverage`, `Exactness` | subscriber, channel, collector, gap and start-up backfills and their jobs in every interleaving | |
| `HeightResolver`, `Backoff`, `Printing` | dates to heights, reconnect delays, printed amounts | their loops |
| `Notifier`, `NotifierRuns` | queue, sender, boundary summaries; every interleaving of them | class `Notifier` |

## Main results

1. **The tables hold the chain.** After any deliveries, live or backfilled, in any order and with
   any repetition: under every unique key there is a row if and only if a delivered height has an
   event of a monitored supplier that asks for it. It records the first such event of the block
   column by column, with the overservice columns of its last matching event and the claim's own
   rewards (`TablesHoldTheChain`). It holds at every moment of every interleaving of the whole
   monitor (`TablesHoldProcessed`) and of what a backfill leaves (`RangeHolds`).
2. **Summaries agree with the raw rows, and exactly when.** What a row has to say is spelled out
   column by column (`ExactTallies`): each counter is the number of rows of its own type, each
   amount a sum over the rows of its period and service. From exact network rows, a delivered
   block leaves them exact if and only if no settlement and no overservice row of it was
   ignored as a duplicate and its ignored reimbursements add up to nothing
   (`AccumulationExactIff`). So every sequence of fresh blocks, with restarts anywhere, keeps
   every network row equal to the aggregate of its period (`IncrementalNetwork`). A service
   row shows everything except the reimbursements that came before the service was known
   (`ServiceLedger`), so it is exact if and only if there was none (`ServiceRowExactIff`).
   Supplier counts are exact even when blocks repeat (`SupplierCountsExact`).
3. **Statement by statement, the calls of several goroutines overlap.** The ledger
   (`LedgerHolds`, for the whole monitor `MonitorLedger`) holds in every interleaving, for
   every row: what it shows, what is stored but unwritten, and what was overwritten are the
   aggregate. A row is exact if and only if what was overwritten adds up to nothing
   (`TotalsExactIff`). A report overwrites what others wrote since its read
   (`ReportOverwrites`), a recalculation what was stored since its queries (`RewriteLeaves`).
   Network rows stay exact in every interleaving in which calls of `ProcessBlock` and of the
   recalculation exclude each other (`NetworkRowsExactIfExclusive`); the monitor has no lock
   that makes them do so. A call that nothing interrupts reaches the state of the atomic one
   (`UninterruptedReport`, `UninterruptedRebuild`).
4. **Recalculation.** It replaces exactly the rows of the hours and days of the expanded
   range that hold an event, by the aggregate of all raw events of their period
   (`FullReplace`, against the grouping loops through `GroupedByStart`); after any repeated
   deliveries it yields the summaries of delivering each height once (`Repair`), exact rows
   for every known service (`RepairedIsExact`), and day rows that are the sums of their hour
   rows (`RecalculatedDayIsSumOfHours`).
5. **Confluence.** Any two schedules that cover the same heights, in any order, from either
   path and with any repetition, leave the same tables (`Confluence`), rewards included, also
   when each delivery visits the rewards in an order of its own (`ConfluenceUpToOrder`). A
   backfilled range is one arrival per height (`RangeIsIngested`), so all of this holds of
   backfills over whatever earlier processes left (`RangeTables`, `BackfillRepairs`).
6. **Coverage.** In every interleaving of live blocks, reconnects, channel, collector, gap
   backfills, start-up backfill and their reports, once quiet, every height with events
   between the first and the last seen is processed, by exactly one of the live and the gap
   path (`EveryHeightProcessedOnce`), and the tables are at all times those of a sequential
   schedule (`TablesIgnoreInterleaving`). `RestartCoversIff` says when nothing is missing
   across a restart. The subscriber relays one batch per block with events, in order
   (`EverythingIsRelayed`), and reports exactly the skipped ranges (`GapsAreSkipped`).
7. **Conservation.** Collector: `EventsConserved`, `NothingLost`, `LossIsBounded`. Notifier:
   `RunConserves`, `EveryOfferAccounted`, `SummariesQueuedOnceEach`. Retention:
   `ExpireKeepsExactly`, `StoredAfterExpiry`, `SummaryOutlivesIff`, `CleanupKeepsLiveSummaries`,
   `RecalculationAfterCleanupIff`.
8. **Algorithms.** The overservice join equals its nested-loop reference and ignores the
   supplier filter; the binary search over a pruned chain; capped backoff over all of int64;
   printing and parsing of amounts.

## Where code and documentation part

The model follows the code. Each of these is stated as an exact condition or with a concrete
input.

- "Backfill is safe to re-run" (line 298 of the repository's README) holds for the event
  tables. `ReportBlock` adds a repeated block's amounts once more until the recalculation:
  `AccumulationExactIff`, `Repair`.
- Two reporters that overlap on one row lose the first write, although both blocks are
  stored: `OverlapExactIff`. A recalculation that overlaps with a report loses the block for
  good: `StaleRewriteExactIff`. docs/gap-recovery.md lets live and backfill run concurrently.
- A reimbursement for a service without any settlement so far is missing from the
  incremental service row: `ServiceRowExactIff`.
- Summaries outlive raw rows, and a recalculation after a cleanup shrinks them:
  `RecalculationAfterCleanupIff`.
- The comment of `NextDelay` promises min(base * 2^attempt, max). It holds for every attempt
  under the condition of `CappedForeverIff`; attempt 0 returns an oversized base uncapped, and
  a product beyond int64 turns negative (`DoubledAround`).
- A date given to `--to` is meant to include the whole day. The search never looks at its
  upper end, so the newest block is dropped when it is on that day: `DateSelectsDayIff`.
- `formatPOKT` prints the smallest int64 with two minus signs: `POKTReadsBackIff`.
- A row for the empty service name counts the suppliers of all services, because an empty
  argument means "all" to `CountActiveSuppliers`: `EmptyServiceCountIff`, and
  `EmptyNameCountsTwo` for an input.
- docs/gap-recovery.md says that a restart resumes after the last processed height. When
  retention has expired that block, the database counts as fresh and nothing is resumed
  (`CleanupKeepsProgressIff`). A hole that an aborted backfill left below a live block is not
  revisited unless asked for (`HoleIsSkippedIff`). Blocks between the node's reported height
  and the first live block are brought by nobody (`RestartCoversIff`).
- docs/architecture.md counts three attempts for a rate-limited message; there are three
  retries, so up to four posts: `SendWithRetry`.

## Model

| member | source | states |
|---|---|---|
| Periods.StartIsInterval | processor/reporter.go:43-62 | hour and day starts are aligned and name exactly the timestamps of their half-open interval |
| Periods.PeriodInsideDays | processor/reporter.go:345-355 | an hour or day that starts inside the expanded whole-day range also ends inside it |
| Periods.DaysCover | processor/reporter.go:345-355 | the period start of any timestamp in the expanded range lies in that range |
| Periods.DayRangeCovers | processor/reporter.go:345-355 | the expanded range contains every timestamp between its two ends |
| Seqs.GroupBy | processor/reporter.go:118-134 | the grouping loops: the keys are those that occur, and each group is the subsequence of the elements with its key, in order |
| Aggregation.AddSettlement | processor/reporter.go:83-110 | one turn of the settlement loop adds the row's own contribution, by event type and overservice flag |
| Aggregation.AggregateBlock | processor/reporter.go:80-116 | three loops over mutable sums yield the total of the three lists, whose columns are counts and sums over the rows of the right types |
| Aggregation.SettlementTallies | processor/reporter.go:83-110 | column by column: each claim counter is the number of rows of its own type; claimed amounts, relays and units add up over settled and expired rows; the effective amount is the claimed one less what overserviced settled rows did not burn |
| Aggregation.TotalTallies | processor/reporter.go:80-116 | the same for a whole aggregate, with the number of overservice events and the reimbursed amounts |
| Aggregation.EveryClaimCounted | processor/reporter.go:83-110 | every settlement row counts as exactly one of settled, expired, slashed and discarded |
| Aggregation.OverserviceSum | processor/reporter.go:111 | overservice events count, and contribute nothing else |
| Aggregation.ReimbursementSum | processor/reporter.go:112-114 | reimbursements contribute to the reimbursement column alone |
| Aggregation.SumConcat | processor/reporter.go:80-116 | aggregation is additive over concatenation |
| Aggregation.SumPermutation | processor/reporter.go:80-116 | aggregation does not depend on the order of the events |
| Aggregation.SumSplit | processor/reporter.go:80-116 | two filters that split a third split its sum |
| Aggregation.TotalAppend | processor/reporter.go:80-116 | the totals of two batches of events add up to the total of both |
| Aggregation.SelectionsAppend | processor/reporter.go:345-410 | selecting a period or a service distributes over appended events |
| Aggregation.PeriodOfPermutation | processor/reporter.go:345-616 | a period's totals and suppliers depend on which events are stored, not on their order |
| Tables.InsertAllDistinct | store/schema.sql:39-79 | INSERT OR IGNORE keeps the UNIQUE columns unique |
| Tables.FindInsertAll | store/sqlite.go:130-263 | first write wins: a stored key keeps its row, a new key gets the first row offered for it |
| Tables.FirstKeyIsThere | store/sqlite.go:130-263 | an offered key is in the table afterwards, ignored or not |
| Tables.AllKeptIffFresh | store/sqlite.go:130-263 | nothing is ignored if and only if the offered keys are new to the table and pairwise different |
| Tables.SameAnswersSameRows | store/schema.sql:39-79 | two tables that answer every key alike hold the same rows |
| Database.InsertSettlementConsistent | store/sqlite.go:191-214 | storing one settlement with its rewards keeps all schema constraints |
| Database.InsertBlockConsistent | store/sqlite.go:135-263 | a block transaction keeps unique keys, growing ids and rewards that reference a settlement, and touches no summary |
| Database.SettlementsAsTable | store/sqlite.go:190-214 | seen without row ids, the settlements table is a plain keyed table |
| Database.InsertBlockAppends | store/sqlite.go:135-263 | a transaction appends exactly the rows that are not ignored |
| Database.FreshBlockAddsAll | store/sqlite.go:135-263 | a block with new, distinct keys is appended in full |
| Database.InsertSettlementRewards | store/sqlite.go:203-213 | a newly stored settlement owns its rewards, one per address; all others keep theirs |
| Database.StoredAfterInsert | store/sqlite.go:190-214 | after any list of inserts, a key holds the settlement and the rewards of its first successful insertion |
| Database.StoredAfterBlock | store/sqlite.go:135-263 | the same for a whole block transaction |
| Store.SQLiteStore.Open | store/sqlite.go:44-90 | a new store is empty and remembers its retention |
| Store.SQLiteStore.ExecSettlement | store/sqlite.go:191-214 | one settlement: ignored with its rewards, or stored with them under a new id |
| Store.SQLiteStore.InsertSettlementRows | store/sqlite.go:190-214 | the settlement loop inserts the rows in order under the block's timestamp |
| Store.SQLiteStore.InsertOverserviceRows | store/sqlite.go:216-226 | the overservice loop inserts with first write wins |
| Store.SQLiteStore.InsertReimbursementRows | store/sqlite.go:228-239 | the reimbursement loop inserts with first write wins |
| Store.SQLiteStore.InsertBlockEvents | store/sqlite.go:135-263 | the whole new database after the transaction, duplicates ignored |
| Store.SQLiteStore.LastProcessedHeight | store/sqlite.go:267-278 | the largest processed height, 0 when there is none |
| Store.SQLiteStore.UpsertSummary | store/sqlite.go:288-425 | an upsert replaces one summary row and no other |
| Store.SQLiteStore.ReadSummary | store/sqlite.go:556-692 | reading an absent summary yields the zero row |
| Store.SQLiteStore.DistinctServiceIDs | store/sqlite.go:694-720 | the service ids that occur in settlements |
| Store.SQLiteStore.CountActiveSuppliers | store/sqlite.go:722-748 | the number of distinct suppliers of the period, of one service or of all when it is empty |
| Store.SQLiteStore.QuerySettlementsForPeriod | store/sqlite.go:752-800 | exactly the settlements of the half-open range |
| Store.SQLiteStore.QueryOverserviceEventsForPeriod | store/sqlite.go:802-840 | exactly the overservice events of the half-open range |
| Store.SQLiteStore.QueryReimbursementEventsForPeriod | store/sqlite.go:842-880 | exactly the reimbursements of the half-open range |
| Store.SQLiteStore.DeleteEventsBefore | store/sqlite.go:460-493 | the event deletes keep exactly the newer rows and the rewards of kept settlements, and count what is gone |
| Store.SQLiteStore.DeleteProcessedBefore | store/sqlite.go:495-500 | exactly the older processed blocks are deleted and counted |
| Store.SQLiteStore.DeleteSummaries | store/sqlite.go:502-526 | the four summary deletes, each with its own cutoff and its exact count |
| Store.SQLiteStore.DeleteExpired | store/sqlite.go:454-530 | all deletes together are the 1x, 3x, 6x expiry of the database |
| Store.SQLiteStore.RunRetentionCleanup | store/sqlite.go:430-554 | nothing for retention 0; otherwise the expired database, the cutoffs and the exact row counts |
| Store.ExpireConsistent | store/sqlite.go:460-475 | cleanup keeps the schema constraints; no reward row remains without its settlement |
| Store.RewardSurvivesIff | store/sqlite.go:456-463 | a reward row survives a cleanup if and only if its settlement does |
| Store.ExpireKeepsExactly | store/sqlite.go:435-526 | table by table, exactly what a cleanup keeps: raw rows of 1x, hourly summaries of 3x and daily summaries of 6x the retention, and the rewards of kept settlements |
| Store.StoredAfterExpiry | store/sqlite.go:456-468 | a kept settlement keeps its rewards, an expired one is gone with them |
| Store.OutdatedByTable | store/sqlite.go:502-526 | each of the four deleted counts is that of its own table and cutoff |
| Store.SummaryOutlivesIff | store/sqlite.go:440-443 | no surviving event outlives its summary, at any time, if and only if retention is at least 30 minutes (hours) or 4h48m (days) |
| Store.CleanupKeepsLiveSummaries | store/sqlite.go:430-554 | with such retention a cleanup never deletes the summary of a period that still holds a raw row |
| Retention.SurvivingRowEvents | store/sqlite.go:430-493 | after a cleanup a row's raw events are those of the rest of its period |
| Retention.RecalculationAfterCleanupIff | processor/reporter.go:338-616 | recalculating a period after a cleanup keeps an exact row's totals if and only if the expired events contribute nothing, and its supplier count if and only if no supplier was active in the expired part alone |
| Reporting.RowEventsAre | processor/reporter.go:139-335 | the events a row is about: those of its hour or day, and of its service in every list that has one |
| Reporting.ExactTallies | processor/reporter.go:83-116 | what an exact row says, column by column: counts and sums over the rows of its period and service, and their distinct suppliers |
| Reporting.CountForIsExact | store/sqlite.go:722-748 | the stored supplier count is the row's own, provided the service name is not empty |
| Reporting.EmptyServiceCountIff | store/sqlite.go:722-748 | the row of the empty service name has the right supplier count if and only if no other service had another supplier |
| Delivery.EmptyNameStaysUnknown | processor/reporter.go:150-155 | without a restart the empty service name never becomes known and has no row |
| Materialization.EmptyNameCountsTwo | processor/reporter.go:25-41 | an input where it has not: two claims, one without a service, a restart, one more block; the row shows two suppliers instead of one |
| Reporting.Reporter.constructor | processor/reporter.go:25-41 | a new reporter knows the services of the stored settlements |
| Reporting.Reporter.LearnServices | processor/reporter.go:150-155 | the named services of the settlements become known, reimbursements do not count |
| Reporting.Reporter.AccumulateRow | processor/reporter.go:207-246 | read, accumulate, write: one more row holds its old totals plus the block's share, and a fresh supplier count |
| Reporting.Reporter.AccumulateServices | processor/reporter.go:161-205 | the loop over the known services, in any order, updates exactly their rows |
| Reporting.Reporter.ReportBlock | processor/reporter.go:139-335 | exactly the four groups of rows of the block's hour and day change, and how |
| Reporting.Reporter.RebuildRow | processor/reporter.go:420-495 | one row is overwritten by the aggregate of its period's raw events |
| Reporting.Reporter.RebuildStart | processor/reporter.go:416-495 | the body of the loop over distinct hours or days rewrites the rows of that period |
| Reporting.Reporter.MakeGroups | processor/reporter.go:373-411 | the grouping maps of the range |
| Reporting.Reporter.RebuildPeriods | processor/reporter.go:373-495 | grouping and the loop over distinct hours, or days, rewrite exactly the rows of the periods that occur |
| Reporting.Reporter.RecalculateSummariesForRange | processor/reporter.go:345-616 | the whole new database and the learned services, for the expanded range |
| Reporting.StartInRange | processor/reporter.go:380-416 | a period that occurs in the expanded range lies in it completely |
| Reporting.GroupedByStart | processor/reporter.go:345-616 | the groups of the expanded range hold all events of their period, not only those of the requested range |
| Reporting.SettlementGroup | processor/reporter.go:382-389 | grouping by period and service after the range query is filtering by period, then by service |
| Recalculation.StartsAre | processor/reporter.go:380-416 | the distinct hours or days are exactly the aligned ones of the range that hold an event |
| Recalculation.RebuiltKeysAre | processor/reporter.go:413-606 | which summary rows a recalculation writes |
| Recalculation.FullReplace | processor/reporter.go:338-616 | whatever the tables held: touched rows equal the aggregate of all raw events of their period, all other rows and all event tables are unchanged |
| Recalculation.RecalculationFixesPoint | processor/reporter.go:338-616 | where the network rows were exact, a recalculation changes none of them |
| Materialization.StampKeepsTotals | store/sqlite.go:187-239 | storing rows under the block's timestamp changes no total |
| Materialization.EventsOfMoment | processor/reporter.go:139-335 | rows of one moment belong to a period altogether or not at all |
| Materialization.RowAfterDelivery | processor/reporter.go:139-335 | what one delivered block does to any summary row and to the raw events behind it |
| Materialization.TotalOfAdded | processor/reporter.go:139-335 | a block's stored rows have its full total if and only if nothing of it was ignored |
| Materialization.AccumulationExactIff | processor/reporter.go:207-335 | from exact network rows, a block leaves them exact if and only if nothing of it was ignored |
| Materialization.IncrementalNetwork | processor/reporter.go:139-335 | incremental equals recompute: after any run of fresh blocks and restarts every network row is the aggregate of its period |
| Materialization.RunKnowsAllNamed | processor/reporter.go:150-155 | every named service of a stored settlement is known |
| Materialization.RestartIsTransparent | processor/reporter.go:25-41 | a restarted reporter knows the same named services as the one it replaces |
| Materialization.SupplierCountsExact | processor/reporter.go:177-180 | supplier counts are exact after every run, also when blocks repeat |
| Materialization.LedgerStep | processor/reporter.go:150-205 | one block: what a service row gains or misses |
| Materialization.ServiceLedger | processor/reporter.go:150-205 | a service row plus the reimbursements it missed is the aggregate of its raw events |
| Materialization.MissedIff | processor/reporter.go:150-205 | something was missed if and only if a positive reimbursement came before its service was known |
| Materialization.ServiceRowExactIff | processor/reporter.go:150-205 | a named service's row is exact if and only if no positive reimbursement of it came before it was known |
| Materialization.OverlapExactIff | processor/reporter.go:210-246 | two overlapping read-accumulate-writes of fresh blocks leave the network row exact if and only if the overwritten block contributed nothing |
| Recalculation.StaleRewriteExactIff | processor/reporter.go:357-453 | a fresh block stored and reported between a recalculation's queries and its upsert: the network row is exact afterwards if and only if the block contributed nothing |
| Delivery.StoredSettlement | store/sqlite.go:135-263 | closed form: a settlement key holds what its height offers first, if that height was delivered, whatever the schedule |
| Delivery.StoredOverservice | store/sqlite.go:216-226 | the same for overservice events |
| Delivery.StoredReimbursement | store/sqlite.go:228-239 | the same for reimbursements |
| Delivery.ProcessedHeights | store/sqlite.go:241-247 | processed_blocks holds exactly the delivered heights with their times and counts |
| Delivery.FirstSourceStays | store/sqlite.go:241-247 | the source of a processed block is the path that brought it first |
| Delivery.Confluence | store/sqlite.go:135-263 | schedules that cover the same heights leave equal tables, up to row ids and source |
| RewardOrder.ConfluenceUpToOrder | processor/converter.go:66-81 | with the reward map visited in another order by each delivery, schedules over the same heights store the same settlements with the same rewards up to order |
| Delivery.SameTablesSameEvents | store/sqlite.go:135-263 | equal tables hold the same events as multisets |
| Delivery.OnceEachIsFresh | store/schema.sql:39-79 | distinct heights with distinct keys inside each block make a fresh run |
| Delivery.RowsLeaveEvents | store/sqlite.go:135-263 | a block with rows leaves an event in its period, even when all of it is ignored |
| Delivery.NoEventsNoCounts | processor/reporter.go:139-335 | even with repeats, a period without events has no counts, for the network and for every named service |
| Delivery.RepairedIsExact | processor/reporter.go:338-616 | after any deliveries, a recalculation that covers them makes every network row and every known named service's row exact |
| Delivery.RepairedUnknownIff | processor/reporter.go:420-453 | for a named service without any settlement nothing is written: its row is exact if and only if it has no reimbursement either |
| Delivery.Repair | processor/reporter.go:338-616 | after any repeated deliveries, recalculation gives the network summaries of delivering each height once |
| Rollup.RangeSplits | processor/reporter.go:80-116 | the total of a time range is the sum of its parts |
| Rollup.DayRowIsSumOfHourRows | processor/reporter.go:497-606 | an exact day row is the sum of its 24 hour rows in every additive column |
| Rollup.NetworkDayIsSumOfHours | processor/reporter.go:293-335 | so it is for the network wherever its rows are exact |
| Rollup.NetworkIsSumOfServices | processor/reporter.go:161-246 | services add up to the network in every settlement and reimbursement column |
| Rollup.NetworkRowIsSumOfServiceRows | processor/reporter.go:413-495 | a network row is the sum of its exact service rows, except for the overservice count |
| Rollup.RecalculatedDayIsSumOfHours | processor/reporter.go:338-616 | after recalculating any repeated deliveries, every day row, of the network and of every named service, is the sum of its hour rows |
| Rollup.RecalculatedNetworkIsSumOfServices | processor/reporter.go:338-616 | after recalculating any tables, a network row is the sum of its services' rows |
| Rollup.SupplierCountBounds | store/sqlite.go:722-748 | distinct suppliers: service at most network, network at most the sum over services |
| Decimal.ParseOfFormat | processor/converter.go:16-27 | parsing a printed integer gives it back if and only if it fits into 64 bits |
| Decimal.ParseOfNumeral | processor/converter.go:16-27 | an optional sign and decimal digits, leading zeros included, parse to their value within 64 bits |
| Decimal.ParsedIsNumeral | processor/converter.go:16-27 | nothing else parses |
| Decimal.WrapIsCongruent | processor/converter.go:57-59 | converting an unsigned count to int64 loses multiples of 2^64 and nothing else |
| Coins.ParseOfCoin | processor/converter.go:14-27 | every int64 amount survives being written as a coin; larger ones read as 0 |
| Coins.ParseOfBareAmount | processor/converter.go:14-27 | the same without the unit |
| Converter.ConvertSettledEventWithRewards | processor/converter.go:66-81 | the row and the parsed reward list of one settled claim |
| Converter.BuildOverserviceMap | processor/converter.go:177-194 | the first pass: the map answers every key with the last overservice event for it |
| Converter.CorrelateRow | processor/converter.go:202-213 | the body of the second pass is the nested-loop reference on one row |
| Converter.CorrelateOverservice | processor/converter.go:169-217 | in place, every settled row takes the last overservice event of its supplier and application; the count is the number of such rows |
| Converter.NewSupplierFilter | processor/filter.go:15-43 | an empty list admits every address, any other list its own |
| Converter.LastOverserviceOfFiltered | processor/processor.go:84-142 | filtering by supplier does not change the last event of a monitored supplier |
| Converter.JoinIgnoresFilter | processor/processor.go:140-142 | joining against the unfiltered events, as the processor does, equals joining against the filtered ones |
| Converter.JoinChangesOnlyOverservice | processor/converter.go:206-213 | the join changes the overservice columns of settled rows and nothing else |
| Converter.LastOverserviceIs | processor/converter.go:177-194 | which event the map answers with: the last overservice event of the block for that supplier and application |
| Converter.JoinShows | processor/converter.go:196-217 | the overservice columns after the join: burn and difference of that last event for settled rows that have one, blank for all others |
| Converter.ConvertersRecord | processor/converter.go:43-167 | every converter, column by column from its event, and the reward list entry by entry |
| Converter.ConvertRecords | processor/processor.go:93-138 | nothing is skipped or mixed up: the i-th row of each list records the i-th event of its kind, and reward list i is that of claim i |
| Converter.ConvertedRows | processor/processor.go:100-138 | every converted row carries its block's height and time and a monitored supplier |
| Processing.Processor.FilterEvents | processor/processor.go:84-91 | exactly the events of monitored suppliers, in order |
| Processing.Processor.ConvertEvents | processor/processor.go:93-138 | the type switch builds the four lists, each row recording its own event |
| Processing.Processor.ProcessBlock | processor/processor.go:80-202 | store and reporter after filter, convert, correlate, insert and report |
| Processing.PipelineRows | processor/processor.go:80-161 | the rows that reach the store are labelled with their block and joined as if only with filtered events |
| Processing.PipelineRecords | processor/processor.go:82-161 | what reaches the store for a block: its header, and one row per event of a monitored supplier, list by list, in order and column by column, with overservice columns and rewards |
| Processing.ProcessingIsArrival | processor/processor.go:80-202 | processing a height, live or not, is an arrival of the same chain |
| Archive.SettlementsAreTheChains | store/sqlite.go:135-214 | after any deliveries by any path, a settlement key holds the record of the first claim of a monitored supplier that asks for it, with its overservice columns and its own rewards, and nothing when there is none |
| Archive.OverservicesAreTheChains | store/sqlite.go:216-226 | the same for overservice events |
| Archive.ReimbursementsAreTheChains | store/sqlite.go:228-239 | the same for reimbursements |
| Archive.ProcessedAreTheChains | store/sqlite.go:241-247 | processed_blocks: the delivered heights with their times, their numbers of filtered events, and the path that was first |
| Archive.TablesHoldTheChain | store/sqlite.go:135-263 | all four tables together: exactly the monitored events of the delivered heights |
| Backfilling.FetchableIff | cmd/backfiller.go:175-217 | a height is fetched if and only if one of its eleven attempts succeeds |
| Backfilling.FirstSuccessCounts | cmd/backfiller.go:170-217 | what is fetched is what the first successful attempt brings |
| Backfilling.FirstFailureIs | cmd/backfiller.go:327-350 | a gap backfill gets as far as the first height that none of its attempts can fetch |
| Backfilling.StartReachesIff | cmd/backfiller.go:105-128 | which heights the chosen start reaches, for a database with blocks and for a fresh one |
| Backfilling.HoleIsSkippedIff | cmd/backfiller.go:81-217 | a backfill stops at a height, a live block beyond it is processed, the process restarts: the height is missing, and the next start reaches it if and only if it is asked to begin there or earlier |
| Backfilling.Backfiller.FetchBlock | cmd/backfiller.go:170-217 | the first success of the retry loop, or nothing |
| Backfilling.Backfiller.BackfillHeight | cmd/backfiller.go:327-389 | one height: fetched and processed, or given up without a trace |
| Backfilling.Backfiller.BackfillRange | cmd/backfiller.go:294-420 | heights in order up to the first failure; summaries are recalculated only when all are done |
| Backfilling.Backfiller.ChooseStart | cmd/backfiller.go:105-128 | the switch over database and request |
| Backfilling.Backfiller.RunIfNeeded | cmd/backfiller.go:69-280 | start, order, cancellation, failure and final recalculation of the start-up backfill |
| Backfilling.CleanupKeepsProgressIff | cmd/backfiller.go:81-115 | a cleanup keeps the newest processed height if and only if that block is not expired; otherwise the next start resumes nothing |
| Backfilling.RangeProcessed | cmd/backfiller.go:161-253 | a finished range adds exactly its heights to the processed ones |
| Backfilling.RangeIsIngested | cmd/backfiller.go:161-253 | a backfilled range is one arrival per height: whatever is proved of schedules of arrivals holds of it |
| Backfilling.RangeTables | cmd/backfiller.go:161-253 | so its tables are those of any schedule over the same heights, whatever process came before |
| Backfilling.RangeHolds | cmd/backfiller.go:327-389 | every monitored event of the fetched blocks is in the tables |
| Backfilling.BackfilledSource | cmd/backfiller.go:371-389 | a newly backfilled gap block counts as live if and only if it is younger than the threshold and that is on |
| Backfilling.BackfillRepairs | cmd/backfiller.go:161-262 | a completed backfill around all deliveries leaves the network summaries of delivering each height once |
| Backfilling.BackfillHeals | cmd/backfiller.go:161-262 | after a completed backfill every row of the backfilled blocks' periods shows exactly the raw events |
| Collecting.Collector.FlushBuffer | processor/collector.go:129-146 | one call with everything buffered; the buffer is reset even when it fails |
| Collecting.Collector.Run | processor/collector.go:56-127 | the collector after any sequence of select choices |
| Collecting.StopsWhen | processor/collector.go:71-127 | what ends the loop: cancelation, a closed channel, or a flush that fails while running |
| Collecting.TurnAccounts | processor/collector.go:71-126 | one turn keeps the account of received, buffered, processed and lost events |
| Collecting.EventsConserved | processor/collector.go:56-146 | events of successful calls in order, then buffered, then lost, are the events received; each call holds one height |
| Collecting.NothingLost | processor/collector.go:56-146 | without processing errors nothing is lost |
| Collecting.LossIsBounded | processor/collector.go:98-103 | a failed flush loses at most the buffered batch and the block just read |
| Subscribing.Subscriber.HandleBlock | subscriber/subscriber.go:243-289 | gap against the last height, memory, callbacks and emission for one block |
| Subscribing.Subscriber.ReceiveLoop | subscriber/subscriber.go:206-310 | one connection, read up to the first stimulus that ends it |
| Subscribing.Subscriber.Run | subscriber/subscriber.go:165-190 | connection after connection: the last seen height survives reconnects |
| Subscribing.ReadPartIs | subscriber/subscriber.go:222-310 | one connection is read up to its first heartbeat timeout, closed channel or cancelation |
| Subscribing.ReadAllIs | subscriber/subscriber.go:168-190 | connections are read one after the other until one is canceled |
| Subscribing.EverythingIsRelayed | subscriber/subscriber.go:243-289 | one batch for every block with events, in order, with its height, its events and its header time or the wall clock; one height for every block |
| Subscribing.ObserveCovers | subscriber/subscriber.go:263-283 | one block keeps every height between the first and any seen one covered |
| Subscribing.GapCoverage | subscriber/subscriber.go:263-283 | for any positive heights, also repeated or stepping back: every height between the first and any seen one is seen or in a reported gap |
| Subscribing.GapsAreSkipped | subscriber/subscriber.go:263-283 | the reported gaps are exactly those between consecutive seen heights |
| Subscribing.GapsPartition | subscriber/subscriber.go:263-283 | with increasing heights, gaps are disjoint from each other and from the seen heights |
| Backoff.DoubledIsCapped | subscriber/subscriber.go:409-417 | within half of int64, the doubling loop yields min(base * 2^n, max) without overflow |
| Backoff.CentreIsCappedIff | subscriber/subscriber.go:401-417 | the documented formula holds if and only if it is a later attempt or the base is within the cap |
| Backoff.DoubledAround | subscriber/subscriber.go:409-417 | below the first attempt that exceeds the cap nothing is capped; at it the delay is the cap, or wraps around to a negative one |
| Backoff.CappedForeverIff | subscriber/subscriber.go:401-417 | over all of int64: the documented formula holds for every attempt if and only if the base is within the cap and some power-of-two multiple of it lies between the cap and the largest int64 |
| Backoff.CentreInRange | subscriber/subscriber.go:409-417 | within half of int64 the centre is positive and the jitter cannot overflow |
| Backoff.JitterFitsIff | subscriber/subscriber.go:419-422 | every draw stays within a fifth of the centre if and only if centre and jitter together fit into 64 bits |
| Backoff.NextDelay | subscriber/subscriber.go:409-425 | the delay is the centre moved by the draw, in int64; for centres up to half of int64 it is within a fifth of the centre |
| Coverage.ReceiveKeeps | subscriber/subscriber.go:243-333 | a live block keeps the invariant: subscriber, gaps, pipe and store |
| Coverage.TakeKeeps | processor/collector.go:84-108 | so does a batch read by the collector |
| Coverage.TimeoutKeeps | processor/collector.go:119-126 | so does a safety flush |
| Coverage.StoreKeeps | store/sqlite.go:135-263 | one stored height: the tables follow the log of arrivals |
| Coverage.FillKeeps | cmd/backfiller.go:327-389 | a gap height fetched and stored keeps the invariant |
| Coverage.StartupKeeps | cmd/backfiller.go:161-217 | so does a height of the start-up backfill |
| Coverage.WorkKeeps | processor/reporter.go:139-616 | so does every single statement of a report or of a recalculation: it reaches the summaries alone |
| Coverage.RunKeeps | cmd/monitor.go:89-126 | every state of every interleaving of subscriber, collector, gap backfills, start-up backfill and their reports and recalculations satisfies the invariant |
| Coverage.EveryHeightProcessedOnce | subscriber/subscriber.go:263-289 | end to end: once quiet, every height with events from the first to the last seen is processed, by exactly one path |
| Coverage.RestartCoversIff | cmd/backfiller.go:81-128 | across a restart: once quiet, every height with events from the start of the start-up backfill to the last seen one is reached if and only if no height with events lies between the range of the start-up backfill and the first live block |
| Coverage.TablesIgnoreInterleaving | store/sqlite.go:135-263 | at every moment the tables are those of any schedule over the processed heights |
| Coverage.TablesHoldProcessed | processor/processor.go:82-161 | nothing is lost or made up: in every interleaving, at every moment, the tables hold exactly the monitored events of the processed heights |
| Coverage.ChannelBounded | subscriber/subscriber.go:33-34 | at most eight blocks wait for the collector |
| Coverage.RebuildsSpanBackfills | cmd/backfiller.go:359-408 | in every interleaving a recalculation belongs to a backfill that has brought all its heights, and spans the times of its blocks from the first to the last |
| Uninterrupted.UninterruptedReport | processor/reporter.go:139-335 | performed statement by statement without interruption, its rows in any order, a report reaches the state of the atomic one |
| Uninterrupted.UninterruptedRebuild | processor/reporter.go:338-616 | so does a recalculation |
| Ledger.StepOk | processor/reporter.go:139-616 | every statement of a report or of a recalculation keeps the shape of the jobs |
| Ledger.StepMoves | processor/reporter.go:139-616 | a statement moves what a row lacks by exactly what it overwrites |
| Ledger.LedgerHolds | processor/reporter.go:139-616 | in every interleaving of statements, for every row: shown, plus stored but unwritten, plus lacking at the start, plus overwritten since, is the aggregate of the raw events |
| Ledger.TotalsExactIff | processor/reporter.go:139-616 | a row that started right and that every report has written shows the aggregate if and only if what was overwritten adds up to nothing |
| Ledger.ReportOverwrites | processor/reporter.go:207-246 | a report overwrites what others changed in the row between its read and its write |
| Ledger.UndisturbedReport | processor/reporter.go:207-246 | it overwrites nothing when nobody else writes the row in between |
| Ledger.RewriteLeaves | processor/reporter.go:357-495 | a recalculation forgets every earlier deficit; its row is exact right after it if and only if the events stored since its queries contribute nothing, and blocks stored but not yet reported are then added twice |
| Ledger.CountsNeverTooHigh | store/sqlite.go:722-748 | in every interleaving a row shows at most the suppliers there are |
| Serialised.StepStaysCurrent | processor/reporter.go:139-616 | while calls of the reporter exclude each other, a fresh, error-free statement leaves no deficit |
| Serialised.ExclusiveRowsExact | processor/reporter.go:139-616 | in runs whose calls exclude each other, of fresh blocks and without errors, every network row that all reports of its period have written is exact |
| Exactness.MonitorLedger | cmd/cmd_monitor.go:156-159 | the ledger for the whole monitor, with no hypothesis on the interleaving |
| Exactness.NetworkRowsExactIfExclusive | cmd/cmd_monitor.go:156-159 | if calls of ProcessBlock and of the recalculation exclude each other, none fails, no height comes twice and rows are distinct, written network rows are exact in every interleaving |
| HeightResolver.FindFirstBlockAtOrAfter | cmd/height_resolver.go:78-105 | on a pruned chain in time order: an available height, only earlier blocks before it, at or after the target unless it is the unexamined upper end; for any answers, an error means an unavailable height |
| HeightResolver.GetChainBounds | cmd/height_resolver.go:45-76 | the bounds: reported, probed, or 1 |
| HeightResolver.ProbeFindsLowest | cmd/height_resolver.go:58-75 | on a node that does not report its earliest height, the probe of height 1 finds it |
| HeightResolver.ResolveFromHeight | cmd/height_resolver.go:107-128 | a height as it is, a time by the search |
| HeightResolver.ResolveToHeight | cmd/height_resolver.go:130-166 | a height as it is, a time by the search, a date as the block before the next day's first, or an error |
| HeightResolver.DateSelectsDayIff | cmd/height_resolver.go:107-166 | a date selects exactly its day's available blocks if and only if the newest block is not on that day |
| Printing.FormatWithCommas | notify/discord.go:95-109 | the loop over the characters yields groups of exactly three digits behind the first |
| Printing.EmittedIsGrouped | notify/discord.go:102-107 | the loop's rule about positions is the grouping from the right |
| Printing.GroupedLength | notify/discord.go:95-109 | one comma for every three digits behind the first group |
| Printing.CommaPositions | notify/discord.go:95-109 | counted from the right, every fourth character is a comma and nothing else is |
| Printing.CommasAreOnlySeparators | notify/discord.go:95-109 | without commas the output is the number's decimal numeral, whose value is the number |
| Printing.FormatPOKT | notify/discord.go:74-93 | sign, grouped whole part, six digits and unit, with the negation wrapping as in Go |
| Printing.POKTReadsBackIff | notify/discord.go:74-93 | reading the printed amount recovers it if and only if it is not the smallest int64 |
| Notifying.Notifier.constructor | notify/notifier.go:75-88 | an empty queue and no boundary seen |
| Notifying.Notifier.Enqueue | notify/notifier.go:159-171 | queued, or dropped and counted when 64 messages wait |
| Notifying.Notifier.SendWithRetry | notify/notifier.go:224-265 | one to four posts, another one only on a rate limit whose wait was not cut short, sent if and only if the last was accepted |
| Notifying.Notifier.SendNext | notify/notifier.go:178-187 | the oldest message is taken, sent and counted by its outcome |
| Notifying.Notifier.Drain | notify/notifier.go:202-222 | messages are sent in order until the queue is empty or the timeout is noticed |
| Notifying.Notifier.CheckHour | notify/notifier.go:310-332 | first block, same hour, or crossing with toggle and readable row |
| Notifying.Notifier.CheckDay | notify/notifier.go:334-367 | the same for days |
| Notifying.Notifier.CheckSummaryBoundary | notify/notifier.go:304-368 | hour first, then day |
| Notifying.Notifier.FindTime | notify/notifier.go:112-127 | the first timestamp that is not zero, of settlements and then of overservice events |
| Notifying.BlockTimeIs | notify/notifier.go:112-127 | that time: of the first settlement that has one, else of the first overservice event that has one, else none |
| Notifying.Notifier.NotifyBlock | notify/notifier.go:103-157 | boundary summaries before the block's embeds; slashes also go to the critical webhook |
| NotifierRuns.EnqueueConserves | notify/notifier.go:159-171 | an offer keeps the queue bound, the order and the counters |
| NotifierRuns.PostConserves | notify/notifier.go:224-265 | so does a post |
| NotifierRuns.RunConserves | notify/notifier.go:159-265 | every interleaving: at most 64 queued, first in first out, counters per type match, at most four posts per message |
| NotifierRuns.EveryOfferAccounted | notify/notifier.go:159-265 | every offered message is exactly one of dropped, sent, failed, in flight and queued |
| NotifierRuns.RunFollows | notify/notifier.go:304-368 | in every interleaving the summaries offered are the crossings of the blocks' times |
| NotifierRuns.CrossingsOnceEach | notify/notifier.go:304-368 | with times in order, crossings are strictly increasing and name every period seen except the latest |
| NotifierRuns.SummariesQueuedOnceEach | notify/notifier.go:304-368 | so each hour and each day is queued exactly once, in order, if none of its summaries is dropped |
| NotifierRuns.BoundariesOffered | notify/notifier.go:304-368 | the checks of one block offer the summary of the previous hour and that of the previous day, each if and only if it is over, wanted and readable, to the normal webhook |
| NotifierRuns.EmbedsAreOffered | notify/notifier.go:139-156 | every embed goes to the normal webhook, slashes also to the critical one if there is one, in order |
| NotifierRuns.BlockOffers | notify/notifier.go:103-157 | one block offers its summaries first, then the messages of its embeds, and nothing else |
| NotifierRuns.SummaryIsFinal | notify/notifier.go:315-331 | a summary read at a crossing is final: blocks of later periods change neither row nor raw events |

## Left out

- Four summary tables are one map keyed by kind, period and UNIQUE columns; the hourly and the daily sections of the reporter, which repeat each other, are one method with the period as parameter.
- Failing statements: the classes' store methods always succeed. In `Jobs` a report or a recalculation may be abandoned at any statement; an insert transaction does not fail in `Coverage`, while the collector's failed flushes are modelled in `Collecting`.
- Store.SQLiteStore.Open: a new database; an existing file is the `db` of a `World` in `Coverage`, and the cleanup goroutine is one call of `RunRetentionCleanup`.
- Store.SQLiteStore.InsertBlockEvents: no failing statement and no rollback.
- Store.SQLiteStore.DistinctServiceIDs: a set; the alphabetical order has no use.
- Store.SQLiteStore.QuerySettlementsForPeriod: insertion order instead of ORDER BY; `SumPermutation` shows that no result depends on it.
- Reporting.Reporter.ReportBlock: one call without errors and without other goroutines between its statements; those are in `Jobs`.
- Reporting.Reporter.RecalculateSummariesForRange: likewise.
- Materialization.OverlapExactIff: one schedule of two reports; all schedules are in `Ledger`.
- Delivery.Confluence: a claim's rewards come in one order; `ConfluenceUpToOrder` drops that.
- Converter.ConvertSettledEventWithRewards: `computeDifficulty` is floating point; the estimated relays of an event are an input, and the difficulty multiplier is not modelled.
- Processing.Processor.ProcessBlock: no insert or report errors, no metrics, and the notifier's dispatch is not part of it.
- Backfilling.Backfiller.BackfillHeight: no error of `ProcessBlock`.
- Backfilling.Backfiller.BackfillRange: no error of `ProcessBlock` or of the recalculation.
- Backfilling.Backfiller.RunIfNeeded: no client or status errors, no error of `ProcessBlock`.
- Backoff.CentreIsCappedIff: durations up to half of int64; `CappedForeverIff` has no such bound.
- The reporter's map of known services is written by several goroutines without synchronisation, which Go leaves undefined; in `Jobs` a call learns its block's services together with the insert, and the rows it writes are fixed then.
- A `ReportBlock` or recalculation writes its rows in any order in `Jobs`; the source's order is one of them.
- The queries of the start-up backfill for the last processed and the current height come before the first move of `Coverage`.
- Cleanup is not among the moves of `Coverage` and `Jobs`: there the event tables only grow.
- Timestamps are integer UTC seconds. The store compares RFC 3339 text, which orders like time only under one offset (section 5.1 of RFC 3339).
- Overflow of int64 in summary sums and in the overservice difference: mathematical integers.
- Protobuf decoding, the CometBFT clients, HTTP, JSON and YAML: their answers are parameters.
- Time strings of the height flags: a flag is already a height, a point in time, or a date. The probe's error text is a `Pruned` answer.
- A batch that is dropped because the context ends while the channel is full, and the collector's timer as a clock: a timeout can fire at any time.
- In `Coverage`, live heights increase and requests succeed; that backfills, reports and the sender eventually finish is assumed, not proved.
- Collecting.Collector.Run: the choices of the select statement are an input list; a ghost field records what a failed flush loses.
- Subscribing.Subscriber.Run: likewise; a header query that fails because the context ended is a `ContextDone`.
- Prometheus metrics, logging, block summaries, the ops notifier, Discord embed layout and its contents, the supplier breakdown, `parseRetryAfter`.
- `NotifyBlock` calls are sequential, although the processor starts each in its own goroutine; the embeds of a block are an input.
- The sender loop and its stop are moves in `NotifierRuns`; the class has its turns (`SendNext`, `Drain`).
- ON DELETE CASCADE: the cleanup deletes rewards first, so it finds nothing to do (`ExpireConsistent`).
- Dynamic query filters (store/query.go), cmd/cmd_backfill.go (a second copy of the backfill loop), configuration and the other commands.
