/** Coverage and the ledger together: which runs of the monitor keep the network rows exact. */
module Exactness {
  import opened Seqs
  import opened Model
  import opened Periods
  import opened Aggregation
  import opened Database
  import opened Reporting
  import opened Materialization
  import opened Delivery
  import opened Processing
  import opened Subscribing
  import opened Jobs
  import opened Ledger
  import opened Serialised
  import opened Coverage

  // 1. The ledger of the whole monitor, with no hypothesis on the interleaving.

  /** What a move does to the store and the reporter: nothing, or one statement of one of their jobs. */
  function StatementOf(w: World, s: System, move: Move): (statement: Option<Statement>)
    requires Enabled(w, s, move) && s.collector.status.Running?
    ensures statement.Some? ==> CanDo(s.core, statement.value)
  {
    match move
    case Receive(_) => None
    case Reconnect => None
    case Fill(i, isLive) =>
      var h := s.tasks[i].next;
      Some(StoreBlock(GapThread(i), BlockOf(w.filter, h, w.decoded(h).time, w.decoded(h).events, isLive)))
    case FillStartup =>
      var h := s.startup.next;
      Some(StoreBlock(StartupThread, BlockOf(w.filter, h, w.decoded(h).time, w.decoded(h).events, false)))
    case Complete(i) =>
      Some(StartRebuild(GapThread(i), w.decoded(s.tasks[i].gap.from).time, w.decoded(s.tasks[i].gap.to).time))
    case CompleteStartup =>
      Some(StartRebuild(StartupThread, w.decoded(s.startup.gap.from).time, w.decoded(s.startup.gap.to).time))
    case Work(step) => Some(step)
    case _ =>
      var c' := Do(w, s, move).core;
      if |c'.reports| > |s.core.reports| then Some(StoreBlock(CollectorThread,
          c'.reports[|s.core.reports|].block)) else None
  }

  lemma FlushIsStatement(w: World, s: System, s': System)
    requires Flushes(w, s, s') && !Busy(s.core, CollectorThread)
    ensures |s'.core.reports| == |s.core.reports| + 1
    ensures s'.core == Perform(s.core, StoreBlock(CollectorThread, s'.core.reports[|s.core.reports|].block))
  {
    hide Waiting, BlockOf, InsertBlock, ReportedKeys, NamedServices, Busy;
  }

  lemma CollectIsStatement(w: World, s: System, move: Move)
    requires PipeOk(w, s) && Enabled(w, s, move) && (move.Take? || move.Timeout?)
    ensures Do(w, s, move).core ==
      match StatementOf(w, s, move) case None => s.core case Some(statement) => Perform(s.core, statement)
  {
    assert s.collector.status.Running? && !Busy(s.core, CollectorThread);
    hide PipeOk, Do, Flushes, Perform, CanDo, Busy;
    if move.Take? {
      TakeShape(w, s);
      if s.collector.height != 0 {
        FlushIsStatement(w, s, Do(w, s, move));
      }
    } else {
      TimeoutShape(w, s);
      if |s.collector.events| > 0 {
        FlushIsStatement(w, s, Do(w, s, move));
      }
    }
  }

  lemma MoveIsStatement(w: World, s: System, move: Move)
    requires Inv(w, s) && Enabled(w, s, move)
    ensures s.collector.status.Running?
    ensures Do(w, s, move).core ==
      match StatementOf(w, s, move) case None => s.core case Some(statement) => Perform(s.core, statement)
  {
    assert PipeOk(w, s) && s.collector.status.Running?;
    if move.Take? || move.Timeout? {
      hide Inv, PipeOk, Do, StatementOf;
      CollectIsStatement(w, s, move);
    } else {
      hide Inv, PipeOk, Collect, Observe, BlockOf, Inserted, Busy;
    }
  }

  /** Everything overwritten in a row during the first `i` moves. */
  function MonitorDrift(w: World, states: seq<System>, moves: seq<Move>, i: nat, k: SummaryKey): Contribution
    requires i <= |moves| < |states|
    requires forall x :: 0 <= x < |moves| ==> Enabled(w, states[x], moves[x]) && states[x].collector.status.Running?
  {
    if i == 0 then ZERO
    else Plus(MonitorDrift(w, states, moves, i - 1, k),
              match StatementOf(w, states[i - 1], moves[i - 1])
              case None => ZERO
              case Some(statement) => Overwritten(states[i - 1].core, statement, k))
  }

  lemma MoveMovesDeficit(w: World, s: System, move: Move, k: SummaryKey)
    requires Inv(w, s) && CoreOk(s.core) && Enabled(w, s, move) && Aligned(k.period, k.start)
    ensures s.collector.status.Running? && CoreOk(Do(w, s, move).core)
    ensures Deficit(Do(w, s, move).core, k) == Plus(Deficit(s.core, k),
      match StatementOf(w, s, move) case None => ZERO case Some(statement) => Overwritten(s.core, statement, k))
  {
    hide Inv, CoreOk, Enabled, Do, StatementOf, Deficit, Overwritten, Plus, Perform, CanDo;
    MoveIsStatement(w, s, move);
    PlusLaws(Deficit(s.core, k), ZERO, ZERO);
    match StatementOf(w, s, move)
    case None =>
    case Some(statement) =>
      StepOk(s.core, statement);
      StepMoves(s.core, statement, k);
  }

  lemma NoJobsOk(c: Core)
    requires c.reports == [] && c.rebuilds == []
    ensures CoreOk(c)
  {
  }

  lemma {:induction false} MonitorDeficit(w: World, states: seq<System>, moves: seq<Move>, i: nat, k: SummaryKey)
    requires IsRun(w, states, moves) && i < |states| && Aligned(k.period, k.start)
    ensures CoreOk(states[i].core)
    ensures Deficit(states[i].core, k) == Plus(Deficit(states[0].core, k), MonitorDrift(w, states, moves, i, k))
  {
    hide Inv, CoreOk, Enabled, Do, StatementOf, Deficit, Overwritten, Plus, Founded;
    PlusLaws(Deficit(states[0].core, k), ZERO, ZERO);
    if i == 0 {
      NoJobsOk(states[0].core);
    } else {
      var s, move := states[i - 1], moves[i - 1];
      MonitorDeficit(w, states, moves, i - 1, k);
      RunKeeps(w, states, moves, i - 1);
      assert states[i - 1 + 1] == Do(w, s, move);
      MoveMovesDeficit(w, s, move, k);
      PlusLaws(Deficit(states[0].core, k), MonitorDrift(w, states, moves, i - 1, k),
               match StatementOf(w, s, move) case None => ZERO case Some(statement) => Overwritten(s.core,
                   statement, k));
    }
  }

  /** The monitor's ledger, in every interleaving and at every moment, for every hour and day row of the
      network and of every service: what the row shows, what is stored but unwritten, what the row
      lacked when the process started, and what was overwritten since, add up to its raw events. */
  lemma MonitorLedger(w: World, states: seq<System>, moves: seq<Move>, i: nat, k: SummaryKey)
    requires IsRun(w, states, moves) && i < |states| && Aligned(k.period, k.start)
    ensures var c := states[i].core;
      Total(RowEvents(RawOf(c.db), k)) == Plus(Plus(GetSummary(c.db, k).totals, Unwritten(c.reports, k)),
                                               Plus(Deficit(states[0].core, k), MonitorDrift(w, states, moves, i, k)))
  {
    hide Do, Enabled, Deficit, Plus, Total, RowEvents, RawOf, GetSummary, Unwritten, MonitorDrift, Founded;
    MonitorDeficit(w, states, moves, i, k);
    DeficitMeans(states[i].core, k);
  }

  // 2. Runs in which nothing is overwritten.

  /** No two rows that a height decodes to share their UNIQUE columns. */
  ghost predicate DistinctRows(w: World) {
    forall h: int :: DistinctWithin(DecodedChain(w.filter, w.decoded)(h).raw)
  }

  /** The start-up backfill begins behind what earlier processes delivered. */
  ghost predicate NothingTwice(w: World) {
    w.startup.from <= w.startup.to + 1 && forall h :: h in Heights(w.history) ==> h < w.startup.from
  }

  /** No error ends a report or a recalculation, and live blocks come behind the start-up backfill's range. */
  ghost predicate Orderly(w: World, move: Move) {
    && (move.Work? ==> !move.step.AbandonReport? && !move.step.AbandonRebuild?)
    && (move.Receive? ==> move.height > w.startup.to)
  }

  /** What waits is not processed yet; of each gap exactly the heights before `next` are; what is seen
      lies behind the start-up backfill's range. */
  ghost predicate Once(w: World, s: System) {
    && (forall b :: b in Waiting(s) ==> b.height !in s.live)
    && (forall i, h :: 0 <= i < |s.tasks| && Subscribing.Has(s.tasks[i].gap, h) && h in s.filled ==>
          h < s.tasks[i].next)
    && (forall h :: h in s.view.seen ==> h > w.startup.to)
  }

  ghost predicate Good(w: World, s: System) {
    Inv(w, s) && Once(w, s) && Current(s.core)
  }

  lemma ArrivalPayload(chain: Chain, h: int, isLive: bool)
    requires Labelled(chain)
    ensures var b := BlockAt(chain, Arrival(h, if isLive then Live else Backfill));
      b.raw == chain(h).raw && OwnHeight(b.raw, h)
  {
  }

  /** A height that was not delivered before brings rows that are new to the tables. */
  lemma NewHeightStoresFresh(w: World, s: System, h: int, isLive: bool)
    requires StoreOk(w, s) && h !in Heights(s.log) && DistinctRows(w)
    ensures var b := BlockOf(w.filter, h, w.decoded(h).time, w.decoded(h).events, isLive);
      FreshBlock(s.core.db, b.raw, b.header.blockTime)
  {
    hide BlockOf, Ingested, DecodedChain, FreshBlock, FromChain, DistinctWithin, RawOf, Labelled;
    var chain := DecodedChain(w.filter, w.decoded);
    var b := BlockOf(w.filter, h, w.decoded(h).time, w.decoded(h).events, isLive);
    ProcessingIsArrival(w.filter, w.decoded, h, isLive);
    StoredFromChain(chain, s.log);
    RawIgnoresSummaries(s.core.db, Ingested(chain, s.log).db);
    ArrivalPayload(chain, h, isLive);
    NewHeightIsFresh(s.core.db, b.header.blockTime, b.raw, h, chain, Heights(s.log));
  }

  lemma StoreStaysCurrent(w: World, s: System, owner: Owner, h: int, isLive: bool)
    requires StoreOk(w, s) && h !in Heights(s.log) && DistinctRows(w) && Current(s.core) && !Busy(s.core, owner)
    requires Exclusive(Inserted(s.core, owner, BlockOf(w.filter, h, w.decoded(h).time, w.decoded(h).events, isLive)))
    ensures Current(Inserted(s.core, owner, BlockOf(w.filter, h, w.decoded(h).time, w.decoded(h).events, isLive)))
  {
    hide BlockOf, Current, Exclusive, Inserted, FreshBlock, StoreOk, DistinctRows, Busy;
    NewHeightStoresFresh(w, s, h, isLive);
    StepStaysCurrent(s.core, StoreBlock(owner, BlockOf(w.filter, h, w.decoded(h).time, w.decoded(h).events, isLive)));
  }

  /** A waiting height was not delivered on any path. */
  lemma WaitingIsNew(w: World, s: System)
    requires Inv(w, s) && Once(w, s) && NothingTwice(w) && Waiting(s) != []
    ensures Waiting(s)[0].height !in Heights(s.log) && Waiting(s)[0] == BatchAt(w, Waiting(s)[0].height)
  {
    hide Waiting, Heights, SameRaw;
    var b := Waiting(s)[0];
    PipedHead(w, s.view.seen, s.live, Waiting(s));
    assert b in Waiting(s) && b.height in s.view.seen;
    assert b.height !in s.filled;
  }

  lemma FlushGood(w: World, s: System, s': System)
    requires Good(w, s) && DistinctRows(w) && NothingTwice(w) && Flushes(w, s, s')
    requires !Busy(s.core, CollectorThread) && Exclusive(s'.core)
    ensures Once(w, s') && Current(s'.core)
  {
    hide Waiting, Current, Exclusive, Inserted, BlockOf, StoreOk, TasksOk, SubscriberOk, StartupOk, DistinctRows,
        NothingTwice, Busy, Heights;
    var b := Waiting(s)[0];
    WaitingIsNew(w, s);
    StoreStaysCurrent(w, s, CollectorThread, b.height, true);
    forall x | x in Waiting(s') ensures x.height !in s'.live {
      var i :| 0 <= i < |Waiting(s')| && Waiting(s')[i] == x;
      assert x == Waiting(s)[i + 1] && x in Waiting(s);
    }
  }

  lemma ReceiveGood(w: World, s: System, h: int)
    requires Inv(w, s) && Once(w, s) && Enabled(w, s, Receive(h)) && h > w.startup.to
    ensures Once(w, Do(w, s, Receive(h))) && Do(w, s, Receive(h)).core == s.core
  {
    hide StoreOk, StartupOk, Covers;
    var s' := Do(w, s, Receive(h));
    assert Waiting(s') == Waiting(s) + (if |w.decoded(h).events| > 0 then [BatchAt(w, h)] else []);
    BelowLast(s.view);
    forall i, x | 0 <= i < |s'.tasks| && Subscribing.Has(s'.tasks[i].gap, x) && x in s'.filled
      ensures x < s'.tasks[i].next
    {
      if i == |s.tasks| {
        assert false;
      }
    }
  }

  lemma GapApart(v: View, i: nat, h: int)
    requires Partitions(v) && i < |v.gaps| && Subscribing.Has(v.gaps[i], h)
    ensures v.seen != [] && h !in v.seen && h > v.seen[0] && v.seen[0] in v.seen
  {
  }

  lemma LiveIsSeen(w: World, s: System)
    requires PipeOk(w, s)
    ensures forall h :: h in s.live ==> h in s.view.seen
  {
  }

  lemma GapIsNew(w: World, s: System, i: nat)
    requires Inv(w, s) && Once(w, s) && NothingTwice(w) && i < |s.tasks| && s.tasks[i].next <= s.tasks[i].gap.to
    ensures s.tasks[i].next !in Heights(s.log)
  {
    hide Heights, SameRaw, Covers, Tracks, Partitions, InGap, PipeOk, Piped, Waiting;
    var h := s.tasks[i].next;
    assert Subscribing.Has(s.tasks[i].gap, h) && s.tasks[i].gap == s.view.gaps[i];
    LiveIsSeen(w, s);
    GapApart(s.view, i, h);
  }

  lemma SameWaiting(s: System, s': System)
    requires s'.collector == s.collector && s'.channel == s.channel
    ensures Waiting(s') == Waiting(s)
  {
  }

  lemma FillOnce(w: World, s: System, i: nat, isLive: bool)
    requires Inv(w, s) && Once(w, s) && i < |s.tasks| && s.tasks[i].next <= s.tasks[i].gap.to
    ensures Once(w, Filled(w, s, i, isLive))
  {
    hide StoreOk, StartupOk, Covers, Piped, Waiting, BlockOf, Inserted;
    var h, s' := s.tasks[i].next, Filled(w, s, i, isLive);
    SameWaiting(s, s');
    forall j, x | 0 <= j < |s'.tasks| && Subscribing.Has(s'.tasks[j].gap, x) && x in s'.filled
      ensures x < s'.tasks[j].next
    {
      assert s.tasks[i].gap == s.view.gaps[i] && s.tasks[j].gap == s.view.gaps[j];
      if j != i && x == h {
        assert false;
      }
    }
  }

  lemma StartupIsNew(w: World, s: System)
    requires Inv(w, s) && Once(w, s) && NothingTwice(w) && s.startup.next <= s.startup.gap.to
    ensures s.startup.next !in Heights(s.log)
  {
    hide Heights, SameRaw, Covers, Piped, Waiting;
    var h := s.startup.next;
    LiveIsSeen(w, s);
    forall i | 0 <= i < |s.view.gaps| ensures !Subscribing.Has(s.view.gaps[i], h) {
      assert s.view.seen[0] in s.view.seen;
    }
  }

  lemma OnceElsewhere(w: World, s: System, s': System)
    requires Once(w, s) && s'.view == s.view && s'.tasks == s.tasks && s'.filled == s.filled && s'.live == s.live
    requires Waiting(s') == Waiting(s)
    ensures Once(w, s')
  {
    hide Waiting;
  }

  lemma FillGood(w: World, s: System, i: nat, isLive: bool)
    requires i < |s.tasks| && s.tasks[i].next <= s.tasks[i].gap.to && !Busy(s.core, GapThread(i))
    requires Exclusive(Filled(w, s, i, isLive).core)
    requires Inv(w, s) && Once(w, s) && Current(s.core) && DistinctRows(w) && NothingTwice(w)
    ensures Once(w, Filled(w, s, i, isLive)) && Current(Filled(w, s, i, isLive).core)
  {
    assert StoreOk(w, s);
    hide Inv, Once, Current, Exclusive, Inserted, BlockOf, DistinctRows, NothingTwice, Busy, Heights, StoreOk;
    GapIsNew(w, s, i);
    FillOnce(w, s, i, isLive);
    StoreStaysCurrent(w, s, GapThread(i), s.tasks[i].next, isLive);
  }

  lemma StartupGood(w: World, s: System)
    requires s.startup.next <= s.startup.gap.to && !Busy(s.core, StartupThread)
    requires Exclusive(StartupFilled(w, s).core)
    requires Inv(w, s) && Once(w, s) && Current(s.core) && DistinctRows(w) && NothingTwice(w)
    ensures Once(w, StartupFilled(w, s)) && Current(StartupFilled(w, s).core)
  {
    assert StoreOk(w, s);
    hide Inv, Once, Current, Exclusive, Inserted, BlockOf, DistinctRows, NothingTwice, Busy, Heights, StoreOk;
    StartupIsNew(w, s);
    SameWaiting(s, StartupFilled(w, s));
    OnceElsewhere(w, s, StartupFilled(w, s));
    StoreStaysCurrent(w, s, StartupThread, s.startup.next, false);
  }

  /** A step of a report or of a recalculation. */
  lemma WorkGood(w: World, s: System, step: Statement)
    requires Once(w, s) && Current(s.core) && CanDo(s.core, step)
    requires !step.StoreBlock? && !step.AbandonReport? && !step.AbandonRebuild?
    requires Exclusive(Perform(s.core, step))
    ensures Once(w, s.(core := Perform(s.core, step))) && Current(Perform(s.core, step))
  {
    hide Once, Current, Exclusive, Perform, CanDo;
    SameWaiting(s, s.(core := Perform(s.core, step)));
    OnceElsewhere(w, s, s.(core := Perform(s.core, step)));
    StepStaysCurrent(s.core, step);
  }

  lemma RebuildingGood(w: World, s: System, owner: Owner, gap: Gap)
    requires Once(w, s) && Current(s.core) && !Busy(s.core, owner) && Exclusive(Rebuilding(w, s, owner, gap).core)
    ensures Once(w, Rebuilding(w, s, owner, gap)) && Current(Rebuilding(w, s, owner, gap).core)
  {
    hide Once, Current, Exclusive, Perform, Busy;
    WorkGood(w, s, StartRebuild(owner, w.decoded(gap.from).time, w.decoded(gap.to).time));
  }

  lemma CollectGood(w: World, s: System, move: Move)
    requires Good(w, s) && DistinctRows(w) && NothingTwice(w) && (move.Take? || move.Timeout?) && Enabled(w, s, move)
    requires s.collector.status.Running? && Exclusive(Do(w, s, move).core)
    ensures Once(w, Do(w, s, move)) && Current(Do(w, s, move).core)
  {
    assert PipeOk(w, s) && !Busy(s.core, CollectorThread);
    hide Inv, Once, Current, Exclusive, Do, DistinctRows, NothingTwice, Busy, Flushes, PipeOk;
    if move.Take? {
      TakeShape(w, s);
      if s.collector.height != 0 {
        FlushGood(w, s, Do(w, s, move));
      } else {
        OnceElsewhere(w, s, Do(w, s, move));
      }
    } else {
      TimeoutShape(w, s);
      if |s.collector.events| > 0 {
        FlushGood(w, s, Do(w, s, move));
      }
    }
  }

  lemma BackfillGood(w: World, s: System, move: Move)
    requires Inv(w, s) && Once(w, s) && Current(s.core) && DistinctRows(w) && NothingTwice(w)
    requires (move.Fill? || move.FillStartup?) && Enabled(w, s, move)
    requires s.collector.status.Running? && Exclusive(Do(w, s, move).core)
    ensures Once(w, Do(w, s, move)) && Current(Do(w, s, move).core)
  {
    hide Inv, Once, Current, Exclusive, DistinctRows, NothingTwice, Filled, StartupFilled, Busy;
    if move.Fill? {
      FillGood(w, s, move.task, move.isLive);
    } else {
      StartupGood(w, s);
    }
  }

  lemma OtherGood(w: World, s: System, move: Move)
    requires Inv(w, s) && Once(w, s) && Current(s.core) && Enabled(w, s, move) && Orderly(w, move)
    requires !move.Take? && !move.Timeout? && !move.Fill? && !move.FillStartup?
    requires s.collector.status.Running? && Exclusive(Do(w, s, move).core)
    ensures Once(w, Do(w, s, move)) && Current(Do(w, s, move).core)
  {
    hide Inv, Once, Current, Exclusive, Rebuilding, Perform, CanDo, Busy, Observe;
    match move
    case Receive(h) => ReceiveGood(w, s, h);
    case Reconnect =>
    case Complete(i) => RebuildingGood(w, s, GapThread(i), s.tasks[i].gap);
    case CompleteStartup => RebuildingGood(w, s, StartupThread, s.startup.gap);
    case Work(step) => WorkGood(w, s, step);
  }

  lemma MoveGood(w: World, s: System, move: Move)
    requires Good(w, s) && DistinctRows(w) && NothingTwice(w) && Enabled(w, s, move) && Orderly(w, move)
    requires s.collector.status.Running? && Exclusive(Do(w, s, move).core)
    ensures Good(w, Do(w, s, move))
  {
    hide Inv, Once, Current, Exclusive, DistinctRows, NothingTwice, Do, Enabled, Orderly;
    MoveKeeps(w, s, move);
    if move.Take? || move.Timeout? {
      CollectGood(w, s, move);
    } else if move.Fill? || move.FillStartup? {
      BackfillGood(w, s, move);
    } else {
      OtherGood(w, s, move);
    }
  }

  /** The hypotheses of an exact run. Only the first is not the monitor's own doing to ensure: its
      goroutines call the reporter without a lock. */
  ghost predicate ExactRun(w: World, states: seq<System>, moves: seq<Move>) {
    && (forall x :: 0 <= x < |states| ==> Exclusive(states[x].core))
    && (forall x :: 0 <= x < |moves| ==> Orderly(w, moves[x]))
    && DistinctRows(w) && NothingTwice(w) && NetworkExact(w.db)
  }

  lemma InitialGood(w: World)
    requires Founded(w) && NetworkExact(w.db)
    ensures Good(w, Initial(w))
  {
    hide Inv, Current, NetworkExact, Founded;
    InitialInv(w);
    StartIsCurrent(Initial(w).core);
    assert Waiting(Initial(w)) == [];
  }

  lemma {:induction false} RunGood(w: World, states: seq<System>, moves: seq<Move>, i: nat)
    requires IsRun(w, states, moves) && ExactRun(w, states, moves) && i < |states|
    ensures Good(w, states[i])
  {
    hide Good, Do, Enabled, DistinctRows, NothingTwice, NetworkExact, Exclusive, Orderly, Founded, Initial;
    if i == 0 {
      InitialGood(w);
    } else {
      RunGood(w, states, moves, i - 1);
      assert states[i - 1 + 1] == Do(w, states[i - 1], moves[i - 1]) && Exclusive(states[i].core);
      MoveGood(w, states[i - 1], moves[i - 1]);
    }
  }

  /** End to end, provided that calls of `ProcessBlock` and of the recalculation exclude each other,
      that none of them fails, that no height is delivered twice, and that the rows of each block are
      distinct: in every interleaving of live blocks, reconnects, batching, gap backfills and the
      start-up backfill, every network row that the reports of its period have written is exact.
      Without the exclusion, `LedgerHolds` says what a row shows instead. */
  lemma NetworkRowsExactIfExclusive(w: World, states: seq<System>, moves: seq<Move>, i: nat, p: Period, start: int)
    requires IsRun(w, states, moves) && ExactRun(w, states, moves) && i < |states| && Aligned(p, start)
    requires NobodyOwes(states[i].core, NetworkRow(p, start))
    ensures RowExact(states[i].core.db, NetworkRow(p, start))
  {
    hide IsRun, ExactRun, Do, Enabled, RowExact, Inv, Once, Current, NobodyOwes, Aligned;
    RunGood(w, states, moves, i);
    CurrentIsExact(states[i].core, p, start);
  }
}
