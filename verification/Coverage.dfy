/** Subscriber, channel, collector, gap backfills, start-up backfill, and the reports and recalculations
    they cause, side by side and statement by statement, in every interleaving. */
module Coverage {
  import opened Seqs
  import opened Model
  import opened Database
  import opened Materialization
  import opened Delivery
  import opened Converter
  import opened Processing
  import opened Archive
  import opened Backfilling
  import opened Collecting
  import opened Subscribing
  import opened Jobs

  /** Capacity of the channel between subscriber and collector. */
  const CAPACITY := 8

  /** The backfill of a range; `next` is the height it fetches next. */
  datatype Task = Task(next: int, gap: Gap)

  datatype System = System(
    view: View,
    channel: seq<Batch>,
    collector: Collecting.State,
    tasks: seq<Task>,
    startup: Task,
    core: Core,
    live: set<int>,
    filled: set<int>,
    started: set<int>,
    log: seq<Arrival>)

  /** What is fixed in an error-free run: the filter, what each height decodes to, the range of the
      start-up backfill (empty when `to` is `from - 1`), and what the process found: the database, the
      services its reporter knows, and the deliveries that earlier processes made. */
  datatype World = World(
    filter: SupplierFilter,
    decoded: int -> BlockEvents,
    startup: Gap,
    db: Db,
    known: set<string>,
    history: seq<Arrival>)

  function Initial(w: World): System {
    System(FRESH, [], START, [], Task(w.startup.from, w.startup), Core(w.db, w.known, [], []), {}, {}, {}, w.history)
  }

  /** The tables found are those of the earlier deliveries; the summaries may be anything. */
  ghost predicate Founded(w: World) {
    && SameRaw(w.db, Ingested(DecodedChain(w.filter, w.decoded), w.history).db)
    && w.startup.from <= w.startup.to + 1
  }

  datatype Move =
    | Receive(height: int)
    | Reconnect
    | Take
    | Timeout
    | Fill(task: nat, isLive: bool)
    | Complete(task: nat)
    | FillStartup
    | CompleteStartup
    | Work(step: Statement)

  function BatchAt(w: World, h: int): Batch { Batch(h, w.decoded(h).time, w.decoded(h).events) }

  function Arriving(w: World, h: int): Stimulus {
    NewBlock(h, Some(w.decoded(h).time), 0, w.decoded(h).events)
  }

  predicate HasRebuilt(c: Core, owner: Owner) { exists t :: 0 <= t < |c.rebuilds| && c.rebuilds[t].owner == owner }

  /** Live heights increase; a full channel blocks the subscriber; a goroutine waits for its own calls. */
  predicate Enabled(w: World, s: System, move: Move) {
    match move
    case Receive(h) => h > 0 && h > s.view.lastSeen && (|w.decoded(h).events| > 0 ==> |s.channel| < CAPACITY)
    case Reconnect => true
    case Take => |s.channel| > 0 && !Busy(s.core, CollectorThread)
    case Timeout => !Busy(s.core, CollectorThread)
    case Fill(i, _) => i < |s.tasks| && s.tasks[i].next <= s.tasks[i].gap.to && !Busy(s.core, GapThread(i))
    case Complete(i) =>
      && i < |s.tasks| && s.tasks[i].next > s.tasks[i].gap.to
      && !Busy(s.core, GapThread(i)) && !HasRebuilt(s.core, GapThread(i))
    case FillStartup => s.startup.next <= s.startup.gap.to && !Busy(s.core, StartupThread)
    case CompleteStartup =>
      && s.startup.next > s.startup.gap.to && s.startup.gap.from <= s.startup.gap.to
      && !Busy(s.core, StartupThread) && !HasRebuilt(s.core, StartupThread)
    case Work(step) => CanDo(s.core, step) && !step.StoreBlock? && !step.StartRebuild?
  }

  /** The insert transaction of `ProcessBlock`; its report becomes a job of the calling goroutine. */
  function StoreAt(w: World, s: System, owner: Owner, h: int, time: int, events: seq<Event>, isLive: bool): System {
    s.(core := Inserted(s.core, owner, BlockOf(w.filter, h, time, events, isLive)),
       log := s.log + [Arrival(h, if isLive then Live else Backfill)])
  }

  /** The collector reads an input; a call it makes reaches the processor. */
  function Collect(w: World, s: System, input: Input): System
    requires s.collector.status.Running?
  {
    var c := Next(s.collector, input, (n: nat) => false);
    if |c.calls| > |s.collector.calls| then
      var call := c.calls[|s.collector.calls|];
      StoreAt(w, s, CollectorThread, call.height, call.time, call.events, true).(
        collector := c, live := s.live + {call.height})
    else s.(collector := c)
  }

  function Rebuilding(w: World, s: System, owner: Owner, gap: Gap): System
    requires !Busy(s.core, owner)
  {
    s.(core := Perform(s.core, StartRebuild(owner, w.decoded(gap.from).time, w.decoded(gap.to).time)))
  }

  function Filled(w: World, s: System, i: nat, isLive: bool): System
    requires i < |s.tasks|
  {
    var h := s.tasks[i].next;
    StoreAt(w, s, GapThread(i), h, w.decoded(h).time, w.decoded(h).events, isLive).(
      tasks := s.tasks[i := s.tasks[i].(next := h + 1)], filled := s.filled + {h})
  }

  function StartupFilled(w: World, s: System): System {
    var h := s.startup.next;
    StoreAt(w, s, StartupThread, h, w.decoded(h).time, w.decoded(h).events, false).(
      startup := s.startup.(next := h + 1), started := s.started + {h})
  }

  function Do(w: World, s: System, move: Move): System
    requires Enabled(w, s, move) && s.collector.status.Running?
  {
    match move
    case Receive(h) =>
      var view := Observe(s.view, Arriving(w, h));
      s.(view := view,
         tasks := if |view.gaps| == |s.view.gaps| then s.tasks
                  else s.tasks + [Task(view.gaps[|s.view.gaps|].from, view.gaps[|s.view.gaps|])],
         channel := s.channel + view.emitted[|s.view.emitted|..])
    case Reconnect => s
    case Take => Collect(w, s.(channel := s.channel[1..]), BlockArrives(s.channel[0]))
    case Timeout => Collect(w, s, TimerFires)
    case Fill(i, isLive) => Filled(w, s, i, isLive)
    case Complete(i) => Rebuilding(w, s, GapThread(i), s.tasks[i].gap)
    case FillStartup => StartupFilled(w, s)
    case CompleteStartup => Rebuilding(w, s, StartupThread, s.startup.gap)
    case Work(step) => s.(core := Perform(s.core, step))
  }

  // What every move keeps.

  ghost predicate SubscriberOk(s: System) {
    && Tracks(s.view) && Covers(s.view) && Partitions(s.view) && Increasing(s.view.seen)
    && s.view.lastSeen >= 0
  }

  ghost predicate TasksOk(s: System) {
    && |s.tasks| == |s.view.gaps|
    && (forall i :: 0 <= i < |s.tasks| ==>
          s.tasks[i].gap == s.view.gaps[i] && s.tasks[i].gap.from <= s.tasks[i].next <= s.tasks[i].gap.to + 1)
    && (forall h :: h in s.filled ==> InGap(s.view.gaps, h))
    && (forall i, h :: 0 <= i < |s.tasks| && s.tasks[i].gap.from <= h < s.tasks[i].next ==> h in s.filled)
  }

  /** Batches on their way, oldest first: the collector's, then the channel's. */
  function Waiting(s: System): seq<Batch> {
    (if s.collector.height == 0 then []
     else [Batch(s.collector.height, s.collector.time, s.collector.events)]) + s.channel
  }

  /** Every seen height with events has been processed live or waits, in height order. */
  ghost predicate Piped(w: World, seen: seq<int>, live: set<int>, waiting: seq<Batch>) {
    && (forall b :: b in waiting ==> b == BatchAt(w, b.height) && b.events != [] && b.height in seen && b.height > 0)
    && (forall i, j :: 0 <= i < j < |waiting| ==> waiting[i].height < waiting[j].height)
    && (forall h :: h in live ==> h in seen)
    && (forall h :: h in seen && w.decoded(h).events != [] && h !in live ==> BatchAt(w, h) in waiting)
  }

  ghost predicate PipeOk(w: World, s: System) {
    && s.collector.status.Running?
    && (s.collector.height == 0 ==> s.collector.events == [])
    && Piped(w, s.view.seen, s.live, Waiting(s))
  }

  /** The start-up backfill has brought exactly the heights before `next`. */
  ghost predicate StartupOk(w: World, s: System) {
    && s.startup.gap == w.startup && w.startup.from <= s.startup.next <= w.startup.to + 1
    && forall h :: h in s.started <==> w.startup.from <= h < s.startup.next
  }

  lemma PipedPush(w: World, seen: seq<int>, live: set<int>, waiting: seq<Batch>, h: int)
    requires Piped(w, seen, live, waiting) && h > 0 && forall x :: x in seen ==> x < h
    ensures Piped(w, seen + [h], live, waiting + if |w.decoded(h).events| > 0 then [BatchAt(w, h)] else [])
  {
  }

  lemma PipedPop(w: World, seen: seq<int>, live: set<int>, waiting: seq<Batch>)
    requires Piped(w, seen, live, waiting) && waiting != []
    ensures Piped(w, seen, live + {waiting[0].height}, waiting[1..])
  {
  }

  ghost predicate StoreOk(w: World, s: System) {
    && s.core.db.processed.Keys == Heights(s.log) == Heights(w.history) + s.live + s.filled + s.started
    && SameRaw(s.core.db, Ingested(DecodedChain(w.filter, w.decoded), s.log).db)
  }

  ghost predicate Inv(w: World, s: System) {
    SubscriberOk(s) && TasksOk(s) && StartupOk(w, s) && PipeOk(w, s) && StoreOk(w, s)
  }

  lemma InsertMarks(db: Db, b: Block)
    ensures InsertBlock(db, b.header, b.raw, b.dists).processed.Keys == db.processed.Keys + {b.header.height}
  {
    hide Deliver;
    DeliveryMarks(Monitor(db, {}), b);
    DeliveredTables(Monitor(db, {}), b);
  }

  /** One stored height: the tables follow the log of arrivals. */
  lemma StoreKeeps(w: World, s: System, owner: Owner, h: int, isLive: bool)
    requires StoreOk(w, s)
    ensures var s' := StoreAt(w, s, owner, h, w.decoded(h).time, w.decoded(h).events, isLive);
      && s'.core.db.processed.Keys == s.core.db.processed.Keys + {h} == Heights(s'.log)
      && SameRaw(s'.core.db, Ingested(DecodedChain(w.filter, w.decoded), s'.log).db)
  {
    hide Deliver, BlockOf, Ingested, SameRaw, DecodedChain, InsertBlock;
    var chain := DecodedChain(w.filter, w.decoded);
    var log := s.log + [Arrival(h, if isLive then Live else Backfill)];
    var b := BlockOf(w.filter, h, w.decoded(h).time, w.decoded(h).events, isLive);
    assert log[..|log| - 1] == s.log;
    IngestLast(chain, log);
    ProcessingIsArrival(w.filter, w.decoded, h, isLive);
    BlockHeight(w.filter, h, w.decoded(h).time, w.decoded(h).events, isLive);
    InsertSameRaw(s.core.db, Ingested(chain, s.log).db, b);
    DeliveredSameRaw(Ingested(chain, s.log), b);
    SameRawTrans(InsertBlock(s.core.db, b.header, b.raw, b.dists),
                 InsertBlock(Ingested(chain, s.log).db, b.header, b.raw, b.dists), Ingested(chain, log).db);
    InsertMarks(s.core.db, b);
  }

  lemma StoreUntouched(w: World, s: System, s': System)
    requires StoreOk(w, s) && StartupOk(w, s)
    requires SameRaw(s'.core.db, s.core.db) && s'.live == s.live && s'.filled == s.filled && s'.log == s.log
    requires s'.startup == s.startup && s'.started == s.started
    ensures StoreOk(w, s') && StartupOk(w, s')
  {
    hide Ingested, DecodedChain, Heights;
    SameRawTrans(s'.core.db, s.core.db, Ingested(DecodedChain(w.filter, w.decoded), s.log).db);
  }

  lemma ReceiveKeepsSubscriber(v: View, block: Stimulus)
    requires Tracks(v) && Covers(v) && Partitions(v) && Increasing(v.seen) && v.lastSeen >= 0
    requires block.NewBlock? && block.height > 0 && block.height > v.lastSeen
    ensures var v' := Observe(v, block);
      Tracks(v') && Covers(v') && Partitions(v') && Increasing(v'.seen) && v'.lastSeen >= 0
  {
    hide Covers, Partitions;
    var v' := Observe(v, block);
    ObserveCovers(v, block);
    forall i, j | 0 <= i < j < |v'.seen| ensures v'.seen[i] < v'.seen[j] {
      if j == |v.seen| && i < |v.seen| - 1 {
        assert v.seen[i] < v.seen[|v.seen| - 1];
      }
    }
    ObservePartitions(v, block);
  }

  lemma ReceiveKeepsTasks(w: World, s: System, h: int)
    requires TasksOk(s) && Enabled(w, s, Receive(h)) && s.collector.status.Running? && Tracks(s.view)
    ensures TasksOk(Do(w, s, Receive(h)))
  {
    hide Tracks;
    var s' := Do(w, s, Receive(h));
    forall x | x in s'.filled ensures InGap(s'.view.gaps, x) {
      var i :| 0 <= i < |s.view.gaps| && Subscribing.Has(s.view.gaps[i], x);
      assert Subscribing.Has(s'.view.gaps[i], x);
    }
  }

  lemma BelowLast(v: View)
    requires Tracks(v) && Increasing(v.seen)
    ensures forall x :: x in v.seen ==> x <= v.lastSeen
  {
  }

  lemma ReceiveKeepsPipe(w: World, s: System, h: int)
    requires PipeOk(w, s) && Enabled(w, s, Receive(h)) && Tracks(s.view) && Increasing(s.view.seen)
    ensures PipeOk(w, Do(w, s, Receive(h)))
  {
    hide Piped;
    var s' := Do(w, s, Receive(h));
    assert Waiting(s') == Waiting(s) + (if |w.decoded(h).events| > 0 then [BatchAt(w, h)] else []);
    BelowLast(s.view);
    PipedPush(w, s.view.seen, s.live, Waiting(s), h);
  }

  lemma ReceiveKeeps(w: World, s: System, h: int)
    requires Inv(w, s) && Enabled(w, s, Receive(h))
    ensures Inv(w, Do(w, s, Receive(h)))
  {
    hide Covers, StoreOk, StartupOk, Partitions;
    var s' := Do(w, s, Receive(h));
    ReceiveKeepsSubscriber(s.view, Arriving(w, h));
    ReceiveKeepsTasks(w, s, h);
    ReceiveKeepsPipe(w, s, h);
    StoreUntouched(w, s, s');
  }

  lemma PipedHead(w: World, seen: seq<int>, live: set<int>, waiting: seq<Batch>)
    requires Piped(w, seen, live, waiting) && waiting != []
    ensures waiting[0] == BatchAt(w, waiting[0].height)
  {
  }

  /** Everything but the collector's side stays. */
  ghost predicate SameSides(s: System, s': System) {
    && s'.view == s.view && s'.tasks == s.tasks && s'.filled == s.filled
    && s'.startup == s.startup && s'.started == s.started
  }

  /** The oldest waiting batch, whole, goes through the processor. */
  ghost predicate Flushes(w: World, s: System, s': System) {
    && Waiting(s) != [] && Waiting(s') == Waiting(s)[1..] && SameSides(s, s')
    && s'.collector.status.Running? && (s'.collector.height == 0 ==> s'.collector.events == [])
    && var b := Waiting(s)[0];
       && s'.live == s.live + {b.height} && s'.log == s.log + [Arrival(b.height, Live)]
       && s'.core == Inserted(s.core, CollectorThread, BlockOf(w.filter, b.height, b.time, b.events, true))
  }

  /** Nothing reaches the processor, and nothing that waits is forgotten. */
  ghost predicate Buffers(s: System, s': System) {
    && Waiting(s') == Waiting(s) && SameSides(s, s')
    && s'.collector.status.Running? && (s'.collector.height == 0 ==> s'.collector.events == [])
    && s'.core == s.core && s'.live == s.live && s'.log == s.log
  }

  /** The batches at the head of the pipe have positive and increasing heights. */
  lemma HeadsOk(w: World, s: System)
    requires PipeOk(w, s) && s.channel != []
    ensures s.channel[0].height > 0 && s.channel[0].height != s.collector.height
  {
    var waiting := Waiting(s);
    var i := if s.collector.height == 0 then 0 else 1;
    assert waiting[i] == s.channel[0] && waiting[i] in waiting;
    assert i == 1 ==> waiting[0].height < waiting[1].height;
  }

  lemma TakeShape(w: World, s: System)
    requires PipeOk(w, s) && Enabled(w, s, Take)
    ensures if s.collector.height != 0 then Flushes(w, s, Do(w, s, Take)) else Buffers(s, Do(w, s, Take))
  {
    hide Inserted, BlockOf, Busy, Piped;
    var b := s.channel[0];
    HeadsOk(w, s);
    assert [b] + s.channel[1..] == s.channel;
    assert s.collector.height != 0 ==> Waiting(s)[1..] == s.channel;
    assert [] + b.events == b.events;
  }

  lemma TimeoutShape(w: World, s: System)
    requires PipeOk(w, s) && Enabled(w, s, Timeout)
    ensures if |s.collector.events| > 0 then Flushes(w, s, Do(w, s, Timeout)) else Do(w, s, Timeout) == s
  {
    hide Inserted, BlockOf, Busy, Piped;
    assert |s.collector.events| > 0 ==> s.collector.height != 0 && Waiting(s)[1..] == s.channel;
  }

  lemma SameParts(w: World, s: System, s': System)
    requires SubscriberOk(s) && TasksOk(s) && StartupOk(w, s) && SameSides(s, s')
    ensures SubscriberOk(s') && TasksOk(s') && StartupOk(w, s')
  {
  }

  lemma FlushedLive(w: World, s: System, s': System)
    requires PipeOk(w, s) && StoreOk(w, s) && Flushes(w, s, s')
    ensures PipeOk(w, s') && StoreOk(w, s')
  {
    hide Waiting, SameRaw, Ingested, Heights, Piped, DecodedChain, BlockOf, InsertBlock;
    var b := Waiting(s)[0];
    PipedHead(w, s.view.seen, s.live, Waiting(s));
    PipedPop(w, s.view.seen, s.live, Waiting(s));
    StoreKeeps(w, s, CollectorThread, b.height, true);
  }

  /** The collector reads the oldest batch of the channel: it buffers it, after handing a buffered
      block, whole, to the processor. */
  lemma TakeKeeps(w: World, s: System)
    requires Inv(w, s) && Enabled(w, s, Take)
    ensures Inv(w, Do(w, s, Take))
  {
    hide SubscriberOk, StoreOk, StartupOk, TasksOk, Inserted, Piped, Do, Waiting;
    var s' := Do(w, s, Take);
    TakeShape(w, s);
    SameParts(w, s, s');
    if s.collector.height != 0 {
      FlushedLive(w, s, s');
    } else {
      StoreUntouched(w, s, s');
    }
  }

  lemma TimeoutKeeps(w: World, s: System)
    requires Inv(w, s) && Enabled(w, s, Timeout)
    ensures Inv(w, Do(w, s, Timeout))
  {
    hide SubscriberOk, StoreOk, StartupOk, TasksOk, Inserted, Piped, Do, Waiting;
    TimeoutShape(w, s);
    if |s.collector.events| > 0 {
      SameParts(w, s, Do(w, s, Timeout));
      FlushedLive(w, s, Do(w, s, Timeout));
    }
  }

  lemma SameStartup(w: World, s: System, s': System)
    requires StartupOk(w, s) && s'.startup == s.startup && s'.started == s.started
    ensures StartupOk(w, s')
  {
  }

  lemma FilledOk(s: System, s': System, i: nat)
    requires TasksOk(s) && i < |s.tasks| && s.tasks[i].next <= s.tasks[i].gap.to
    requires s'.view == s.view && s'.tasks == s.tasks[i := s.tasks[i].(next := s.tasks[i].next + 1)]
    requires s'.filled == s.filled + {s.tasks[i].next}
    ensures TasksOk(s')
  {
  }

  lemma SameView(w: World, s: System, s': System)
    requires SubscriberOk(s) && PipeOk(w, s)
    requires s'.view == s.view && s'.collector == s.collector && s'.channel == s.channel && s'.live == s.live
    ensures SubscriberOk(s') && PipeOk(w, s')
  {
  }

  lemma FillKeeps(w: World, s: System, i: nat, isLive: bool)
    requires Inv(w, s) && i < |s.tasks| && s.tasks[i].next <= s.tasks[i].gap.to
    ensures Inv(w, Filled(w, s, i, isLive))
  {
    hide SubscriberOk, PipeOk, TasksOk, StartupOk, SameRaw, Ingested, Heights, DecodedChain, Inserted;
    var s' := Filled(w, s, i, isLive);
    FilledOk(s, s', i);
    SameView(w, s, s');
    SameStartup(w, s, s');
    StoreKeeps(w, s, GapThread(i), s.tasks[i].next, isLive);
  }

  lemma TasksUntouched(s: System, s': System)
    requires TasksOk(s) && s'.view == s.view && s'.tasks == s.tasks && s'.filled == s.filled
    ensures TasksOk(s')
  {
  }

  lemma StartupKeeps(w: World, s: System)
    requires Inv(w, s) && s.startup.next <= s.startup.gap.to
    ensures Inv(w, StartupFilled(w, s))
  {
    hide SubscriberOk, PipeOk, TasksOk, SameRaw, Ingested, Heights, DecodedChain, Inserted;
    var s' := StartupFilled(w, s);
    TasksUntouched(s, s');
    SameView(w, s, s');
    StoreKeeps(w, s, StartupThread, s.startup.next, false);
  }

  /** What reports and recalculations do reaches the summaries alone. */
  lemma StepSameRaw(c: Core, step: Statement)
    requires CanDo(c, step) && !step.StoreBlock?
    ensures SameRaw(Perform(c, step).db, c.db)
  {
    hide RawOf, ReportSummary, RebuildSummary, Queried, Busy, Inserted;
  }

  lemma WorkKeeps(w: World, s: System, step: Statement)
    requires Inv(w, s) && CanDo(s.core, step) && !step.StoreBlock?
    ensures Inv(w, s.(core := Perform(s.core, step)))
  {
    hide SubscriberOk, PipeOk, TasksOk, StoreOk, StartupOk, SameRaw, Perform, CanDo;
    var s' := s.(core := Perform(s.core, step));
    SameView(w, s, s');
    TasksUntouched(s, s');
    StepSameRaw(s.core, step);
    StoreUntouched(w, s, s');
  }

  lemma RebuildingKeeps(w: World, s: System, owner: Owner, gap: Gap)
    requires Inv(w, s) && !Busy(s.core, owner)
    ensures Inv(w, Rebuilding(w, s, owner, gap))
  {
    hide Inv, Perform, Busy;
    WorkKeeps(w, s, StartRebuild(owner, w.decoded(gap.from).time, w.decoded(gap.to).time));
  }

  lemma MoveKeeps(w: World, s: System, move: Move)
    requires Inv(w, s) && Enabled(w, s, move)
    ensures Inv(w, Do(w, s, move))
  {
    assert s.collector.status.Running?;
    hide SubscriberOk, TasksOk, PipeOk, StoreOk, StartupOk, Inv, Filled, StartupFilled, Rebuilding, Collect,
        Perform, CanDo, Busy, Observe;
    match move
    case Receive(h) => ReceiveKeeps(w, s, h);
    case Reconnect =>
    case Take => TakeKeeps(w, s);
    case Timeout => TimeoutKeeps(w, s);
    case Fill(i, isLive) => FillKeeps(w, s, i, isLive);
    case Complete(i) => RebuildingKeeps(w, s, GapThread(i), s.tasks[i].gap);
    case FillStartup =>
      assert s.startup.next <= s.startup.gap.to;
      StartupKeeps(w, s);
    case CompleteStartup => RebuildingKeeps(w, s, StartupThread, s.startup.gap);
    case Work(step) => WorkKeeps(w, s, step);
  }

  /** A run: states linked by enabled moves. */
  ghost predicate IsRun(w: World, states: seq<System>, moves: seq<Move>) {
    && |states| == |moves| + 1 && Founded(w) && states[0] == Initial(w)
    && forall i :: 0 <= i < |moves| ==>
         && states[i].collector.status.Running? && Enabled(w, states[i], moves[i])
         && states[i + 1] == Do(w, states[i], moves[i])
  }

  lemma FoundedKeys(w: World)
    requires Founded(w)
    ensures w.db.processed.Keys == Heights(w.history)
  {
    hide Ingested, DecodedChain;
    ProcessedHeights(DecodedChain(w.filter, w.decoded), w.history);
  }

  lemma FreshView()
    ensures Tracks(FRESH) && Covers(FRESH) && Partitions(FRESH) && Increasing(FRESH.seen)
  {
  }

  lemma NothingWaits(w: World, s: System)
    requires s.collector == START && s.channel == [] && s.view == FRESH && s.live == {}
    ensures PipeOk(w, s)
  {
    assert Waiting(s) == [];
  }

  lemma InitialInv(w: World)
    requires Founded(w)
    ensures Inv(w, Initial(w))
  {
    hide SameRaw, Ingested, DecodedChain, Heights, Tracks, Covers, Partitions, Increasing, Piped, InGap;
    FreshView();
    NothingWaits(w, Initial(w));
    FoundedKeys(w);
  }

  lemma {:induction false} RunKeeps(w: World, states: seq<System>, moves: seq<Move>, i: nat)
    requires IsRun(w, states, moves) && i < |states|
    ensures Inv(w, states[i])
  {
    hide Inv, Do, Enabled, Initial, Founded;
    if i == 0 {
      InitialInv(w);
    } else {
      RunKeeps(w, states, moves, i - 1);
      MoveKeeps(w, states[i - 1], moves[i - 1]);
    }
  }

  lemma MoveKeepsChannel(w: World, s: System, move: Move)
    requires Enabled(w, s, move) && s.collector.status.Running? && |s.channel| <= 8
    ensures |Do(w, s, move).channel| <= 8
  {
    hide Inserted, Perform, CanDo, Busy, Next;
  }

  /** The subscriber never has more than eight blocks waiting for the collector. */
  lemma {:induction false} ChannelBounded(w: World, states: seq<System>, moves: seq<Move>, i: nat)
    requires IsRun(w, states, moves) && i < |states|
    ensures |states[i].channel| <= 8
  {
    hide Do, Enabled, Founded;
    if i > 0 {
      ChannelBounded(w, states, moves, i - 1);
      MoveKeepsChannel(w, states[i - 1], moves[i - 1]);
    }
  }

  // What is recalculated.

  /** A recalculation belongs to a backfill that has brought all its heights, and spans its blocks' times
      from the first to the last. */
  ghost predicate Spans(w: World, s: System, r: Rebuild) {
    match r.owner
    case GapThread(i) =>
      && i < |s.tasks| && s.tasks[i].next > s.tasks[i].gap.to
      && r.from == w.decoded(s.tasks[i].gap.from).time && r.to == w.decoded(s.tasks[i].gap.to).time
    case StartupThread =>
      && s.startup.next > s.startup.gap.to
      && r.from == w.decoded(s.startup.gap.from).time && r.to == w.decoded(s.startup.gap.to).time
    case CollectorThread => false
  }

  ghost predicate AllSpan(w: World, s: System) {
    forall t :: 0 <= t < |s.core.rebuilds| ==> Spans(w, s, s.core.rebuilds[t])
  }

  lemma SameRanges(c: Core, step: Statement)
    requires CanDo(c, step) && !step.StoreBlock? && !step.StartRebuild?
    ensures var after := Perform(c, step).rebuilds;
      |after| == |c.rebuilds| && forall t :: 0 <= t < |after| ==>
        after[t].owner == c.rebuilds[t].owner && after[t].from == c.rebuilds[t].from && after[t].to == c.rebuilds[t].to
  {
    hide RawOf, ReportSummary, RebuildSummary, Put;
  }

  lemma CanStart(c: Core, owner: Owner, from: int, to: int)
    requires !Busy(c, owner)
    ensures CanDo(c, StartRebuild(owner, from, to))
    ensures var after := Perform(c, StartRebuild(owner, from, to)).rebuilds;
      && |after| == |c.rebuilds| + 1 && after[..|c.rebuilds|] == c.rebuilds
      && after[|c.rebuilds|].owner == owner && after[|c.rebuilds|].from == from && after[|c.rebuilds|].to == to
  {
  }

  /** Backfills only advance. */
  ghost predicate Advanced(s: System, s': System) {
    && |s.tasks| <= |s'.tasks|
    && (forall i :: 0 <= i < |s.tasks| ==> s'.tasks[i].gap == s.tasks[i].gap && s'.tasks[i].next >= s.tasks[i].next)
    && s'.startup.gap == s.startup.gap && s'.startup.next >= s.startup.next
  }

  lemma MoveAdvances(w: World, s: System, move: Move)
    requires Enabled(w, s, move) && s.collector.status.Running?
    ensures Advanced(s, Do(w, s, move))
    ensures !move.Work? && !move.Complete? && !move.CompleteStartup? ==>
      Do(w, s, move).core.rebuilds == s.core.rebuilds
  {
    hide BlockOf, InsertBlock, Perform, CanDo, Busy, HasRebuilt, Next, Observe;
  }

  lemma StillSpans(w: World, s: System, s': System, r: Rebuild, r': Rebuild)
    requires Spans(w, s, r) && Advanced(s, s') && r'.owner == r.owner && r'.from == r.from && r'.to == r.to
    ensures Spans(w, s', r')
  {
  }

  lemma SameStillSpan(w: World, s: System, s': System)
    requires AllSpan(w, s) && Advanced(s, s') && |s'.core.rebuilds| >= |s.core.rebuilds|
    requires forall t :: 0 <= t < |s.core.rebuilds| ==>
      && s'.core.rebuilds[t].owner == s.core.rebuilds[t].owner
      && s'.core.rebuilds[t].from == s.core.rebuilds[t].from && s'.core.rebuilds[t].to == s.core.rebuilds[t].to
    ensures forall t :: 0 <= t < |s.core.rebuilds| ==> Spans(w, s', s'.core.rebuilds[t])
  {
    hide Spans, Advanced;
    forall t | 0 <= t < |s.core.rebuilds| ensures Spans(w, s', s'.core.rebuilds[t]) {
      StillSpans(w, s, s', s.core.rebuilds[t], s'.core.rebuilds[t]);
    }
  }

  /** Only the moves that complete a backfill start a recalculation, and they give it its range. */
  lemma MoveSpans(w: World, s: System, move: Move)
    requires AllSpan(w, s) && Enabled(w, s, move) && s.collector.status.Running?
    ensures AllSpan(w, Do(w, s, move))
  {
    hide Perform, CanDo, Busy, HasRebuilt, Observe, Collect, Filled, StartupFilled, Advanced;
    var s' := Do(w, s, move);
    MoveAdvances(w, s, move);
    match move {
      case Work(step) => SameRanges(s.core, step);
      case Complete(i) =>
        var gap := s.tasks[i].gap;
        CanStart(s.core, GapThread(i), w.decoded(gap.from).time, w.decoded(gap.to).time);
        assert s'.tasks == s.tasks;
      case CompleteStartup =>
        var gap := s.startup.gap;
        CanStart(s.core, StartupThread, w.decoded(gap.from).time, w.decoded(gap.to).time);
        assert s'.startup == s.startup;
      case _ =>
    }
    SameStillSpan(w, s, s');
  }

  /** In every interleaving. */
  lemma {:induction false} RebuildsSpanBackfills(w: World, states: seq<System>, moves: seq<Move>, i: nat)
    requires IsRun(w, states, moves) && i < |states|
    ensures AllSpan(w, states[i])
  {
    hide Do, Enabled, Founded, Spans;
    if i > 0 {
      RebuildsSpanBackfills(w, states, moves, i - 1);
      MoveSpans(w, states[i - 1], moves[i - 1]);
    }
  }

  /** Channel drained, collector flushed, backfills finished. */
  predicate Quiescent(s: System) {
    && s.channel == [] && s.collector.height == 0
    && (forall i :: 0 <= i < |s.tasks| ==> s.tasks[i].next > s.tasks[i].gap.to)
    && s.startup.next > s.startup.gap.to
  }

  lemma QuietSeen(w: World, s: System, h: int)
    requires PipeOk(w, s) && Quiescent(s) && h in s.view.seen && w.decoded(h).events != []
    ensures h in s.live
  {
    assert Waiting(s) == [];
  }

  lemma QuietGap(s: System, h: int)
    requires TasksOk(s) && Quiescent(s) && InGap(s.view.gaps, h)
    ensures h in s.filled
  {
    var i :| 0 <= i < |s.view.gaps| && Subscribing.Has(s.view.gaps[i], h);
    assert s.tasks[i].gap == s.view.gaps[i];
  }

  /** The live path brings seen heights only, the gap path heights of gaps only. */
  lemma PathsDisjoint(w: World, s: System, h: int)
    requires Partitions(s.view) && TasksOk(s) && PipeOk(w, s)
    ensures h in s.live ==> h !in s.filled
  {
  }

  lemma CoveredWhenQuiet(w: World, s: System, h: int)
    requires Inv(w, s) && Quiescent(s)
    requires s.view.seen != [] && s.view.seen[0] <= h <= s.view.lastSeen && w.decoded(h).events != []
    ensures h in s.core.db.processed && (h in s.live <==> h !in s.filled)
  {
    hide SameRaw, PipeOk, TasksOk, StartupOk, Quiescent, Partitions, InGap;
    assert s.view.lastSeen in s.view.seen;
    if h in s.view.seen {
      QuietSeen(w, s, h);
    } else {
      QuietGap(s, h);
    }
    PathsDisjoint(w, s, h);
  }

  /** End-to-end coverage: in every interleaving, once quiet, every height from the first to the
      last seen that carries settlement events is in processed_blocks, reached by the live path
      or by the gap path and never by both. */
  lemma EveryHeightProcessedOnce(w: World, states: seq<System>, moves: seq<Move>, h: int)
    requires IsRun(w, states, moves) && Quiescent(states[|moves|])
    requires var v := states[|moves|].view; v.seen != [] && v.seen[0] <= h <= v.lastSeen
    requires w.decoded(h).events != []
    ensures var s := states[|moves|];
      && h in s.core.db.processed
      && (h in s.live <==> h !in s.filled)
  {
    hide Do, Enabled, Inv;
    var s := states[|moves|];
    RunKeeps(w, states, moves, |moves|);
    CoveredWhenQuiet(w, s, h);
  }

  /** The heights this process has brought, by any of its three paths. */
  ghost function Reached(s: System): set<int> { s.live + s.filled + s.started }

  lemma RunFounded(w: World, states: seq<System>, moves: seq<Move>)
    requires IsRun(w, states, moves)
    ensures Founded(w)
  {
  }

  lemma FirstIsLeast(w: World, s: System)
    requires Inv(w, s) && s.view.seen != []
    ensures s.view.seen[0] <= s.view.lastSeen && forall h :: h in s.view.seen ==> s.view.seen[0] <= h
  {
    hide TasksOk, PipeOk, StoreOk, StartupOk, Covers, Partitions;
    var n := |s.view.seen| - 1;
    assert n > 0 ==> s.view.seen[0] < s.view.seen[n];
    forall h | h in s.view.seen ensures s.view.seen[0] <= h {
      var i :| 0 <= i < |s.view.seen| && s.view.seen[i] == h;
      assert i > 0 ==> s.view.seen[0] < s.view.seen[i];
    }
  }

  /** Before the first live block only the start-up backfill brings anything. */
  lemma BeforeFirst(w: World, s: System, h: int)
    requires Inv(w, s) && Quiescent(s) && s.view.seen != [] && w.startup.from <= h < s.view.seen[0]
    ensures h in Reached(s) <==> h <= w.startup.to
  {
    hide StoreOk, Covers;
    FirstIsLeast(w, s);
    assert h !in s.live;
    assert h !in s.filled;
  }

  /** Coverage across a restart: once quiet, every height with events from the start of the start-up
      backfill to the last seen one is reached if and only if the first live block follows the range of
      the start-up backfill without a hole that carries events. In such a hole neither path looks: the
      backfill ends at the height the node reported, and a new subscriber knows no last height. */
  lemma RestartCoversIff(w: World, states: seq<System>, moves: seq<Move>)
    requires IsRun(w, states, moves) && Quiescent(states[|moves|]) && states[|moves|].view.seen != []
    ensures var s := states[|moves|];
      (forall h :: w.startup.from <= h <= s.view.lastSeen && w.decoded(h).events != [] ==> h in Reached(s))
      <==> (forall h :: w.startup.to < h < s.view.seen[0] ==> w.decoded(h).events == [])
  {
    hide Do, Enabled, Inv, Quiescent;
    var s := states[|moves|];
    RunKeeps(w, states, moves, |moves|);
    assert s.view.seen[0] <= s.view.lastSeen by { FirstIsLeast(w, s); }
    assert w.startup.from <= w.startup.to + 1 by { RunFounded(w, states, moves); }
    forall h | w.decoded(h).events != [] && w.startup.from <= h <= s.view.lastSeen
      ensures h in Reached(s) <==> h <= w.startup.to || s.view.seen[0] <= h
    {
      if s.view.seen[0] <= h {
        CoveredWhenQuiet(w, s, h);
      } else {
        BeforeFirst(w, s, h);
      }
    }
  }

  /** Independence from interleaving: at every moment the tables are those of any schedule of
      arrivals that covers the same processed heights. */
  lemma TablesIgnoreInterleaving(w: World, states: seq<System>, moves: seq<Move>, i: nat, schedule: seq<Arrival>)
    requires IsRun(w, states, moves) && i < |states|
    requires Heights(schedule) == states[i].core.db.processed.Keys
    ensures SameTables(states[i].core.db, Ingested(DecodedChain(w.filter, w.decoded), schedule).db)
  {
    hide IsRun, Do, Enabled, Ingested, DecodedChain, SubscriberOk, PipeOk, TasksOk, StartupOk, SameTables;
    var chain := DecodedChain(w.filter, w.decoded);
    RunKeeps(w, states, moves, i);
    ProcessingIsArrival(w.filter, w.decoded, 0, true);
    Confluence(chain, states[i].log, schedule);
    SameRawSameTables(states[i].core.db, Ingested(chain, states[i].log).db, Ingested(chain, schedule).db);
  }

  /** Nothing is lost and nothing is made up: in every interleaving, at every moment, the tables hold
      exactly the monitored events of the processed heights. Once quiet these are all heights with events
      that were seen or lie in a gap. */
  lemma TablesHoldProcessed(w: World, states: seq<System>, moves: seq<Move>, i: nat)
    requires IsRun(w, states, moves) && i < |states|
    ensures Holds(states[i].core.db, w.filter, w.decoded, states[i].core.db.processed.Keys)
  {
    hide IsRun, Do, Enabled, Ingested, DecodedChain, SubscriberOk, PipeOk, TasksOk, StartupOk, Holds, SameRaw, Heights;
    RunKeeps(w, states, moves, i);
    TablesHoldTheChain(w.filter, w.decoded, states[i].log);
    HoldsSameRaw(states[i].core.db, Ingested(DecodedChain(w.filter, w.decoded), states[i].log).db, w.filter, w.decoded,
        Heights(states[i].log));
  }
}
