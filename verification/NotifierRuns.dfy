/** Enqueuing, sending, draining and stopping side by side, in every interleaving. */
module NotifierRuns {
  import opened Seqs
  import opened Model
  import opened Periods
  import opened Database
  import opened Reporting
  import opened Materialization
  import opened Notifying

  datatype Phase = Looping | Draining | Stopped

  /** The notifier, its sender goroutine, the `done` channel and the context. */
  datatype System = System(state: State, phase: Phase, closed: bool, canceled: bool)

  const STARTED := System(IDLE, Looping, false, false)

  datatype Move =
    | OfferBlock(message: Notification)
    | CheckBoundary(period: Period, ts: int, read: bool)
    | Pick
    | Answer(response: Response)
    | Stop
    | Cancel
    | SeeDone
    | SeeCanceled
    | FindEmpty
    | TimeOut

  /** Between two messages the sender may notice anything that is ready. */
  predicate Enabled(s: System, move: Move) {
    var idle := s.state.flight.None?;
    match move
    case OfferBlock(m) => !m.kind.SummaryMessage?
    case CheckBoundary(_, _, _) => true
    case Pick => idle && !s.phase.Stopped? && s.state.queue != []
    case Answer(_) => !idle
    case Stop => true
    case Cancel => true
    case SeeDone => idle && s.phase.Looping? && s.closed
    case SeeCanceled => idle && s.phase.Looping? && s.canceled
    case FindEmpty => idle && s.phase.Draining? && s.state.queue == []
    case TimeOut => idle && s.phase.Draining?
  }

  function Do(cfg: Config, s: System, move: Move): System
    requires Enabled(s, move)
  {
    match move
    case OfferBlock(m) => s.(state := Enqueued(s.state, m))
    case CheckBoundary(p, ts, read) => s.(state := Checked(s.state, cfg, p, ts, read))
    case Pick => s.(state := Taken(s.state))
    case Answer(r) => s.(state := Posted(s.state, r))
    case Stop => s.(closed := true)
    case Cancel => s.(canceled := true)
    case SeeDone => s.(phase := Draining)
    case SeeCanceled => s.(phase := Stopped)
    case FindEmpty => s.(phase := Stopped)
    case TimeOut => s.(phase := Stopped)
  }

  ghost predicate IsRun(cfg: Config, systems: seq<System>, moves: seq<Move>) {
    && |systems| == |moves| + 1 && systems[0] == STARTED
    && forall i :: 0 <= i < |moves| ==> Enabled(systems[i], moves[i]) && systems[i + 1] == Do(cfg, systems[i], moves[i])
  }

  // 1. The queue.

  function AcceptedOf(offers: seq<Offer>): seq<Notification> {
    if |offers| == 0 then []
    else
      var last := offers[|offers| - 1];
      AcceptedOf(offers[..|offers| - 1]) + if last.accepted then [last.message] else []
  }

  function DroppedOf(offers: seq<Offer>): seq<Notification> {
    if |offers| == 0 then []
    else
      var last := offers[|offers| - 1];
      DroppedOf(offers[..|offers| - 1]) + if last.accepted then [] else [last.message]
  }

  function SentOf(results: seq<Result>): seq<Notification> {
    if |results| == 0 then []
    else
      var last := results[|results| - 1];
      SentOf(results[..|results| - 1]) + if last.sent then [last.message] else []
  }

  function FailedOf(results: seq<Result>): seq<Notification> {
    if |results| == 0 then []
    else
      var last := results[|results| - 1];
      FailedOf(results[..|results| - 1]) + if last.sent then [] else [last.message]
  }

  function OfferMessage(o: Offer): Notification { o.message }
  function ResultMessage(r: Result): Notification { r.message }
  function KindOf(m: Notification): Kind { m.kind }

  function Kinds(ms: seq<Notification>): multiset<Kind> { multiset(Map(ms, KindOf)) }

  function InFlight(s: State): seq<Notification> {
    if s.flight.Some? then [s.flight.value.message] else []
  }

  /** What every move keeps. */
  ghost predicate Conserved(s: State) {
    && |s.queue| <= 64
    && AcceptedOf(s.offers) == Map(s.results, ResultMessage) + InFlight(s) + s.queue
    && s.sentCount == Kinds(SentOf(s.results))
    && s.errorCount == Kinds(DroppedOf(s.offers)) + Kinds(FailedOf(s.results))
    && (forall r :: r in s.results ==> 1 <= r.posts <= 4)
    && (s.flight.Some? ==> s.flight.value.posts <= 3)
  }

  lemma OneMoreOffer(offers: seq<Offer>, o: Offer)
    ensures Map(offers + [o], OfferMessage) == Map(offers, OfferMessage) + [o.message]
    ensures AcceptedOf(offers + [o]) == AcceptedOf(offers) + if o.accepted then [o.message] else []
    ensures DroppedOf(offers + [o]) == DroppedOf(offers) + if o.accepted then [] else [o.message]
  {
  }

  lemma OneMoreResult(results: seq<Result>, r: Result)
    ensures Map(results + [r], ResultMessage) == Map(results, ResultMessage) + [r.message]
    ensures SentOf(results + [r]) == SentOf(results) + if r.sent then [r.message] else []
    ensures FailedOf(results + [r]) == FailedOf(results) + if r.sent then [] else [r.message]
  {
  }

  lemma OneMoreKind(ms: seq<Notification>, m: Notification)
    ensures Kinds(ms + [m]) == Kinds(ms) + multiset{m.kind}
    ensures Kinds(ms + []) == Kinds(ms)
  {
    assert Map(ms + [m], KindOf) == Map(ms, KindOf) + [m.kind];
    assert ms + [] == ms;
  }

  lemma EnqueueConserves(s: State, m: Notification)
    requires Conserved(s)
    ensures Conserved(Enqueued(s, m))
  {
    hide AcceptedOf, DroppedOf, SentOf, FailedOf, Kinds;
    OneMoreOffer(s.offers, Offer(m, true));
    OneMoreOffer(s.offers, Offer(m, false));
    OneMoreKind(DroppedOf(s.offers), m);
  }

  lemma CheckConserves(s: State, cfg: Config, p: Period, ts: int, read: bool)
    requires Conserved(s)
    ensures Conserved(Checked(s, cfg, p, ts, read))
  {
    hide Enqueued, AcceptedOf, DroppedOf, SentOf, FailedOf, Kinds;
    var last := Last(s, p);
    if last.Some? {
      EnqueueConserves(s, SummaryNotice(cfg, p, last.value));
    }
  }

  lemma PostConserves(s: State, r: Response)
    requires Conserved(s) && s.flight.Some?
    ensures Conserved(Posted(s, r))
  {
    hide AcceptedOf, DroppedOf, SentOf, FailedOf, Kinds;
    var m, posts := s.flight.value.message, s.flight.value.posts;
    OneMoreResult(s.results, Result(m, r.Accepted?, posts + 1));
    OneMoreKind(SentOf(s.results), m);
    OneMoreKind(FailedOf(s.results), m);
  }

  lemma MoveConserves(cfg: Config, s: System, move: Move)
    requires Conserved(s.state) && Enabled(s, move)
    ensures Conserved(Do(cfg, s, move).state)
  {
    hide Enqueued, Checked, Posted, AcceptedOf, DroppedOf, SentOf, FailedOf, Kinds;
    match move
    case OfferBlock(m) => EnqueueConserves(s.state, m);
    case CheckBoundary(p, ts, read) => CheckConserves(s.state, cfg, p, ts, read);
    case Pick =>
      assert [s.state.queue[0]] + s.state.queue[1..] == s.state.queue;
    case Answer(r) => PostConserves(s.state, r);
    case _ =>
  }

  lemma IdleConserved()
    ensures Conserved(IDLE)
  {
  }

  /** In every interleaving: the queue stays bounded; the accepted messages, in the order they were
      offered, are the finished ones, then the one in flight, then the queued ones; the counters say
      per type what was sent, and what was dropped or failed; no message is posted more than four times. */
  lemma {:induction false} RunConserves(cfg: Config, systems: seq<System>, moves: seq<Move>, i: nat)
    requires IsRun(cfg, systems, moves) && i < |systems|
    ensures Conserved(systems[i].state)
  {
    hide Conserved, Do, Enabled;
    if i == 0 {
      assert Conserved(IDLE) by { IdleConserved(); }
    } else {
      RunConserves(cfg, systems, moves, i - 1);
      MoveConserves(cfg, systems[i - 1], moves[i - 1]);
    }
  }

  lemma {:induction false} OffersSplit(offers: seq<Offer>)
    ensures multiset(Map(offers, OfferMessage)) == multiset(AcceptedOf(offers)) + multiset(DroppedOf(offers))
  {
    if |offers| > 0 {
      hide AcceptedOf, DroppedOf;
      var init, last := offers[..|offers| - 1], offers[|offers| - 1];
      OffersSplit(init);
      OneMoreOffer(init, last);
      assert offers == init + [last];
    }
  }

  lemma {:induction false} ResultsSplit(results: seq<Result>)
    ensures multiset(Map(results, ResultMessage)) == multiset(SentOf(results)) + multiset(FailedOf(results))
  {
    if |results| > 0 {
      hide SentOf, FailedOf;
      var init, last := results[..|results| - 1], results[|results| - 1];
      ResultsSplit(init);
      OneMoreResult(init, last);
      assert results == init + [last];
    }
  }

  /** Every offered message is exactly one of dropped, sent, failed, in flight and queued. */
  lemma EveryOfferAccounted(cfg: Config, systems: seq<System>, moves: seq<Move>, i: nat)
    requires IsRun(cfg, systems, moves) && i < |systems|
    ensures var s := systems[i].state;
      multiset(Map(s.offers, OfferMessage)) == multiset(DroppedOf(s.offers)) + multiset(SentOf(s.results))
        + multiset(FailedOf(s.results)) + multiset(InFlight(s)) + multiset(s.queue)
  {
    hide IsRun, AcceptedOf, DroppedOf, SentOf, FailedOf, Kinds;
    RunConserves(cfg, systems, moves, i);
    OffersSplit(systems[i].state.offers);
    ResultsSplit(systems[i].state.results);
  }

  // 2. Summaries at boundaries.

  /** The starts of the offered summaries of hours, or of days, in order. */
  function SummariesOf(messages: seq<Notification>, p: Period): seq<int> {
    if |messages| == 0 then []
    else
      var last := messages[|messages| - 1];
      SummariesOf(messages[..|messages| - 1], p)
        + if last.kind == SummaryMessage(p) && last.payload.SummaryOf? then [last.payload.start] else []
  }

  /** One boundary check: the block's time, and whether the summary row could be read. */
  datatype Seen = Seen(ts: int, read: bool)

  function ChecksOf(moves: seq<Move>, p: Period): seq<Seen> {
    if |moves| == 0 then []
    else
      var last := moves[|moves| - 1];
      ChecksOf(moves[..|moves| - 1], p) + if last.CheckBoundary? && last.period == p
          then [Seen(last.ts, last.read)] else []
  }

  /** The reference: a period is summarised when the next block is in another one and its row is read. */
  function Crossings(checks: seq<Seen>, p: Period): seq<int> {
    if |checks| < 2 then []
    else
      var n := |checks| - 1;
      Crossings(checks[..n], p) +
        if Start(p, checks[n - 1].ts) != Start(p, checks[n].ts) && checks[n].read
            then [Start(p, checks[n - 1].ts)] else []
  }

  function LastStart(checks: seq<Seen>, p: Period): Option<int> {
    if |checks| == 0 then None else Some(Start(p, checks[|checks| - 1].ts))
  }

  /** Offers and tracker follow the blocks' times alone. */
  ghost predicate Follows(cfg: Config, s: State, moves: seq<Move>, p: Period) {
    && Last(s, p) == LastStart(ChecksOf(moves, p), p)
    && SummariesOf(Map(s.offers, OfferMessage), p) == if Toggle(cfg, p) then Crossings(ChecksOf(moves, p), p) else []
  }

  lemma OneMoreSummary(s: State, m: Notification, p: Period)
    ensures var s' := Enqueued(s, m);
      && SummariesOf(Map(s'.offers, OfferMessage), p) == SummariesOf(Map(s.offers, OfferMessage), p)
           + (if m.kind == SummaryMessage(p) && m.payload.SummaryOf? then [m.payload.start] else [])
      && s'.lastHour == s.lastHour && s'.lastDay == s.lastDay
  {
    var s', before := Enqueued(s, m), Map(s.offers, OfferMessage);
    assert Map(s'.offers, OfferMessage) == before + [m];
    assert (before + [m])[..|before|] == before;
  }

  lemma CheckedSummaries(s: State, cfg: Config, q: Period, ts: int, read: bool, p: Period)
    ensures var s', last := Checked(s, cfg, q, ts, read), Last(s, p);
      && Last(s', p) == (if q == p then Some(Start(p, ts)) else last)
      && SummariesOf(Map(s'.offers, OfferMessage), p) == SummariesOf(Map(s.offers, OfferMessage), p)
           + if q == p && last.Some? && last.value != Start(p, ts) && Toggle(cfg, p) && read then [last.value] else []
  {
    hide Enqueued, SummariesOf, Start;
    var before := SummariesOf(Map(s.offers, OfferMessage), p);
    assert before + [] == before;
    if Last(s, q).Some? {
      OneMoreSummary(s, SummaryNotice(cfg, q, Last(s, q).value), p);
    }
  }

  lemma OneMoreCheck(moves: seq<Move>, q: Period, ts: int, read: bool, p: Period)
    ensures var checks, last := ChecksOf(moves, p), LastStart(ChecksOf(moves, p), p);
      var longer := ChecksOf(moves + [CheckBoundary(q, ts, read)], p);
      && LastStart(longer, p) == (if q == p then Some(Start(p, ts)) else last)
      && Crossings(longer, p) == Crossings(checks, p)
           + if q == p && last.Some? && last.value != Start(p, ts) && read then [last.value] else []
  {
    hide Start;
    var checks := ChecksOf(moves, p);
    assert (moves + [CheckBoundary(q, ts, read)])[..|moves|] == moves;
    assert (checks + [Seen(ts, read)])[..|checks|] == checks && checks + [] == checks;
    assert Crossings(checks, p) + [] == Crossings(checks, p);
  }

  lemma CheckFollows(cfg: Config, s: State, moves: seq<Move>, p: Period, q: Period, ts: int, read: bool)
    requires Follows(cfg, s, moves, p)
    ensures Follows(cfg, Checked(s, cfg, q, ts, read), moves + [CheckBoundary(q, ts, read)], p)
  {
    hide Checked, SummariesOf, Start, ChecksOf, Crossings, LastStart, Last;
    CheckedSummaries(s, cfg, q, ts, read, p);
    OneMoreCheck(moves, q, ts, read, p);
  }

  lemma OtherFollows(cfg: Config, s: System, moves: seq<Move>, p: Period, move: Move)
    requires Follows(cfg, s.state, moves, p) && Enabled(s, move) && !move.CheckBoundary?
    ensures Follows(cfg, Do(cfg, s, move).state, moves + [move], p)
  {
    hide Enqueued, SummariesOf, Crossings;
    assert (moves + [move])[..|moves|] == moves && ChecksOf(moves, p) + [] == ChecksOf(moves, p);
    if move.OfferBlock? {
      OneMoreSummary(s.state, move.message, p);
    }
  }

  lemma CheckMoves(cfg: Config, s: System, move: Move)
    requires move.CheckBoundary?
    ensures Enabled(s, move) && Do(cfg, s, move).state == Checked(s.state, cfg, move.period, move.ts, move.read)
  {
  }

  lemma NothingFollows(cfg: Config, p: Period)
    ensures Follows(cfg, IDLE, [], p)
  {
  }

  /** In every interleaving the summaries offered are the crossings of the blocks' times. */
  lemma {:induction false} RunFollows(cfg: Config, systems: seq<System>, moves: seq<Move>, p: Period, i: nat)
    requires IsRun(cfg, systems, moves) && i < |systems|
    ensures Follows(cfg, systems[i].state, moves[..i], p)
  {
    hide Follows, Do, Enabled;
    if i == 0 {
      assert moves[..0] == [];
      NothingFollows(cfg, p);
    } else {
      var move := moves[i - 1];
      RunFollows(cfg, systems, moves, p, i - 1);
      assert moves[..i] == moves[..i - 1] + [move];
      if move.CheckBoundary? {
        CheckFollows(cfg, systems[i - 1].state, moves[..i - 1], p, move.period, move.ts, move.read);
        CheckMoves(cfg, systems[i - 1], move);
      } else {
        OtherFollows(cfg, systems[i - 1], moves[..i - 1], p, move);
      }
    }
  }

  ghost predicate Nondecreasing(checks: seq<Seen>) {
    forall i, j :: 0 <= i <= j < |checks| ==> checks[i].ts <= checks[j].ts
  }

  function SeenStart(p: Period): Seen -> int { (c: Seen) => Start(p, c.ts) }

  ghost predicate Rising(starts: seq<int>) {
    forall i, j :: 0 <= i < j < |starts| ==> starts[i] < starts[j]
  }

  /** Strictly increasing, and each period that occurs is there, except the latest. */
  ghost predicate OnceEachButLatest(starts: seq<int>, checks: seq<Seen>, p: Period) {
    && Rising(starts)
    && (forall start :: start in starts <==>
          start in KeysOf(checks, SeenStart(p)) && LastStart(checks, p) != Some(start))
  }

  lemma AppendPrevious(starts: seq<int>, seen: set<int>, previous: int, current: int)
    requires Rising(starts) && forall x :: x in starts <==> x in seen && x != previous
    requires previous in seen && previous <= current && forall x :: x in seen ==> x <= previous
    ensures var longer := starts + if previous != current then [previous] else [];
      Rising(longer) && forall x :: x in longer <==> x in seen + {current} && x != current
  {
    if previous != current {
      forall i | 0 <= i < |starts| ensures starts[i] < previous {
        assert starts[i] in starts;
      }
    } else {
      assert starts + [] == starts;
    }
  }

  lemma {:induction false} CrossingsOnceEach(checks: seq<Seen>, p: Period)
    requires Nondecreasing(checks) && forall i :: 0 <= i < |checks| ==> checks[i].read
    ensures OnceEachButLatest(Crossings(checks, p), checks, p)
  {
    hide Start;
    if |checks| >= 2 {
      var n := |checks| - 1;
      var init, seen := checks[..n], KeysOf(checks[..n], SeenStart(p));
      CrossingsOnceEach(init, p);
      KeysOfPrefix(checks, n, SeenStart(p));
      assert checks[..n + 1] == checks;
      StartMonotone(p, checks[n - 1].ts, checks[n].ts);
      forall i | 0 <= i < n ensures SeenStart(p)(init[i]) <= Start(p, checks[n - 1].ts) {
        StartMonotone(p, checks[i].ts, checks[n - 1].ts);
      }
      assert SeenStart(p)(init[n - 1]) in seen;
      AppendPrevious(Crossings(init, p), seen, Start(p, checks[n - 1].ts), Start(p, checks[n].ts));
    }
  }

  ghost predicate NoSummaryDropped(offers: seq<Offer>, p: Period) {
    forall o :: o in offers && o.message.kind == SummaryMessage(p) ==> o.accepted
  }

  lemma SummariesOneMore(messages: seq<Notification>, m: Notification, p: Period)
    ensures SummariesOf(messages + [m], p) ==
      SummariesOf(messages, p) + if m.kind == SummaryMessage(p) && m.payload.SummaryOf? then [m.payload.start] else []
    ensures SummariesOf(messages + [], p) == SummariesOf(messages, p)
  {
    assert (messages + [m])[..|messages|] == messages && messages + [] == messages;
  }

  lemma {:induction false} NoDropNoLoss(offers: seq<Offer>, p: Period)
    requires NoSummaryDropped(offers, p)
    ensures SummariesOf(AcceptedOf(offers), p) == SummariesOf(Map(offers, OfferMessage), p)
  {
    if |offers| > 0 {
      hide AcceptedOf, DroppedOf, SummariesOf;
      var init, last := offers[..|offers| - 1], offers[|offers| - 1];
      assert offers == init + [last];
      NoDropNoLoss(init, p);
      OneMoreOffer(init, last);
      SummariesOneMore(Map(init, OfferMessage), last.message, p);
      SummariesOneMore(AcceptedOf(init), last.message, p);
    }
  }

  /** With block times in order, the toggle on, rows that can be read and no summary dropped, the
      queue takes exactly one summary for each hour (or day) seen, in order, except the latest. */
  lemma SummariesQueuedOnceEach(cfg: Config, systems: seq<System>, moves: seq<Move>, p: Period)
    requires IsRun(cfg, systems, moves) && Toggle(cfg, p)
    requires var checks := ChecksOf(moves, p);
      Nondecreasing(checks) && forall i :: 0 <= i < |checks| ==> checks[i].read
    requires NoSummaryDropped(systems[|moves|].state.offers, p)
    ensures OnceEachButLatest(SummariesOf(AcceptedOf(systems[|moves|].state.offers), p), ChecksOf(moves, p), p)
  {
    hide Do, Enabled, Nondecreasing, OnceEachButLatest, SummariesOf, AcceptedOf, Crossings, ChecksOf, NoSummaryDropped;
    RunFollows(cfg, systems, moves, p, |moves|);
    assert moves[..|moves|] == moves;
    CrossingsOnceEach(ChecksOf(moves, p), p);
    NoDropNoLoss(systems[|moves|].state.offers, p);
  }

  // 3. The messages of one block.

  /** What has been offered since an earlier state. */
  function OfferedSince(before: State, after: State): seq<Notification>
    requires |before.offers| <= |after.offers|
  {
    Map(after.offers[|before.offers|..], OfferMessage)
  }

  function OfKind(kind: Kind): Notification -> bool { (m: Notification) => m.kind == kind }
  predicate IsSlash(embed: Payload) { embed.Embeds? && embed.isSlash }
  function Addressed(webhook: string, kind: Kind): Payload -> Notification {
    (embed: Payload) => Notification(webhook, embed, kind)
  }

  lemma OfferOne(before: State, s: State, m: Notification)
    requires before.offers <= s.offers
    ensures before.offers <= Enqueued(s, m).offers
    ensures OfferedSince(before, Enqueued(s, m)) == OfferedSince(before, s) + [m]
  {
  }

  lemma FilterOne<T(!new)>(s: seq<T>, x: T, keep: T -> bool)
    ensures Filter(s + [x], keep) == Filter(s, keep) + if keep(x) then [x] else []
  {
    assert (s + [x])[..|s|] == s;
  }

  /** Every embed is offered to the normal webhook; slashes are offered to the critical one too, if there
      is one; each list in the order of the embeds, and nothing else. */
  ghost predicate EmbedsOffered(messages: seq<Notification>, cfg: Config, embeds: seq<Payload>) {
    && Filter(messages, OfKind(BlockMessage)) == Map(embeds, Addressed(cfg.webhook, BlockMessage))
    && Filter(messages, OfKind(SlashCritical)) ==
         (if cfg.criticalWebhook == "" then []
          else Map(Filter(embeds, IsSlash), Addressed(cfg.criticalWebhook, SlashCritical)))
    && forall m :: m in messages ==> m.kind == BlockMessage || m.kind == SlashCritical
  }

  lemma MapOne<T, U>(s: seq<T>, x: T, f: T -> U)
    ensures Map(s + [x], f) == Map(s, f) + [f(x)]
  {
  }

  /** The messages of one more embed. */
  function PlusEmbed(messages: seq<Notification>, cfg: Config, embed: Payload): seq<Notification> {
    var both := messages + [Notification(cfg.webhook, embed, BlockMessage)];
    if IsSlash(embed) && cfg.criticalWebhook != "" then both + [Notification(cfg.criticalWebhook, embed, SlashCritical)]
    else both
  }

  lemma PlusEmbedKinds(messages: seq<Notification>, cfg: Config, embed: Payload)
    ensures var longer := PlusEmbed(messages, cfg, embed);
      && Filter(longer, OfKind(BlockMessage))
         == Filter(messages, OfKind(BlockMessage)) + [Notification(cfg.webhook, embed, BlockMessage)]
      && Filter(longer, OfKind(SlashCritical)) == Filter(messages, OfKind(SlashCritical))
           + (if IsSlash(embed) && cfg.criticalWebhook != ""
              then [Notification(cfg.criticalWebhook, embed, SlashCritical)] else [])
  {
    hide Filter, IsSlash;
    var m, m' := Notification(cfg.webhook, embed, BlockMessage),
        Notification(cfg.criticalWebhook, embed, SlashCritical);
    FilterOne(messages, m, OfKind(BlockMessage));
    FilterOne(messages, m, OfKind(SlashCritical));
    FilterOne(messages + [m], m', OfKind(BlockMessage));
    FilterOne(messages + [m], m', OfKind(SlashCritical));
  }

  lemma OneMoreEmbed(messages: seq<Notification>, cfg: Config, embeds: seq<Payload>)
    requires |embeds| > 0 && EmbedsOffered(messages, cfg, embeds[..|embeds| - 1])
    ensures EmbedsOffered(PlusEmbed(messages, cfg, embeds[|embeds| - 1]), cfg, embeds)
  {
    hide Filter, Map, IsSlash, OfKind;
    var init, embed := embeds[..|embeds| - 1], embeds[|embeds| - 1];
    assert embeds == init + [embed];
    PlusEmbedKinds(messages, cfg, embed);
    MapOne(init, embed, Addressed(cfg.webhook, BlockMessage));
    FilterOne(init, embed, IsSlash);
    MapOne(Filter(init, IsSlash), embed, Addressed(cfg.criticalWebhook, SlashCritical));
    assert Filter(init, IsSlash) + [] == Filter(init, IsSlash);
  }

  lemma NothingOffered(cfg: Config, messages: seq<Notification>, embeds: seq<Payload>)
    requires messages == [] && embeds == []
    ensures EmbedsOffered(messages, cfg, embeds)
  {
  }

  lemma {:induction false} EmbedsAreOffered(s: State, cfg: Config, embeds: seq<Payload>)
    ensures s.offers <= WithEmbeds(s, cfg, embeds).offers
    ensures EmbedsOffered(OfferedSince(s, WithEmbeds(s, cfg, embeds)), cfg, embeds)
  {
    hide EmbedsOffered, Enqueued;
    if |embeds| == 0 {
      NothingOffered(cfg, OfferedSince(s, s), embeds);
    } else {
      var n := |embeds| - 1;
      var before := WithEmbeds(s, cfg, embeds[..n]);
      var m := Notification(cfg.webhook, embeds[n], BlockMessage);
      EmbedsAreOffered(s, cfg, embeds[..n]);
      OneMoreEmbed(OfferedSince(s, before), cfg, embeds);
      OfferOne(s, before, m);
      OfferOne(s, Enqueued(before, m), Notification(cfg.criticalWebhook, embeds[n], SlashCritical));
    }
  }

  /** The boundary checks offer at most the summary of the previous hour and that of the previous day, in
      this order, to the normal webhook. */
  lemma BoundariesOffered(s: State, cfg: Config, ts: int, hourRead: bool, dayRead: bool)
    ensures var s' := CheckedBoth(s, cfg, ts, hourRead, dayRead);
      && s.offers <= s'.offers
      && OfferedSince(s, s') ==
           (if cfg.hourlySummary && hourRead && s.lastHour.Some? && s.lastHour.value != ts - ts % 3600
            then [Notification(cfg.webhook, SummaryOf(s.lastHour.value), SummaryMessage(Hour))] else [])
           + (if cfg.dailySummary && dayRead && s.lastDay.Some? && s.lastDay.value != ts - ts % 86400
              then [Notification(cfg.webhook, SummaryOf(s.lastDay.value), SummaryMessage(Day))] else [])
      && s'.lastHour == Some(ts - ts % 3600) && s'.lastDay == Some(ts - ts % 86400)
  {
  }

  lemma OfferedInTurn(a: State, b: State, c: State)
    requires a.offers <= b.offers <= c.offers
    ensures OfferedSince(a, c) == OfferedSince(a, b) + OfferedSince(b, c)
  {
  }

  /** One block: the summaries of its boundary checks, then the messages of its embeds. */
  lemma BlockOffers(s: State, cfg: Config, ss: seq<Settlement>, os: seq<OverserviceEvent>, hourRead: bool,
                    dayRead: bool, embeds: seq<Payload>) returns (checked: State)
    ensures checked == if BlockTime(ss, os) == ZERO_TIME then s
                       else CheckedBoth(s, cfg, BlockTime(ss, os), hourRead, dayRead)
    ensures var after := Notified(s, cfg, ss, os, hourRead, dayRead, embeds);
      && s.offers <= checked.offers <= after.offers
      && OfferedSince(s, after) == OfferedSince(s, checked) + OfferedSince(checked, after)
      && EmbedsOffered(OfferedSince(checked, after), cfg, embeds)
  {
    hide CheckedBoth, WithEmbeds, EmbedsOffered;
    checked := if BlockTime(ss, os) == ZERO_TIME then s
               else CheckedBoth(s, cfg, BlockTime(ss, os), hourRead, dayRead);
    BoundariesOffered(s, cfg, BlockTime(ss, os), hourRead, dayRead);
    EmbedsAreOffered(checked, cfg, embeds);
    OfferedInTurn(s, checked, Notified(s, cfg, ss, os, hourRead, dayRead, embeds));
  }

  // 4. What a summary shows.

  function DeliverAll(m: Monitor, blocks: seq<Block>): Monitor {
    if |blocks| == 0 then m else Deliver(DeliverAll(m, blocks[..|blocks| - 1]), blocks[|blocks| - 1])
  }

  /** A summary read at a crossing is final: blocks of later periods change neither the row nor the
      raw events it is about. */
  lemma {:induction false} SummaryIsFinal(m: Monitor, later: seq<Block>, p: Period, start: int)
    requires Aligned(p, start)
    requires forall b :: b in later ==> Start(p, b.header.blockTime) > start
    ensures var k, m' := NetworkRow(p, start), DeliverAll(m, later);
      GetSummary(m'.db, k) == GetSummary(m.db, k) && RowEvents(RawOf(m'.db), k) == RowEvents(RawOf(m.db), k)
  {
    hide Deliver, RowEvents, GetSummary, Start;
    if |later| > 0 {
      var init, last := later[..|later| - 1], later[|later| - 1];
      assert last in later && forall b :: b in init ==> b in later;
      SummaryIsFinal(m, init, p, start);
      RowAfterDelivery(DeliverAll(m, init), last, NetworkRow(p, start));
    }
  }
}
