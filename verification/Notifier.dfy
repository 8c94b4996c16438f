/** The notifier: a bounded queue, a sender with retries, and summaries at hour and day boundaries. */
module Notifying {
  import opened Seqs
  import opened Model
  import opened Periods

  const CHANNEL_BUFFER_SIZE := 64
  const MAX_RETRIES := 3

  datatype Kind = BlockMessage | SlashCritical | SummaryMessage(period: Period)

  datatype Payload = Embeds(text: string, isSlash: bool) | SummaryOf(start: int)

  datatype Notification = Notification(webhook: string, payload: Payload, kind: Kind)

  datatype Config = Config(webhook: string, criticalWebhook: string, hourlySummary: bool, dailySummary: bool)

  /** How a post ends. A rate-limited one is followed by a wait, which the context may cut short. */
  datatype Response = Accepted | RateLimited(waited: bool) | Refused | Unreachable

  datatype Offer = Offer(message: Notification, accepted: bool)

  datatype Result = Result(message: Notification, sent: bool, posts: nat)

  /** The message in the sender's hands and the posts made for it so far. */
  datatype Flight = Flight(message: Notification, posts: nat)

  /** The notifier with everything it was offered and everything it has finished. */
  datatype State = State(
    queue: seq<Notification>,
    flight: Option<Flight>,
    offers: seq<Offer>,
    results: seq<Result>,
    sentCount: multiset<Kind>,
    errorCount: multiset<Kind>,
    lastHour: Option<int>,
    lastDay: Option<int>)

  const IDLE := State([], None, [], [], multiset{}, multiset{}, None, None)

  // Single steps.

  /** A full channel drops the message and counts an error. */
  function Enqueued(s: State, m: Notification): State {
    if |s.queue| < CHANNEL_BUFFER_SIZE
    then s.(queue := s.queue + [m], offers := s.offers + [Offer(m, true)])
    else s.(offers := s.offers + [Offer(m, false)], errorCount := s.errorCount + multiset{m.kind})
  }

  function Taken(s: State): State
    requires s.queue != []
  {
    s.(queue := s.queue[1..], flight := Some(Flight(s.queue[0], 0)))
  }

  predicate Retries(attempt: nat, r: Response) { r.RateLimited? && r.waited && attempt < MAX_RETRIES }

  /** One post of the message in flight. */
  function Posted(s: State, r: Response): State
    requires s.flight.Some?
  {
    var f := s.flight.value;
    if Retries(f.posts, r) then s.(flight := Some(f.(posts := f.posts + 1)))
    else
      var done := s.(flight := None, results := s.results + [Result(f.message, r.Accepted?, f.posts + 1)]);
      if r.Accepted? then done.(sentCount := s.sentCount + multiset{f.message.kind})
      else done.(errorCount := s.errorCount + multiset{f.message.kind})
  }

  function Last(s: State, p: Period): Option<int> { if p.Hour? then s.lastHour else s.lastDay }

  function Toggle(cfg: Config, p: Period): bool { if p.Hour? then cfg.hourlySummary else cfg.dailySummary }

  function SummaryNotice(cfg: Config, p: Period, start: int): Notification {
    Notification(cfg.webhook, SummaryOf(start), SummaryMessage(p))
  }

  /** The boundary check for hours, or for days; `read` says whether the summary row could be read. */
  function Checked(s: State, cfg: Config, p: Period, ts: int, read: bool): State {
    var last, current := Last(s, p), Start(p, ts);
    var s' := if last.Some? && last.value != current && Toggle(cfg, p) && read
              then Enqueued(s, SummaryNotice(cfg, p, last.value)) else s;
    if p.Hour? then s'.(lastHour := Some(current)) else s'.(lastDay := Some(current))
  }

  // The sender's turn: posts until the message is done.

  function Finished(s: State, answer: nat -> Response): (r: State)
    requires s.flight.Some?
    ensures r.queue == s.queue && r.flight == None
    decreases MAX_RETRIES + 1 - s.flight.value.posts
  {
    var s' := Posted(s, answer(s.flight.value.posts));
    if s'.flight.Some? then Finished(s', answer) else s'
  }

  /** The first `n` queued messages sent, one after the other. */
  function Drained(s: State, answers: nat -> (nat -> Response), n: nat): (r: State)
    requires n <= |s.queue|
    ensures r.queue == s.queue[n..]
  {
    if n == 0 then s else Finished(Taken(Drained(s, answers, n - 1)), answers(n - 1))
  }

  function TimeOfSettlement(s: Settlement): int { s.blockTime }
  function TimeOfOverservice(o: OverserviceEvent): int { o.blockTime }

  /** Go's zero time, January 1 of year 1. */
  const ZERO_TIME := -62135596800

  function FirstTime(times: seq<int>): int {
    if |times| == 0 then ZERO_TIME else if times[0] != ZERO_TIME then times[0] else FirstTime(times[1..])
  }

  /** Reimbursements are not looked at. */
  function BlockTime(ss: seq<Settlement>, os: seq<OverserviceEvent>): int {
    FirstTime(Map(ss, TimeOfSettlement) + Map(os, TimeOfOverservice))
  }

  lemma {:induction false} FirstTimeIs(times: seq<int>, i: nat)
    requires i <= |times| && (forall j :: 0 <= j < i ==> times[j] == ZERO_TIME)
    requires i < |times| ==> times[i] != ZERO_TIME
    ensures FirstTime(times) == if i < |times| then times[i] else ZERO_TIME
  {
    if i > 0 {
      FirstTimeIs(times[1..], i - 1);
    }
  }

  ghost predicate NoTimes(ss: seq<Settlement>, os: seq<OverserviceEvent>) {
    && (forall j :: 0 <= j < |ss| ==> ss[j].blockTime == ZERO_TIME)
    && (forall j :: 0 <= j < |os| ==> os[j].blockTime == ZERO_TIME)
  }

  lemma NoTimeIff(ss: seq<Settlement>, os: seq<OverserviceEvent>)
    ensures BlockTime(ss, os) == ZERO_TIME <==> NoTimes(ss, os)
  {
    hide FirstTime;
    var times, n := Map(ss, TimeOfSettlement) + Map(os, TimeOfOverservice), 0;
    while n < |times| && times[n] == ZERO_TIME
      invariant n <= |times| && forall j :: 0 <= j < n ==> times[j] == ZERO_TIME
    {
      n := n + 1;
    }
    FirstTimeIs(times, n);
    if n < |ss| {
      assert ss[n].blockTime == times[n];
    } else if n < |times| {
      assert os[n - |ss|].blockTime == times[n];
    } else {
      forall j | 0 <= j < |ss| ensures ss[j].blockTime == ZERO_TIME {
        assert ss[j].blockTime == times[j];
      }
      forall j | 0 <= j < |os| ensures os[j].blockTime == ZERO_TIME {
        assert os[j].blockTime == times[|ss| + j];
      }
    }
  }

  /** The time of a block is that of its first settlement that has one, else that of its first overservice
      event that has one; reimbursements do not help. */
  lemma BlockTimeIs(ss: seq<Settlement>, os: seq<OverserviceEvent>)
    ensures forall i :: 0 <= i < |ss| && NoTimes(ss[..i], []) && ss[i].blockTime != ZERO_TIME ==>
      BlockTime(ss, os) == ss[i].blockTime
    ensures forall i :: 0 <= i < |os| && NoTimes(ss, os[..i]) && os[i].blockTime != ZERO_TIME ==>
      BlockTime(ss, os) == os[i].blockTime
    ensures BlockTime(ss, os) == ZERO_TIME <==> NoTimes(ss, os)
  {
    hide FirstTime;
    var times := Map(ss, TimeOfSettlement) + Map(os, TimeOfOverservice);
    forall i | 0 <= i < |ss| && NoTimes(ss[..i], []) && ss[i].blockTime != ZERO_TIME
      ensures BlockTime(ss, os) == ss[i].blockTime
    {
      assert forall j :: 0 <= j < i ==> ss[j] == ss[..i][j];
      FirstTimeIs(times, i);
    }
    forall i | 0 <= i < |os| && NoTimes(ss, os[..i]) && os[i].blockTime != ZERO_TIME
      ensures BlockTime(ss, os) == os[i].blockTime
    {
      assert forall j :: 0 <= j < i ==> os[j] == os[..i][j];
      FirstTimeIs(times, |ss| + i);
    }
    NoTimeIff(ss, os);
  }

  function WithEmbed(s: State, cfg: Config, embed: Payload): State {
    var s' := Enqueued(s, Notification(cfg.webhook, embed, BlockMessage));
    if embed.Embeds? && embed.isSlash && cfg.criticalWebhook != ""
    then Enqueued(s', Notification(cfg.criticalWebhook, embed, SlashCritical)) else s'
  }

  function WithEmbeds(s: State, cfg: Config, embeds: seq<Payload>): State {
    if |embeds| == 0 then s else WithEmbed(WithEmbeds(s, cfg, embeds[..|embeds| - 1]), cfg, embeds[|embeds| - 1])
  }

  function CheckedBoth(s: State, cfg: Config, ts: int, hourRead: bool, dayRead: bool): State {
    Checked(Checked(s, cfg, Hour, ts, hourRead), cfg, Day, ts, dayRead)
  }

  /** A block: boundaries first, when a time is known, then its own embeds. */
  function Notified(s: State, cfg: Config, ss: seq<Settlement>, os: seq<OverserviceEvent>, hourRead: bool,
                    dayRead: bool, embeds: seq<Payload>): State
  {
    var ts := BlockTime(ss, os);
    WithEmbeds(if ts != ZERO_TIME then CheckedBoth(s, cfg, ts, hourRead, dayRead) else s, cfg, embeds)
  }

  lemma DrainOneMore(s: State, answers: nat -> (nat -> Response), n: nat)
    requires n <= |s.queue|
    ensures Drained(s, answers, 0) == s
    ensures n < |s.queue| ==> Drained(s, answers, n + 1) == Finished(Taken(Drained(s, answers, n)), answers(n))
  {
  }

  lemma {:induction false} FinishedAfter(s: State, answer: nat -> Response, sent: bool, posts: nat)
    requires s.flight.Some? && s.flight.value.posts < posts <= MAX_RETRIES + 1
    requires forall a :: s.flight.value.posts <= a < posts - 1 ==> answer(a) == RateLimited(true)
    requires sent <==> answer(posts - 1).Accepted?
    requires answer(posts - 1) == RateLimited(true) ==> posts == MAX_RETRIES + 1
    ensures var m := s.flight.value.message;
      Finished(s, answer) == s.(
        flight := None,
        results := s.results + [Result(m, sent, posts)],
        sentCount := if sent then s.sentCount + multiset{m.kind} else s.sentCount,
        errorCount := if sent then s.errorCount else s.errorCount + multiset{m.kind})
    decreases posts - s.flight.value.posts
  {
    if s.flight.value.posts < posts - 1 {
      FinishedAfter(Posted(s, answer(s.flight.value.posts)), answer, sent, posts);
    }
  }

  class Notifier {
    const cfg: Config
    var queue: seq<Notification>
    var sentCount: multiset<Kind>
    var errorCount: multiset<Kind>
    var lastHourlySummary: Option<int>
    var lastDailySummary: Option<int>
    ghost var offers: seq<Offer>
    ghost var results: seq<Result>

    /** Between two turns of the sender. */
    ghost function View(): State
      reads this
    {
      State(queue, None, offers, results, sentCount, errorCount, lastHourlySummary, lastDailySummary)
    }

    constructor (cfg: Config)
      ensures this.cfg == cfg && View() == IDLE
    {
      this.cfg := cfg;
      queue, sentCount, errorCount := [], multiset{}, multiset{};
      lastHourlySummary, lastDailySummary := None, None;
      offers, results := [], [];
    }

    method Enqueue(m: Notification)
      modifies this
      ensures View() == Enqueued(old(View()), m)
      ensures offers == old(offers) + [Offer(m, |old(queue)| < 64)]
    {
      if |queue| < CHANNEL_BUFFER_SIZE {
        queue := queue + [m];
        offers := offers + [Offer(m, true)];
      } else {
        errorCount := errorCount + multiset{m.kind};
        offers := offers + [Offer(m, false)];
      }
    }

    /** At most four posts: another one follows only on a rate limit whose wait was not cut short,
        and nothing but acceptance by the last one counts as sent. */
    method SendWithRetry(answer: nat -> Response) returns (sent: bool, posts: nat)
      ensures 1 <= posts <= 4
      ensures forall a :: 0 <= a < posts - 1 ==> answer(a) == RateLimited(true)
      ensures sent <==> answer(posts - 1).Accepted?
      ensures answer(posts - 1) == RateLimited(true) ==> posts == 4
    {
      for attempt := 0 to MAX_RETRIES + 1
        invariant forall a :: 0 <= a < attempt ==> answer(a) == RateLimited(true)
      {
        match answer(attempt) {
          case Accepted => return true, attempt + 1;
          case RateLimited(waited) =>
            if attempt == MAX_RETRIES || !waited {
              return false, attempt + 1;
            }
          case Refused => return false, attempt + 1;
          case Unreachable => return false, attempt + 1;
        }
      }
      return false, MAX_RETRIES + 1;
    }

    /** A message is received from the channel, sent, and counted. */
    method SendNext(answer: nat -> Response)
      requires queue != []
      modifies this
      ensures View() == Finished(Taken(old(View())), answer)
    {
      var m := queue[0];
      queue := queue[1..];
      var sent, posts := SendWithRetry(answer);
      FinishedAfter(Taken(old(View())), answer, sent, posts);
      results := results + [Result(m, sent, posts)];
      if sent {
        sentCount := sentCount + multiset{m.kind};
      } else {
        errorCount := errorCount + multiset{m.kind};
      }
    }

    /** The drain at shutdown: until the channel is empty or the timeout is noticed. */
    method Drain(answers: nat -> (nat -> Response), timedOut: nat -> bool) returns (ghost n: nat)
      modifies this
      ensures n <= |old(queue)| && View() == Drained(old(View()), answers, n)
      ensures (forall i :: 0 <= i < n ==> !timedOut(i)) && (n == |old(queue)| || timedOut(n))
    {
      hide Finished, Posted, Drained;
      DrainOneMore(View(), answers, 0);
      var i := 0;
      while |queue| > 0
        invariant i <= |old(queue)| && View() == Drained(old(View()), answers, i)
        invariant forall j :: 0 <= j < i ==> !timedOut(j)
        decreases |queue|
      {
        if timedOut(i) {
          return i;
        }
        DrainOneMore(old(View()), answers, i);
        SendNext(answers(i));
        i := i + 1;
      }
      n := i;
    }

    method CheckHour(ts: int, read: bool)
      modifies this
      ensures View() == Checked(old(View()), cfg, Hour, ts, read)
    {
      hide Enqueued;
      var currentHour := HourStart(ts);
      if lastHourlySummary.None? {
        lastHourlySummary := Some(currentHour);
      } else if currentHour != lastHourlySummary.value {
        if cfg.hourlySummary && read {
          Enqueue(Notification(cfg.webhook, SummaryOf(lastHourlySummary.value), SummaryMessage(Hour)));
        }
        lastHourlySummary := Some(currentHour);
      }
    }

    method CheckDay(ts: int, read: bool)
      modifies this
      ensures View() == Checked(old(View()), cfg, Day, ts, read)
    {
      hide Enqueued;
      var currentDay := DayStart(ts);
      if lastDailySummary.None? {
        lastDailySummary := Some(currentDay);
      } else if currentDay != lastDailySummary.value {
        if cfg.dailySummary && read {
          Enqueue(Notification(cfg.webhook, SummaryOf(lastDailySummary.value), SummaryMessage(Day)));
        }
        lastDailySummary := Some(currentDay);
      }
    }

    method CheckSummaryBoundary(ts: int, hourRead: bool, dayRead: bool)
      modifies this
      ensures View() == CheckedBoth(old(View()), cfg, ts, hourRead, dayRead)
    {
      hide Checked;
      CheckHour(ts, hourRead);
      CheckDay(ts, dayRead);
    }

    /** The first timestamp that is not Go's zero time. */
    method FindTime(ss: seq<Settlement>, os: seq<OverserviceEvent>) returns (ts: int)
      ensures ts == BlockTime(ss, os)
    {
      var times := Map(ss, TimeOfSettlement) + Map(os, TimeOfOverservice);
      for i := 0 to |ss|
        invariant FirstTime(times) == FirstTime(times[i..])
      {
        assert times[i..][0] == ss[i].blockTime && times[i..][1..] == times[i + 1..];
        if ss[i].blockTime != ZERO_TIME {
          return ss[i].blockTime;
        }
      }
      for i := 0 to |os|
        invariant FirstTime(times) == FirstTime(times[|ss| + i..])
      {
        assert times[|ss| + i..][0] == os[i].blockTime && times[|ss| + i..][1..] == times[|ss| + i + 1..];
        if os[i].blockTime != ZERO_TIME {
          return os[i].blockTime;
        }
      }
      assert times[|ss| + |os|..] == [];
      ts := ZERO_TIME;
    }

    /** Boundaries are checked before the block's own embeds are queued. */
    method NotifyBlock(ss: seq<Settlement>, os: seq<OverserviceEvent>, hourRead: bool, dayRead: bool,
        embeds: seq<Payload>)
      modifies this
      ensures View() == Notified(old(View()), cfg, ss, os, hourRead, dayRead, embeds)
    {
      hide CheckedBoth, Enqueued;
      var ts := FindTime(ss, os);
      if ts != ZERO_TIME {
        CheckSummaryBoundary(ts, hourRead, dayRead);
      }
      ghost var checked := View();
      for i := 0 to |embeds|
        invariant View() == WithEmbeds(checked, cfg, embeds[..i])
      {
        assert embeds[..i + 1][..i] == embeds[..i];
        Enqueue(Notification(cfg.webhook, embeds[i], BlockMessage));
        if embeds[i].Embeds? && embeds[i].isSlash && cfg.criticalWebhook != "" {
          Enqueue(Notification(cfg.criticalWebhook, embeds[i], SlashCritical));
        }
      }
      assert embeds[..|embeds|] == embeds;
    }
  }
}
