/** The subscriber: blocks seen on the WebSocket, gaps reported, batches emitted. */
module Subscribing {
  import opened Seqs
  import opened Converter
  import opened Collecting

  /** A missing range, both ends included. */
  datatype Gap = Gap(from: int, to: int)

  /** What the receive loop can pick. A block's header query may fail; the wall clock then stands in. */
  datatype Stimulus =
    | NewBlock(height: int, headerTime: Option<int>, wallClock: int, events: seq<Event>)
    | UnexpectedData
    | HeartbeatLog
    | HeartbeatTimeout
    | SubscriptionClosed
    | ContextDone

  predicate EndsConnection(s: Stimulus) { s.HeartbeatTimeout? || s.SubscriptionClosed? || s.ContextDone? }

  /** Everything the subscriber has told the outside, and its memory of the last height. */
  datatype View = View(lastSeen: int, seen: seq<int>, gaps: seq<Gap>, emitted: seq<Batch>)

  const FRESH := View(0, [], [], [])

  function BlockTime(s: Stimulus): int
    requires s.NewBlock?
  {
    if s.headerTime.Some? then s.headerTime.value else s.wallClock
  }

  function Observe(v: View, s: Stimulus): View {
    if !s.NewBlock? then v
    else View(
      s.height,
      v.seen + [s.height],
      if v.lastSeen > 0 && s.height > v.lastSeen + 1 then v.gaps + [Gap(v.lastSeen + 1, s.height - 1)] else v.gaps,
      if |s.events| > 0 then v.emitted + [Batch(s.height, BlockTime(s), s.events)] else v.emitted)
  }

  function ObserveAll(v: View, stimuli: seq<Stimulus>): View {
    if |stimuli| == 0 then v else Observe(ObserveAll(v, stimuli[..|stimuli| - 1]), stimuli[|stimuli| - 1])
  }

  lemma {:induction false} ObserveConcat(v: View, a: seq<Stimulus>, b: seq<Stimulus>)
    ensures ObserveAll(v, a + b) == ObserveAll(ObserveAll(v, a), b)
  {
    hide Observe;
    if |b| == 0 {
      assert a + b == a;
    } else {
      assert (a + b)[..|a + b| - 1] == a + b[..|b| - 1];
      ObserveConcat(v, a, b[..|b| - 1]);
    }
  }

  /** The part of a connection's stimuli that the loop reads: up to the first that ends it. */
  function ReadPart(stimuli: seq<Stimulus>): (read: seq<Stimulus>)
    ensures |read| <= |stimuli| && read == stimuli[..|read|]
  {
    if |stimuli| == 0 then []
    else
      var before := ReadPart(stimuli[..|stimuli| - 1]);
      if |before| < |stimuli| - 1 || (|before| > 0 && EndsConnection(before[|before| - 1])) then before else stimuli
  }

  predicate EndsCanceled(read: seq<Stimulus>) { |read| > 0 && read[|read| - 1].ContextDone? }

  /** All stimuli that are read over a sequence of connections, until the context is canceled. */
  function ReadAll(connections: seq<seq<Stimulus>>): seq<Stimulus> {
    if |connections| == 0 then []
    else
      var read := ReadPart(connections[0]);
      if EndsCanceled(read) then read else read + ReadAll(connections[1..])
  }

  lemma NothingObserved(v: View)
    ensures ObserveAll(v, []) == v
  {
  }

  lemma NothingRead(stimuli: seq<Stimulus>)
    ensures ReadPart(stimuli[..0]) == stimuli[..0]
  {
  }

  lemma ReadOneMore(stimuli: seq<Stimulus>, i: nat)
    requires i < |stimuli| && ReadPart(stimuli[..i]) == stimuli[..i]
    requires i > 0 ==> !EndsConnection(stimuli[i - 1])
    ensures ReadPart(stimuli[..i + 1]) == stimuli[..i + 1]
  {
    assert stimuli[..i + 1][..i] == stimuli[..i];
  }

  lemma {:induction false} ReadStops(stimuli: seq<Stimulus>, n: nat)
    requires 0 < n <= |stimuli| && ReadPart(stimuli[..n]) == stimuli[..n] && EndsConnection(stimuli[n - 1])
    ensures ReadPart(stimuli) == stimuli[..n]
  {
    if n < |stimuli| {
      var init := stimuli[..|stimuli| - 1];
      assert init[..n] == stimuli[..n];
      ReadStops(init, n);
    } else {
      assert stimuli[..n] == stimuli;
    }
  }

  /** What one connection reads: everything up to and including the first heartbeat timeout, closed
      subscription or cancelation, or everything when there is none. */
  lemma {:induction false} ReadPartIs(stimuli: seq<Stimulus>)
    ensures var n := |ReadPart(stimuli)|;
      && (forall i :: 0 <= i < n - 1 ==>
            !stimuli[i].HeartbeatTimeout? && !stimuli[i].SubscriptionClosed? && !stimuli[i].ContextDone?)
      && (n < |stimuli| ==>
            n > 0 && (stimuli[n - 1].HeartbeatTimeout? || stimuli[n - 1].SubscriptionClosed?
                      || stimuli[n - 1].ContextDone?))
  {
    if |stimuli| > 0 {
      ReadPartIs(stimuli[..|stimuli| - 1]);
    }
  }

  function ReadParts(connections: seq<seq<Stimulus>>): seq<Stimulus> {
    if |connections| == 0 then [] else ReadPart(connections[0]) + ReadParts(connections[1..])
  }

  /** What all connections read together: one after the other, until one ends with a cancelation. */
  lemma {:induction false} ReadAllIs(connections: seq<seq<Stimulus>>) returns (n: nat)
    ensures n <= |connections| && ReadAll(connections) == ReadParts(connections[..n])
    ensures forall i :: 0 <= i < n - 1 ==> !EndsCanceled(ReadPart(connections[i]))
    ensures n < |connections| ==> n > 0 && EndsCanceled(ReadPart(connections[n - 1]))
  {
    hide ReadPart, EndsCanceled;
    if |connections| == 0 {
      n := 0;
    } else if EndsCanceled(ReadPart(connections[0])) {
      n := 1;
      assert connections[..1][1..] == [];
      assert ReadPart(connections[0]) + [] == ReadPart(connections[0]);
    } else {
      n := ReadAllIs(connections[1..]);
      n := n + 1;
      assert connections[..n][1..] == connections[1..][..n - 1];
      assert forall i :: 0 < i < |connections| ==> connections[i] == connections[1..][i - 1];
    }
  }

  class Subscriber {
    var lastSeenHeight: int
    var seen: seq<int>
    var gaps: seq<Gap>
    var emitted: seq<Batch>

    ghost function Told(): View
      reads this
    {
      View(lastSeenHeight, seen, gaps, emitted)
    }

    constructor ()
      ensures Told() == FRESH
    {
      lastSeenHeight, seen, gaps, emitted := 0, [], [], [];
    }

    /** A block event: gap check against the last height, then the callbacks, then the emission. */
    method HandleBlock(height: int, headerTime: Option<int>, wallClock: int, events: seq<Event>)
      modifies this
      ensures Told() == Observe(old(Told()), NewBlock(height, headerTime, wallClock, events))
    {
      var blockTime := wallClock;
      if headerTime.Some? {
        blockTime := headerTime.value;
      }
      if lastSeenHeight > 0 && height > lastSeenHeight + 1 {
        gaps := gaps + [Gap(lastSeenHeight + 1, height - 1)];
      }
      lastSeenHeight := height;
      seen := seen + [height];
      if |events| > 0 {
        emitted := emitted + [Batch(height, blockTime, events)];
      }
    }

    /** One connection. Returns whether the context was canceled. */
    method ReceiveLoop(stimuli: seq<Stimulus>) returns (canceled: bool)
      modifies this
      ensures Told() == ObserveAll(old(Told()), ReadPart(stimuli))
      ensures canceled <==> EndsCanceled(ReadPart(stimuli))
    {
      hide ReadPart;
      NothingRead(stimuli);
      var i := 0;
      while i < |stimuli|
        invariant i <= |stimuli| && ReadPart(stimuli[..i]) == stimuli[..i]
        invariant i > 0 ==> !EndsConnection(stimuli[i - 1])
        invariant Told() == ObserveAll(old(Told()), stimuli[..i])
      {
        var s := stimuli[i];
        assert stimuli[..i + 1][..i] == stimuli[..i];
        ReadOneMore(stimuli, i);
        if s.NewBlock? {
          HandleBlock(s.height, s.headerTime, s.wallClock, s.events);
        }
        i := i + 1;
        assert Told() == ObserveAll(old(Told()), stimuli[..i]);
        if EndsConnection(s) {
          ReadStops(stimuli, i);
          return s.ContextDone?;
        }
      }
      assert stimuli[..|stimuli|] == stimuli;
      canceled := false;
    }

    /** Connection after connection: a reconnect keeps the last seen height. */
    method Run(connections: seq<seq<Stimulus>>)
      modifies this
      ensures Told() == ObserveAll(old(Told()), ReadAll(connections))
    {
      hide ReadPart, ObserveAll, EndsCanceled;
      ghost var v := Told();
      ghost var read: seq<Stimulus> := [];
      NothingObserved(v);
      assert connections[0..] == connections && [] + ReadAll(connections) == ReadAll(connections);
      for i := 0 to |connections|
        invariant Told() == ObserveAll(v, read)
        invariant ReadAll(connections) == read + ReadAll(connections[i..])
      {
        var canceled := ReceiveLoop(connections[i]);
        ObserveConcat(v, read, ReadPart(connections[i]));
        assert connections[i..][0] == connections[i] && connections[i..][1..] == connections[i + 1..];
        if canceled {
          return;
        }
        assert read + (ReadPart(connections[i]) + ReadAll(connections[i + 1..]))
            == (read + ReadPart(connections[i])) + ReadAll(connections[i + 1..]);
        read := read + ReadPart(connections[i]);
      }
      assert read + [] == read;
    }
  }

  // What the outside is told.

  predicate IsBlock(s: Stimulus) { s.NewBlock? }
  predicate CarriesEvents(s: Stimulus) { s.NewBlock? && |s.events| > 0 }

  /** One height for each block read and one batch for each block with events, in order: its height, its
      events, and the time of its header or, when that cannot be had, the wall clock. */
  ghost predicate Relays(v: View, v': View, stimuli: seq<Stimulus>) {
    var blocks, carrying := Filter(stimuli, IsBlock), Filter(stimuli, CarriesEvents);
    && |v'.seen| == |v.seen| + |blocks| && v'.seen[..|v.seen|] == v.seen
    && (forall i :: 0 <= i < |blocks| ==> blocks[i].NewBlock? && v'.seen[|v.seen| + i] == blocks[i].height)
    && |v'.emitted| == |v.emitted| + |carrying| && v'.emitted[..|v.emitted|] == v.emitted
    && (forall i :: 0 <= i < |carrying| ==>
          && carrying[i].NewBlock?
          && v'.emitted[|v.emitted| + i].height == carrying[i].height
          && v'.emitted[|v.emitted| + i].events == carrying[i].events
          && v'.emitted[|v.emitted| + i].time ==
               match carrying[i].headerTime case Some(time) => time case None => carrying[i].wallClock)
  }

  lemma RelaysOneMore(v: View, before: View, stimuli: seq<Stimulus>)
    requires |stimuli| > 0 && Relays(v, before, stimuli[..|stimuli| - 1])
    ensures Relays(v, Observe(before, stimuli[|stimuli| - 1]), stimuli)
  {
    hide Filter;
    var n := |stimuli| - 1;
    assert stimuli[..n + 1] == stimuli;
    FilterPrefix(stimuli, n, IsBlock);
    FilterPrefix(stimuli, n, CarriesEvents);
  }

  lemma NothingRelayed(v: View, stimuli: seq<Stimulus>)
    requires stimuli == []
    ensures Relays(v, v, stimuli)
  {
  }

  lemma {:induction false} EverythingIsRelayed(v: View, stimuli: seq<Stimulus>)
    ensures Relays(v, ObserveAll(v, stimuli), stimuli)
  {
    hide Relays, Observe;
    if |stimuli| > 0 {
      EverythingIsRelayed(v, stimuli[..|stimuli| - 1]);
      RelaysOneMore(v, ObserveAll(v, stimuli[..|stimuli| - 1]), stimuli);
    } else {
      NothingRelayed(v, stimuli);
    }
  }

  // Gap coverage.

  predicate Has(gap: Gap, h: int) { gap.from <= h <= gap.to }

  ghost predicate InGap(gaps: seq<Gap>, h: int) {
    exists i :: 0 <= i < |gaps| && Has(gaps[i], h)
  }

  ghost predicate PositiveBlocks(stimuli: seq<Stimulus>) {
    forall s :: s in stimuli && s.NewBlock? ==> s.height > 0
  }

  /** The view of a subscriber that has run from the start. */
  ghost predicate Tracks(v: View) {
    && (v.seen == [] ==> v == FRESH)
    && (v.seen != [] ==> v.lastSeen == v.seen[|v.seen| - 1])
    && (forall h :: h in v.seen ==> h > 0)
  }

  ghost predicate Covers(v: View) {
    forall h, x :: v.seen != [] && v.seen[0] <= h <= x && x in v.seen ==> h in v.seen || InGap(v.gaps, h)
  }

  lemma ObserveCovers(v: View, s: Stimulus)
    requires Tracks(v) && Covers(v) && (s.NewBlock? ==> s.height > 0)
    ensures Tracks(Observe(v, s)) && Covers(Observe(v, s))
  {
    if s.NewBlock? && v.seen != [] {
      var v' := Observe(v, s);
      assert v.lastSeen in v.seen;
      forall h, x | v'.seen[0] <= h <= x && x in v'.seen && h !in v'.seen ensures InGap(v'.gaps, h) {
        if x in v.seen || h <= v.lastSeen {
          assert h in v.seen || InGap(v.gaps, h);
          var i :| 0 <= i < |v.gaps| && Has(v.gaps[i], h);
          assert Has(v'.gaps[i], h);
        } else {
          assert v'.gaps == v.gaps + [Gap(v.lastSeen + 1, s.height - 1)];
          assert Has(v'.gaps[|v.gaps|], h);
        }
      }
    }
  }

  /** Gap coverage: whatever heights arrive, also with repeats and steps back, over any number of
      reconnects, every height from the first seen up to any seen one is seen or in a reported gap. */
  lemma {:induction false} GapCoverage(stimuli: seq<Stimulus>)
    requires PositiveBlocks(stimuli)
    ensures Tracks(ObserveAll(FRESH, stimuli)) && Covers(ObserveAll(FRESH, stimuli))
  {
    hide Observe;
    if |stimuli| > 0 {
      var init, last := stimuli[..|stimuli| - 1], stimuli[|stimuli| - 1];
      assert last in stimuli && forall s :: s in init ==> s in stimuli;
      GapCoverage(init);
      ObserveCovers(ObserveAll(FRESH, init), last);
    }
  }

  /** The reference: a gap wherever a seen height skips some. */
  function Skipped(seen: seq<int>): seq<Gap> {
    if |seen| < 2 then []
    else
      var n := |seen| - 1;
      Skipped(seen[..n]) + if seen[n] > seen[n - 1] + 1 then [Gap(seen[n - 1] + 1, seen[n] - 1)] else []
  }

  /** The reported gaps are those between consecutive seen heights, and no others. */
  lemma {:induction false} GapsAreSkipped(stimuli: seq<Stimulus>)
    requires PositiveBlocks(stimuli)
    ensures ObserveAll(FRESH, stimuli).gaps == Skipped(ObserveAll(FRESH, stimuli).seen)
  {
    if |stimuli| > 0 {
      var init, last := stimuli[..|stimuli| - 1], stimuli[|stimuli| - 1];
      var v := ObserveAll(FRESH, init);
      assert last in stimuli && forall s :: s in init ==> s in stimuli;
      GapsAreSkipped(init);
      GapCoverage(init);
      if last.NewBlock? {
        assert (v.seen + [last.height])[..|v.seen|] == v.seen;
        assert v.seen != [] ==> v.seen[|v.seen| - 1] in v.seen;
      }
    }
  }

  ghost predicate Increasing(hs: seq<int>) {
    forall i, j :: 0 <= i < j < |hs| ==> hs[i] < hs[j]
  }

  /** Gap ranges are in order, apart from each other and from the seen heights. */
  ghost predicate Partitions(v: View) {
    && (forall i, h :: 0 <= i < |v.gaps| && h in v.seen ==> !Has(v.gaps[i], h))
    && (forall i, j :: 0 <= i < j < |v.gaps| ==> v.gaps[i].to < v.gaps[j].from)
    && (forall i :: 0 <= i < |v.gaps| ==> v.seen != [] && v.seen[0] < v.gaps[i].from <= v.gaps[i].to < v.lastSeen)
  }

  lemma ObservePartitions(v: View, s: Stimulus)
    requires Tracks(v) && Partitions(v) && Increasing(Observe(v, s).seen)
    requires s.NewBlock? ==> s.height > 0
    ensures Partitions(Observe(v, s))
  {
    var v' := Observe(v, s);
    if s.NewBlock? && v.seen != [] {
      assert v'.seen[|v.seen| - 1] < v'.seen[|v.seen|];
      forall x | x in v.seen ensures v.seen[0] <= x <= v.lastSeen < s.height {
        var i :| 0 <= i < |v.seen| && v.seen[i] == x;
        assert v'.seen[i] == x && v'.seen[0] == v.seen[0];
        assert i < |v.seen| - 1 ==> v'.seen[i] < v'.seen[|v.seen| - 1];
        assert 0 < i ==> v'.seen[0] < v'.seen[i];
      }
    }
  }

  lemma NoGaps()
    ensures Partitions(FRESH)
  {
  }

  lemma IncreasingBefore(v: View, s: Stimulus)
    requires Increasing(Observe(v, s).seen)
    ensures Increasing(v.seen)
  {
    var v' := Observe(v, s);
    forall i, j | 0 <= i < j < |v.seen| ensures v.seen[i] < v.seen[j] {
      assert v'.seen[i] == v.seen[i] && v'.seen[j] == v.seen[j];
    }
  }

  /** With strictly increasing heights the gap ranges are disjoint from each other and from the
      seen heights, so every covered height is reached by exactly one of the two paths. */
  lemma {:induction false} GapsPartition(stimuli: seq<Stimulus>)
    requires PositiveBlocks(stimuli) && Increasing(ObserveAll(FRESH, stimuli).seen)
    ensures Partitions(ObserveAll(FRESH, stimuli))
  {
    hide Observe, Partitions, Tracks;
    if |stimuli| == 0 {
      NoGaps();
    } else {
      var init, last := stimuli[..|stimuli| - 1], stimuli[|stimuli| - 1];
      assert last in stimuli && forall s :: s in init ==> s in stimuli;
      GapCoverage(init);
      IncreasingBefore(ObserveAll(FRESH, init), last);
      GapsPartition(init);
      ObservePartitions(ObserveAll(FRESH, init), last);
    }
  }
}
