/** The collector: batches of one height are gathered and flushed to the processor. */
module Collecting {
  import opened Converter

  /** A block's decoded events, as the subscriber sends them. */
  datatype Batch = Batch(height: int, time: int, events: seq<Event>)

  /** One `ProcessBlock` call and whether it succeeded. */
  datatype Call = Call(height: int, time: int, events: seq<Event>, ok: bool)

  /** What the select statement can pick. */
  datatype Input = BlockArrives(batch: Batch) | TimerFires | ContextCanceled | ChannelClosed

  datatype Status = Running | Finished | FlushFailed

  /** The collector's fields, the calls it has made, and what a failed flush has lost. */
  datatype State = State(
    height: int,
    time: int,
    events: seq<Event>,
    calls: seq<Call>,
    lost: seq<(int, Event)>,
    status: Status)

  const START := State(0, 0, [], [], [], Running)

  /** Whether the n-th call to the processor fails. */
  type Failures = nat -> bool

  function Label(height: int, events: seq<Event>): seq<(int, Event)> {
    seq(|events|, i requires 0 <= i < |events| => (height, events[i]))
  }

  /** `flush`: the buffer is reset even when the call fails. */
  function Flush(st: State, fails: Failures): State {
    var failed := fails(|st.calls|);
    st.(height := 0, time := 0, events := [],
        calls := st.calls + [Call(st.height, st.time, st.events, !failed)],
        lost := if failed then st.lost + Label(st.height, st.events) else st.lost,
        status := if failed then FlushFailed else st.status)
  }

  function Accumulate(st: State, b: Batch): State {
    st.(height := b.height, time := b.time, events := st.events + b.events)
  }

  /** The final flush: its error is only logged. */
  function Final(st: State, fails: Failures): State {
    (if |st.events| > 0 then Flush(st, fails) else st).(status := Finished)
  }

  /** One turn of the loop. */
  function Next(st: State, input: Input, fails: Failures): State
    requires st.status.Running?
  {
    match input
    case BlockArrives(b) =>
      if st.height != 0 && b.height != st.height then
        var flushed := Flush(st, fails);
        if flushed.status.FlushFailed? then flushed.(lost := flushed.lost + Label(b.height, b.events))
        else Accumulate(flushed, b)
      else Accumulate(st, b)
    case TimerFires => if |st.events| > 0 then Flush(st, fails) else st
    case ContextCanceled => Final(st, fails)
    case ChannelClosed => Final(st, fails)
  }

  function Collected(st: State, inputs: seq<Input>, fails: Failures): State {
    if |inputs| == 0 then st
    else
      var before := Collected(st, inputs[..|inputs| - 1], fails);
      if before.status.Running? then Next(before, inputs[|inputs| - 1], fails) else before
  }

  lemma {:induction false} StoppedStays(st: State, inputs: seq<Input>, i: nat, fails: Failures)
    requires i <= |inputs|
    requires i == |inputs| || !Collected(st, inputs[..i], fails).status.Running?
    ensures Collected(st, inputs, fails) == Collected(st, inputs[..i], fails)
  {
    if i < |inputs| {
      var init := inputs[..|inputs| - 1];
      assert init[..i] == inputs[..i];
      if i < |init| {
        StoppedStays(st, init, i, fails);
      } else {
        assert inputs[..i] == init;
      }
    } else {
      assert inputs[..i] == inputs;
    }
  }

  class Collector {
    var currentHeight: int
    var currentTimestamp: int
    var currentEvents: seq<Event>
    var calls: seq<Call>
    ghost var lost: seq<(int, Event)>
    var status: Status

    ghost function View(): State
      reads this
    {
      State(currentHeight, currentTimestamp, currentEvents, calls, lost, status)
    }

    constructor ()
      ensures View() == START
    {
      currentHeight, currentTimestamp, currentEvents := 0, 0, [];
      calls, lost, status := [], [], Running;
    }

    method FlushBuffer(fails: Failures) returns (ok: bool)
      modifies this
      ensures View() == Flush(old(View()), fails) && ok == !fails(|old(calls)|)
    {
      ok := !fails(|calls|);
      calls := calls + [Call(currentHeight, currentTimestamp, currentEvents, ok)];
      if !ok {
        lost := lost + Label(currentHeight, currentEvents);
        status := FlushFailed;
      }
      currentEvents := [];
      currentHeight := 0;
      currentTimestamp := 0;
    }

    method Run(inputs: seq<Input>, fails: Failures)
      modifies this
      ensures View() == Collected(old(View()), inputs, fails)
    {
      var i := 0;
      while i < |inputs| && status.Running?
        invariant i <= |inputs|
        invariant View() == Collected(old(View()), inputs[..i], fails)
      {
        assert inputs[..i + 1][..i] == inputs[..i];
        match inputs[i] {
          case BlockArrives(block) =>
            var ok := true;
            if currentHeight != 0 && block.height != currentHeight {
              ok := FlushBuffer(fails);
            }
            if ok {
              currentHeight := block.height;
              currentTimestamp := block.time;
              currentEvents := currentEvents + block.events;
            } else {
              lost := lost + Label(block.height, block.events);
            }
          case TimerFires =>
            if |currentEvents| > 0 {
              var _ := FlushBuffer(fails);
            }
          case _ =>
            if |currentEvents| > 0 {
              var _ := FlushBuffer(fails);
            }
            status := Finished;
        }
        i := i + 1;
      }
      StoppedStays(old(View()), inputs, i, fails);
      assert inputs[..|inputs|] == inputs;
    }
  }

  /** What ends the loop: a canceled context or a closed channel, failed final flush or not; otherwise
      only a flush that fails, of the safety timer or of a block at another height. */
  lemma StopsWhen(st: State, input: Input, fails: Failures)
    requires st.status.Running?
    ensures var status, failing := Next(st, input, fails).status, fails(|st.calls|);
      && (status.Finished? <==> input.ContextCanceled? || input.ChannelClosed?)
      && (status.FlushFailed? <==>
            && failing
            && ((input.TimerFires? && st.events != [])
                || (input.BlockArrives? && st.height != 0 && input.batch.height != st.height)))
  {
  }

  // Conservation.

  /** The events of the successful calls, in order, each under its call's height. */
  function Processed(calls: seq<Call>): seq<(int, Event)> {
    if |calls| == 0 then []
    else
      var last := calls[|calls| - 1];
      Processed(calls[..|calls| - 1]) + if last.ok then Label(last.height, last.events) else []
  }

  /** The events read from the channel before the collector stopped, each under its block's height. */
  function Received(st: State, inputs: seq<Input>, fails: Failures): seq<(int, Event)> {
    if |inputs| == 0 then []
    else
      var init, last := inputs[..|inputs| - 1], inputs[|inputs| - 1];
      Received(st, init, fails) +
        if Collected(st, init, fails).status.Running? && last.BlockArrives?
        then Label(last.batch.height, last.batch.events) else []
  }

  ghost predicate PositiveHeights(inputs: seq<Input>) {
    forall input :: input in inputs && input.BlockArrives? ==> input.batch.height > 0
  }

  /** Nothing is buffered under height 0, and nothing is lost while the collector runs. */
  ghost predicate Sound(st: State) {
    && (st.height == 0 ==> st.events == [])
    && (!st.status.Running? ==> st.events == [])
    && (st.status.Running? ==> st.lost == [])
  }

  function Account(st: State): seq<(int, Event)> {
    Processed(st.calls) + Label(st.height, st.events) + st.lost
  }

  lemma FlushAccounts(st: State, fails: Failures)
    requires Sound(st) && st.status.Running?
    ensures Account(Flush(st, fails)) == Account(st)
    ensures Flush(st, fails).status.Running? ==> Sound(Flush(st, fails))
  {
  }

  lemma AccumulateAccounts(st: State, b: Batch)
    requires Sound(st) && st.status.Running? && b.height > 0
    requires st.height == 0 || st.height == b.height
    ensures Account(Accumulate(st, b)) == Account(st) + Label(b.height, b.events)
  {
  }

  function Arriving(input: Input): seq<(int, Event)> {
    if input.BlockArrives? then Label(input.batch.height, input.batch.events) else []
  }

  lemma NoLabels(height: int)
    ensures Label(height, []) == []
  {
  }

  lemma TurnAccounts(st: State, input: Input, fails: Failures)
    requires Sound(st) && st.status.Running? && (input.BlockArrives? ==> input.batch.height > 0)
    ensures Sound(Next(st, input, fails))
    ensures Account(Next(st, input, fails)) == Account(st) + Arriving(input)
    ensures Next(st, input, fails).lost <= Label(st.height, st.events) + Arriving(input)
  {
    hide Processed, Label;
    var flushed := Flush(st, fails);
    FlushAccounts(st, fails);
    assert Account(st) + [] == Account(st);
    NoLabels(st.height);
    NoLabels(0);
    if input.BlockArrives? {
      var b := input.batch;
      if st.height != 0 && b.height != st.height {
        if flushed.status.Running? {
          AccumulateAccounts(flushed, b);
        } else {
          assert Account(flushed.(lost := flushed.lost + Label(b.height, b.events))) == Account(flushed)
              + Label(b.height, b.events);
        }
      } else {
        AccumulateAccounts(st, b);
      }
    }
  }

  lemma NothingYet()
    ensures Sound(START) && Account(START) == []
  {
  }

  /** Conservation: the events of all successful calls in order, then what is still buffered,
      then what a failed flush lost, are exactly the events received, height by height; so each
      call holds the events of one height only. Once stopped, nothing is buffered. */
  lemma {:induction false} EventsConserved(inputs: seq<Input>, fails: Failures)
    requires PositiveHeights(inputs)
    ensures var st := Collected(START, inputs, fails);
      Sound(st) && Account(st) == Received(START, inputs, fails)
  {
    hide Account, Sound, Next, Label;
    if |inputs| == 0 {
      NothingYet();
    } else {
      var init, last := inputs[..|inputs| - 1], inputs[|inputs| - 1];
      assert forall input :: input in init ==> input in inputs;
      assert last in inputs;
      EventsConserved(init, fails);
      var st := Collected(START, init, fails);
      assert Received(START, init, fails) + [] == Received(START, init, fails);
      if st.status.Running? {
        TurnAccounts(st, last, fails);
      }
    }
  }

  /** Without processing errors nothing is ever lost. */
  lemma {:induction false} NothingLost(inputs: seq<Input>, fails: Failures)
    requires PositiveHeights(inputs) && forall n :: !fails(n)
    ensures Collected(START, inputs, fails).lost == []
  {
    if |inputs| > 0 {
      var init := inputs[..|inputs| - 1];
      assert forall input :: input in init ==> input in inputs;
      NothingLost(init, fails);
    }
  }

  /** A failed flush loses at most the buffered batch and the block just read. */
  lemma LossIsBounded(inputs: seq<Input>, last: Input, fails: Failures)
    requires PositiveHeights(inputs + [last])
    requires Collected(START, inputs, fails).status.Running?
    ensures var st, st' := Collected(START, inputs, fails), Collected(START, inputs + [last], fails);
      st'.lost <= Label(st.height, st.events) + Arriving(last)
  {
    hide Account, Next, Sound;
    assert (inputs + [last])[..|inputs|] == inputs;
    assert forall input :: input in inputs ==> input in inputs + [last];
    assert last in inputs + [last];
    EventsConserved(inputs, fails);
    TurnAccounts(Collected(START, inputs, fails), last, fails);
  }
}
