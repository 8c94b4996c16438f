/** Hours and days of UTC time; timestamps are integer seconds. */
module Periods {

  datatype Period = Hour | Day

  function Length(p: Period): (n: int)
    ensures n > 0
  {
    match p
    case Hour => 3600
    case Day => 86400
  }

  function HourStart(ts: int): int { ts - ts % 3600 }

  function DayStart(ts: int): int { ts - ts % 86400 }

  function HourEnd(ts: int): int { HourStart(ts) + 3600 }

  function DayEnd(ts: int): int { DayStart(ts) + 86400 }

  function Start(p: Period, ts: int): int {
    match p
    case Hour => HourStart(ts)
    case Day => DayStart(ts)
  }

  function End(p: Period, ts: int): int {
    match p
    case Hour => HourEnd(ts)
    case Day => DayEnd(ts)
  }

  predicate Aligned(p: Period, start: int) {
    start % Length(p) == 0
  }

  /** A period start names exactly the timestamps of its half-open interval. */
  lemma StartIsInterval(p: Period, start: int, ts: int)
    ensures Aligned(p, Start(p, ts)) && End(p, ts) == Start(p, ts) + Length(p)
    ensures Aligned(p, start) ==>
      (Start(p, ts) == start <==> start <= ts < start + Length(p))
  {
    match p
    case Hour =>
    case Day =>
  }

  lemma StartMonotone(p: Period, a: int, b: int)
    requires a <= b
    ensures Start(p, a) <= Start(p, b)
  {
    match p
    case Hour =>
      assert a / 3600 <= b / 3600;
      assert HourStart(a) == 3600 * (a / 3600) && HourStart(b) == 3600 * (b / 3600);
    case Day =>
      assert a / 86400 <= b / 86400;
      assert DayStart(a) == 86400 * (a / 86400) && DayStart(b) == 86400 * (b / 86400);
  }

  lemma DayEndIsWhole(to: int)
    ensures DayEnd(to) == 86400 * (to / 86400 + 1)
  {
  }

  lemma WholeHours(start: int, days: int)
    requires start % 3600 == 0 && start < 86400 * days
    ensures start + 3600 <= 86400 * days
  {
    var hours := start / 3600;
    assert start == 3600 * hours && 86400 * days == 3600 * (24 * days);
  }

  lemma WholeDays(start: int, days: int)
    requires start % 86400 == 0 && start < 86400 * days
    ensures start + 86400 <= 86400 * days
  {
    assert start == 86400 * (start / 86400);
  }

  /** An hour or a day that starts inside a whole-day range ends inside it too. */
  lemma PeriodInsideDays(p: Period, start: int, from: int, to: int)
    requires Aligned(p, start) && DayStart(from) <= start < DayEnd(to)
    ensures start + Length(p) <= DayEnd(to)
  {
    hide DayStart, DayEnd;
    DayEndIsWhole(to);
    match p
    case Hour => WholeHours(start, to / 86400 + 1);
    case Day => WholeDays(start, to / 86400 + 1);
  }

  /** Every timestamp between two others lies in the whole-day range around them,
      and so does the start of the period that holds it. */
  lemma DaysCover(p: Period, from: int, to: int, ts: int)
    requires DayStart(from) <= ts < DayEnd(to)
    ensures DayStart(from) <= Start(p, ts) < DayEnd(to)
  {
    var first := from / 86400;
    assert DayStart(from) == 86400 * first;
    match p
    case Hour =>
      assert HourStart(ts) == 3600 * (ts / 3600);
      assert ts / 3600 >= 24 * first;
    case Day =>
      assert DayStart(ts) == 86400 * (ts / 86400);
      assert ts / 86400 >= first;
  }

  /** Day boundaries follow the order of their timestamps. */
  lemma DayRangeCovers(from: int, to: int, ts: int)
    requires from <= ts <= to
    ensures DayStart(from) <= ts < DayEnd(to)
  {
  }
}
