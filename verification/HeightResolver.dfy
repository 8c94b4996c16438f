/** Dates to heights: a binary search over a chain whose old blocks may be pruned. */
module HeightResolver {
  import opened Seqs

  /** The node's answer to a header query. A pruned height is refused with the lowest one it has. */
  datatype HeaderResult = Header(time: int) | Pruned(lowest: nat) | Failed

  datatype Status = Status(earliest: int, latest: int)

  datatype Node = Node(status: Option<Status>, header: int -> HeaderResult)

  predicate Available(node: Node, h: int) { node.header(h).Header? }

  function TimeAt(node: Node, h: int): int
    requires Available(node, h)
  {
    node.header(h).time
  }

  /** A node with the blocks from `lowest` up to `latest`, in time order. */
  ghost predicate Serves(node: Node, lowest: int, latest: int) {
    && 0 <= lowest <= latest
    && (forall h :: h < lowest ==> node.header(h) == Pruned(lowest))
    && (forall h :: lowest <= h <= latest ==> Available(node, h))
    && (forall h, h' :: lowest <= h <= h' <= latest ==> TimeAt(node, h) <= TimeAt(node, h'))
  }

  /** What the search promises: an available height with only earlier blocks before it, at or
      after the target unless it is the upper end, which is never looked at. */
  ghost predicate FirstAtOrAfter(node: Node, target: int, low: int, high: int, r: int) {
    && r <= high && Available(node, r)
    && (forall h :: low <= h < r && Available(node, h) ==> TimeAt(node, h) < target)
    && (r < high ==> TimeAt(node, r) >= target)
  }

  /** Any answers: what is returned below the upper end was seen at or after the target, or is where a
      refused query pointed; an error means that a height was not available. */
  ghost predicate Sought(node: Node, target: int, low: int, high: int, r: Option<int>) {
    match r
    case None => exists h :: low <= h < high && !Available(node, h)
    case Some(found) =>
      low <= found && (found < high ==>
        || (Available(node, found) && TimeAt(node, found) >= target)
        || exists h :: low <= h < high && node.header(h).Pruned? && node.header(h).lowest == found)
  }

  /** The ghost `lowest` is the lowest height the node has, if it is a node of the described kind. */
  method FindFirstBlockAtOrAfter(node: Node, target: int, low: int, high: int, ghost lowest: int)
      returns (r: Option<int>)
    requires 0 <= low
    ensures Sought(node, target, low, high, r)
    ensures Serves(node, lowest, high) && low <= high ==>
      r.Some? && lowest <= r.value && FirstAtOrAfter(node, target, low, high, r.value)
  {
    var lo, hi := low, high;
    while lo < hi
      invariant low <= lo && hi <= high && (low <= high ==> low <= hi)
      invariant hi < high ==> Available(node, hi) && TimeAt(node, hi) >= target
      invariant lo > hi && low <= high ==>
        exists h :: low <= h < high && node.header(h).Pruned? && node.header(h).lowest == lo
      invariant Serves(node, lowest, high) && low <= high ==>
        && lo <= hi && lowest <= hi
        && (forall h :: low <= h < lo && Available(node, h) ==> TimeAt(node, h) < target)
      decreases hi - lo
    {
      var mid := (lo + hi) / 2;
      match node.header(mid) {
        case Header(time) =>
          assert Available(node, mid) && TimeAt(node, mid) == time;
          if time < target {
            lo := mid + 1;
          } else {
            hi := mid;
          }
        case Pruned(first) =>
          assert !Available(node, mid);
          if first > lo {
            lo := first;
          } else {
            return None;
          }
        case Failed =>
          assert !Available(node, mid);
          return None;
      }
    }
    r := Some(lo);
  }

  function Earliest(node: Node): nat {
    if node.status.Some? && node.status.value.earliest > 0 then node.status.value.earliest
    else if node.header(1).Pruned? then node.header(1).lowest
    else 1
  }

  /** `getChainBounds`: an unreported earliest height is probed for. */
  method GetChainBounds(node: Node) returns (bounds: Option<(nat, int)>)
    ensures bounds.Some? <==> node.status.Some?
    ensures bounds.Some? ==> bounds.value.1 == node.status.value.latest
    ensures bounds.Some? && node.status.value.earliest > 0 ==> bounds.value.0 == node.status.value.earliest
    ensures bounds.Some? && node.status.value.earliest <= 0 ==>
      bounds.value.0 == match node.header(1) case Pruned(lowest) => lowest case _ => 1
  {
    match node.status {
      case None => bounds := None;
      case Some(status) =>
        if status.earliest > 0 {
          return Some((status.earliest, status.latest));
        }
        match node.header(1) {
          case Pruned(lowest) => bounds := Some((lowest, status.latest));
          case _ => bounds := Some((1, status.latest));
        }
    }
  }

  /** A flag value: a height, a point in time, or a date (the start of a UTC day). */
  datatype Flag = HeightFlag(height: int) | TimeFlag(time: int) | DateFlag(day: int) | BadFlag

  /** The node reports its latest block, and an earliest one that is not above what it serves. */
  ghost predicate WellReported(node: Node, lowest: int) {
    && node.status.Some? && Serves(node, lowest, node.status.value.latest)
    && Earliest(node) <= lowest
  }

  /** On a node that does not report its earliest height the probe finds it. */
  lemma ProbeFindsLowest(node: Node, lowest: int)
    requires node.status.Some? && node.status.value.earliest <= 0
    requires 1 <= lowest && Serves(node, lowest, node.status.value.latest)
    ensures Earliest(node) == lowest && WellReported(node, lowest)
  {
    assert 1 < lowest ==> node.header(1) == Pruned(lowest);
    assert 1 == lowest ==> Available(node, 1);
  }

  method ResolveFromHeight(node: Node, flag: Flag, ghost lowest: int) returns (r: Option<int>)
    ensures flag.HeightFlag? ==> r == Some(flag.height)
    ensures flag.BadFlag? ==> r == None
    ensures node.status.None? && (flag.TimeFlag? || flag.DateFlag?) ==> r == None
    ensures node.status.Some? && flag.TimeFlag? ==>
      && Sought(node, flag.time, Earliest(node), node.status.value.latest, r)
      && (WellReported(node, lowest) ==>
            r.Some? && lowest <= r.value
            && FirstAtOrAfter(node, flag.time, Earliest(node), node.status.value.latest, r.value))
    ensures node.status.Some? && flag.DateFlag? ==>
      && Sought(node, flag.day, Earliest(node), node.status.value.latest, r)
      && (WellReported(node, lowest) ==>
            r.Some? && lowest <= r.value
            && FirstAtOrAfter(node, flag.day, Earliest(node), node.status.value.latest, r.value))
  {
    if flag.HeightFlag? {
      return Some(flag.height);
    }
    if flag.BadFlag? {
      return None;
    }
    var bounds := GetChainBounds(node);
    if bounds.None? {
      return None;
    }
    var target := if flag.TimeFlag? then flag.time else flag.day;
    r := FindFirstBlockAtOrAfter(node, target, bounds.value.0, bounds.value.1, lowest);
  }

  /** For a date, the ghost `next` is what the search for the start of the next day yields. */
  method ResolveToHeight(node: Node, flag: Flag, ghost lowest: int) returns (r: Option<int>, ghost next: Option<int>)
    ensures flag.HeightFlag? ==> r == Some(flag.height)
    ensures flag.BadFlag? ==> r == None
    ensures node.status.None? && (flag.TimeFlag? || flag.DateFlag?) ==> r == None
    ensures node.status.Some? && flag.TimeFlag? ==>
      && Sought(node, flag.time, Earliest(node), node.status.value.latest, r)
      && (WellReported(node, lowest) ==>
            r.Some? && FirstAtOrAfter(node, flag.time, Earliest(node), node.status.value.latest, r.value))
    ensures node.status.Some? && flag.DateFlag? ==>
      && Sought(node, flag.day + 86400, Earliest(node), node.status.value.latest, next)
      && r == (if next.None? || next.value <= Earliest(node) then None else Some(next.value - 1))
      && (WellReported(node, lowest) ==>
            next.Some? && lowest <= next.value
            && FirstAtOrAfter(node, flag.day + 86400, Earliest(node), node.status.value.latest, next.value))
  {
    next := None;
    if flag.HeightFlag? {
      return Some(flag.height), next;
    }
    if flag.BadFlag? {
      return None, next;
    }
    var bounds := GetChainBounds(node);
    if bounds.None? {
      return None, next;
    }
    if flag.DateFlag? {
      var firstOfNextDay := FindFirstBlockAtOrAfter(node, flag.day + 86400, bounds.value.0, bounds.value.1, lowest);
      next := firstOfNextDay;
      if firstOfNextDay.None? || firstOfNextDay.value <= bounds.value.0 {
        return None, next;
      }
      return Some(firstOfNextDay.value - 1), next;
    }
    r := FindFirstBlockAtOrAfter(node, flag.time, bounds.value.0, bounds.value.1, lowest);
  }

  /** The heights from..to are exactly the available heights of one UTC day. */
  ghost predicate SelectsDay(node: Node, lowest: int, latest: int, day: int, from: int, to: int)
    requires Serves(node, lowest, latest)
  {
    forall h :: lowest <= h <= latest ==> (from <= h <= to <==> day <= TimeAt(node, h) < day + 86400)
  }

  /** A date selects exactly its day's available blocks if and only if the newest block is not on
      that day: the search for the next day stops at the newest block unexamined, and the range then
      ends one block short. */
  lemma DateSelectsDayIff(node: Node, lowest: int, day: int, from: int, next: int)
    requires WellReported(node, lowest)
    requires lowest <= from && FirstAtOrAfter(node, day, Earliest(node), node.status.value.latest, from)
    requires lowest <= next && FirstAtOrAfter(node, day + 86400, Earliest(node), node.status.value.latest, next)
    ensures var latest := node.status.value.latest;
      SelectsDay(node, lowest, latest, day, from, next - 1) <==> !(day <= TimeAt(node, latest) < day + 86400)
  {
  }
}
