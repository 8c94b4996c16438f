/** Block contributions: what `aggregateBlock` computes, and its algebra. */
module Aggregation {
  import opened Seqs
  import opened Model
  import opened Periods

  /** The additive columns of a summary row. */
  datatype Contribution = Contribution(
    claimsSettled: int,
    claimsExpired: int,
    claimsSlashed: int,
    claimsDiscarded: int,
    claimedUpokt: int,
    effectiveUpokt: int,
    numRelays: int,
    estimatedRelays: int,
    numComputeUnits: int,
    estimatedComputeUnits: int,
    overserviceCount: int,
    reimbursementUpokt: int)

  const ZERO := Contribution(0, 0, 0, 0, 0, 0, 0, 0, 0, 0, 0, 0)

  function Plus(a: Contribution, b: Contribution): Contribution {
    Contribution(
      a.claimsSettled + b.claimsSettled,
      a.claimsExpired + b.claimsExpired,
      a.claimsSlashed + b.claimsSlashed,
      a.claimsDiscarded + b.claimsDiscarded,
      a.claimedUpokt + b.claimedUpokt,
      a.effectiveUpokt + b.effectiveUpokt,
      a.numRelays + b.numRelays,
      a.estimatedRelays + b.estimatedRelays,
      a.numComputeUnits + b.numComputeUnits,
      a.estimatedComputeUnits + b.estimatedComputeUnits,
      a.overserviceCount + b.overserviceCount,
      a.reimbursementUpokt + b.reimbursementUpokt)
  }

  /** What a claim is worth: the burn when overserviced, the claim otherwise. */
  function EffectiveUpokt(s: Settlement): int {
    if s.eventType.Settled? && s.isOverserviced then s.effectiveBurnUpokt else s.claimedUpokt
  }

  function OfSettlement(s: Settlement): Contribution {
    match s.eventType
    case Slashed => ZERO.(claimsSlashed := 1)
    case Discarded => ZERO.(claimsDiscarded := 1)
    case _ =>
      Contribution(
        if s.eventType.Settled? then 1 else 0,
        if s.eventType.Expired? then 1 else 0,
        0, 0,
        s.claimedUpokt, EffectiveUpokt(s),
        s.numRelays, s.estimatedRelays,
        s.claimedComputeUnits, s.estimatedComputeUnits,
        0, 0)
  }

  function OfOverservice(o: OverserviceEvent): Contribution { ZERO.(overserviceCount := 1) }

  function OfReimbursement(r: ReimbursementEvent): Contribution {
    ZERO.(reimbursementUpokt := r.amountUpokt)
  }

  function Sum<T>(s: seq<T>, f: T -> Contribution): Contribution {
    if |s| == 0 then ZERO else Plus(Sum(s[..|s| - 1], f), f(s[|s| - 1]))
  }

  lemma PlusLaws(a: Contribution, b: Contribution, c: Contribution)
    ensures Plus(Plus(a, b), c) == Plus(a, Plus(b, c))
    ensures Plus(a, b) == Plus(b, a)
    ensures Plus(a, ZERO) == a
  {
  }

  lemma {:induction false} SumConcat<T>(a: seq<T>, b: seq<T>, f: T -> Contribution)
    ensures Sum(a + b, f) == Plus(Sum(a, f), Sum(b, f))
  {
    hide Plus;
    if |b| == 0 {
      assert a + b == a;
      PlusLaws(Sum(a, f), ZERO, ZERO);
    } else {
      var init, x := b[..|b| - 1], b[|b| - 1];
      assert (a + b)[..|a + b| - 1] == a + init;
      SumConcat(a, init, f);
      PlusLaws(Sum(a, f), Sum(init, f), f(x));
    }
  }

  lemma SumOne<T>(x: T, f: T -> Contribution)
    ensures Sum([x], f) == f(x)
  {
  }

  lemma PlusSwap(a: Contribution, b: Contribution, c: Contribution)
    ensures Plus(a, Plus(b, c)) == Plus(Plus(a, c), b)
  {
  }

  /** Taking one element out of the middle takes out its share. */
  lemma SumWithout<T>(s: seq<T>, i: nat, f: T -> Contribution)
    requires i < |s|
    ensures Sum(s, f) == Plus(Sum(s[..i] + s[i + 1..], f), f(s[i]))
  {
    hide *;
    var left, x, right := s[..i], s[i], s[i + 1..];
    SumConcat(left, right, f);
    SumConcat(left, [x] + right, f);
    SumConcat([x], right, f);
    SumOne(x, f);
    PlusSwap(Sum(left, f), f(x), Sum(right, f));
    assert s == left + ([x] + right);
  }

  lemma MultisetWithout<T>(s: seq<T>, i: nat)
    requires i < |s|
    ensures multiset(s[..i] + s[i + 1..]) == multiset(s) - multiset{s[i]}
  {
    assert s == s[..i] + ([s[i]] + s[i + 1..]);
  }

  /** The order of the events does not matter. */
  lemma {:induction false} SumPermutation<T>(a: seq<T>, b: seq<T>, f: T -> Contribution)
    requires multiset(a) == multiset(b)
    ensures Sum(a, f) == Sum(b, f)
    decreases |a|
  {
    hide Plus;
    if |a| == 0 {
      assert |multiset(b)| == 0;
    } else {
      var last := |a| - 1;
      assert a[last] in multiset(b);
      var i :| 0 <= i < |b| && b[i] == a[last];
      MultisetWithout(a, last);
      MultisetWithout(b, i);
      assert a[..last] + a[last + 1..] == a[..last];
      SumPermutation(a[..last], b[..i] + b[i + 1..], f);
      SumWithout(b, i, f);
    }
  }

  lemma SumOfFilterLast<T(!new)>(s: seq<T>, p: T -> bool, f: T -> Contribution)
    requires |s| > 0
    ensures var rest := Sum(Filter(s[..|s| - 1], p), f);
      Sum(Filter(s, p), f) == if p(s[|s| - 1]) then Plus(rest, f(s[|s| - 1])) else rest
  {
    hide Plus;
    var init, x := s[..|s| - 1], s[|s| - 1];
    SumConcat(Filter(init, p), [x], f);
    SumOne(x, f);
    assert Filter(init, p) + [] == Filter(init, p);
  }

  /** Summing a filtered sequence is summing with the others counted as zero. */
  lemma {:induction false} SumOfFilter<T(!new)>(s: seq<T>, p: T -> bool, f: T -> Contribution)
    ensures Sum(Filter(s, p), f) == Sum(s, x => if p(x) then f(x) else ZERO)
  {
    hide Plus;
    if |s| > 0 {
      SumOfFilter(s[..|s| - 1], p, f);
      SumOfFilterLast(s, p, f);
      PlusLaws(Sum(Filter(s[..|s| - 1], p), f), ZERO, ZERO);
    }
  }

  lemma FilteredSumPermutation<T(!new)>(a: seq<T>, b: seq<T>, p: T -> bool, f: T -> Contribution)
    requires multiset(a) == multiset(b)
    ensures Sum(Filter(a, p), f) == Sum(Filter(b, p), f)
  {
    SumOfFilter(a, p, f);
    SumOfFilter(b, p, f);
    SumPermutation(a, b, x => if p(x) then f(x) else ZERO);
  }

  /** Two filters that split a third split its sum. */
  lemma {:induction false} SumSplit<T(!new)>(s: seq<T>, p: T -> bool, q: T -> bool, whole: T -> bool,
      f: T -> Contribution)
    requires forall x :: x in s ==> (whole(x) <==> p(x) || q(x)) && !(p(x) && q(x))
    ensures Sum(Filter(s, whole), f) == Plus(Sum(Filter(s, p), f), Sum(Filter(s, q), f))
  {
    hide Plus;
    if |s| == 0 {
      PlusLaws(ZERO, ZERO, ZERO);
    } else {
      var init, x := s[..|s| - 1], s[|s| - 1];
      SumSplit(init, p, q, whole, f);
      SumOfFilterLast(s, p, f);
      SumOfFilterLast(s, q, f);
      SumOfFilterLast(s, whole, f);
      var a, b := Sum(Filter(init, p), f), Sum(Filter(init, q), f);
      PlusLaws(a, b, f(x));
      PlusLaws(b, f(x), ZERO);
      PlusLaws(a, f(x), b);
      assert x in s;
    }
  }

  /** Raw events: a block's three event lists, or the contents of the three event tables. */
  datatype Raw = Raw(
    settlements: seq<Settlement>,
    overservices: seq<OverserviceEvent>,
    reimbursements: seq<ReimbursementEvent>)

  function Append(a: Raw, b: Raw): Raw {
    Raw(a.settlements + b.settlements, a.overservices + b.overservices, a.reimbursements + b.reimbursements)
  }

  function Total(raw: Raw): Contribution {
    Plus(Plus(Sum(raw.settlements, OfSettlement), Sum(raw.overservices, OfOverservice)),
         Sum(raw.reimbursements, OfReimbursement))
  }

  /** Distinct supplier addresses. Only settlements are looked at. */
  function Suppliers(raw: Raw): set<string> {
    set s | s in raw.settlements :: s.supplier
  }

  // Selections: a time range, and one service of it.

  function SettlementDuring(lo: int, hi: int): Settlement -> bool { (s: Settlement) => lo <= s.blockTime < hi }
  function OverserviceDuring(lo: int, hi: int): OverserviceEvent -> bool {
    (o: OverserviceEvent) => lo <= o.blockTime < hi
  }
  function ReimbursementDuring(lo: int, hi: int): ReimbursementEvent -> bool {
    (r: ReimbursementEvent) => lo <= r.blockTime < hi
  }

  function ServiceOfSettlement(s: Settlement): string { s.serviceId }
  function ServiceOfReimbursement(r: ReimbursementEvent): string { r.serviceId }

  function During(raw: Raw, lo: int, hi: int): Raw {
    Raw(Filter(raw.settlements, SettlementDuring(lo, hi)),
        Filter(raw.overservices, OverserviceDuring(lo, hi)),
        Filter(raw.reimbursements, ReimbursementDuring(lo, hi)))
  }

  /** Overservice events carry no service, so a service has none of them. */
  function OfService(raw: Raw, service: string): Raw {
    Raw(Filter(raw.settlements, Keyed(ServiceOfSettlement, service)),
        [],
        Filter(raw.reimbursements, Keyed(ServiceOfReimbursement, service)))
  }

  function InPeriod(raw: Raw, p: Period, start: int): Raw {
    During(raw, start, start + Length(p))
  }

  lemma PlusInterchange(a: Contribution, b: Contribution, c: Contribution, d: Contribution)
    ensures Plus(Plus(a, b), Plus(c, d)) == Plus(Plus(a, c), Plus(b, d))
  {
  }

  lemma TotalAppend(a: Raw, b: Raw)
    ensures Total(Append(a, b)) == Plus(Total(a), Total(b))
  {
    hide Plus, Sum;
    SumConcat(a.settlements, b.settlements, OfSettlement);
    SumConcat(a.overservices, b.overservices, OfOverservice);
    SumConcat(a.reimbursements, b.reimbursements, OfReimbursement);
    var s, s' := Sum(a.settlements, OfSettlement), Sum(b.settlements, OfSettlement);
    var o, o' := Sum(a.overservices, OfOverservice), Sum(b.overservices, OfOverservice);
    PlusInterchange(s, s', o, o');
    PlusInterchange(Plus(s, o), Plus(s', o'), Sum(a.reimbursements, OfReimbursement),
        Sum(b.reimbursements, OfReimbursement));
  }

  lemma SelectionsAppend(a: Raw, b: Raw, lo: int, hi: int, service: string)
    ensures During(Append(a, b), lo, hi) == Append(During(a, lo, hi), During(b, lo, hi))
    ensures OfService(Append(a, b), service) == Append(OfService(a, service), OfService(b, service))
  {
    hide Filter;
    FilterConcat(a.settlements, b.settlements, SettlementDuring(lo, hi));
    FilterConcat(a.overservices, b.overservices, OverserviceDuring(lo, hi));
    FilterConcat(a.reimbursements, b.reimbursements, ReimbursementDuring(lo, hi));
    FilterConcat(a.settlements, b.settlements, Keyed(ServiceOfSettlement, service));
    FilterConcat(a.reimbursements, b.reimbursements, Keyed(ServiceOfReimbursement, service));
  }

  predicate SameEvents(a: Raw, b: Raw) {
    && multiset(a.settlements) == multiset(b.settlements)
    && multiset(a.overservices) == multiset(b.overservices)
    && multiset(a.reimbursements) == multiset(b.reimbursements)
  }

  /** A period's totals and suppliers depend on which events are stored, not on their order. */
  lemma PeriodOfPermutation(a: Raw, b: Raw, p: Period, start: int)
    requires SameEvents(a, b)
    ensures Total(InPeriod(a, p, start)) == Total(InPeriod(b, p, start))
    ensures Suppliers(InPeriod(a, p, start)) == Suppliers(InPeriod(b, p, start))
  {
    hide Plus;
    var lo, hi := start, start + Length(p);
    FilteredSumPermutation(a.settlements, b.settlements, SettlementDuring(lo, hi), OfSettlement);
    FilteredSumPermutation(a.overservices, b.overservices, OverserviceDuring(lo, hi), OfOverservice);
    FilteredSumPermutation(a.reimbursements, b.reimbursements, ReimbursementDuring(lo, hi), OfReimbursement);
    forall s ensures s in a.settlements <==> s in b.settlements {
      assert s in a.settlements <==> s in multiset(a.settlements);
      assert s in b.settlements <==> s in multiset(b.settlements);
    }
  }

  lemma {:induction false} OverserviceSum(overservices: seq<OverserviceEvent>)
    ensures Sum(overservices, OfOverservice) == ZERO.(overserviceCount := |overservices|)
  {
    if |overservices| > 0 {
      OverserviceSum(overservices[..|overservices| - 1]);
    }
  }

  // What the columns count and add up.

  function SumOf<T>(rows: seq<T>, column: T -> int): int {
    if |rows| == 0 then 0 else SumOf(rows[..|rows| - 1], column) + column(rows[|rows| - 1])
  }

  function OfType(kind: EventType): Settlement -> bool { (s: Settlement) => s.eventType == kind }
  predicate Billed(s: Settlement) { s.eventType.Settled? || s.eventType.Expired? }
  predicate Overserviced(s: Settlement) { s.eventType.Settled? && s.isOverserviced }

  function ClaimedUpokt(s: Settlement): int { s.claimedUpokt }
  function UnburnedUpokt(s: Settlement): int { s.claimedUpokt - s.effectiveBurnUpokt }
  function Relays(s: Settlement): int { s.numRelays }
  function EstimatedRelays(s: Settlement): int { s.estimatedRelays }
  function ComputeUnits(s: Settlement): int { s.claimedComputeUnits }
  function EstimatedComputeUnits(s: Settlement): int { s.estimatedComputeUnits }
  function AmountUpokt(r: ReimbursementEvent): int { r.amountUpokt }

  /** Column by column: each claim counter is the number of rows of its type, amounts are those of
      settled and expired rows, and an overserviced settled row counts with its burn instead. */
  ghost predicate Tallies(c: Contribution, raw: Raw) {
    var billed := Filter(raw.settlements, Billed);
    && c.claimsSettled == |Filter(raw.settlements, OfType(Settled))|
    && c.claimsExpired == |Filter(raw.settlements, OfType(Expired))|
    && c.claimsSlashed == |Filter(raw.settlements, OfType(Slashed))|
    && c.claimsDiscarded == |Filter(raw.settlements, OfType(Discarded))|
    && c.claimedUpokt == SumOf(billed, ClaimedUpokt)
    && c.effectiveUpokt == c.claimedUpokt - SumOf(Filter(raw.settlements, Overserviced), UnburnedUpokt)
    && c.numRelays == SumOf(billed, Relays)
    && c.estimatedRelays == SumOf(billed, EstimatedRelays)
    && c.numComputeUnits == SumOf(billed, ComputeUnits)
    && c.estimatedComputeUnits == SumOf(billed, EstimatedComputeUnits)
    && c.overserviceCount == |raw.overservices|
    && c.reimbursementUpokt == SumOf(raw.reimbursements, AmountUpokt)
  }

  lemma SumOfFilterStep<T(!new)>(rows: seq<T>, keep: T -> bool, column: T -> int)
    requires |rows| > 0
    ensures var init, x := rows[..|rows| - 1], rows[|rows| - 1];
      SumOf(Filter(rows, keep), column) == SumOf(Filter(init, keep), column) + if keep(x) then column(x) else 0
  {
    var before, x := Filter(rows[..|rows| - 1], keep), rows[|rows| - 1];
    assert (before + [x])[..|before|] == before && before + [] == before;
  }

  lemma CountOfFilterStep<T(!new)>(rows: seq<T>, keep: T -> bool)
    requires |rows| > 0
    ensures var init, x := rows[..|rows| - 1], rows[|rows| - 1];
      |Filter(rows, keep)| == |Filter(init, keep)| + if keep(x) then 1 else 0
  {
  }

  lemma OneMoreTallied(c: Contribution, settlements: seq<Settlement>)
    requires |settlements| > 0 && Tallies(c, Raw(settlements[..|settlements| - 1], [], []))
    ensures Tallies(Plus(c, OfSettlement(settlements[|settlements| - 1])), Raw(settlements, [], []))
  {
    hide Filter, SumOf;
    CountOfFilterStep(settlements, OfType(Settled));
    CountOfFilterStep(settlements, OfType(Expired));
    CountOfFilterStep(settlements, OfType(Slashed));
    CountOfFilterStep(settlements, OfType(Discarded));
    SumOfFilterStep(settlements, Billed, ClaimedUpokt);
    SumOfFilterStep(settlements, Billed, Relays);
    SumOfFilterStep(settlements, Billed, EstimatedRelays);
    SumOfFilterStep(settlements, Billed, ComputeUnits);
    SumOfFilterStep(settlements, Billed, EstimatedComputeUnits);
    SumOfFilterStep(settlements, Overserviced, UnburnedUpokt);
  }

  lemma {:induction false} SettlementTallies(settlements: seq<Settlement>)
    ensures Tallies(Sum(settlements, OfSettlement), Raw(settlements, [], []))
  {
    if |settlements| > 0 {
      hide Tallies, Plus;
      SettlementTallies(settlements[..|settlements| - 1]);
      OneMoreTallied(Sum(settlements[..|settlements| - 1], OfSettlement), settlements);
    }
  }

  lemma {:induction false} ReimbursementTallies(rs: seq<ReimbursementEvent>)
    ensures Sum(rs, OfReimbursement) == ZERO.(reimbursementUpokt := SumOf(rs, AmountUpokt))
  {
    if |rs| > 0 {
      ReimbursementTallies(rs[..|rs| - 1]);
    }
  }

  /** What the aggregate of any events says. */
  lemma TotalTallies(raw: Raw)
    ensures Tallies(Total(raw), raw)
  {
    hide Filter, OfSettlement;
    SettlementTallies(raw.settlements);
    OverserviceSum(raw.overservices);
    ReimbursementTallies(raw.reimbursements);
  }

  /** One turn of the settlement loop: the switch over the event type. */
  method AddSettlement(bc: Contribution, s: Settlement) returns (sum: Contribution)
    ensures sum == Plus(bc, OfSettlement(s))
  {
    sum := bc;
    match s.eventType {
      case Settled =>
        sum := sum.(claimsSettled := bc.claimsSettled + 1, claimedUpokt := bc.claimedUpokt + s.claimedUpokt);
        if s.isOverserviced {
          sum := sum.(effectiveUpokt := bc.effectiveUpokt + s.effectiveBurnUpokt);
        } else {
          sum := sum.(effectiveUpokt := bc.effectiveUpokt + s.claimedUpokt);
        }
        sum := sum.(numRelays := bc.numRelays + s.numRelays,
                    estimatedRelays := bc.estimatedRelays + s.estimatedRelays,
                    numComputeUnits := bc.numComputeUnits + s.claimedComputeUnits,
                    estimatedComputeUnits := bc.estimatedComputeUnits + s.estimatedComputeUnits);
      case Expired =>
        sum := sum.(claimsExpired := bc.claimsExpired + 1,
                    claimedUpokt := bc.claimedUpokt + s.claimedUpokt,
                    effectiveUpokt := bc.effectiveUpokt + s.claimedUpokt,
                    numRelays := bc.numRelays + s.numRelays,
                    estimatedRelays := bc.estimatedRelays + s.estimatedRelays,
                    numComputeUnits := bc.numComputeUnits + s.claimedComputeUnits,
                    estimatedComputeUnits := bc.estimatedComputeUnits + s.estimatedComputeUnits);
      case Slashed => sum := sum.(claimsSlashed := bc.claimsSlashed + 1);
      case Discarded => sum := sum.(claimsDiscarded := bc.claimsDiscarded + 1);
    }
  }

  lemma {:induction false} SettlementSumHasNoEvents(settlements: seq<Settlement>)
    ensures Sum(settlements, OfSettlement).overserviceCount == 0
    ensures Sum(settlements, OfSettlement).reimbursementUpokt == 0
  {
    if |settlements| > 0 {
      SettlementSumHasNoEvents(settlements[..|settlements| - 1]);
    }
  }

  lemma OverserviceStep(settlements: seq<Settlement>, overservices: seq<OverserviceEvent>)
    ensures Plus(Sum(settlements, OfSettlement), Sum(overservices, OfOverservice))
         == Sum(settlements, OfSettlement).(overserviceCount := |overservices|)
  {
    OverserviceSum(overservices);
    SettlementSumHasNoEvents(settlements);
  }

  lemma ReimbursementStep(claims: Contribution, sum: Contribution, r: ReimbursementEvent)
    ensures var before := Plus(claims, sum);
      before.(reimbursementUpokt := before.reimbursementUpokt + r.amountUpokt)
      == Plus(claims, Plus(sum, OfReimbursement(r)))
  {
  }

  /** `aggregateBlock`: a zero record, filled in loop by loop. */
  method AggregateBlock(settlements: seq<Settlement>, overservices: seq<OverserviceEvent>,
                        reimbursements: seq<ReimbursementEvent>)
    returns (bc: Contribution)
    ensures bc == Total(Raw(settlements, overservices, reimbursements))
    ensures Tallies(bc, Raw(settlements, overservices, reimbursements))
  {
    hide Plus;
    bc := ZERO;
    for i := 0 to |settlements|
      invariant bc == Sum(settlements[..i], OfSettlement)
    {
      assert settlements[..i + 1][..i] == settlements[..i];
      bc := AddSettlement(bc, settlements[i]);
    }
    assert settlements[..|settlements|] == settlements;
    OverserviceStep(settlements, overservices);
    bc := bc.(overserviceCount := |overservices|);
    ghost var claims := bc;
    PlusLaws(claims, ZERO, ZERO);
    for i := 0 to |reimbursements|
      invariant bc == Plus(claims, Sum(reimbursements[..i], OfReimbursement))
    {
      assert reimbursements[..i + 1][..i] == reimbursements[..i];
      ReimbursementStep(claims, Sum(reimbursements[..i], OfReimbursement), reimbursements[i]);
      bc := bc.(reimbursementUpokt := bc.reimbursementUpokt + reimbursements[i].amountUpokt);
    }
    assert reimbursements[..|reimbursements|] == reimbursements;
    TotalTallies(Raw(settlements, overservices, reimbursements));
  }

  lemma {:induction false} ReimbursementSum(rs: seq<ReimbursementEvent>)
    ensures Sum(rs, OfReimbursement) == ZERO.(reimbursementUpokt := Sum(rs, OfReimbursement).reimbursementUpokt)
    ensures (forall r :: r in rs ==> r.amountUpokt >= 0) ==> Sum(rs, OfReimbursement).reimbursementUpokt >= 0
  {
    if |rs| > 0 {
      ReimbursementSum(rs[..|rs| - 1]);
    }
  }

  function Claims(c: Contribution): int {
    c.claimsSettled + c.claimsExpired + c.claimsSlashed + c.claimsDiscarded
  }

  /** Every settlement row is counted as exactly one of the four claim kinds. */
  lemma {:induction false} EveryClaimCounted(settlements: seq<Settlement>)
    ensures Claims(Sum(settlements, OfSettlement)) == |settlements|
  {
    if |settlements| > 0 {
      EveryClaimCounted(settlements[..|settlements| - 1]);
    }
  }
}
