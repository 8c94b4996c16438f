/** Reconnection delays: capped doubling with a jitter of a fifth. */
module Backoff {
  import opened Decimal

  function Pow2(n: nat): nat {
    if n == 0 then 1 else 2 * Pow2(n - 1)
  }

  function Min(a: int, b: int): int { if a <= b then a else b }

  /** The loop: at most `n` doublings of an int64, left with a break once the cap is exceeded. */
  function Doubled(delay: int, n: nat, maxDelay: int): int
    decreases n
  {
    if n == 0 then delay
    else
      var twice := Wrap64(2 * delay);
      if twice > maxDelay then maxDelay else Doubled(twice, n - 1, maxDelay)
  }

  const HALF: int := INT64_MAX / 2

  lemma Regroup(delay: int, n: nat)
    requires n > 0
    ensures delay * Pow2(n) == (2 * delay) * Pow2(n - 1)
  {
  }

  lemma AtLeast(x: nat, n: nat)
    ensures x * Pow2(n) >= x
  {
  }

  lemma {:induction false} DoubledIsCapped(delay: int, n: nat, maxDelay: int)
    requires 0 < delay <= HALF && 0 < maxDelay <= HALF && n > 0
    ensures Doubled(delay, n, maxDelay) == Min(delay * Pow2(n), maxDelay)
    decreases n
  {
    var twice := 2 * delay;
    Regroup(delay, n);
    if twice > maxDelay {
      AtLeast(twice, n - 1);
    } else if n > 1 {
      DoubledIsCapped(twice, n - 1, maxDelay);
    }
  }

  /** The documented min(base * 2^attempt, max) holds exactly when the first attempt is not
      already above the cap: attempt 0 returns an oversized base uncapped. */
  lemma CentreIsCappedIff(attempt: nat, baseDelay: int, maxDelay: int)
    requires 0 < baseDelay <= HALF && 0 < maxDelay <= HALF
    ensures Doubled(baseDelay, attempt, maxDelay) == Min(baseDelay * Pow2(attempt), maxDelay)
      <==> attempt > 0 || baseDelay <= maxDelay
  {
    if attempt > 0 {
      DoubledIsCapped(baseDelay, attempt, maxDelay);
    }
  }

  /** The attempt at which base * 2^attempt first exceeds the cap. */
  function Crossing(baseDelay: int, maxDelay: int): nat
    requires baseDelay > 0
    decreases maxDelay - baseDelay
  {
    if baseDelay > maxDelay then 0 else 1 + Crossing(2 * baseDelay, maxDelay)
  }

  lemma {:induction false} CrossingIsFirst(baseDelay: int, maxDelay: int, n: nat)
    requires baseDelay > 0
    ensures baseDelay * Pow2(n) > maxDelay <==> n >= Crossing(baseDelay, maxDelay)
    decreases maxDelay - baseDelay
  {
    if baseDelay > maxDelay {
      AtLeast(baseDelay, n);
    } else if n > 0 {
      CrossingIsFirst(2 * baseDelay, maxDelay, n - 1);
      Regroup(baseDelay, n);
    }
  }

  /** Below the crossing nothing is capped. At the crossing the delay is the cap if the product
      still fits into 64 bits, and wraps around to a negative one otherwise. */
  lemma {:induction false} DoubledAround(delay: int, n: nat, maxDelay: int)
    requires 0 < delay <= maxDelay <= INT64_MAX
    ensures var k := Crossing(delay, maxDelay);
      && (n < k ==> Doubled(delay, n, maxDelay) == delay * Pow2(n))
      && (n >= k && delay * Pow2(k) <= INT64_MAX ==> Doubled(delay, n, maxDelay) == maxDelay)
      && (n == k && delay * Pow2(k) > INT64_MAX ==> Doubled(delay, n, maxDelay) < 0)
    decreases n
  {
    var twice, k := 2 * delay, Crossing(delay, maxDelay);
    Regroup(delay, k);
    if n > 0 {
      Regroup(delay, n);
      if twice <= maxDelay {
        DoubledAround(twice, n - 1, maxDelay);
      } else {
        assert k == 1 && Pow2(0) == 1;
      }
    }
  }

  lemma {:induction false} Grows(x: nat, k: nat, n: nat)
    requires k <= n
    ensures x * Pow2(k) <= x * Pow2(n)
    decreases n
  {
    if k < n {
      Grows(x, k, n - 1);
      Regroup(x, n);
      assert (2 * x) * Pow2(n - 1) == 2 * (x * Pow2(n - 1));
      AtLeast(x, n - 1);
    }
  }

  /** Over all of int64: the documented formula holds for every attempt if and only if the base is
      within the cap and some power-of-two multiple of it lies between the cap and the largest int64. */
  lemma CappedForeverIff(baseDelay: int, maxDelay: int)
    requires 0 < baseDelay <= INT64_MAX && 0 < maxDelay <= INT64_MAX
    ensures (forall n: nat :: Doubled(baseDelay, n, maxDelay) == Min(baseDelay * Pow2(n), maxDelay))
      <==> baseDelay <= maxDelay && exists k: nat :: maxDelay < baseDelay * Pow2(k) <= INT64_MAX
  {
    if baseDelay > maxDelay {
      assert Doubled(baseDelay, 0, maxDelay) != Min(baseDelay * Pow2(0), maxDelay);
    } else {
      var k := Crossing(baseDelay, maxDelay);
      CrossingIsFirst(baseDelay, maxDelay, k);
      forall n: nat
        ensures n < k || baseDelay * Pow2(k) <= INT64_MAX ==>
          Doubled(baseDelay, n, maxDelay) == Min(baseDelay * Pow2(n), maxDelay)
        ensures maxDelay < baseDelay * Pow2(n) <= INT64_MAX ==> baseDelay * Pow2(k) <= INT64_MAX
      {
        DoubledAround(baseDelay, n, maxDelay);
        CrossingIsFirst(baseDelay, maxDelay, n);
        if n >= k {
          Grows(baseDelay, k, n);
        }
      }
      DoubledAround(baseDelay, k, maxDelay);
    }
  }

  /** Within those bounds the centre stays in the range where the jitter cannot overflow. */
  lemma CentreInRange(attempt: nat, baseDelay: int, maxDelay: int)
    requires 0 < baseDelay <= HALF && 0 < maxDelay <= HALF
    ensures 0 < Doubled(baseDelay, attempt, maxDelay) <= HALF
  {
  }

  function Jitter(centre: int): nat { if centre >= 5 then centre / 5 else 0 }

  /** The centre, moved by a draw from [0, 2 * jitter]. */
  function Jittered(centre: int, draw: nat): int { Wrap64(centre - Jitter(centre) + draw) }

  /** Every draw keeps the delay within a fifth of the centre if and only if centre and jitter
      together fit into 64 bits; otherwise the largest draw wraps around. */
  lemma JitterFitsIff(centre: int)
    requires 0 <= centre <= INT64_MAX
    ensures (forall draw: nat :: draw <= 2 * Jitter(centre) ==>
              centre - Jitter(centre) <= Jittered(centre, draw) <= centre + Jitter(centre))
      <==> centre + Jitter(centre) <= INT64_MAX
  {
    if centre + Jitter(centre) > INT64_MAX {
      assert Jittered(centre, 2 * Jitter(centre)) < 0;
    }
  }

  /** The delay before jitter; a negative attempt counts as attempt 0. */
  ghost function Centre(attempt: int, baseDelay: int, maxDelay: int): int {
    Doubled(baseDelay, if attempt > 0 then attempt else 0, maxDelay)
  }

  /** `NextDelay`; the ghost `drawn` is the random number, any value its range allows. */
  method NextDelay(attempt: int, baseDelay: int, maxDelay: int) returns (actual: int, ghost drawn: nat)
    requires IsInt64(baseDelay) && IsInt64(maxDelay)
    ensures drawn <= 2 * Jitter(Centre(attempt, baseDelay, maxDelay))
    ensures actual == Jittered(Centre(attempt, baseDelay, maxDelay), drawn)
    ensures var centre := Centre(attempt, baseDelay, maxDelay);
      && (centre < 5 ==> actual == centre)
      && (5 <= centre <= HALF ==> centre - centre / 5 <= actual <= centre + centre / 5)
  {
    var delay := baseDelay;
    var i := 0;
    ghost var centre := Centre(attempt, baseDelay, maxDelay);
    while i < attempt
      invariant 0 <= i && (attempt >= 0 ==> i <= attempt)
      invariant IsInt64(delay)
      invariant centre == Doubled(delay, if attempt > i then attempt - i else 0, maxDelay)
    {
      delay := Wrap64(2 * delay);
      if delay > maxDelay {
        delay := maxDelay;
        break;
      }
      i := i + 1;
    }
    assert delay == centre;
    actual, drawn := delay, 0;
    var jitter := if delay < 0 then -(-delay / 5) else delay / 5;
    if jitter > 0 {
      var draw :| 0 <= draw < 2 * jitter + 1;
      actual, drawn := Wrap64(delay - jitter + draw), draw;
    }
  }
}
