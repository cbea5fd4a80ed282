/**
 The three exponential backoff loops: pending references, SQS retries and outbox
 releases. Durations are int64 nanoseconds, so the loops must not overflow.
 */
module Backoff {
  import opened Base

  newtype Duration = x: int | MIN_INT64 <= x <= MAX_INT64

  const SECOND: Duration := 1_000_000_000
  const FIVE_MINUTES: Duration := 300_000_000_000

  datatype Policy = Policy(maxAttempts: nat, base: Duration, maximum: Duration) {
    /** What the configuration validates before any worker starts. */
    predicate Valid() {
      maxAttempts >= 1 && 0 < base <= maximum
    }
  }

  function Pow2(n: nat): nat {
    if n == 0 then 1 else 2 * Pow2(n - 1)
  }

  /** The base delay doubled n times, over unbounded integers. */
  function Doubled(base: int, n: nat): int {
    if n == 0 then base else 2 * Doubled(base, n - 1)
  }

  /** min(base * 2^(attempt - 1), maximum); attempts below 1 count as 1. */
  function Capped(base: int, maximum: int, attempt: int): int {
    var exact := Doubled(base, if attempt < 1 then 0 else attempt - 1);
    if exact < maximum then exact else maximum
  }

  lemma {:induction false} DoubledIsPower(base: int, n: nat)
    ensures Doubled(base, n) == base * Pow2(n)
  {
    if n > 0 {
      DoubledIsPower(base, n - 1);
      assert base * Pow2(n) == base * (2 * Pow2(n - 1)) == 2 * (base * Pow2(n - 1));
    }
  }

  /** The smaller of the maximum and the base times the power of two of the attempts before, of which there may be none. */
  lemma CappedIsExact(base: int, maximum: int, attempt: int)
    ensures attempt <= 1 ==> Capped(base, maximum, attempt) == if base < maximum then base else maximum
    ensures attempt >= 1 ==> Capped(base, maximum, attempt) ==
                             if base * Pow2(attempt - 1) < maximum then base * Pow2(attempt - 1) else maximum
  {
    if attempt >= 1 { DoubledIsPower(base, attempt - 1); }
  }

  lemma {:induction false} DoubledGrows(base: int, m: nat, n: nat)
    requires base > 0 && m <= n
    ensures base <= Doubled(base, m) <= Doubled(base, n)
  {
    if m < n {
      DoubledGrows(base, m, n - 1);
    } else if m > 0 {
      DoubledGrows(base, m - 1, m - 1);
    }
  }

  /** The delay never falls from one attempt to a later one, stays in [base, maximum], and doubles until capped. */
  lemma CappedMonotone(base: int, maximum: int, a: int, b: int)
    requires 0 < base <= maximum && a <= b
    ensures base <= Capped(base, maximum, a) <= Capped(base, maximum, b) <= maximum
    ensures a >= 1 ==> Capped(base, maximum, a + 1) ==
                       if 2 * Capped(base, maximum, a) < maximum then 2 * Capped(base, maximum, a) else maximum
  {
    DoubledGrows(base, if a < 1 then 0 else a - 1, if b < 1 then 0 else b - 1);
  }

  lemma {:induction false} DoubledExceeds(base: int, n: nat)
    requires base > 0
    ensures Doubled(base, n) > n
  {
    if n > 0 { DoubledExceeds(base, n - 1); }
  }

  /** The cap is reached after finitely many attempts and kept from then on. */
  lemma CapIsReached(base: int, maximum: int, attempt: int)
    requires 0 < base <= maximum && attempt > maximum
    ensures Capped(base, maximum, attempt) == maximum
  {
    DoubledExceeds(base, attempt - 1);
  }

  /** WagerService.backoff and retryDelay share this loop. */
  method Delay(base: Duration, maximum: Duration, requested: int) returns (delay: Duration)
    requires 0 < base <= maximum
    ensures delay as int == Capped(base as int, maximum as int, requested)
    ensures base <= delay <= maximum
  {
    CappedMonotone(base as int, maximum as int, requested, requested);
    var attempt := if requested < 1 then 1 else requested;
    delay := base;
    var i := 1;
    while i < attempt && delay < maximum
      invariant 1 <= i <= attempt
      invariant delay as int == Doubled(base as int, i - 1) <= maximum as int
      invariant delay > 0
    {
      if delay > maximum / 2 {
        DoubledGrows(base as int, i, attempt - 1);
        return maximum;
      }
      delay := delay * 2;
      i := i + 1;
    }
    if i < attempt {
      DoubledGrows(base as int, i - 1, attempt - 1);
    }
    if delay > maximum {
      return maximum;
    }
  }

  /** The outbox loop has fixed bounds and caps only after it has doubled past them. */
  method OutboxDelay(attempt: int) returns (delay: Duration)
    ensures delay as int == Capped(SECOND as int, FIVE_MINUTES as int, attempt)
    ensures SECOND <= delay <= FIVE_MINUTES
  {
    CappedMonotone(SECOND as int, FIVE_MINUTES as int, attempt, attempt);
    delay := SECOND;
    var i := 1;
    while i < attempt && delay < FIVE_MINUTES
      invariant 1 <= i && (i <= attempt || i == 1)
      invariant delay as int == Doubled(SECOND as int, i - 1)
      invariant 0 < delay < 2 * FIVE_MINUTES
    {
      delay := delay * 2;
      i := i + 1;
    }
    if i < attempt {
      DoubledGrows(SECOND as int, i - 1, attempt - 1);
    }
    if delay > FIVE_MINUTES {
      return FIVE_MINUTES;
    }
  }

  /** The delay before the attempt that follows `attempts` earlier ones. */
  function ReferenceDelay(policy: Policy, attempts: nat): (d: nat)
    requires policy.Valid()
    ensures d > 0
    ensures d == if policy.base as int * Pow2(attempts) < policy.maximum as int then policy.base as int * Pow2(attempts)
                 else policy.maximum as int
  {
    CappedIsExact(policy.base as int, policy.maximum as int, attempts + 1);
    CappedMonotone(policy.base as int, policy.maximum as int, attempts + 1, attempts + 1);
    Capped(policy.base as int, policy.maximum as int, attempts + 1)
  }
}
