/** Retry policies: the three doubling loops and the closed form that they compute. */
module Delays {
  import opened Core
  import opened Finance

  const MICROSECOND: int := 1000

  /** Durations are 64-bit counts of nanoseconds. */
  datatype ReferencePolicy = ReferencePolicy(maxAttempts: int, initialDelay: int64, maxDelay: int64)

  predicate ValidReferencePolicy(p: ReferencePolicy) {
    1 <= p.maxAttempts <= 1000 && p.initialDelay >= MICROSECOND && p.maxDelay >= p.initialDelay
  }

  datatype OutboxPolicy = OutboxPolicy(leaseDuration: int64, initialDelay: int64, maxDelay: int64)

  predicate ValidOutboxPolicy(p: OutboxPolicy) {
    p.leaseDuration >= MICROSECOND && p.initialDelay >= MICROSECOND && p.maxDelay >= p.initialDelay
  }

  function Pow2(n: nat): nat {
    if n == 0 then 1 else 2 * Pow2(n - 1)
  }

  function Min(a: int, b: int): int {
    if a <= b then a else b
  }

  /** The delay before attempt n: doubled at each attempt, never above the limit. */
  function Backoff(initial: int, limit: int, n: nat): int
    requires n >= 1
  {
    Min(initial * Pow2(n - 1), limit)
  }

  lemma {:induction false} Pow2Grows(initial: nat, m: nat, n: nat)
    requires m <= n
    ensures initial * Pow2(m) <= initial * Pow2(n)
  {
    if m < n {
      Pow2Grows(initial, m, n - 1);
      assert initial * Pow2(n) == 2 * (initial * Pow2(n - 1));
    }
  }

  /** Delays never shrink from one attempt to a later one, and stay between the two limits. */
  lemma BackoffIsMonotone(initial: nat, limit: int, m: nat, n: nat)
    requires 1 <= m <= n && initial <= limit
    ensures initial <= Backoff(initial, limit, m) <= Backoff(initial, limit, n) <= limit
  {
    Pow2Grows(initial, 0, m - 1);
    Pow2Grows(initial, m - 1, n - 1);
    assert initial * Pow2(0) == initial;
  }

  /** Once twice the delay passes the limit, every later attempt is at the limit. */
  lemma BackoffSaturates(initial: nat, limit: nat, i: nat, n: nat)
    requires 1 <= i < n && initial * Pow2(i - 1) > limit / 2
    ensures Backoff(initial, limit, n) == limit
  {
    assert initial * Pow2(i) == 2 * (initial * Pow2(i - 1));
    Pow2Grows(initial, i, n - 1);
  }

  /** Both products are typed, so that no intermediate value leaves 64 bits. */
  method ReferenceDelay(policy: ReferencePolicy, attempt: int) returns (delay: int64)
    requires ValidReferencePolicy(policy)
    ensures attempt >= 1 ==> delay == Backoff(policy.initialDelay, policy.maxDelay, attempt)
    ensures attempt < 1 ==> delay == policy.initialDelay
  {
    delay := policy.initialDelay;
    var i := 1;
    while i < attempt
      invariant 1 <= i && (i <= attempt || i == 1)
      invariant delay == policy.initialDelay * Pow2(i - 1) <= policy.maxDelay
      decreases attempt - i
    {
      if delay > policy.maxDelay / 2 {
        BackoffSaturates(policy.initialDelay, policy.maxDelay, i, attempt);
        return policy.maxDelay;
      }
      var doubled: int64 := delay * 2;
      assert doubled == policy.initialDelay * Pow2(i);
      delay := doubled;
      i := i + 1;
    }
  }

  method OutboxDelay(policy: OutboxPolicy, attempt: int) returns (delay: int64)
    requires ValidOutboxPolicy(policy)
    ensures attempt >= 1 ==> delay == Backoff(policy.initialDelay, policy.maxDelay, attempt)
    ensures attempt < 1 ==> delay == policy.initialDelay
  {
    delay := policy.initialDelay;
    var i := 1;
    while i < attempt && delay < policy.maxDelay
      invariant 1 <= i && (i <= attempt || i == 1)
      invariant delay == policy.initialDelay * Pow2(i - 1) <= policy.maxDelay
      decreases attempt - i
    {
      if delay > policy.maxDelay / 2 {
        BackoffSaturates(policy.initialDelay, policy.maxDelay, i, attempt);
        return policy.maxDelay;
      }
      var doubled: int64 := delay * 2;
      assert doubled == policy.initialDelay * Pow2(i);
      delay := doubled;
      i := i + 1;
    }
    if i < attempt {
      BackoffSaturates(policy.initialDelay, policy.maxDelay, i, attempt);
    }
  }

  /** Seconds before a message becomes visible again; the count the queue reports may be missing. */
  method MessageRetryDelay(attempt: int) returns (delay: int)
    ensures attempt >= 1 ==> delay == Backoff(1, 60, attempt)
    ensures attempt < 1 ==> delay == 1
  {
    delay := 1;
    var i := 1;
    while i < attempt && delay < 60
      invariant 1 <= i && (i <= attempt || i == 1)
      invariant delay == Pow2(i - 1) && 1 <= delay <= 64
      decreases attempt - i
    {
      assert Pow2(i) == 2 * delay;
      delay := delay * 2;
      i := i + 1;
      SmallPowers(i - 1);
    }
    if i < attempt {
      Pow2Grows(1, i - 1, attempt - 1);
    }
    if delay > 60 {
      return 60;
    }
  }

  lemma SmallPowers(n: nat)
    ensures Pow2(n) < 120 ==> Pow2(n) <= 64
  {
    if n > 6 {
      Pow2Grows(1, 7, n);
      assert Pow2(7) == 128;
    } else {
      Pow2Grows(1, n, 6);
      assert Pow2(6) == 64;
    }
  }
}
