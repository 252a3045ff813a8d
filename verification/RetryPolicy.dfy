/** When a failed batch is retried, and after how long. */
module RetryPolicy {
  import opened JobTables

  datatype RetryConfig = RetryConfig(baseSeconds: int, maxSeconds: int)

  const DEFAULT_BASE_DELAY := 30 * SECOND
  const DEFAULT_MAX_DELAY := 15 * 60 * SECOND

  function BaseDelay(cfg: RetryConfig): (d: int)
    ensures d > 0
  {
    if cfg.baseSeconds <= 0 then DEFAULT_BASE_DELAY else cfg.baseSeconds * SECOND
  }

  function MaxDelay(cfg: RetryConfig): (d: int)
    ensures d > 0
  {
    if cfg.maxSeconds <= 0 then DEFAULT_MAX_DELAY else cfg.maxSeconds * SECOND
  }

  /** The largest attempt count of the batch, at least 1. */
  function Attempts(jobs: seq<Job>): (a: nat)
    ensures a >= 1
    ensures forall j :: j in jobs ==> j.attempts <= a
    ensures a == 1 || exists j :: j in jobs && j.attempts == a
  {
    if jobs == [] then 1
    else
      var rest := Attempts(jobs[1..]);
      assert forall j :: j in jobs ==> j == jobs[0] || j in jobs[1..];
      if jobs[0].attempts > rest then jobs[0].attempts else rest
  }

  function Doubled(base: int, n: nat): int
  {
    if n == 0 then base else 2 * Doubled(base, n - 1)
  }

  /** base doubled once per earlier attempt, capped as soon as a doubling reaches the maximum. */
  function Delay(base: int, maxDelay: int, attempts: nat): int
    requires attempts >= 1
  {
    if attempts == 1 then base
    else if Doubled(base, attempts - 1) >= maxDelay then maxDelay
    else Doubled(base, attempts - 1)
  }

  function RetryDelay(cfg: RetryConfig, jobs: seq<Job>): int
  {
    Delay(BaseDelay(cfg), MaxDelay(cfg), Attempts(jobs))
  }

  predicate ShouldRetry(jobs: seq<Job>)
  {
    exists j :: j in jobs && j.attempts < j.maxAttempts
  }

  lemma {:induction false} DoubledMonotone(base: int, m: nat, n: nat)
    requires base > 0 && m <= n
    ensures 0 < base <= Doubled(base, m) <= Doubled(base, n)
    decreases n
  {
    if m < n {
      DoubledMonotone(base, m, n - 1);
    } else if m > 0 {
      DoubledMonotone(base, m - 1, n - 1);
    }
  }

  lemma AttemptsAre(jobs: seq<Job>, a: int)
    requires a >= 1 && forall k :: 0 <= k < |jobs| ==> jobs[k].attempts <= a
    requires a == 1 || exists k :: 0 <= k < |jobs| && jobs[k].attempts == a
    ensures a == Attempts(jobs)
  {
    if a != 1 {
      var k :| 0 <= k < |jobs| && jobs[k].attempts == a;
      assert jobs[k] in jobs;
    }
  }

  lemma OneMoreDoubling(base: int, n: nat)
    ensures Doubled(base, n + 1) == 2 * Doubled(base, n) && Doubled(base, 0) == base
  {}

  /** The doubling loop.  Every value it computes stays within twice the larger bound. */
  method ComputeRetryDelay(cfg: RetryConfig, jobs: seq<Job>) returns (delay: int, ghost largest: int)
    ensures delay == RetryDelay(cfg, jobs)
    ensures delay <= largest <= 2 * (if BaseDelay(cfg) < MaxDelay(cfg) then MaxDelay(cfg) else BaseDelay(cfg))
  {
    hide Attempts, Doubled, BaseDelay, MaxDelay;
    var base := BaseDelay(cfg);
    var maxDelay := MaxDelay(cfg);
    var attempts := 1;
    for k := 0 to |jobs|
      invariant attempts >= 1 && forall j :: 0 <= j < k ==> jobs[j].attempts <= attempts
      invariant attempts == 1 || exists j :: 0 <= j < k && jobs[j].attempts == attempts
    {
      if jobs[k].attempts > attempts {
        attempts := jobs[k].attempts;
      }
    }
    AttemptsAre(jobs, attempts);
    OneMoreDoubling(base, 0);
    delay := base;
    largest := if base < maxDelay then maxDelay else base;
    var i := 1;
    while i < attempts
      invariant 1 <= i <= attempts
      invariant delay == Doubled(base, i - 1)
      invariant i > 1 ==> delay < maxDelay
      invariant delay <= largest <= 2 * (if base < maxDelay then maxDelay else base)
      invariant largest >= maxDelay
    {
      OneMoreDoubling(base, i - 1);
      delay := delay * 2;
      if delay > largest {
        largest := delay;
      }
      if delay >= maxDelay {
        DoubledMonotone(base, i, attempts - 1);
        delay := maxDelay;
        return;
      }
      i := i + 1;
    }
  }

  /** The loop in the order of the source: true as soon as one job has attempts left. */
  method ShouldRetryJobs(jobs: seq<Job>) returns (r: bool)
    ensures r <==> exists i :: 0 <= i < |jobs| && jobs[i].attempts < jobs[i].maxAttempts
    ensures r == ShouldRetry(jobs)
  {
    for i := 0 to |jobs|
      invariant forall k :: 0 <= k < i ==> jobs[k].attempts >= jobs[k].maxAttempts
    {
      if jobs[i].attempts < jobs[i].maxAttempts {
        return true;
      }
    }
    return false;
  }

  function Min(a: int, b: int): int
  {
    if a < b then a else b
  }

  /** The delay is the capped power of two exactly when a retry has happened before or the
      base is within the cap: the first attempt's delay is never capped. */
  lemma DelayIsCappedPowerIff(base: int, maxDelay: int, attempts: nat)
    requires base > 0 && maxDelay > 0 && attempts >= 1
    ensures Delay(base, maxDelay, attempts) == Min(Doubled(base, attempts - 1), maxDelay)
            <==> attempts >= 2 || base <= maxDelay
  {
  }

  /** Later attempts wait at least as long exactly when the base is within the cap. */
  lemma DelayMonotoneIff(base: int, maxDelay: int)
    requires base > 0 && maxDelay > 0
    ensures (forall a: nat, c: nat :: 1 <= a <= c ==> Delay(base, maxDelay, a) <= Delay(base, maxDelay, c))
            <==> base <= maxDelay
  {
    if base <= maxDelay {
      forall a: nat, c: nat | 1 <= a <= c ensures Delay(base, maxDelay, a) <= Delay(base, maxDelay, c) {
        DoubledMonotone(base, a - 1, c - 1);
      }
    } else {
      assert Doubled(base, 1) == 2 * Doubled(base, 0);
      assert Delay(base, maxDelay, 2) < Delay(base, maxDelay, 1);
    }
  }

  /** The configuration check accepts no maximum below the base, and no base of zero or less. */
  predicate Accepted(cfg: RetryConfig)
  {
    0 < cfg.baseSeconds <= cfg.maxSeconds
  }

  lemma {:induction false} DoubledIsPower(base: int, n: nat)
    ensures Doubled(base, n) == base * Power(n)
  {
    if n > 0 {
      DoubledIsPower(base, n - 1);
      assert base * (2 * Power(n - 1)) == 2 * (base * Power(n - 1));
    }
  }

  function Power(n: nat): nat
  {
    if n == 0 then 1 else 2 * Power(n - 1)
  }

  /** For every configuration that the check accepts and every batch, the delay is the base times
      the power of two of the earlier attempts, up to the maximum; it is never negative, never above
      the maximum, and never shorter for a batch with more attempts. */
  lemma AcceptedDelay(cfg: RetryConfig, jobs: seq<Job>, later: seq<Job>)
    requires Accepted(cfg)
    ensures RetryDelay(cfg, jobs) == Min(cfg.baseSeconds * SECOND * Power(Attempts(jobs) - 1), cfg.maxSeconds * SECOND)
    ensures 0 < RetryDelay(cfg, jobs) <= cfg.maxSeconds * SECOND
    ensures Attempts(jobs) <= Attempts(later) ==> RetryDelay(cfg, jobs) <= RetryDelay(cfg, later)
  {
    var base, most := cfg.baseSeconds * SECOND, cfg.maxSeconds * SECOND;
    DelayIsCappedPowerIff(base, most, Attempts(jobs));
    DoubledIsPower(base, Attempts(jobs) - 1);
    DoubledMonotone(base, 0, Attempts(jobs) - 1);
    DelayMonotoneIff(base, most);
  }

  /** Without a base the first delay is half a minute, and without a maximum the last is a quarter of an hour. */
  lemma UnsetDelays(cfg: RetryConfig)
    ensures cfg.baseSeconds <= 0 ==> Delay(BaseDelay(cfg), MaxDelay(cfg), 1) == 30_000_000_000
    ensures cfg.maxSeconds <= 0 && cfg.baseSeconds <= 900 ==>
              forall n: nat :: n >= 31 ==> Delay(BaseDelay(cfg), MaxDelay(cfg), n) == 900_000_000_000
  {
    forall n: nat | n >= 31 && cfg.maxSeconds <= 0 && cfg.baseSeconds <= 900
      ensures Delay(BaseDelay(cfg), MaxDelay(cfg), n) == 900_000_000_000
    {
      DoubledMonotone(BaseDelay(cfg), 30, n - 1);
      DoubledIsPower(BaseDelay(cfg), 30);
      assert Power(10) == 1024 && Power(20) == 1_048_576 && Power(30) == 1_073_741_824;
    }
  }
}
