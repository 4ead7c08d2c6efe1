/** Retries of a step closure: how often it runs, what is journaled, and how long it waits. */
module Retry {
  import opened Options
  import opened Storage
  import opened Workflows
  import opened Accounts
  import opened Protocol

  const U32_MAX := 0xFFFF_FFFF
  const SECOND := 1_000_000_000
  const DURATION_MAX := 0xFFFF_FFFF_FFFF_FFFF * SECOND + 999_999_999

  /** Nanoseconds. The largest duration is 2^64 - 1 seconds and a last fraction. */
  type Duration = d: nat | d <= DURATION_MAX

  datatype Backoff = Fixed(delay: Duration) | Exponential(base: Duration, max: Duration)

  datatype RetryPolicy = RetryPolicy(maxRetries: nat, backoff: Backoff) {
    function WithMaxDelay(max: Duration): RetryPolicy {
      if backoff.Exponential? then this.(backoff := backoff.(max := max)) else this
    }
  }

  function FixedPolicy(maxRetries: nat, delay: Duration): RetryPolicy { RetryPolicy(maxRetries, Fixed(delay)) }

  function ExponentialPolicy(maxRetries: nat, base: Duration): RetryPolicy {
    RetryPolicy(maxRetries, Exponential(base, 30 * SECOND))
  }

  function Pow2(n: nat): (p: nat)
    ensures p > n
  {
    if n == 0 then 1 else 2 * Pow2(n - 1)
  }

  function Min(a: nat, b: nat): nat { if a <= b then a else b }

  /** A u64 shifted left: no value once all 64 bits are shifted out. */
  function CheckedShl(attempt: nat): Option<nat> { if attempt < 64 then Some(Pow2(attempt)) else None }

  /** The multiplier is computed in 64 bits and saturates at 32. */
  function Multiplier(attempt: nat): nat { Min(CheckedShl(attempt).GetOr(0xFFFF_FFFF_FFFF_FFFF), U32_MAX) }

  function SaturatingMul(d: Duration, m: nat): Duration { Min(d * m, DURATION_MAX) }

  function DelayFor(b: Backoff, attempt: nat): Duration {
    match b
    case Fixed(d) => d
    case Exponential(base, max) => Min(SaturatingMul(base, Multiplier(attempt)), max)
  }

  lemma {:induction false} Pow2Grows(m: nat, n: nat)
    requires m <= n
    ensures Pow2(m) <= Pow2(n)
  {
    if m < n { Pow2Grows(m, n - 1); }
  }

  lemma Pow2At32()
    ensures Pow2(31) == 0x8000_0000 && Pow2(32) == 0x1_0000_0000
  {
    assert Pow2(8) == 256;
    assert Pow2(16) == 0x1_0000 by { assert Pow2(12) == 4096; }
    assert Pow2(24) == 0x100_0000 by { assert Pow2(20) == 0x10_0000; }
    assert Pow2(28) == 0x1000_0000;
  }

  lemma MultiplierIs(attempt: nat)
    ensures attempt < 32 ==> Multiplier(attempt) == Pow2(attempt)
    ensures attempt >= 32 ==> Multiplier(attempt) == U32_MAX
    ensures Multiplier(attempt) <= Pow2(attempt)
  {
    Pow2At32();
    if attempt < 32 { Pow2Grows(attempt, 31); } else { Pow2Grows(32, attempt); }
  }

  /**
   Despite the saturating arithmetic the delay is exactly `min(base * 2^attempt, max)` for the first
   32 retries; from then on it stays at `min(base * (2^32 - 1), max)`.
   */
  lemma DelayIsExact(base: Duration, max: Duration, attempt: nat)
    ensures DelayFor(Exponential(base, max), attempt) ==
            Min(base * (if attempt < 32 then Pow2(attempt) else U32_MAX), max)
  {
    MultiplierIs(attempt);
  }

  lemma MulGrows(d: nat, a: nat, b: nat)
    requires a <= b
    ensures d * a <= d * b
  {
  }

  lemma MultiplierGrows(m: nat, n: nat)
    requires m <= n
    ensures Multiplier(m) <= Multiplier(n)
  {
    MultiplierIs(m);
    MultiplierIs(n);
    Pow2At32();
    if m < 32 { Pow2Grows(m, if n < 32 then n else 31); }
  }

  lemma DelayNeverShrinks(b: Backoff, m: nat, n: nat)
    requires m <= n
    ensures DelayFor(b, m) <= DelayFor(b, n)
  {
    if b.Exponential? {
      MultiplierGrows(m, n);
      MulGrows(b.base, Multiplier(m), Multiplier(n));
    }
  }

  /** Doubling from `base`, 32 times at most, up to `cap`. */
  ghost predicate Doubles(base: nat, cap: nat, attempt: nat, delay: nat) {
    var due := base * (if attempt < 32 then Pow2(attempt) else 0xFFFF_FFFF);
    if due <= cap then delay == due else delay == cap
  }

  /**
   Policies as they are built: the retry count is the one given; exponential delays double from the base up to
   30 seconds or the cap that is set; fixed delays are the one given, and have no cap.
   */
  lemma BuiltPolicies(maxRetries: nat, d: Duration, max: Duration, attempt: nat)
    ensures ExponentialPolicy(maxRetries, d).maxRetries == maxRetries
    ensures Doubles(d, 30_000_000_000, attempt, DelayFor(ExponentialPolicy(maxRetries, d).backoff, attempt))
    ensures ExponentialPolicy(maxRetries, d).WithMaxDelay(max).maxRetries == maxRetries
    ensures Doubles(d, max, attempt, DelayFor(ExponentialPolicy(maxRetries, d).WithMaxDelay(max).backoff, attempt))
    ensures FixedPolicy(maxRetries, d).maxRetries == maxRetries
    ensures FixedPolicy(maxRetries, d).WithMaxDelay(max).maxRetries == maxRetries
    ensures DelayFor(FixedPolicy(maxRetries, d).WithMaxDelay(max).backoff, attempt) == d
    ensures DelayFor(FixedPolicy(maxRetries, d).backoff, attempt) == d
  {
    DelayIsExact(d, 30 * SECOND, attempt);
    DelayIsExact(d, max, attempt);
  }

  /** Time slept before the retry with this number. */
  function TotalDelay(b: Backoff, retries: nat): nat {
    if retries == 0 then 0 else TotalDelay(b, retries - 1) + DelayFor(b, retries - 1)
  }

  /** Fixed delays add up to their multiple, and doubling ones, below the cap, to one less than the next power. */
  lemma {:induction false} TotalDelayIsExact(d: Duration, max: Duration, retries: nat)
    ensures TotalDelay(Fixed(d), retries) == retries * d
    ensures retries <= 32 && d * Pow2(retries) <= max ==>
      TotalDelay(Exponential(d, max), retries) == d * (Pow2(retries) - 1)
  {
    if retries > 0 {
      var n := retries - 1;
      TotalDelayIsExact(d, max, n);
      DelayIsExact(d, max, n);
      Accumulate(d, d, n);
    }
  }

  /** All retries together wait no longer than every one at the cap, nor than unbounded doubling. */
  lemma {:induction false} TotalDelayBound(base: Duration, max: Duration, retries: nat)
    ensures TotalDelay(Exponential(base, max), retries) <= retries * max
    ensures TotalDelay(Exponential(base, max), retries) <= base * (Pow2(retries) - 1)
  {
    if retries > 0 {
      var n := retries - 1;
      TotalDelayBound(base, max, n);
      MultiplierIs(n);
      MulGrows(base, Multiplier(n), Pow2(n));
      Accumulate(base, max, n);
    }
  }

  lemma Accumulate(base: nat, max: nat, n: nat)
    ensures (n + 1) * max == n * max + max
    ensures base * (Pow2(n + 1) - 1) == base * (Pow2(n) - 1) + base * Pow2(n)
  {
  }

  // ---- The retry loop ---------------------------------------------------------------------------

  /** How a step closure ends: with a journal entry to write, without one, or in a panic. */
  datatype Finish = Journaled(entry: StepData, seen: Seen) | Unjournaled(seen: Seen) | Overflowed

  /** A success is journaled with the status then shown, an error as Failed, a timeout not at all. */
  function FinishOf(last: Outcome, status: Option<string>): Finish {
    match last
    case Okay(v) => Journaled(Completed(v, status), Got(v))
    case Permanent(e) => Journaled(Failed(e), Caught(e))
    case Retryable(e) => Journaled(Failed(e), Caught(e))
    case TimedOut => Unjournaled(Caught(TIMED_OUT))
  }

  function MaxRetries(policy: Option<RetryPolicy>): nat { if policy.Some? then policy.value.maxRetries else 0 }

  /** What the protocol makes of the same closure outcomes, attempt by attempt. */
  ghost function PcAfterClosure(h: History, n: nat, maxRetries: nat, status: Option<string>, oracle: nat -> Outcome): Pc
    requires n < Attempts(maxRetries)
    decreases Attempts(maxRetries) - n
  {
    var pc := ClosurePc(h, n, maxRetries, status, oracle(n));
    if pc.InClosure? then PcAfterClosure(h, n + 1, maxRetries, status, oracle) else pc
  }

  /**
   Runs the closure until it succeeds, fails for good, times out or has used up its retries. The
   closure is `oracle`: what attempt `n` comes back with. `max_retries + 1` is computed in 32 bits,
   so with the largest count the loop body is never entered and the code after it panics.
   */
  method RunClosure(oracle: nat -> Outcome, policy: Option<RetryPolicy>, status: Option<string>, ghost h: History)
    returns (finish: Finish, attempts: nat, slept: nat)
    requires MaxRetries(policy) <= U32_MAX
    ensures finish.Overflowed? <==> MaxRetries(policy) == U32_MAX
    ensures !finish.Overflowed? ==> 0 < attempts <= MaxRetries(policy) + 1
    ensures !finish.Overflowed? ==> forall n :: 0 <= n < attempts - 1 ==> oracle(n).Retryable?
    ensures !finish.Overflowed? ==>
      slept == if policy.Some? then TotalDelay(policy.value.backoff, attempts - 1) else 0
    ensures !finish.Overflowed? ==>
      finish == FinishOf(oracle(attempts - 1), status) &&
      (oracle(attempts - 1).Retryable? ==> attempts == MaxRetries(policy) + 1)
    ensures !finish.Overflowed? ==>
      Attempts(MaxRetries(policy)) > 0 &&
      PcAfterClosure(h, 0, MaxRetries(policy), status, oracle) ==
        if finish.Journaled? then Saving(h, finish.entry, finish.seen) else At(h + [finish.seen])
  {
    var maxRetries := MaxRetries(policy);
    var totalAttempts := (maxRetries + 1) % 0x1_0000_0000;
    attempts, slept := 0, 0;
    while attempts < totalAttempts
      invariant 0 <= attempts <= totalAttempts
      invariant forall n :: 0 <= n < attempts ==> oracle(n).Retryable?
      invariant slept == if policy.Some? then TotalDelay(policy.value.backoff, attempts) else 0
      invariant attempts < totalAttempts ==>
        PcAfterClosure(h, 0, maxRetries, status, oracle) == PcAfterClosure(h, attempts, maxRetries, status, oracle)
      invariant attempts == totalAttempts ==> totalAttempts == 0
    {
      var outcome := oracle(attempts);
      attempts := attempts + 1;
      match outcome {
        case Okay(v) => return Journaled(Completed(v, status), Got(v)), attempts, slept;
        case Permanent(e) => return Journaled(Failed(e), Caught(e)), attempts, slept;
        case TimedOut => return Unjournaled(Caught(TIMED_OUT)), attempts, slept;
        case Retryable(e) =>
          if attempts >= totalAttempts { return Journaled(Failed(e), Caught(e)), attempts, slept; }
          if policy.Some? { slept := slept + DelayFor(policy.value.backoff, attempts - 1); }
      }
    }
    finish := Overflowed;
  }
}
