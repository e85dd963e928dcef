/**
  The retry policy of one logical fetch: error classes, the jittered back-off window
  with its 64-bit saturation, and the attempt loop.
  Durations are nanoseconds; `as_millis() as u64` truncates and wraps.
*/
module Retry {
  import opened Wrappers
  import opened Arith

  type Duration = nat

  const NANOS_PER_MILLI: nat := 1_000_000
  const RETRY_AFTER_MAX: Duration := 60_000 * NANOS_PER_MILLI

  /** The error classes that retry and breaker decisions distinguish. */
  datatype FetchError = Network | Timeout | HttpStatus(status: nat) | CircuitOpen | OtherError

  datatype AttemptResult<V> =
    | AttemptOk(value: V)
    | AttemptErr(error: FetchError, retryAfter: Option<Duration>)

  /** What the breaker is told about a finished logical call; `None` leaves it alone. */
  datatype BreakerEvent = ReportSuccess | ReportFailure

  datatype FetcherConfig = FetcherConfig(
    maxAttempts: nat,
    initialBackoff: Duration,
    maxBackoff: Duration,
    concurrencyLimit: nat,
    perHostLimit: Option<nat>)
  {
    /** The clauses of `FetcherConfig::validate` that bear on the modelled fields. */
    predicate Valid() {
      && 1 <= maxAttempts <= 10
      && initialBackoff <= maxBackoff
      && 1 <= concurrencyLimit <= 4096
      && (perHostLimit.Some? ==> 1 <= perHostLimit.value <= concurrencyLimit)
    }
  }

  /** Extra attempts by the table in the fetcher's module comment; what it does not list gets none. */
  function DocumentedExtra(error: FetchError): nat {
    if error == Network || error == HttpStatus(429) || error == HttpStatus(500) then 2
    else if error.HttpStatus? && error.status in {502, 503, 504} then 2
    else if error == Timeout then 1
    else 0
  }

  function RetryLimit(error: FetchError): (limit: nat)
    ensures limit <= 3
    ensures limit == DocumentedExtra(error) + (if error == HttpStatus(429) then 1 else 0)
  {
    match error
    case Network => 2
    case Timeout => 1
    case HttpStatus(status) =>
      if status == 429 then 3
      else if status == 500 then 2
      else if 502 <= status <= 504 then 2
      else 0
    case CircuitOpen => 0
    case OtherError => 0
  }

  predicate IsBreakerFailure(error: FetchError) {
    match error
    case Network => true
    case Timeout => true
    case HttpStatus(status) => status >= 500
    case _ => false
  }

  /** The single breaker event of a logical call, from its final result. */
  function Report<V>(result: Result<V, FetchError>): Option<BreakerEvent> {
    match result
    case Ok(_) => Some(ReportSuccess)
    case Err(error) => if IsBreakerFailure(error) then Some(ReportFailure) else None
  }

  // ── Back-off ──────────────────────────────────────────────────────────────────

  function Millis(d: Duration): nat { d / NANOS_PER_MILLI }

  function MillisU64(d: Duration): nat { Millis(d) % U64_MODULUS }

  /** Inclusive upper end, in milliseconds, of the jitter window for a 1-based attempt. */
  function BackoffUpper(attempt: nat, initial: Duration, max: Duration): nat
    requires attempt >= 1
  {
    Min(SaturatingMul(MillisU64(initial), SaturatingPow2(attempt - 1)), MillisU64(max))
  }

  /** The delay drawn for `attempt`; `random` is the random source's raw output. */
  function Backoff(attempt: nat, initial: Duration, max: Duration, random: nat): Duration {
    if attempt == 0 then 0
    else
      var upper := BackoffUpper(attempt, initial, max);
      if upper == 0 then 0 else (random % (upper + 1)) * NANOS_PER_MILLI
  }

  lemma MulAtLeast(a: nat, b: nat, c: nat)
    requires a >= 1 && b >= c
    ensures a * b >= c
  {
    assert a * b == b + (a - 1) * b;
  }

  /** The saturated product and cap are the mathematical minimum on all u64 inputs. */
  lemma SaturationLosesNothing(exponent: nat, initialMillis: nat, maxMillis: nat)
    requires initialMillis <= U64_MAX && maxMillis <= U64_MAX
    ensures Min(SaturatingMul(initialMillis, SaturatingPow2(exponent)), maxMillis)
         == Min(initialMillis * Pow2(exponent), maxMillis)
  {
    SaturatingPow2Exact(exponent);
    if initialMillis > 0 && Pow2(exponent) > U64_MAX {
      MulAtLeast(initialMillis, U64_MAX, U64_MAX);
      MulAtLeast(initialMillis, Pow2(exponent), U64_MAX);
    }
  }

  /**
    On every validated configuration the coded window is the advertised
    min(initial * 2^(attempt-1), max) exactly when the cap fits 64 bits of
    milliseconds or the exponential term is still below the wrapped cap.
  */
  lemma BackoffWindowExact(attempt: nat, initial: Duration, max: Duration)
    requires attempt >= 1 && initial <= max
    ensures BackoffUpper(attempt, initial, max) == Min(Millis(initial) * Pow2(attempt - 1), Millis(max))
       <==> (Millis(max) <= U64_MAX || Millis(initial) * Pow2(attempt - 1) <= MillisU64(max))
  {
    var i, m, p := Millis(initial), Millis(max), Pow2(attempt - 1);
    SaturationLosesNothing(attempt - 1, MillisU64(initial), MillisU64(max));
    if m > U64_MAX && i > U64_MAX {
      MulAtLeast(p, i, i);
      assert i * p == p * i;
    }
  }

  lemma WholeMillis(m: nat)
    ensures (m * NANOS_PER_MILLI) % NANOS_PER_MILLI == 0 && Millis(m * NANOS_PER_MILLI) == m
  {
  }

  /** A first delay of a millisecond under a cap of 2^64 milliseconds: the cap wraps to zero and nothing is waited. */
  lemma CapWrapsToNothing(random: nat)
    ensures var config := FetcherConfig(3, NANOS_PER_MILLI, U64_MODULUS * NANOS_PER_MILLI, 256, Some(16));
            && config.Valid()
            && Backoff(1, config.initialBackoff, config.maxBackoff, random) == 0
            && Min(Millis(config.initialBackoff) * Pow2(0), Millis(config.maxBackoff)) == 1
  {
    WholeMillis(U64_MODULUS);
    assert BackoffUpper(1, NANOS_PER_MILLI, U64_MODULUS * NANOS_PER_MILLI) == 0;
  }

  lemma DoublingGrows(i: nat, p: nat)
    ensures i * p <= i * (2 * p)
  {
    assert i * (2 * p) == i * p + i * p;
  }

  lemma WrapShrinks(x: nat)
    ensures x % U64_MODULUS <= x
  {
  }

  /** The window never shrinks from one attempt to the next and never passes the cap. */
  lemma BackoffWindowMonotone(attempt: nat, initial: Duration, max: Duration)
    requires attempt >= 1
    ensures BackoffUpper(attempt, initial, max) <= BackoffUpper(attempt + 1, initial, max) <= Millis(max)
  {
    var i, p := MillisU64(initial), Pow2(attempt - 1);
    SaturationLosesNothing(attempt - 1, i, MillisU64(max));
    SaturationLosesNothing(attempt, i, MillisU64(max));
    DoublingGrows(i, p);
    assert MillisU64(max) <= Millis(max) by { WrapShrinks(Millis(max)); }
  }

  lemma DrawIsInWindow(attempt: nat, initial: Duration, max: Duration, random: nat)
    requires attempt >= 1
    ensures var d := Backoff(attempt, initial, max, random);
            d % NANOS_PER_MILLI == 0 && Millis(d) <= BackoffUpper(attempt, initial, max)
  {
    var upper := BackoffUpper(attempt, initial, max);
    WholeMillis(if upper == 0 then 0 else random % (upper + 1));
  }

  lemma WindowIsDrawn(attempt: nat, initial: Duration, max: Duration, m: nat)
    requires attempt >= 1 && m <= BackoffUpper(attempt, initial, max)
    ensures Backoff(attempt, initial, max, m) == m * NANOS_PER_MILLI
  {
    var upper := BackoffUpper(attempt, initial, max);
    assert m % (upper + 1) == m;
  }

  /** A draw lies in the window, and every whole millisecond of the window can be drawn. */
  lemma BackoffDrawsTheWindow(attempt: nat, initial: Duration, max: Duration, d: Duration)
    requires attempt >= 1
    ensures (exists random: nat :: Backoff(attempt, initial, max, random) == d)
       <==> d % NANOS_PER_MILLI == 0 && Millis(d) <= BackoffUpper(attempt, initial, max)
  {
    forall random: nat ensures d == Backoff(attempt, initial, max, random) ==>
        d % NANOS_PER_MILLI == 0 && Millis(d) <= BackoffUpper(attempt, initial, max)
    {
      DrawIsInWindow(attempt, initial, max, random);
    }
    if d % NANOS_PER_MILLI == 0 && Millis(d) <= BackoffUpper(attempt, initial, max) {
      WindowIsDrawn(attempt, initial, max, Millis(d));
    }
  }

  lemma BackoffWithinCap(attempt: nat, initial: Duration, max: Duration, random: nat)
    ensures Backoff(attempt, initial, max, random) <= max
  {
    if attempt > 0 {
      assert Millis(Backoff(attempt, initial, max, random)) <= Millis(max);
      assert max >= Millis(max) * NANOS_PER_MILLI;
    }
  }

  // ── The attempt loop ──────────────────────────────────────────────────────────

  /** Attempt `k` ended the call: it succeeded, spent its class's retries, or was the last allowed. */
  predicate Stops<V>(config: FetcherConfig, reply: AttemptResult<V>, k: nat) {
    reply.AttemptOk? || k > RetryLimit(reply.error) || k >= config.maxAttempts
  }

  predicate FirstStop<V>(config: FetcherConfig, upstream: nat -> AttemptResult<V>, k: nat) {
    && k >= 1
    && Stops(config, upstream(k), k)
    && forall j | 1 <= j < k :: !Stops(config, upstream(j), j)
  }

  /** The sleep after a failed attempt respects the server's hint and the two caps. */
  predicate SleepWithinBounds(config: FetcherConfig, retryAfter: Option<Duration>, sleep: Duration) {
    && (retryAfter.Some? ==> sleep >= Min(retryAfter.value, RETRY_AFTER_MAX))
    && sleep <= Max(RETRY_AFTER_MAX, config.maxBackoff)
    && (retryAfter.None? ==> sleep <= config.maxBackoff)
  }

  /** The advertised window of attempt `k`, in milliseconds. */
  function AdvertisedWindow(config: FetcherConfig, k: nat): nat
    requires k >= 1
  {
    Min(Millis(config.initialBackoff) * Pow2(k - 1), Millis(config.maxBackoff))
  }

  /** Larger of the server's hint, up to its cap, and `jitter` milliseconds. */
  predicate IsLargerOfHintAnd(jitter: nat, retryAfter: Option<Duration>, sleep: Duration) {
    var hint := if retryAfter.Some? then Min(retryAfter.value, RETRY_AFTER_MAX) else 0;
    sleep == Max(hint, jitter * NANOS_PER_MILLI)
  }

  /**
    The sleep after attempt `k` is the larger of the hint and the jitter drawn for that very
    attempt from its window, which is the advertised one if the cap fits 64 bits of milliseconds.
  */
  predicate SleepIsDrawn(config: FetcherConfig, retryAfter: Option<Duration>, draw: nat, k: nat, sleep: Duration)
    requires k >= 1
  {
    && IsLargerOfHintAnd(draw % (BackoffUpper(k, config.initialBackoff, config.maxBackoff) + 1), retryAfter, sleep)
    && (Millis(config.maxBackoff) <= U64_MAX ==>
          IsLargerOfHintAnd(draw % (AdvertisedWindow(config, k) + 1), retryAfter, sleep))
  }

  lemma DelayIsDrawn(config: FetcherConfig, retryAfter: Option<Duration>, draw: nat, k: nat)
    requires config.Valid() && k >= 1
    ensures var backoff := Backoff(k, config.initialBackoff, config.maxBackoff, draw);
            var delay := if retryAfter.Some? then Max(Min(retryAfter.value, RETRY_AFTER_MAX), backoff) else backoff;
            SleepWithinBounds(config, retryAfter, delay) && SleepIsDrawn(config, retryAfter, draw, k, delay)
  {
    BackoffWithinCap(k, config.initialBackoff, config.maxBackoff, draw);
    BackoffWindowExact(k, config.initialBackoff, config.maxBackoff);
  }

  function ResultOf<V>(reply: AttemptResult<V>): Result<V, FetchError> {
    match reply
    case AttemptOk(value) => Ok(value)
    case AttemptErr(error, _) => Err(error)
  }

  /** The loop of `fetch_with_retry`; `upstream(k)` is what attempt `k` would get. */
  method FetchWithRetry<V>(config: FetcherConfig, upstream: nat -> AttemptResult<V>, random: nat -> nat)
    returns (result: Result<V, FetchError>, attempts: nat, sleeps: seq<Duration>)
    requires config.Valid()
    ensures FirstStop(config, upstream, attempts)
    ensures attempts <= Min(config.maxAttempts, 4)
    ensures result == ResultOf(upstream(attempts))
    ensures |sleeps| == attempts - 1
    ensures forall k | 1 <= k < attempts ::
              upstream(k).AttemptErr? && SleepWithinBounds(config, upstream(k).retryAfter, sleeps[k - 1])
    ensures forall k | 1 <= k < attempts ::
              SleepIsDrawn(config, upstream(k).retryAfter, random(k), k, sleeps[k - 1])
  {
    hide SleepWithinBounds, SleepIsDrawn, Backoff;
    attempts, sleeps := 0, [];
    while true
      invariant attempts < config.maxAttempts && attempts <= 3
      invariant forall j | 1 <= j <= attempts :: !Stops(config, upstream(j), j)
      invariant |sleeps| == attempts
      invariant forall k | 1 <= k <= attempts ::
                  upstream(k).AttemptErr? && SleepWithinBounds(config, upstream(k).retryAfter, sleeps[k - 1])
      invariant forall k | 1 <= k <= attempts ::
                  SleepIsDrawn(config, upstream(k).retryAfter, random(k), k, sleeps[k - 1])
      decreases config.maxAttempts - attempts
    {
      attempts := attempts + 1;
      match upstream(attempts)
      case AttemptOk(value) => return Ok(value), attempts, sleeps;
      case AttemptErr(error, retryAfter) =>
        if attempts <= RetryLimit(error) && attempts < config.maxAttempts {
          var backoffDelay := Backoff(attempts, config.initialBackoff, config.maxBackoff, random(attempts));
          DelayIsDrawn(config, retryAfter, random(attempts), attempts);
          var delay := match retryAfter
            case Some(server) => Max(Min(server, RETRY_AFTER_MAX), backoffDelay)
            case None => backoffDelay;
          sleeps := sleeps + [delay];
        } else {
          return Err(error), attempts, sleeps;
        }
    }
  }

  /** For every upstream there is exactly one stopping attempt, and it is at most the fourth. */
  lemma StopIsUnique<V>(config: FetcherConfig, upstream: nat -> AttemptResult<V>, j: nat, k: nat)
    requires FirstStop(config, upstream, j) && FirstStop(config, upstream, k)
    ensures j == k && k <= 4
  {
    if k > 4 {
      assert Stops(config, upstream(4), 4);
    }
  }

  // ── The documented policy ─────────────────────────────────────────────────────

  lemma {:induction false} PersistentErrorStops<V>(config: FetcherConfig, upstream: nat -> AttemptResult<V>,
      error: FetchError, k: nat)
    requires config.Valid() && FirstStop(config, upstream, k)
    requires forall j | j >= 1 :: upstream(j).AttemptErr? && upstream(j).error == error
    ensures k == Min(config.maxAttempts, RetryLimit(error) + 1)
  {
    var last := Min(config.maxAttempts, RetryLimit(error) + 1);
    assert Stops(config, upstream(last), last);
  }

  /**
    Against an upstream that always fails in one way the loop makes the documented number
    of attempts exactly when the failure is not a 429 or no more than three attempts are allowed.
  */
  lemma DocumentedAttemptsIff<V>(config: FetcherConfig, upstream: nat -> AttemptResult<V>, error: FetchError, k: nat)
    requires config.Valid() && FirstStop(config, upstream, k)
    requires forall j | j >= 1 :: upstream(j).AttemptErr? && upstream(j).error == error
    ensures k == Min(config.maxAttempts, DocumentedExtra(error) + 1)
        <==> error != HttpStatus(429) || config.maxAttempts <= 3
  {
    PersistentErrorStops(config, upstream, error, k);
  }

  /** Every error that is retried counts against the upstream, save the request to slow down. */
  lemma RetriedErrorsCount(error: FetchError)
    ensures RetryLimit(error) > 0 && error != HttpStatus(429) ==> IsBreakerFailure(error)
    ensures !IsBreakerFailure(HttpStatus(429)) && !IsBreakerFailure(CircuitOpen)
  {
  }

  function Always429(attempt: nat): AttemptResult<()> { AttemptErr(HttpStatus(429), None) }

  /** A server that keeps answering 429, with four attempts allowed, gets four where three are documented. */
  lemma FourthAttemptOn429()
    ensures var config := FetcherConfig(4, 500 * NANOS_PER_MILLI, 8000 * NANOS_PER_MILLI, 256, Some(16));
            && config.Valid() && FirstStop(config, Always429, 4)
            && Min(config.maxAttempts, DocumentedExtra(HttpStatus(429)) + 1) == 3
  {
  }
}
