/** Retry strategies: how long to wait before the next attempt, and whether there is one. */
module Retry {
  import opened JobModel

  /** Delays are durations in nanoseconds; the exponential one is computed in whole milliseconds. */
  datatype Strategy =
    | NoRetry
    | Fixed(interval: Time, maxAttempts: U32)
    | Exponential(initialDelay: Time, multiplier: real, maxDelay: Time, maxAttempts: U32, jitter: bool)
    | Linear(initialDelay: Time, increment: Time, maxDelay: Time, maxAttempts: U32)

  datatype Policy = Policy(
    strategy: Strategy,
    retryOnAll: bool,
    retryable: seq<string>,
    nonRetryable: seq<string>)

  function MaxAttempts(s: Strategy): U32 {
    if s.NoRetry? then 0 else s.maxAttempts
  }

  /** Whether a job whose `attempt`-th execution ended with this kind of error runs again. */
  predicate ShouldRetry(p: Policy, exception: Option<string>, attempt: U32) {
    && attempt <= MaxAttempts(p.strategy)
    && !p.strategy.NoRetry?
    && (if exception.None? then p.retryOnAll
        else exception.value !in p.nonRetryable && (p.retryOnAll || exception.value in p.retryable))
  }

  // ----- arithmetic of the delays -----

  function Power(base: real, n: nat): real {
    if n == 0 then 1.0 else base * Power(base, n - 1)
  }

  function Truncate(r: real): int {
    if r >= 0.0 then r.Floor else -((-r).Floor)
  }

  function Millis(d: Time): int {
    if d >= 0 then d / 1_000_000 else -((-d) / 1_000_000)
  }

  function RealMin(a: real, b: real): real {
    if a < b then a else b
  }

  function Grown(initial: real, multiplier: real, n: nat): real {
    initial * Power(multiplier, n)
  }

  /** Exponential backoff before jitter, in milliseconds. */
  function Backoff(s: Strategy, attempt: U32): real
    requires s.Exponential?
  {
    var n := if attempt == 0 then 0 else attempt - 1;
    RealMin(Grown(Millis(s.initialDelay) as real, s.multiplier, n), Millis(s.maxDelay) as real)
  }

  /** `factor` is the random draw between -1 and 1. */
  function Jittered(s: Strategy, delay: real, factor: real): real
    requires s.Exponential?
  {
    if s.jitter then delay + delay * 0.25 * factor else delay
  }

  /** The cast of an unsigned 32-bit counter to a signed one wraps. */
  function AsSigned(n: U32): int {
    if n < 0x8000_0000 then n else n - 0x1_0000_0000
  }

  /** One less, wrapping in 32 bits. */
  function Decremented(n: int): int {
    if n == -0x8000_0000 then 0x7FFF_FFFF else n - 1
  }

  function IntMin(a: int, b: int): int {
    if a < b then a else b
  }

  function Delay(s: Strategy, attempt: U32, factor: real): Option<Time> {
    if s.NoRetry? || attempt > s.maxAttempts then None
    else
      match s
      case Fixed(interval, _) => Some(interval)
      case Exponential(_, _, _, _, _) => Some(1_000_000 * Truncate(Jittered(s, Backoff(s, attempt), factor)))
      case Linear(initial, increment, max, _) => Some(IntMin(initial + increment * Decremented(AsSigned(attempt)), max))
  }

  /** The delay computation with its multiply loop, which meets the closed form above. */
  method CalculateDelay(s: Strategy, attempt: U32, factor: real) returns (r: Option<Time>)
    ensures r == Delay(s, attempt, factor)
  {
    match s {
      case NoRetry =>
        return None;
      case Fixed(interval, maxAttempts) =>
        return if attempt <= maxAttempts then Some(interval) else None;
      case Exponential(initialDelay, multiplier, maxDelay, maxAttempts, jitter) =>
        if attempt > maxAttempts {
          return None;
        }
        var delay := MultiplyLoop(Millis(initialDelay) as real, multiplier, attempt);
        delay := RealMin(delay, Millis(maxDelay) as real);
        assert delay == Backoff(s, attempt);
        delay := Jittered(s, delay, factor);
        return Some(1_000_000 * Truncate(delay));
      case Linear(initialDelay, increment, maxDelay, maxAttempts) =>
        if attempt > maxAttempts {
          return None;
        }
        var delay := initialDelay + increment * Decremented(AsSigned(attempt));
        return Some(IntMin(delay, maxDelay));
    }
  }

  method MultiplyLoop(initial: real, multiplier: real, attempt: U32) returns (delay: real)
    ensures delay == Grown(initial, multiplier, if attempt == 0 then 0 else attempt - 1)
  {
    delay := initial;
    for i := 1 to if attempt == 0 then 1 else attempt
      invariant delay == initial * Power(multiplier, i - 1)
    {
      delay := delay * multiplier;
    }
  }

  // ----- what the delays promise -----

  /** A retry is granted, with no error kind to look at, exactly when all errors retry and a delay exists. */
  lemma RetryHasDelay(p: Policy, exception: Option<string>, attempt: U32, factor: real)
    ensures ShouldRetry(p, exception, attempt) ==> Delay(p.strategy, attempt, factor).Some?
    ensures ShouldRetry(p, None, attempt) <==> p.retryOnAll && Delay(p.strategy, attempt, factor).Some?
  {
  }

  /** Exponential backoff with sensible parameters. */
  ghost predicate Growing(s: Strategy) {
    s.Exponential? && s.initialDelay >= 0 && s.maxDelay >= 0 && s.multiplier >= 1.0
  }

  lemma {:induction false} PowerGrows(base: real, m: nat, n: nat)
    requires base >= 1.0 && m <= n
    ensures 1.0 <= Power(base, m) <= Power(base, n)
    decreases n
  {
    if n > 0 {
      PowerGrows(base, if m == n then m - 1 else m, n - 1);
    }
  }

  /** Before jitter the delays never shrink from one attempt to the next and never pass the cap. */
  lemma BackoffMonotone(s: Strategy, a: U32, b: U32)
    requires Growing(s) && a <= b
    ensures 0.0 <= Backoff(s, a) <= Backoff(s, b) <= Millis(s.maxDelay) as real
  {
    GrownMonotone(Millis(s.initialDelay) as real, s.multiplier,
                  if a == 0 then 0 else a - 1, if b == 0 then 0 else b - 1);
  }

  lemma GrownMonotone(initial: real, multiplier: real, m: nat, n: nat)
    requires initial >= 0.0 && multiplier >= 1.0 && m <= n
    ensures 0.0 <= Grown(initial, multiplier, m) <= Grown(initial, multiplier, n)
  {
    PowerGrows(multiplier, m, n);
  }

  /** Jitter moves a delay by at most a quarter of it, in either direction. */
  lemma JitterWithinQuarter(s: Strategy, delay: real, factor: real)
    requires s.Exponential? && delay >= 0.0 && -1.0 <= factor <= 1.0
    ensures 0.75 * delay <= Jittered(s, delay, factor) <= 1.25 * delay
  {
    ScaledWithin(delay, factor);
  }

  lemma ScaledWithin(q: real, factor: real)
    requires q >= 0.0 && -1.0 <= factor <= 1.0
    ensures -q <= q * factor <= q
  {
    assert q * (1.0 - factor) == q - q * factor;
    assert q * (1.0 + factor) == q + q * factor;
  }

  /** The largest delay a strategy is configured for. */
  function Cap(s: Strategy): (r: Time)
    ensures s.Fixed? ==> r == s.interval
    ensures s.Exponential? || s.Linear? ==> r == s.maxDelay
  {
    match s
    case NoRetry => 0
    case Fixed(interval, _) => interval
    case Exponential(_, _, max, _, _) => max
    case Linear(_, _, max, _) => max
  }

  lemma DelayWithinCap(s: Strategy, attempt: U32, factor: real)
    requires Growing(s) || s.Fixed? || s.Linear?
    requires -1.0 <= factor <= 1.0
    requires Delay(s, attempt, factor).Some? && Cap(s) >= 0
    ensures 4 * Delay(s, attempt, factor).value <= 5 * Cap(s)
  {
    if s.Exponential? {
      BackoffMonotone(s, attempt, attempt);
      JitterWithinQuarter(s, Backoff(s, attempt), factor);
      var d := Jittered(s, Backoff(s, attempt), factor);
      assert d <= 1.25 * (Millis(s.maxDelay) as real);
      assert Truncate(d) as real <= d;
    }
  }

  /** Delays of attempts 1 to n, one random draw each. */
  function TotalDelay(s: Strategy, n: nat, factors: seq<real>): int
    requires n <= |factors| && n <= MaxAttempts(s)
  {
    if n == 0 then 0 else TotalDelay(s, n - 1, factors) + Delay(s, n, factors[n - 1]).value
  }

  /** A whole chain of delays waits at most 1.25 x max_attempts x max_delay. */
  lemma {:induction false} ChainDelayBound(s: Strategy, n: nat, factors: seq<real>)
    requires Growing(s) || s.Fixed? || s.Linear?
    requires Cap(s) >= 0 && n <= |factors| && n <= MaxAttempts(s)
    requires forall i :: 0 <= i < |factors| ==> -1.0 <= factors[i] <= 1.0
    ensures 4 * TotalDelay(s, n, factors) <= 5 * n * Cap(s)
    ensures 4 * TotalDelay(s, n, factors) <= 5 * MaxAttempts(s) * Cap(s)
  {
    var c := Cap(s);
    if n > 0 {
      ChainDelayBound(s, n - 1, factors);
      DelayWithinCap(s, n, factors[n - 1]);
      Distribute(n - 1, 1, c);
    }
    Distribute(n, MaxAttempts(s) - n, c);
  }

  lemma Distribute(a: nat, b: nat, c: nat)
    ensures 5 * (a + b) * c == 5 * a * c + 5 * b * c
    ensures 5 * b * c >= 0
  {
    assert (a + b) * c == a * c + b * c;
    assert b * c >= 0;
  }

  // ----- what a delay is, field by field -----

  /** A retry is granted exactly within the maximum, to an error that is not excluded and is included or covered. */
  lemma ShouldRetryIff(p: Policy, exception: Option<string>, attempt: U32)
    ensures ShouldRetry(p, exception, attempt) <==>
      && !p.strategy.NoRetry?
      && attempt <= p.strategy.maxAttempts
      && (exception.None? ==> p.retryOnAll)
      && (exception.Some? ==> exception.value !in p.nonRetryable)
      && (exception.Some? && exception.value !in p.retryable ==> p.retryOnAll)
  {
  }

  /** There is a delay exactly within the maximum number of attempts. */
  lemma DelayIff(s: Strategy, attempt: U32, factor: real)
    ensures Delay(s, attempt, factor).Some? <==> !s.NoRetry? && attempt <= s.maxAttempts
  {
  }

  /** A fixed delay is its interval; a linear one grows by its increment up to the cap. */
  lemma SteadyDelay(s: Strategy, attempt: U32, factor: real)
    requires (s.Fixed? || s.Linear?) && attempt <= s.maxAttempts
    ensures s.Fixed? ==> Delay(s, attempt, factor) == Some(s.interval)
    ensures s.Linear? && 1 <= attempt < 0x8000_0000 ==>
      var d := s.initialDelay + (attempt - 1) * s.increment;
      Delay(s, attempt, factor) == Some(if d < s.maxDelay then d else s.maxDelay)
  {
    if s.Linear? && 1 <= attempt < 0x8000_0000 {
      assert s.increment * (attempt - 1) == (attempt - 1) * s.increment;
    }
  }

  /** Cutting to whole milliseconds loses less than one. */
  lemma CutMillis(d: real)
    requires d >= 0.0
    ensures d * 1_000_000.0 - 1_000_000.0 < (1_000_000 * Truncate(d)) as real <= d * 1_000_000.0
  {
    assert Truncate(d) as real <= d < Truncate(d) as real + 1.0;
    assert (1_000_000 * Truncate(d)) as real == 1_000_000.0 * Truncate(d) as real;
  }

  /** Whole milliseconds in nanoseconds. */
  lemma MillisOf(d: Time)
    requires d >= 0
    ensures d - 1_000_000 < 1_000_000 * Millis(d) <= d && 1_000_000 * Millis(d) == d - d % 1_000_000
  {
  }

  lemma ScaleMin(x: real, y: real)
    ensures RealMin(x, y) * 1_000_000.0 == RealMin(x * 1_000_000.0, y * 1_000_000.0)
  {
  }

  lemma Rescale(i: int, g: real)
    ensures (i as real * g) * 1_000_000.0 == (1_000_000 * i) as real * g
  {
    var x := i as real;
    assert (1_000_000 * i) as real == 1_000_000.0 * x;
    assert (x * g) * 1_000_000.0 == (1_000_000.0 * x) * g;
  }

  /** The backoff the configuration asks for, in nanoseconds, on whole milliseconds. */
  function Asked(s: Strategy, attempt: U32): real
    requires s.Exponential? && attempt >= 1
  {
    RealMin(Grown((s.initialDelay - s.initialDelay % 1_000_000) as real, s.multiplier, attempt - 1),
            (s.maxDelay - s.maxDelay % 1_000_000) as real)
  }

  lemma BackoffNanos(s: Strategy, attempt: U32)
    requires s.Exponential? && attempt >= 1 && s.initialDelay >= 0 && s.maxDelay >= 0
    ensures Backoff(s, attempt) * 1_000_000.0 == Asked(s, attempt)
  {
    var i, g, m := Millis(s.initialDelay), Power(s.multiplier, attempt - 1), Millis(s.maxDelay);
    MillisOf(s.initialDelay);
    MillisOf(s.maxDelay);
    ScaleMin(i as real * g, m as real);
    Rescale(i, g);
    Rescale(m, 1.0);
  }

  /** Jitter moves a delay by a quarter of the draw. */
  lemma JitterNanos(s: Strategy, b: real, a: real, factor: real)
    requires s.Exponential? && a == b * 1_000_000.0
    ensures Jittered(s, b, factor) * 1_000_000.0 == if s.jitter then a * (1.0 + factor / 4.0) else a
  {
    var f := factor / 4.0;
    assert b * 0.25 * factor == b * f;
    assert (b + b * f) * 1_000_000.0 == a + a * f;
  }

  lemma DelayOf(s: Strategy, attempt: U32, factor: real)
    requires s.Exponential? && attempt <= s.maxAttempts
    ensures Delay(s, attempt, factor) == Some(1_000_000 * Truncate(Jittered(s, Backoff(s, attempt), factor)))
  {
  }

  /** The exponential delay from both sides: within a millisecond below what is asked, moved by the jitter. */
  lemma ExponentialDelay(s: Strategy, attempt: U32, factor: real)
    requires Growing(s) && 1 <= attempt <= s.maxAttempts && -1.0 <= factor <= 1.0
    ensures Delay(s, attempt, factor).Some?
    ensures var d := Delay(s, attempt, factor).value as real;
      var j := if s.jitter then Asked(s, attempt) * (1.0 + factor / 4.0) else Asked(s, attempt);
      j - 1_000_000.0 < d <= j
  {
    var b := Backoff(s, attempt);
    DelayOf(s, attempt, factor);
    BackoffMonotone(s, attempt, attempt);
    JitterWithinQuarter(s, b, factor);
    BackoffNanos(s, attempt);
    CutMillis(Jittered(s, b, factor));
    JitterNanos(s, b, Asked(s, attempt), factor);
  }

  /** A cap of parts of a millisecond is met within one. */
  lemma WholeCap(grown: real, cap: Time, d: real)
    requires cap >= 0 && grown >= 0.0
    requires var a := RealMin(grown, (cap - cap % 1_000_000) as real); a - 1_000_000.0 < d <= a
    requires grown >= (cap - cap % 1_000_000) as real ==> d == (cap - cap % 1_000_000) as real
    ensures RealMin(grown, cap as real) - 1_000_000.0 < d <= RealMin(grown, cap as real)
  {
  }

  lemma PlainCut(b: real, grown: real, cap: Time)
    requires b >= 0.0 && grown >= 0.0 && cap >= 0
    requires b * 1_000_000.0 == RealMin(grown, (cap - cap % 1_000_000) as real)
    ensures var d := (1_000_000 * Truncate(b)) as real;
      RealMin(grown, cap as real) - 1_000_000.0 < d <= RealMin(grown, cap as real)
  {
    var m := cap / 1_000_000;
    assert cap - cap % 1_000_000 == 1_000_000 * m;
    CutMillis(b);
    if grown >= (1_000_000 * m) as real {
      WholeMillis(b, m);
    }
    WholeCap(grown, cap, (1_000_000 * Truncate(b)) as real);
  }

  /** Growth starts from the initial value and multiplies once an attempt. */
  lemma GrownSteps(initial: real, multiplier: real, n: nat)
    ensures Grown(initial, multiplier, 0) == initial
    ensures Grown(initial, multiplier, n + 1) == Grown(initial, multiplier, n) * multiplier
  {
    assert Power(multiplier, n + 1) == multiplier * Power(multiplier, n);
  }

  /** Unjittered, from whole milliseconds: within one below the initial delay grown attempt by attempt, capped. */
  lemma PlainDelay(s: Strategy, attempt: U32, factor: real)
    requires Growing(s) && !s.jitter && 1 <= attempt <= s.maxAttempts && s.initialDelay % 1_000_000 == 0
    ensures Delay(s, attempt, factor).Some?
    ensures var b := RealMin(Grown(s.initialDelay as real, s.multiplier, attempt - 1), s.maxDelay as real);
      b - 1_000_000.0 < Delay(s, attempt, factor).value as real <= b
  {
    var grown := Grown(s.initialDelay as real, s.multiplier, attempt - 1);
    DelayOf(s, attempt, factor);
    BackoffNanos(s, attempt);
    GrownMonotone(s.initialDelay as real, s.multiplier, 0, attempt - 1);
    assert s.initialDelay - s.initialDelay % 1_000_000 == s.initialDelay;
    PlainDelayBy(s, attempt, factor, Backoff(s, attempt), grown);
  }

  lemma PlainDelayBy(s: Strategy, attempt: U32, factor: real, b: real, grown: real)
    requires s.Exponential? && !s.jitter && s.maxDelay >= 0 && grown >= 0.0
    requires Delay(s, attempt, factor) == Some(1_000_000 * Truncate(Jittered(s, b, factor)))
    requires b * 1_000_000.0 == RealMin(grown, (s.maxDelay - s.maxDelay % 1_000_000) as real)
    ensures var m := RealMin(grown, s.maxDelay as real);
      m - 1_000_000.0 < Delay(s, attempt, factor).value as real <= m
  {
    PlainCut(b, grown, s.maxDelay);
  }

  lemma WholeMillis(b: real, m: nat)
    requires b * 1_000_000.0 == (1_000_000 * m) as real
    ensures Truncate(b) == m
  {
    assert (1_000_000 * m) as real == 1_000_000.0 * m as real;
    assert b == m as real;
  }
}
