/** Bounded exponential backoff with jitter (lib/jobs/retry.js). */
module Retry {

  const MAX_ATTEMPTS: nat := 5
  const BASE_DELAY_MS: int := 1000
  const MAX_DELAY_MS: int := 60000

  /** A value of Math.random(). */
  type Draw = r: real | 0.0 <= r < 1.0 witness 0.0

  function Min(a: int, b: int): int { if a <= b then a else b }

  function Max(a: int, b: int): int { if a >= b then a else b }

  function Pow2(n: nat): (p: int)
    ensures p >= 1
  {
    if n == 0 then 1 else 2 * Pow2(n - 1)
  }

  /** Delay before jitter; `attempt` is the 1-based number of the attempt that just failed. */
  function ExpDelayMs(attempt: int): int
  {
    Min(MAX_DELAY_MS, BASE_DELAY_MS * Pow2(Max(0, attempt - 1)))
  }

  /** JavaScript's Math.round: halves go up. */
  function RoundHalfUp(x: real): int { (x + 0.5).Floor }

  function BackoffMs(attempt: int, random: Draw): int
  {
    var exp := ExpDelayMs(attempt) as real;
    var jittered := exp + random * exp * 0.2;
    RoundHalfUp(if jittered <= MAX_DELAY_MS as real then jittered else MAX_DELAY_MS as real)
  }

  lemma {:induction false} Pow2Grows(m: nat, n: nat)
    requires m <= n
    ensures Pow2(m) <= Pow2(n)
  {
    if m < n {
      Pow2Grows(m, n - 1);
    }
  }

  /** The first seven delays are the doublings of one second; from the seventh attempt on the cap rules. */
  lemma {:induction false} ExpDelayTable(attempt: int)
    ensures attempt <= 1 ==> ExpDelayMs(attempt) == 1000
    ensures attempt == 2 ==> ExpDelayMs(attempt) == 2000
    ensures attempt == 3 ==> ExpDelayMs(attempt) == 4000
    ensures attempt == 4 ==> ExpDelayMs(attempt) == 8000
    ensures attempt == 5 ==> ExpDelayMs(attempt) == 16000
    ensures attempt == 6 ==> ExpDelayMs(attempt) == 32000
    ensures attempt >= 7 ==> ExpDelayMs(attempt) == MAX_DELAY_MS
  {
    assert Pow2(1) == 2 && Pow2(2) == 4 && Pow2(3) == 8;
    assert Pow2(4) == 16 && Pow2(5) == 32 && Pow2(6) == 64;
    if attempt >= 7 {
      Pow2Grows(6, attempt - 1);
    }
  }

  /** exp(n) <= delay <= min(60000, 1.2 * exp(n)), whatever the attempt and the random draw. */
  lemma BackoffBounds(attempt: int, random: Draw)
    ensures ExpDelayMs(attempt) <= BackoffMs(attempt, random) <= MAX_DELAY_MS
    ensures 5 * BackoffMs(attempt, random) <= 6 * ExpDelayMs(attempt)
  {
    ExpDelayTable(attempt);
    var exp := ExpDelayMs(attempt) as real;
    assert 0.0 <= random * exp <= exp;
  }

  /** Below the cap even the luckiest next delay exceeds the unluckiest present one;
      at the cap every delay is exactly the cap. The cap starts at attempt seven. */
  lemma BackoffGrowsToTheCap(attempt: int, random: Draw, nextRandom: Draw)
    requires 1 <= attempt
    ensures BackoffMs(attempt, random) < BackoffMs(attempt + 1, nextRandom) <==> attempt <= 6
    ensures BackoffMs(attempt, random) == MAX_DELAY_MS <==> attempt >= 7
  {
    ExpDelayTable(attempt);
    ExpDelayTable(attempt + 1);
    BackoffBounds(attempt, random);
    BackoffBounds(attempt + 1, nextRandom);
  }

  /** The most an item can have waited once its first `retried` attempts have each been retried at most once; attempts
      from MAX_ATTEMPTS on are not retried. */
  function BackoffCap(retried: nat): int
  {
    if retried == 0 then 0
    else BackoffCap(retried - 1) + if retried < MAX_ATTEMPTS then 6 * ExpDelayMs(retried) / 5 else 0
  }

  lemma {:induction false} BackoffCapBounds(m: nat, n: nat)
    requires m <= n
    ensures 0 <= BackoffCap(m) <= BackoffCap(n) <= 18000
    decreases n
  {
    if n > 0 {
      ExpDelayTable(n);
      BackoffCapBounds(if m == n then n - 1 else m, n - 1);
      BackoffCapTable();
    }
  }

  lemma BackoffCapTable()
    ensures BackoffCap(1) == 1200 && BackoffCap(2) == 3600 && BackoffCap(3) == 8400 && BackoffCap(4) == 18000
  {
    ExpDelayTable(1);
    ExpDelayTable(2);
    ExpDelayTable(3);
    ExpDelayTable(4);
  }

  /** Sum of the delays after attempts from..from+|draws|-1. */
  function TotalBackoffMs(from: nat, draws: seq<Draw>): int
    decreases |draws|
  {
    if draws == [] then 0 else BackoffMs(from, draws[0]) + TotalBackoffMs(from + 1, draws[1..])
  }

  /** The delays after attempts 1, 2, ... below the limit: at most 18 seconds together, at least 15 if all are taken. */
  lemma TotalBackoffBound(draws: seq<Draw>)
    requires |draws| <= MAX_ATTEMPTS - 1
    ensures TotalBackoffMs(1, draws) <= 18000
    ensures |draws| == MAX_ATTEMPTS - 1 ==> TotalBackoffMs(1, draws) >= 15000
  {
    TotalBackoffFits(1, draws);
    BackoffCapTable();
    BackoffCapBounds(|draws|, MAX_ATTEMPTS - 1);
  }

  /** The delays after a stretch of attempts stay within what the cap allots to it, and use up five sixths of it. */
  lemma {:induction false} TotalBackoffFits(from: nat, draws: seq<Draw>)
    requires 1 <= from && from + |draws| <= MAX_ATTEMPTS
    ensures var room := BackoffCap(from + |draws| - 1) - BackoffCap(from - 1);
            5 * room <= 6 * TotalBackoffMs(from, draws) <= 6 * room
    decreases |draws|
  {
    if draws != [] {
      hide BackoffCap, BackoffMs;
      OneDelayFits(from, draws[0]);
      TotalBackoffFits(from + 1, draws[1..]);
    }
  }

  lemma OneDelayFits(attempt: nat, random: Draw)
    requires 1 <= attempt < MAX_ATTEMPTS
    ensures var room := BackoffCap(attempt) - BackoffCap(attempt - 1);
            5 * room <= 6 * BackoffMs(attempt, random) <= 6 * room
  {
    ExpDelayTable(attempt);
    BackoffBounds(attempt, random);
    hide BackoffMs, ExpDelayMs;
  }

  /** The delay is the whole number of milliseconds nearest to exp(n) * (1 + draw / 5) under the cap; halves go up. */
  lemma BackoffIsNearest(attempt: int, random: Draw)
    ensures var grown := ExpDelayMs(attempt) as real * (1.0 + random / 5.0);
            var ideal := if grown <= 60000.0 then grown else 60000.0;
            BackoffMs(attempt, random) as real - 0.5 <= ideal < BackoffMs(attempt, random) as real + 0.5
  {
    var exp := ExpDelayMs(attempt) as real;
    assert exp + random * exp * 0.2 == exp * (1.0 + random / 5.0);
  }
}
