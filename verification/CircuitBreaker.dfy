/** CLOSED / OPEN / HALF_OPEN circuit breaker (lib/jobs/circuitBreaker.js). */
module CircuitBreaker {
  import opened ErrorClassifier

  datatype BreakerState = CLOSED | OPEN | HALF_OPEN

  /** `openedAt` is null until the first trip; null counts as 0 in the source's subtraction. */
  datatype Breaker = Breaker(threshold: int, cooldownMs: int, state: BreakerState,
                             failures: nat, openedAt: int, probeInFlight: bool)

  const DEFAULT_THRESHOLD: int := 5
  const DEFAULT_COOLDOWN_MS: int := 30000

  function NewBreaker(threshold: int, cooldownMs: int): Breaker
  {
    Breaker(threshold, cooldownMs, CLOSED, 0, 0, false)
  }

  function CanAttempt(b: Breaker, now: int): (Breaker, bool)
  {
    if b.state.OPEN? && now - b.openedAt < b.cooldownMs then (b, false)
    else
      var b1 := if b.state.OPEN? then b.(state := HALF_OPEN, probeInFlight := false) else b;
      if !b1.state.HALF_OPEN? then (b1, true)
      else if b1.probeInFlight then (b1, false)
      else (b1.(probeInFlight := true), true)
  }

  function RecordSuccess(b: Breaker): Breaker
  {
    b.(failures := 0, state := CLOSED, probeInFlight := false)
  }

  function RecordFailure(b: Breaker, category: Category, now: int): Breaker
  {
    if !category.TRANSIENT? then b
    else if b.state.HALF_OPEN? then b.(state := OPEN, openedAt := now, probeInFlight := false)
    else
      var b1 := b.(failures := b.failures + 1);
      if b1.failures >= b.threshold then b1.(state := OPEN, openedAt := now) else b1
  }

  class CircuitBreaker {
    const failureThreshold: int
    const cooldownMs: int
    var state: BreakerState
    var consecutiveFailures: nat
    var openedAt: int
    var halfOpenProbeInFlight: bool

    function Value(): Breaker
      reads this
    {
      Breaker(failureThreshold, cooldownMs, state, consecutiveFailures, openedAt, halfOpenProbeInFlight)
    }

    constructor (failureThreshold: int, cooldownMs: int)
      ensures Value() == NewBreaker(failureThreshold, cooldownMs)
    {
      this.failureThreshold, this.cooldownMs := failureThreshold, cooldownMs;
      state, consecutiveFailures, openedAt, halfOpenProbeInFlight := CLOSED, 0, 0, false;
    }

    method TryAttempt(now: int) returns (ok: bool)
      modifies this
      ensures (Value(), ok) == CanAttempt(old(Value()), now)
    {
      if state == OPEN {
        if now - openedAt < cooldownMs { return false; }
        state := HALF_OPEN;
        halfOpenProbeInFlight := false;
      }
      if state == HALF_OPEN {
        if halfOpenProbeInFlight { return false; }
        halfOpenProbeInFlight := true;
      }
      return true;
    }

    method Succeeded()
      modifies this
      ensures Value() == RecordSuccess(old(Value()))
    {
      consecutiveFailures := 0;
      state := CLOSED;
      halfOpenProbeInFlight := false;
    }

    method Failed(category: Category, now: int)
      modifies this
      ensures Value() == RecordFailure(old(Value()), category, now)
    {
      if category != TRANSIENT { return; }
      if state == HALF_OPEN {
        state := OPEN;
        openedAt := now;
        halfOpenProbeInFlight := false;
        return;
      }
      consecutiveFailures := consecutiveFailures + 1;
      if consecutiveFailures >= failureThreshold {
        state := OPEN;
        openedAt := now;
      }
    }
  }

  // ---- The breaker as a function of its history ----

  datatype Event = Ask(at: int) | Succeed(at: int) | Fail(category: Category, at: int)

  function After(b: Breaker, e: Event): Breaker
  {
    match e
    case Ask(at) => CanAttempt(b, at).0
    case Succeed(_) => RecordSuccess(b)
    case Fail(c, at) => RecordFailure(b, c, at)
  }

  function Replay(b: Breaker, events: seq<Event>): Breaker
  {
    if events == [] then b else After(Replay(b, events[..|events| - 1]), events[|events| - 1])
  }

  /** TRANSIENT failures recorded since the last success. */
  function TransientRun(events: seq<Event>): nat
  {
    if events == [] then 0
    else
      var before := TransientRun(events[..|events| - 1]);
      match events[|events| - 1]
      case Ask(_) => before
      case Succeed(_) => 0
      case Fail(c, _) => if c.TRANSIENT? then before + 1 else before
  }

  function Erased(events: seq<Event>): seq<Event>
  {
    if events == [] then []
    else
      var before := Erased(events[..|events| - 1]);
      var last := events[|events| - 1];
      if last.Fail? && !last.category.TRANSIENT? then before else before + [last]
  }

  /** The breaker refines its history: CLOSED exactly while fewer than `threshold` TRANSIENT failures
      followed the last success, a pending probe exactly while HALF_OPEN. */
  lemma {:induction false} BreakerRefinesHistory(threshold: int, cooldownMs: int, events: seq<Event>)
    requires threshold >= 1
    ensures var b := Replay(NewBreaker(threshold, cooldownMs), events);
            && (b.state.CLOSED? <==> TransientRun(events) < threshold)
            && (b.probeInFlight <==> b.state.HALF_OPEN?)
            && (b.state.CLOSED? ==> b.failures == TransientRun(events))
            && b.failures <= TransientRun(events)
            && (!b.state.CLOSED? ==> threshold <= b.failures)
            && b.threshold == threshold && b.cooldownMs == cooldownMs
  {
    if events != [] {
      BreakerRefinesHistory(threshold, cooldownMs, events[..|events| - 1]);
    }
  }

  /** When the last TRANSIENT failure was recorded. */
  function LastFailureAt(events: seq<Event>): (at: int)
  {
    if events == [] then 0
    else
      var last := events[|events| - 1];
      if last.Fail? && last.category.TRANSIENT? then last.at else LastFailureAt(events[..|events| - 1])
  }

  /** The cooldown counts from the last TRANSIENT failure, late results of earlier attempts included: an open breaker
      grants exactly from then on. */
  lemma {:induction false} CooldownFromLastFailure(threshold: int, cooldownMs: int, events: seq<Event>, now: int)
    requires threshold >= 1
    ensures var b := Replay(NewBreaker(threshold, cooldownMs), events);
            b.state.OPEN? ==>
              b.openedAt == LastFailureAt(events) && (CanAttempt(b, now).1 <==>
                                                      now - LastFailureAt(events) >= cooldownMs)
  {
    if events != [] {
      CooldownFromLastFailure(threshold, cooldownMs, events[..|events| - 1], now);
      BreakerRefinesHistory(threshold, cooldownMs, events[..|events| - 1]);
    }
  }

  /** Failures of every other category leave no trace. */
  lemma {:induction false} OtherCategoriesAreErased(b: Breaker, events: seq<Event>)
    ensures Replay(b, events) == Replay(b, Erased(events))
  {
    if events != [] {
      var before, last := events[..|events| - 1], events[|events| - 1];
      OtherCategoriesAreErased(b, before);
      if !(last.Fail? && !last.category.TRANSIENT?) {
        var erased := Erased(events);
        assert erased[..|erased| - 1] == Erased(before);
      }
    }
  }

  // ---- Admission rate while tripped ----

  predicate ProbeMarksHalfOpen(b: Breaker)
  {
    b.probeInFlight <==> b.state.HALF_OPEN?
  }

  /** Times at which a tripped breaker granted an attempt. */
  function TrippedGrants(b: Breaker, events: seq<Event>): seq<int>
    decreases |events|
  {
    if events == [] then []
    else
      var rest := TrippedGrants(After(b, events[0]), events[1..]);
      if events[0].Ask? && !b.state.CLOSED? && CanAttempt(b, events[0].at).1 then [events[0].at] + rest else rest
  }

  predicate ClockFrom(start: int, events: seq<Event>)
    decreases |events|
  {
    events != [] ==> start <= events[0].at && ClockFrom(events[0].at, events[1..])
  }

  predicate NoSuccess(events: seq<Event>)
  {
    forall e :: e in events ==> !e.Succeed?
  }

  predicate Spaced(times: seq<int>, gap: int)
  {
    forall i, j :: 0 <= i < j < |times| ==> times[i] + gap <= times[j]
  }

  function EarliestGrant(b: Breaker, clock: int): int
  {
    if b.state.OPEN? then b.openedAt + b.cooldownMs else clock + b.cooldownMs
  }

  lemma {:induction false} GrantsAreLate(b: Breaker, clock: int, events: seq<Event>)
    requires ProbeMarksHalfOpen(b) && ClockFrom(clock, events) && NoSuccess(events) && b.cooldownMs >= 0
    requires b.state.OPEN? ==> b.openedAt <= clock
    ensures forall t :: t in TrippedGrants(b, events) ==> EarliestGrant(b, clock) <= t
    ensures Spaced(TrippedGrants(b, events), b.cooldownMs)
    decreases |events|
  {
    if events != [] {
      var b1, at := After(b, events[0]), events[0].at;
      assert events[0] in events;
      GrantsAreLate(b1, at, events[1..]);
      var rest := TrippedGrants(b1, events[1..]);
      forall t | t in rest ensures EarliestGrant(b, clock) <= t {
        assert EarliestGrant(b1, at) <= t;
      }
      if events[0].Ask? && !b.state.CLOSED? && CanAttempt(b, at).1 {
        forall i, j | 0 <= i < j < |[at] + rest| ensures ([at] + rest)[i] + b.cooldownMs <= ([at] + rest)[j] {
          assert rest[j - 1] in rest;
        }
      }
    }
  }

  lemma {:induction false} SpacedTimesAreFew(times: seq<int>, gap: int)
    requires gap > 0 && Spaced(times, gap)
    ensures times != [] ==> (|times| - 1) * gap <= times[|times| - 1] - times[0]
  {
    if |times| > 1 {
      var init := times[..|times| - 1];
      SpacedTimesAreFew(init, gap);
      assert times[|times| - 2] + gap <= times[|times| - 1];
      assert init[|init| - 1] == times[|times| - 2] && init[0] == times[0];
      assert (|times| - 1) * gap == (|init| - 1) * gap + gap;
    }
  }

  lemma AtLeastOneGap(k: int, gap: int)
    requires gap > 0 && k >= 1
    ensures k * gap >= gap
  {
  }

  lemma FitsInInterval(n: nat, gap: int, length: int)
    requires gap > 0 && n * gap <= length
    ensures n <= length / gap
  {
    var q := length / gap;
    assert (n - q) * gap == n * gap - q * gap;
    if n > q {
      AtLeastOneGap(n - q, gap);
    }
  }

  /** With no success in between, grants of a tripped breaker are at least a cooldown apart, late results of
      earlier attempts included; so an interval of length L holds at most L / cooldown + 1 of them. */
  lemma AdmissionRate(b: Breaker, from: int, until: int, events: seq<Event>)
    requires ProbeMarksHalfOpen(b) && ClockFrom(from, events) && NoSuccess(events) && b.cooldownMs > 0
    requires b.state.OPEN? ==> b.openedAt <= from
    requires from <= until && forall e :: e in events ==> e.at <= until
    ensures Spaced(TrippedGrants(b, events), b.cooldownMs)
    ensures |TrippedGrants(b, events)| <= (until - from) / b.cooldownMs + 1
  {
    GrantsAreLate(b, from, events);
    GrantsAreWithin(b, from, until, events);
    SpacedInIntervalAreFew(TrippedGrants(b, events), b.cooldownMs, from, until);
  }

  lemma SpacedInIntervalAreFew(times: seq<int>, gap: int, from: int, until: int)
    requires gap > 0 && Spaced(times, gap) && from <= until
    requires forall t :: t in times ==> from <= t <= until
    ensures |times| <= (until - from) / gap + 1
  {
    if times == [] {
      FitsInInterval(0, gap, until - from);
    } else {
      SpacedTimesAreFew(times, gap);
      assert times[0] in times && times[|times| - 1] in times;
      FitsInInterval(|times| - 1, gap, until - from);
    }
  }

  lemma {:induction false} GrantsAreWithin(b: Breaker, from: int, until: int, events: seq<Event>)
    requires ClockFrom(from, events) && forall e :: e in events ==> e.at <= until
    ensures forall t :: t in TrippedGrants(b, events) ==> from <= t <= until
    decreases |events|
  {
    if events != [] {
      assert events[0] in events;
      GrantsAreWithin(After(b, events[0]), events[0].at, until, events[1..]);
    }
  }
}
