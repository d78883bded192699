/** The job worker: claim loop, attempts, retries, terminal marking (lib/jobs/worker.js). Only the send awaits,
    so an item has two atomic segments: from the claim to the send, and from the result to the end. */
module Worker {
  import opened Wrappers
  import opened ErrorClassifier
  import opened Retry
  import opened Backpressure
  import opened CircuitBreaker
  import opened Sequences
  import opened Tables
  import opened JobService
  import opened Claiming
  import Sched = Scheduler

  /** What the worker keeps in memory: attempt number of each item in flight, permits taken, the breaker. */
  datatype Proc = Proc(inFlight: map<nat, nat>, active: nat, breaker: Breaker, draining: bool)

  function NewProc(): Proc
  {
    Proc(map[], 0, NewBreaker(DEFAULT_THRESHOLD, DEFAULT_COOLDOWN_MS), false)
  }

  // ---- First segment: claim, mark running, open the attempt; the send follows ----

  /** The tables after each statement of the segment. */
  function StartTrace(db: Db, i: nat, who: string, now: int): (trace: seq<Db>)
    requires i < |db.items|
    ensures |trace| == 5
  {
    var n := db.items[i].attemptCount + 1;
    var d1 := ClaimRow(db, i, who, now);
    var d2 := SetRunning(d1, i);
    var d3 := StartJob(d2, db.items[i].job);
    var d4 := InsertAttempt(d3, i, n);
    [d1, d2, d3, d4, SetAttemptCount(d4, i, n)]
  }

  // ---- Second segment: record the result, retry or finish, settle the job, tell the scheduler ----

  /** Status the item moves to; Queued means a retry. */
  function FateOf(r: SendResult, attemptNumber: nat): ItemStatus
  {
    match CategoryOf(r)
    case None => Succeeded
    case Some(c) =>
      if IsRetryable(c) && attemptNumber < MAX_ATTEMPTS then Queued
      else if c.VALIDATION? then Skipped else Failed
  }

  function RouteItem(db: Db, i: nat, n: nat, r: SendResult, now: int, draw: Draw): Db
  {
    match FateOf(r, n)
    case Queued =>
      if CategoryOf(r).None? then db
      else Requeue(db, i, now + BackoffMs(n, draw), CategoryOf(r).value, DetailOf(r))
    case Succeeded => SetTerminal(db, i, Succeeded, None, None)
    case fate => SetTerminal(db, i, fate, CategoryOf(r), DetailOf(r))
  }

  function FinishTrace(db: Db, i: nat, n: nat, r: SendResult, now: int, draw: Draw): (trace: seq<Db>)
    requires i < |db.items|
    ensures |trace| == 5
  {
    var j, fate := db.items[i].job, FateOf(r, n);
    var d1 := FinishAttempt(db, i, n, r);
    var d2 := RouteItem(d1, i, n, r, now, draw);
    var d3 := if fate.Queued? then d2 else BumpCounter(d2, j, fate);
    var d4 := Settle(d3, j, now);
    [d1, d2, d3, d4, if Settles(d3, j) then Sched.OnSettled(d4, j, now) else d4]
  }

  function BreakerAfter(b: Breaker, r: SendResult, now: int): Breaker
  {
    match CategoryOf(r) case None => RecordSuccess(b) case Some(c) => RecordFailure(b, c, now)
  }

  function ProcAfterFinish(p: Proc, i: nat, r: SendResult, now: int): Proc
  {
    p.(inFlight := p.inFlight - {i}, active := if p.active == 0 then 0 else p.active - 1,
       breaker := BreakerAfter(p.breaker, r, now))
  }

  // ---- The tick ----

  /** One turn of the claim loop: permit, breaker, claim, start. */
  function Turn(db: Db, p: Proc, limit: nat, who: string, now: int): (r: (Db, Proc, Option<nat>))
    ensures r.2.Some? ==> p.active < limit && r.1.active == p.active + 1
  {
    if p.active >= limit then (db, p, None)
    else
      var (b, admitted) := CanAttempt(p.breaker, now);
      var asked := p.(breaker := b);
      if !admitted then (db, asked, None)
      else
        match NextItem(db, now)
        case None => (db, asked, None)
        case Some(i) =>
          (StartTrace(db, i, who, now)[4],
           asked.(active := p.active + 1, inFlight := p.inFlight[i := db.items[i].attemptCount + 1]), Some(i))
  }

  function Turns(db: Db, p: Proc, limit: nat, who: string, now: int): (Db, Proc, seq<nat>)
    decreases limit - p.active
  {
    var (db1, p1, claimed) := Turn(db, p, limit, who, now);
    if claimed.None? then (db1, p1, [])
    else
      var (db2, p2, more) := Turns(db1, p1, limit, who, now);
      (db2, p2, [claimed.value] + more)
  }

  function AfterTick(db: Db, p: Proc, limit: nat, disabled: bool, who: string, now: int): (Db, Proc, seq<nat>)
  {
    if p.draining || disabled then (db, p, []) else Turns(db, p, limit, who, now)
  }

  class JobWorker {
    const db: Database
    const semaphore: Semaphore
    const breaker: CircuitBreaker
    const scheduler: Sched.Scheduler
    const workerId: string
    var inFlight: map<nat, nat>
    var draining: bool

    function State(): Proc
      reads this, semaphore, breaker
    {
      Proc(inFlight, semaphore.active, breaker.Value(), draining)
    }

    constructor (db: Database, scheduler: Sched.Scheduler, workerId: string, concurrency: nat)
      requires scheduler.db == db
      ensures this.db == db && this.scheduler == scheduler && this.workerId == workerId
      ensures semaphore.maxConcurrent == concurrency && State() == NewProc()
      ensures fresh(this) && fresh(semaphore) && fresh(breaker)
    {
      this.db, this.scheduler, this.workerId := db, scheduler, workerId;
      semaphore := new Semaphore(concurrency);
      breaker := new CircuitBreaker(DEFAULT_THRESHOLD, DEFAULT_COOLDOWN_MS);
      inFlight, draining := map[], false;
    }

    method RecoverOnStartup(now: int) returns (recovered: nat)
      modifies db
      ensures db.Tables() == RecoverRows(old(db.Tables()), now)
      ensures recovered == Count(old(db.items), (it: Item) => IsStale(it, now))
    {
      recovered := RecoverStaleClaims(db, now);
    }

    /** The part of _processItem before the await. */
    method BeginItem(i: nat)
      requires i < |db.items|
      modifies db, `inFlight
      ensures db.Tables() ==
                var n := old(db.items[i].attemptCount) + 1;
                var d := StartJob(SetRunning(old(db.Tables()), i), old(db.items[i].job));
                SetAttemptCount(InsertAttempt(d, i, n), i, n)
      ensures inFlight == old(inFlight)[i := old(db.items[i].attemptCount) + 1]
    {
      var n := db.items[i].attemptCount + 1;
      MarkItemRunning(db, i);
      RecordAttemptStart(db, i, n);
      inFlight := inFlight[i := n];
    }

    /** The body of the claim loop; None leaves the loop. */
    method TakeTurn(now: int) returns (claimed: Option<nat>)
      modifies this, db, semaphore, breaker
      ensures (db.Tables(), State(), claimed) == Turn(old(db.Tables()), old(State()), semaphore.maxConcurrent,
                                                      workerId, now)
    {
      var acquired := semaphore.TryAcquire();
      if !acquired { return None; }
      var admitted := breaker.TryAttempt(now);
      if !admitted {
        semaphore.Release();
        return None;
      }
      claimed := ClaimNextItem(db, workerId, now);
      if claimed.None? {
        semaphore.Release();
        return None;
      }
      BeginItem(claimed.value);
    }

    method Tick(outboundDisabled: bool, now: int) returns (claimed: seq<nat>)
      modifies this, db, semaphore, breaker
      ensures (db.Tables(), State(), claimed) ==
              AfterTick(old(db.Tables()), old(State()), semaphore.maxConcurrent, outboundDisabled, workerId, now)
    {
      claimed := [];
      if draining || outboundDisabled { return; }
      ghost var all := Turns(db.Tables(), State(), semaphore.maxConcurrent, workerId, now);
      while true
        invariant var rest := Turns(db.Tables(), State(), semaphore.maxConcurrent, workerId, now);
                  all.0 == rest.0 && all.1 == rest.1 && all.2 == claimed + rest.2
        decreases semaphore.maxConcurrent - semaphore.active
      {
        assert claimed + [] == claimed;
        var next := TakeTurn(now);
        if next.None? { return; }
        claimed := claimed + [next.value];
      }
    }

    /** Record the result; retry the item or make it terminal. */
    method RouteOutcome(i: nat, r: SendResult, draw: Draw, now: int)
      requires i in inFlight && i < |db.items|
      requires db.items[i].job < |db.jobs| // foreign key
      modifies db, breaker
      ensures db.Tables() == FinishTrace(old(db.Tables()), i, old(inFlight[i]), r, now, draw)[2]
      ensures breaker.Value() == BreakerAfter(old(breaker.Value()), r, now)
    {
      hide Settle, Settles, Sched.OnSettled;
      var n, category, detail := inFlight[i], CategoryOf(r), DetailOf(r);
      RecordAttemptFinish(db, i, n, r);
      if category.None? {
        breaker.Succeeded();
        MarkItemTerminal(db, i, Succeeded, None, None);
      } else {
        breaker.Failed(category.value, now);
        if IsRetryable(category.value) && n < MAX_ATTEMPTS {
          var delay := BackoffMs(n, draw);
          ScheduleRetry(db, i, now + delay, category.value, detail);
        } else {
          MarkItemTerminal(db, i, if category.value.VALIDATION? then Skipped else Failed, category, detail);
        }
      }
    }

    /** The part of _processItem behind the await, and its finally. */
    method FinishItem(i: nat, r: SendResult, draw: Draw, now: int)
      requires i in inFlight && i < |db.items|
      requires db.items[i].job < |db.jobs| // foreign key
      requires scheduler.db == db
      modifies this, db, semaphore, breaker
      ensures db.Tables() == FinishTrace(old(db.Tables()), i, old(inFlight[i]), r, now, draw)[4]
      ensures State() == ProcAfterFinish(old(State()), i, r, now)
    {
      hide RouteItem, FinishAttempt, BumpCounter, Settle, Settles, Sched.OnSettled, BreakerAfter, FateOf;
      var j := db.items[i].job;
      RouteOutcome(i, r, draw, now);
      var settled := CheckJobCompletion(db, j, now);
      if settled {
        scheduler.OnJobSettled(j, now);
      }
      semaphore.Release();
      inFlight := inFlight - {i};
    }

    /** Start of drainAndStop: no later tick claims anything. */
    method Drain()
      modifies `draining
      ensures draining
    {
      draining := true;
    }
  }

  // ---- What a tick claims ----

  ghost function EligibleSet(db: Db, now: int): set<nat>
  {
    set i | 0 <= i < |db.items| && Eligible(db, now, i)
  }

  /** Starting `i` takes exactly `i` out of the eligible rows and moves no other row in the order. */
  lemma StartTakesOne(db: Db, i: nat, who: string, now: int)
    requires Eligible(db, now, i)
    ensures var db1 := StartTrace(db, i, who, now)[4];
            && EligibleSet(db1, now) == EligibleSet(db, now) - {i}
            && |db1.items| == |db.items|
            && forall k :: 0 <= k < |db.items| && k != i ==> db1.items[k] == db.items[k]
  {
    var db1 := StartTrace(db, i, who, now)[4];
    assert forall k :: 0 <= k < |db.items| && k != i ==> db1.items[k] == db.items[k];
    assert forall k :: 0 <= k < |db.items| && k != i ==> (Eligible(db1, now, k) <==> Eligible(db, now, k));
  }

  /** `claimed` lists, in claim order, the front of the eligible rows. */
  ghost predicate IsFront(db: Db, now: int, claimed: seq<nat>)
  {
    && (forall k :: k in claimed ==> Eligible(db, now, k))
    && (forall a, b :: 0 <= a < b < |claimed| ==> Before(db.items, claimed[a], claimed[b]))
    && (forall k, m :: k in claimed && m in EligibleSet(db, now) && m !in claimed ==> Before(db.items, k, m))
  }

  function Smaller(a: nat, b: nat): nat { if a <= b then a else b }

  /** A turn with the breaker CLOSED and a free permit claims the first eligible row, if any. */
  lemma ClosedTurn(db: Db, p: Proc, limit: nat, who: string, now: int)
    requires p.breaker.state.CLOSED? && p.active <= limit
    ensures var (db1, p1, claimed) := Turn(db, p, limit, who, now);
            && p1.breaker == p.breaker
            && (claimed.None? ==> db1 == db && (p.active == limit || EligibleSet(db, now) == {}))
            && (claimed.Some? ==>
                  && p.active < limit && p1.active == p.active + 1 && Eligible(db, now, claimed.value)
                  && db1 == StartTrace(db, claimed.value, who, now)[4]
                  && forall k :: 0 <= k < |db.items| && Eligible(db, now, k) ==>
                       k == claimed.value || Before(db.items, claimed.value, k))
  {
    hide StartTrace;
  }

  /** At a fixed clock, a CLOSED breaker lets the loop take the front of the queue, as far as the permits go. */
  lemma ClosedTurns(db: Db, p: Proc, limit: nat, who: string, now: int)
    requires p.breaker.state.CLOSED? && p.active <= limit
    ensures var (db1, p1, claimed) := Turns(db, p, limit, who, now);
            && IsFront(db, now, claimed)
            && |claimed| == Smaller(limit - p.active, |EligibleSet(db, now)|)
            && p1.breaker == p.breaker
    decreases limit - p.active
  {
    ClosedTurn(db, p, limit, who, now);
    var (db1, p1, first) := Turn(db, p, limit, who, now);
    if first.Some? {
      var i := first.value;
      assert i in EligibleSet(db, now);
      hide Turn, Eligible, StartTrace;
      StartTakesOne(db, i, who, now);
      ClosedTurns(db1, p1, limit, who, now);
      FrontGrows(db, db1, now, i, Turns(db1, p1, limit, who, now).2);
    }
  }

  lemma FrontGrows(db: Db, db1: Db, now: int, i: nat, rest: seq<nat>)
    requires Eligible(db, now, i) && forall k :: 0 <= k < |db.items| && Eligible(db, now, k) ==>
               k == i || Before(db.items, i, k)
    requires EligibleSet(db1, now) == EligibleSet(db, now) - {i} && |db1.items| == |db.items|
    requires forall k :: 0 <= k < |db.items| && k != i ==> db1.items[k] == db.items[k]
    requires IsFront(db1, now, rest)
    ensures IsFront(db, now, [i] + rest)
  {
    assert forall k :: k in rest ==> k in EligibleSet(db1, now);
    var claimed := [i] + rest;
    forall a, b | 0 <= a < b < |claimed| ensures Before(db.items, claimed[a], claimed[b]) {
      assert claimed[b] == rest[b - 1] && rest[b - 1] in rest;
      if a > 0 {
        assert claimed[a] == rest[a - 1] && rest[a - 1] in rest;
      }
    }
    forall k, m | k in claimed && m in EligibleSet(db, now) && m !in claimed ensures Before(db.items, k, m) {
      if k != i {
        assert k in rest && m in EligibleSet(db1, now) && m !in rest;
      }
    }
  }

  /** At a fixed clock, a tick with the breaker CLOSED claims exactly the first min(free permits, eligible) rows
      in (next_attempt_at, rowid) order over all live jobs. */
  lemma ClosedTickClaimsTheFront(db: Db, p: Proc, limit: nat, who: string, now: int)
    requires p.breaker.state.CLOSED? && p.active <= limit && !p.draining
    ensures var claimed := AfterTick(db, p, limit, false, who, now).2;
            IsFront(db, now, claimed) && |claimed| == Smaller(limit - p.active, |EligibleSet(db, now)|)
  {
    ClosedTurns(db, p, limit, who, now);
  }

  /** A tick that finds a tripped breaker claims at most one row, and then the first eligible one. */
  lemma TrippedTickClaimsAtMostOne(db: Db, p: Proc, limit: nat, disabled: bool, who: string, now: int)
    requires !p.breaker.state.CLOSED? && ProbeMarksHalfOpen(p.breaker)
    ensures var claimed := AfterTick(db, p, limit, disabled, who, now).2;
            |claimed| <= 1 && IsFront(db, now, claimed)
  {
    var (db1, p1, first) := Turn(db, p, limit, who, now);
    if first.Some? {
      assert Turns(db1, p1, limit, who, now).2 == [];
    }
  }

  /** The breaker would admit an attempt now. */
  predicate Admits(b: Breaker, now: int)
  {
    CanAttempt(b, now).1
  }

  /** Exactly when a tick claims something. */
  lemma TickClaimsIff(db: Db, p: Proc, limit: nat, disabled: bool, who: string, now: int)
    ensures AfterTick(db, p, limit, disabled, who, now).2 != [] <==>
              !p.draining && !disabled && p.active < limit && Admits(p.breaker, now)
              && exists i: nat :: Eligible(db, now, i)
  {
    if exists i: nat :: Eligible(db, now, i) {
      var i: nat :| Eligible(db, now, i);
      assert 0 <= i < |db.items|;
    }
  }

  // ---- The idle HALF_OPEN trap ----

  /** HALF_OPEN with its probe spent and no send that could report back. */
  predicate IsStalled(p: Proc)
  {
    p.breaker.state.HALF_OPEN? && p.breaker.probeInFlight && p.inFlight.Keys == {}
  }

  /** Absorbing: no tick of a stalled worker claims anything or changes it, at any later time. */
  lemma StalledTickDoesNothing(db: Db, p: Proc, limit: nat, disabled: bool, who: string, now: int)
    requires IsStalled(p)
    ensures AfterTick(db, p, limit, disabled, who, now) == (db, p, [])
  {
  }

  /** From every other idle state a late enough tick claims, given a permit, work and sending enabled. */
  lemma IdleButNotStalledTicksClaim(db: Db, p: Proc, limit: nat, who: string, now: int, i: nat)
    requires p.inFlight.Keys == {} && p.active == 0 && !p.draining && limit > 0
    requires ProbeMarksHalfOpen(p.breaker) && Eligible(db, now, i)
    requires p.breaker.state.OPEN? ==> now >= p.breaker.openedAt + p.breaker.cooldownMs
    ensures AfterTick(db, p, limit, false, who, now).2 != [] <==> !IsStalled(p)
  {
    TickClaimsIff(db, p, limit, false, who, now);
  }

  /** A tick stalls the worker exactly when it spends the cooled-down breaker's probe with nothing to send and
      nothing in flight: the breaker is asked before the queue is. */
  lemma TickStallsIff(db: Db, p: Proc, limit: nat, disabled: bool, who: string, now: int)
    requires ProbeMarksHalfOpen(p.breaker) && !IsStalled(p)
    ensures IsStalled(AfterTick(db, p, limit, disabled, who, now).1) <==>
              && p.inFlight.Keys == {} && p.breaker.state.OPEN? && Admits(p.breaker, now)
              && !p.draining && !disabled && p.active < limit
              && !exists i: nat :: Eligible(db, now, i)
  {
    if !p.draining && !disabled {
      TurnsKeepInFlight(db, p, limit, who, now);
      TickClaimsIff(db, p, limit, disabled, who, now);
      var (_, p1, claimed) := AfterTick(db, p, limit, disabled, who, now);
      if claimed != [] {
        assert claimed[0] in p1.inFlight.Keys;
      }
    }
  }

  lemma TurnsKeepInFlight(db: Db, p: Proc, limit: nat, who: string, now: int)
    ensures var (_, p1, claimed) := Turns(db, p, limit, who, now);
            && p1.inFlight.Keys == p.inFlight.Keys + (set i | i in claimed)
            && (claimed == [] ==> p1 == Turn(db, p, limit, who, now).1)
    decreases limit - p.active
  {
    var (db1, p1, first) := Turn(db, p, limit, who, now);
    if first.Some? {
      TurnsKeepInFlight(db1, p1, limit, who, now);
    }
  }

  /** A finish stalls the worker exactly when it is the last one in flight under a HALF_OPEN breaker and its
      failure is of a category the breaker ignores. */
  lemma FinishStallsIff(p: Proc, i: nat, r: SendResult, now: int)
    requires ProbeMarksHalfOpen(p.breaker) && i in p.inFlight
    ensures IsStalled(ProcAfterFinish(p, i, r, now)) <==>
              && p.inFlight.Keys == {i} && p.breaker.state.HALF_OPEN?
              && CategoryOf(r).Some? && CategoryOf(r) != Some(TRANSIENT)
  {
    assert (p.inFlight - {i}).Keys == p.inFlight.Keys - {i};
  }
}
