/** What each action does to the tables, the whole of it, field by field: at every crash cut point, and without naming
    the statements it is made of. */
module Effects {
  import opened Wrappers
  import opened ErrorClassifier
  import opened CircuitBreaker
  import opened Retry
  import opened Sequences
  import opened OccurrenceKeys
  import opened Tables
  import opened JobService
  import opened Claiming
  import opened Worker
  import opened Engine
  import opened Invariant
  import opened Frames
  import opened TurnStep
  import opened FinishStep
  import opened FinishMemory
  import opened OtherSteps
  import opened Evolution
  import Sched = Scheduler

  // ---- Turns ----

  /** Waiting, due, and of a job that is neither paused nor finished. */
  predicate Ready(s: State, i: nat)
  {
    && i < |s.db.items| && s.db.items[i].status == Queued && s.db.items[i].nextAttemptAt <= s.now
    && s.db.items[i].job < |s.db.jobs| && s.db.jobs[s.db.items[i].job].status in {QUEUED, RUNNING}
  }

  predicate BreakerLets(b: Breaker, now: int)
  {
    match b.state
    case CLOSED => true
    case OPEN => now - b.openedAt >= b.cooldownMs
    case HALF_OPEN => !b.probeInFlight
  }

  /** A turn starts an item iff the process may and an item is ready. */
  lemma TurnStartsIff(s: State)
    requires s.proc.Some?
    ensures NextStart(s).Some? <==>
              && !s.proc.value.draining && !s.disabled && s.proc.value.active < s.limit
              && BreakerLets(s.proc.value.breaker, s.now) && exists i: nat :: Ready(s, i)
  {
    var next := NextItem(s.db, s.now);
    if i: nat :| Ready(s, i) {
      assert Eligible(s.db, s.now, i);
    }
    if next.Some? {
      assert Ready(s, next.value);
    }
    hide StartTrace, NextItem;
  }

  /** The tables once the first `cut` statements of starting item `i` are done: claimed; running; its job running; the
      attempt row; the attempt counted. */
  ghost predicate StartedTo(s: State, d: Db, i: nat, cut: nat)
    requires i < |s.db.items| && s.db.items[i].job < |s.db.jobs|
  {
    var it, j := s.db.items[i], s.db.items[i].job;
    && d.items == s.db.items[i := it.(status := if cut == 1 then Claimed else Running, claimedBy := Some("worker"),
                                      leaseExpiresAt := Some(s.now + 60000),
                                      attemptCount := if cut >= 5 then it.attemptCount + 1 else it.attemptCount)]
    && d.jobs == s.db.jobs[j := s.db.jobs[j].(status := if cut >= 3 then RUNNING else s.db.jobs[j].status)]
    && d.attempts == s.db.attempts + (if cut >= 4 then [Attempt(i, it.attemptCount + 1, None, None, None)] else [])
    && d.schedules == s.db.schedules
  }

  lemma StatementsOfStart(s: State, i: nat, cut: nat)
    requires Ready(s, i) && 1 <= cut <= 5
    ensures StartedTo(s, StartTrace(s.db, i, WORKER, s.now)[cut - 1], i, cut)
  {
  }

  /** A turn, complete or cut short, starts the ready item that has waited longest, the lower row among equals, and
      writes that item, its job and its attempt only. The send goes out with a complete turn. */
  lemma TurnWrites(s: State, a: Action)
    requires Inv(s) && s.proc.Some? && (a.WorkerTurn? || (a.CrashInTurn? && 1 <= a.cut <= 5))
    ensures NextStart(s).None? ==> Apply(s, a).db == s.db && Apply(s, a).h.sends == s.h.sends
    ensures NextStart(s).Some? ==>
              var i, t := NextStart(s).value, Apply(s, a);
              && Ready(s, i)
              && (forall m: nat :: Ready(s, m) && m != i ==>
                    var x, y := s.db.items[i].nextAttemptAt, s.db.items[m].nextAttemptAt; x < y || (x == y && i < m))
              && StartedTo(s, t.db, i, if a.WorkerTurn? then 5 else a.cut)
              && (a.CrashInTurn? ==> t.proc.None? && t.h.sends == s.h.sends)
              && (a.WorkerTurn? ==>
                    && i < |s.h.sends| && t.h.sends == s.h.sends[i := s.h.sends[i] + 1]
                    && t.proc.Some? && t.proc.value.active == s.proc.value.active + 1
                    && t.proc.value.inFlight == s.proc.value.inFlight[i := s.db.items[i].attemptCount + 1]
                    && t.proc.value.draining == s.proc.value.draining)
  {
    hide *;
    TurnProcess(s, a);
    if NextStart(s).Some? {
      var i := NextStart(s).value;
      ChosenFirst(s, i);
      ReadyHasRow(s, i);
      StatementsOfStart(s, i, if a.WorkerTurn? then 5 else a.cut);
      SendsHasRow(s, i);
    }
  }

  lemma ReadyHasRow(s: State, i: nat)
    requires Ready(s, i)
    ensures i < |s.db.items| && s.db.items[i].job < |s.db.jobs|
  {
  }

  lemma SendsHasRow(s: State, i: nat)
    requires Inv(s) && i < |s.db.items|
    ensures i < |s.h.sends|
  {
    ItemFacts(s.db, s.h, i, s.now);
  }

  lemma TurnProcess(s: State, a: Action)
    requires s.proc.Some? && (a.WorkerTurn? || (a.CrashInTurn? && 1 <= a.cut <= 5))
    ensures var t := Apply(s, a);
            && (NextStart(s).None? ==> t.db == s.db && t.h.sends == s.h.sends)
            && (NextStart(s).Some? ==>
                  var i := NextStart(s).value;
                  && i < |s.db.items|
                  && t.db == StartTrace(s.db, i, WORKER, s.now)[if a.WorkerTurn? then 4 else a.cut - 1]
                  && (a.CrashInTurn? ==> t.proc.None? && t.h.sends == s.h.sends)
                  && (a.WorkerTurn? ==>
                        && (i < |s.h.sends| ==> t.h.sends == s.h.sends[i := s.h.sends[i] + 1])
                        && t.proc.Some? && t.proc.value.active == s.proc.value.active + 1
                        && t.proc.value.inFlight == s.proc.value.inFlight[i := s.db.items[i].attemptCount + 1]
                        && t.proc.value.draining == s.proc.value.draining))
  {
    TurnClaimsEligible(s.db, s.proc.value, s.limit, WORKER, s.now);
    hide StartTrace, NextItem, CanAttempt;
  }

  lemma ChosenFirst(s: State, i: nat)
    requires s.proc.Some? && NextStart(s) == Some(i)
    ensures Ready(s, i)
    ensures forall m: nat :: Ready(s, m) && m != i ==>
              var x, y := s.db.items[i].nextAttemptAt, s.db.items[m].nextAttemptAt; x < y || (x == y && i < m)
  {
    assert NextItem(s.db, s.now) == Some(i) by { hide StartTrace, NextItem, CanAttempt; }
    forall m: nat | Ready(s, m) && m != i
      ensures var x, y := s.db.items[i].nextAttemptAt, s.db.items[m].nextAttemptAt; x < y || (x == y && i < m)
    {
      assert Eligible(s.db, s.now, m);
    }
  }

  // ---- Finishes ----

  predicate IsFinish(s: State, a: Action)
  {
    (a.Finish? || (a.CrashInFinish? && 1 <= a.cut <= 5)) && CanFinish(s, a.item)
  }

  function CutOf(a: Action): nat
    requires a.Finish? || a.CrashInFinish?
  {
    if a.Finish? then 5 else a.cut
  }

  /** The first statement writes the outcome to the attempt in flight, and to no other. */
  lemma FinishWritesAttempts(s: State, a: Action)
    requires IsFinish(s, a)
    ensures var d, r := Apply(s, a).db, a.result;
            && |d.attempts| == |s.db.attempts|
            && forall k :: 0 <= k < |s.db.attempts| ==>
                 var row := s.db.attempts[k];
                 d.attempts[k] ==
                 if row.item == a.item && row.number == s.proc.value.inFlight[a.item] then
                   Attempt(row.item, row.number, Some(RecordedStatus(r)), CategoryOf(r), DetailOf(r))
                 else row
  {
    FinishActionDb(s, a);
    AttemptsOfTrace(s.db, a.item, s.proc.value.inFlight[a.item], a.result, s.now, a.draw);
    hide Apply, FinishTrace;
  }

  lemma AttemptsOfTrace(db: Db, i: nat, n: nat, r: SendResult, now: int, draw: Draw)
    requires i < |db.items|
    ensures forall cut :: 0 <= cut < 5 ==>
              FinishTrace(db, i, n, r, now, draw)[cut].attempts == FinishAttempt(db, i, n, r).attempts
  {
    TraceTail(db, i, n, r, now, draw);
    TailEffect(FinishTrace(db, i, n, r, now, draw)[2], db.items[i].job, now);
    hide Settle, Settles, Sched.OnSettled, FinishAttempt;
  }

  /** The second one writes the item: succeeded, skipped, failed, or queued again while fewer than five attempts are
      used; in each case without a lease. */
  lemma FinishWritesItem(s: State, a: Action)
    requires IsFinish(s, a)
    ensures var d, it, n, c := Apply(s, a).db, s.db.items[a.item], s.proc.value.inFlight[a.item], CategoryOf(a.result);
            && (CutOf(a) == 1 ==> d.items == s.db.items)
            && (CutOf(a) >= 2 ==>
                  var free := it.(claimedBy := None, leaseExpiresAt := None, lastCategory := c,
                                  lastDetail := DetailOf(a.result));
                  d.items == s.db.items[a.item :=
                    if c == None then free.(status := Succeeded, lastDetail := None)
                    else if c == Some(VALIDATION) then free.(status := Skipped)
                    else if c in {Some(TRANSIENT), Some(UNKNOWN)} && n < 5 then
                      free.(status := Queued, nextAttemptAt := s.now + BackoffMs(n, a.draw))
                    else free.(status := Failed)])
  {
    var n := s.proc.value.inFlight[a.item];
    hide Apply, FinishTrace, BackoffMs;
    FinishActionDb(s, a);
    ItemsOfTrace(s.db, a.item, n, a.result, s.now, a.draw);
  }

  lemma ItemsOfTrace(db: Db, i: nat, n: nat, r: SendResult, now: int, draw: Draw)
    requires i < |db.items|
    ensures var trace := FinishTrace(db, i, n, r, now, draw);
            && trace[0].items == db.items
            && forall cut :: 1 <= cut < 5 ==> trace[cut].items == db.items[i := Routed(db.items[i], n, r, now, draw)]
  {
    var trace := FinishTrace(db, i, n, r, now, draw);
    RouteIsSetItem(FinishAttempt(db, i, n, r), i, n, r, now, draw);
    TraceTail(db, i, n, r, now, draw);
    TailEffect(trace[2], db.items[i].job, now);
    hide Settle, Settles, Sched.OnSettled, Routed, RouteItem;
  }

  /** All rows of the job are terminal, in the tables `d`. */
  ghost predicate AllDone(d: Db, j: nat)
  {
    forall k :: 0 <= k < |d.items| && d.items[k].job == j ==> IsTerminalItem(d.items[k].status)
  }

  /** The third one counts the item, the fourth gives a live job whose rows are all terminal its verdict: completed if
      all succeeded, failed if none did, partially completed otherwise. No other job is written. */
  lemma FinishWritesJob(s: State, a: Action)
    requires Inv(s) && IsFinish(s, a)
    ensures JobWritten(s.db, Apply(s, a).db, a.item, CategoryOf(a.result), CutOf(a), s.now)
  {
    hide *;
    FinishedFacts(s, a);
    var i, n, r, cut := a.item, s.proc.value.inFlight[a.item], a.result, CutOf(a);
    InvInFlight(s, i);
    FinishActionDb(s, a);
    JobOfTrace(s.db, s.h, i, n, r, s.now, a.draw, cut);
    OutcomeIsWritten(s.db, Apply(s, a).db, i, r, n, cut, s.now);
  }

  /** The job row of item `i` behind the first `cut` statements of a finish in category `c`. */
  ghost predicate JobWritten(db: Db, d: Db, i: nat, c: Option<Category>, cut: nat, now: int)
  {
    && i < |db.items| == |d.items|
    && var j := db.items[i].job;
       && j < |db.jobs| == |d.jobs| && d.jobs == db.jobs[j := d.jobs[j]]
       && var verdict := cut >= 4 && !IsTerminalJob(db.jobs[j].status) && AllDone(d, j);
          && JobAfter(db.jobs[j], d.jobs[j], c, cut >= 3 && d.items[i].status != Queued, now, verdict)
          && (verdict ==> VerdictSays(d, j))
  }

  lemma FinishedFacts(s: State, a: Action)
    requires IsFinish(s, a)
    ensures s.proc.Some? && (a.Finish? || a.CrashInFinish?) && CanFinish(s, a.item) && a.item in s.proc.value.inFlight
    ensures a.item < |s.db.items|
    ensures 1 <= CutOf(a) <= 5 && CutOf(a) == if a.Finish? then 5 else a.cut
  {
  }

  /** How a job row is written: one more in the counter of the item's category if the item is final, the verdict's time
      with a verdict, and no status without one. */
  ghost predicate JobAfter(job: Job, after: Job, c: Option<Category>, fin: bool, now: int, verdict: bool)
  {
    && after == Job(after.status, job.total,
                    job.succeeded + (if fin && c == None then 1 else 0),
                    job.failed + (if fin && c != None && c != Some(VALIDATION) then 1 else 0),
                    job.skipped + (if fin && c == Some(VALIDATION) then 1 else 0),
                    job.cancelled, job.key, job.source, if verdict then Some(now) else job.completedAt)
    && (!verdict ==> after.status == job.status)
  }

  ghost predicate JobOutcome(db: Db, d: Db, i: nat, fate: ItemStatus, cut: nat, now: int)
  {
    && i < |db.items| == |d.items|
    && var j := db.items[i].job;
       && j < |db.jobs| == |d.jobs| && d.jobs == db.jobs[j := d.jobs[j]]
       && (cut >= 2 ==> d.items[i].status == fate)
       && var job := if cut >= 3 && fate != Queued then Bumped(db.jobs[j], fate) else db.jobs[j];
          var verdict := cut >= 4 && !IsTerminalJob(db.jobs[j].status) && AllDone(d, j);
          && (verdict ==> VerdictSays(d, j))
          && d.jobs[j] == if verdict then job.(status := d.jobs[j].status, completedAt := Some(now)) else job
  }

  lemma OutcomeIsWritten(db: Db, d: Db, i: nat, r: SendResult, n: nat, cut: nat, now: int)
    requires JobOutcome(db, d, i, FateOf(r, n), cut, now)
    ensures JobWritten(db, d, i, CategoryOf(r), cut, now)
  {
    hide AllDone, VerdictSays;
  }

  lemma JobOfTrace(db: Db, h: History, i: nat, n: nat, r: SendResult, now: int, draw: Draw, cut: nat)
    requires Safe(db, h, now) && InFlightOk(db, i, n) && i < |db.items| && 1 <= cut <= 5
    ensures JobOutcome(db, FinishTrace(db, i, n, r, now, draw)[cut - 1], i, FateOf(r, n), cut, now)
  {
    hide *;
    var trace, j := FinishTrace(db, i, n, r, now, draw), db.items[i].job;
    ItemPartSafe(db, h, i, n, r, now, draw);
    ItemPartEffect(db, i, n, r, now, draw);
    ItemPartJob(db, trace[2], i, FateOf(r, n));
    EarlyCuts(db, i, n, r, now, draw);
    if cut <= 3 {
      EarlyOutcome(db, trace[0], trace[1], trace[2], i, FateOf(r, n), now);
    } else {
      TraceTail(db, i, n, r, now, draw);
      TailEffect(trace[2], j, now);
      VerdictOfTail(trace[2], h, j, now, i);
      LateOutcome(db, trace[2], trace[3], i, FateOf(r, n), now);
      OutcomeReads(db, trace[3], trace[4], i, FateOf(r, n), now);
    }
  }

  lemma EarlyOutcome(db: Db, d1: Db, d2: Db, d3: Db, i: nat, fate: ItemStatus, now: int)
    requires ItemPartDone(db, d3, i, fate) && db.items[i].job < |db.jobs|
    requires d1.items == db.items && d1.jobs == db.jobs && d2.items == d3.items && d2.jobs == db.jobs
    ensures JobOutcome(db, d1, i, fate, 1, now) && JobOutcome(db, d2, i, fate, 2, now)
            && JobOutcome(db, d3, i, fate, 3, now)
  {
    hide AllDone, VerdictSays;
  }

  lemma LateOutcome(db: Db, d3: Db, d4: Db, i: nat, fate: ItemStatus, now: int)
    requires ItemPartDone(db, d3, i, fate) && db.items[i].job < |db.jobs| && d4.items == d3.items
    requires var j := db.items[i].job;
             && |d4.jobs| == |d3.jobs| && d4.jobs == d3.jobs[j := d4.jobs[j]]
             && (!IsTerminalJob(d3.jobs[j].status) && AllDone(d3, j) ==>
                   VerdictSays(d4, j) && d4.jobs[j] == d3.jobs[j].(status := d4.jobs[j].status,
                                                                   completedAt := Some(now)))
             && (IsTerminalJob(d3.jobs[j].status) || !AllDone(d3, j) ==> d4 == d3)
    ensures JobOutcome(db, d4, i, fate, 4, now)
  {
    AllDoneByItems(d3, d4, db.items[i].job);
    hide AllDone, VerdictSays;
  }

  lemma OutcomeReads(db: Db, d4: Db, d5: Db, i: nat, fate: ItemStatus, now: int)
    requires JobOutcome(db, d4, i, fate, 4, now) && d5.items == d4.items && d5.jobs == d4.jobs
    ensures JobOutcome(db, d5, i, fate, 5, now)
  {
    AllDoneReadsItems(d4, d5, db.items[i].job);
    hide AllDone, VerdictSays;
  }

  lemma AllDoneByItems(d: Db, e: Db, j: nat)
    requires e.items == d.items
    ensures AllDone(e, j) <==> AllDone(d, j)
  {
  }

  lemma AllDoneReadsItems(d: Db, e: Db, j: nat)
    requires e.items == d.items && |e.jobs| == |d.jobs|
    ensures AllDone(e, j) <==> AllDone(d, j)
    ensures e.jobs == d.jobs ==> (VerdictSays(e, j) <==> VerdictSays(d, j))
  {
  }

  lemma ItemPartJob(db: Db, d3: Db, i: nat, fate: ItemStatus)
    requires ItemPartDone(db, d3, i, fate) && db.items[i].job < |db.jobs|
    ensures var j := db.items[i].job;
            && |d3.jobs| == |db.jobs| && |d3.items| == |db.items| && d3.items[i].status == fate && d3.items[i].job == j
            && d3.jobs[j].status == db.jobs[j].status
            && d3.jobs == db.jobs[j := d3.jobs[j]]
            && d3.jobs[j] == (if fate != Queued then Bumped(db.jobs[j], fate) else db.jobs[j])
  {
  }

  /** The job's status tells how many of its rows succeeded. */
  ghost predicate VerdictSays(d: Db, j: nat)
  {
    && j < |d.jobs| && d.jobs[j].status in {COMPLETED, PARTIALLY_COMPLETED, FAILED}
    && (d.jobs[j].status == COMPLETED <==>
          forall k :: 0 <= k < |d.items| && d.items[k].job == j ==> d.items[k].status == Succeeded)
    && (d.jobs[j].status == FAILED <==>
          forall k :: 0 <= k < |d.items| && d.items[k].job == j ==> d.items[k].status != Succeeded)
  }

  lemma {:induction false} AllSucceeded(items: seq<Item>, j: nat)
    ensures Count(items, InStatus(j, Succeeded)) <= Count(items, OfJob(j))
    ensures Count(items, InStatus(j, Succeeded)) == Count(items, OfJob(j)) <==>
              forall k :: 0 <= k < |items| && items[k].job == j ==> items[k].status == Succeeded
    ensures Count(items, InStatus(j, Succeeded)) == 0 <==>
              forall k :: 0 <= k < |items| && items[k].job == j ==> items[k].status != Succeeded
  {
    if items != [] {
      var init := items[..|items| - 1];
      AllSucceeded(init, j);
      assert forall k :: 0 <= k < |init| ==> init[k] == items[k];
    }
  }

  lemma {:induction false} SomeRowCounts(items: seq<Item>, k: nat)
    requires k < |items|
    ensures Count(items, OfJob(items[k].job)) > 0
  {
    if k < |items| - 1 {
      SomeRowCounts(items[..|items| - 1], k);
    }
  }

  lemma VerdictOfTail(db: Db, h: History, j: nat, now: int, k: nat)
    requires Safe(db, h, now) && j < |db.jobs| && k < |db.items| && db.items[k].job == j
    ensures var d := Settle(db, j, now);
            && |d.jobs| == |db.jobs| && d.jobs == db.jobs[j := d.jobs[j]]
            && (!IsTerminalJob(db.jobs[j].status) && AllDone(db, j) ==>
                  VerdictSays(d, j) && d.jobs[j] == db.jobs[j].(status := d.jobs[j].status, completedAt := Some(now)))
            && (IsTerminalJob(db.jobs[j].status) || !AllDone(db, j) ==> d == db)
  {
    hide Safe;
    TotalCountsRows(db, h, j, now);
    AllDoneSettles(db, j);
    SomeRowCounts(db.items, k);
    if Settles(db, j) {
      SettledVerdict(db, j, now);
    }
  }

  lemma AllDoneSettles(db: Db, j: nat)
    requires j < |db.jobs| && Count(db.items, OfJob(j)) == db.jobs[j].total
    ensures Settles(db, j) <==> !IsTerminalJob(db.jobs[j].status) && AllDone(db, j)
  {
    CompletionMeansAllTerminal(db, j);
    hide Settles;
  }

  lemma SettledVerdict(db: Db, j: nat, now: int)
    requires Settles(db, j) && Count(db.items, OfJob(j)) == db.jobs[j].total > 0
    ensures var d := Settle(db, j, now);
            && |d.jobs| == |db.jobs| && d.jobs == db.jobs[j := d.jobs[j]] && VerdictSays(d, j)
            && d.jobs[j] == db.jobs[j].(status := d.jobs[j].status, completedAt := Some(now))
  {
    AllSucceeded(db.items, j);
  }

  // ---- Settling a schedule ----

  /** A repeat in milliseconds. */
  function Millis(r: Repeat): int
  {
    r.everyValue * match r.everyUnit
                   case Minutes => 60000
                   case Hours => 3600000
                   case Days => 86400000
                   case Weeks => 604800000
  }

  function Point(start: int, step: int, k: int): int { start + step * k }

  /** `g` is the least of start + step, start + 2 * step, ... that is later than `now`. */
  ghost predicate LeastAhead(start: int, step: int, now: int, g: int)
  {
    && g > now && (exists k :: k >= 1 && g == Point(start, step, k))
    && forall k :: k >= 1 && Point(start, step, k) > now ==> g <= Point(start, step, k)
  }

  /** The row of a schedule whose occurrence settles: done without a repeat, or once its next point lies behind the end;
      otherwise scheduled for that point. */
  ghost predicate MovedOn(row: Schedule, after: Schedule, now: int)
  {
    && after.recipients == row.recipients && after.message == row.message && after.repeat == row.repeat
    && after.lastRunAt == Some(now) && after.lastResult.Some? && after.lastResult.value.ranAt == now
    && match row.repeat
       case None => after.status == Done && after.nextRunAt == row.nextRunAt
       case Some(r) =>
         exists g {:trigger LeastAhead(row.nextRunAt, Millis(r), now, g)} ::
           && LeastAhead(row.nextRunAt, Millis(r), now, g)
           && (if r.endAt == None || r.endAt == Some(0) || g <= r.endAt.value then
                 after.status == Scheduled && after.nextRunAt == g
               else after.status == Done && after.nextRunAt == row.nextRunAt)
  }

  lemma NextIsLeastAhead(start: int, r: Repeat, now: int)
    ensures LeastAhead(start, Millis(r), now, Sched.NextRun(start, Sched.StepMs(r), now))
  {
    var step := Sched.StepMs(r);
    assert step == Millis(r);
    Sched.NextRunIsLeastFuturePoint(start, step, now);
    var next := Sched.NextRun(start, step, now);
    var q := (now - start) / step + 1;
    assert next == Point(start, step, if q < 1 then 1 else q);
    forall k | k >= 1 && Point(start, step, k) > now ensures next <= Point(start, step, k) {
    }
  }

  lemma SettledMovesOn(row: Schedule, report: Report, now: int)
    requires report.ranAt == now
    ensures MovedOn(row, Sched.Settled(row, report, now), now)
  {
    if row.repeat.Some? {
      NextIsLeastAhead(row.nextRunAt, row.repeat.value, now);
      hide LeastAhead, Sched.NextRun, Sched.StepMs, Millis;
    }
  }

  /** The last statement moves the schedule of a job that has just got its verdict, and no other. */
  lemma FinishWritesSchedule(s: State, a: Action)
    requires Inv(s) && IsFinish(s, a)
    ensures s.db.items[a.item].job < |s.db.jobs|
    ensures var d, j := Apply(s, a).db, s.db.items[a.item].job;
            var source := s.db.jobs[j].source;
            if CutOf(a) == 5 && !IsTerminalJob(s.db.jobs[j].status) && AllDone(d, j)
               && source.Some? && source.value in s.db.schedules
            then
              && source.value in d.schedules && d.schedules == s.db.schedules[source.value := d.schedules[source.value]]
              && MovedOn(s.db.schedules[source.value], d.schedules[source.value], s.now)
            else d.schedules == s.db.schedules
  {
    InvInFlight(s, a.item);
    FinishActionDb(s, a);
    hide Inv, Apply, FinishTrace, AllDone, MovedOn;
    ScheduleOfTrace(s.db, s.h, a.item, s.proc.value.inFlight[a.item], a.result, s.now, a.draw, CutOf(a));
  }

  lemma ScheduleOfTrace(db: Db, h: History, i: nat, n: nat, r: SendResult, now: int, draw: Draw, cut: nat)
    requires Safe(db, h, now) && InFlightOk(db, i, n) && i < |db.items| && 1 <= cut <= 5
    ensures db.items[i].job < |db.jobs|
    ensures var d, j := FinishTrace(db, i, n, r, now, draw)[cut - 1], db.items[i].job;
            var source := db.jobs[j].source;
            if cut == 5 && !IsTerminalJob(db.jobs[j].status) && AllDone(d, j)
               && source.Some? && source.value in db.schedules
            then
              && source.value in d.schedules && d.schedules == db.schedules[source.value := d.schedules[source.value]]
              && MovedOn(db.schedules[source.value], d.schedules[source.value], now)
            else d.schedules == db.schedules
  {
    hide *;
    var trace, j := FinishTrace(db, i, n, r, now, draw), db.items[i].job;
    ItemPartSafe(db, h, i, n, r, now, draw);
    ItemPartEffect(db, i, n, r, now, draw);
    ItemPartSource(db, trace[2], i, FateOf(r, n));
    EarlySchedules(db, i, n, r, now, draw);
    TraceTail(db, i, n, r, now, draw);
    TailEffect(trace[2], j, now);
    AllDoneByItems(trace[2], trace[4], j);
    TailSchedule(trace[2], h, j, now);
  }

  lemma ItemPartSource(db: Db, d3: Db, i: nat, fate: ItemStatus)
    requires ItemPartDone(db, d3, i, fate) && db.items[i].job < |db.jobs|
    ensures var j := db.items[i].job;
            && |d3.jobs| == |db.jobs| && d3.jobs[j].source == db.jobs[j].source && d3.jobs[j].status
                == db.jobs[j].status
            && d3.schedules == db.schedules
  {
  }

  lemma EarlySchedules(db: Db, i: nat, n: nat, r: SendResult, now: int, draw: Draw)
    requires i < |db.items|
    ensures var trace := FinishTrace(db, i, n, r, now, draw);
            trace[0].schedules == trace[1].schedules == trace[2].schedules == trace[3].schedules == db.schedules
  {
  }

  lemma TailSchedule(db: Db, h: History, j: nat, now: int)
    requires Safe(db, h, now) && j < |db.jobs|
    ensures var d4 := Settle(db, j, now);
            var d := if Settles(db, j) then Sched.OnSettled(d4, j, now) else d4;
            var source := db.jobs[j].source;
            if !IsTerminalJob(db.jobs[j].status) && AllDone(db, j) && source.Some? && source.value in db.schedules then
              && source.value in d.schedules && d.schedules == db.schedules[source.value := d.schedules[source.value]]
              && MovedOn(db.schedules[source.value], d.schedules[source.value], now)
            else d.schedules == db.schedules
  {
    TotalCountsRows(db, h, j, now);
    AllDoneSettles(db, j);
    hide Safe, MovedOn, AllDone, Settles;
    var d4 := Settle(db, j, now);
    if Settles(db, j) && db.jobs[j].source.Some? && db.jobs[j].source.value in db.schedules {
      var row, report := db.schedules[db.jobs[j].source.value],
          Report(Sched.RanAt(d4.jobs[j], now), Sched.ResultsOf(d4.items, j));
      SettledMovesOn(row, report, now);
    }
  }

  // ---- Every other action ----

  /** A cancel makes a live job CANCELLED, and all its open items cancelled and free; a crash may fall in between. A
      finished or missing job is left alone. */
  lemma CancelWrites(s: State, a: Action)
    requires s.proc.Some? && (a.CancelJob? || a.CrashInCancel?)
    ensures var d, j := Apply(s, a).db, a.job;
            && d.attempts == s.db.attempts && d.schedules == s.db.schedules && |d.items| == |s.db.items|
            && (Apply(s, a).proc == if a.CrashInCancel? then None else s.proc)
            && if j < |s.db.jobs| && s.db.jobs[j].status in {QUEUED, RUNNING, PAUSED} then
                 && d.jobs == s.db.jobs[j := s.db.jobs[j].(status := CANCELLED, completedAt := Some(s.now))]
                 && forall k :: 0 <= k < |s.db.items| ==>
                      var it := s.db.items[k];
                      d.items[k] ==
                      if a.CancelJob? && it.job == j && it.status in {Queued, Claimed, Running} then
                        it.(status := Cancelled, claimedBy := None, leaseExpiresAt := None)
                      else it
               else d == s.db
  {
  }

  /** Pausing turns QUEUED or RUNNING into PAUSED, resuming PAUSED into QUEUED; nothing else changes. */
  lemma PauseWrites(s: State, j: nat)
    requires s.proc.Some?
    ensures Apply(s, Pause(j)) ==
              if j < |s.db.jobs| && s.db.jobs[j].status in {QUEUED, RUNNING} then
                s.(db := s.db.(jobs := s.db.jobs[j := s.db.jobs[j].(status := PAUSED)]))
              else s
    ensures Apply(s, Resume(j)) ==
              if j < |s.db.jobs| && s.db.jobs[j].status == PAUSED then
                s.(db := s.db.(jobs := s.db.jobs[j := s.db.jobs[j].(status := QUEUED)]))
              else s
  {
  }

  /** A start of the process queues exactly the claimed and running items whose lease has run out, leaves every other
      row alone, and comes up idle with a closed breaker of threshold 5 and 30 seconds of cooldown. */
  lemma RestartWrites(s: State)
    requires Inv(s) && s.proc.None?
    ensures var t := Apply(s, Restart);
            && t.db.jobs == s.db.jobs && t.db.attempts == s.db.attempts && t.db.schedules == s.db.schedules
            && |t.db.items| == |s.db.items| == |s.h.recoveries| == |t.h.recoveries|
            && t.proc == Some(Proc(map[], 0, Breaker(5, 30000, CLOSED, 0, 0, false), false))
            && forall k :: 0 <= k < |s.db.items| ==>
                 var it := s.db.items[k];
                 if it.status in {Claimed, Running} && it.leaseExpiresAt.Some? && it.leaseExpiresAt.value < s.now then
                   && t.db.items[k] == it.(status := Queued, claimedBy := None, leaseExpiresAt := None)
                   && t.h.recoveries[k] == s.h.recoveries[k] + 1
                 else t.db.items[k] == it && t.h.recoveries[k] == s.h.recoveries[k]
  {
    LogCoversItems(s.db, s.h, s.now);
    hide Inv;
  }

  /** Rows as a creation inserts them. */
  ghost predicate Inserted(db: Db, d: Db, key: Option<string>, source: Option<string>, drafts: seq<Draft>, now: int)
  {
    && d.jobs == db.jobs + [Job(QUEUED, |drafts|, 0, 0, 0, 0, key, source, None)]
    && |d.items| == |db.items| + |drafts| && db.items <= d.items && d.attempts == db.attempts
    && forall k :: 0 <= k < |drafts| ==>
         d.items[|db.items| + k] ==
         Item(|db.jobs|, k, drafts[k].to, drafts[k].message, Queued, 0, now, None, None, None, None)
  }

  ghost predicate Carries(db: Db, key: string)
  {
    exists j :: 0 <= j < |db.jobs| && db.jobs[j].key == Some(key)
  }

  lemma CreationWrites(db: Db, key: Option<string>, source: Option<string>, drafts: seq<Draft>, now: int)
    ensures var d := CreateJob(db, key, source, drafts, now).0;
            && d.schedules == db.schedules
            && if key.Some? && Carries(db, key.value) then d == db else Inserted(db, d, key, source, drafts, now)
  {
    CreationAnswers(db, key, source, drafts, now);
    var (d, r) := CreateJob(db, key, source, drafts, now);
    hide CreateJob;
    if r.Success? && r.value.1 {
      assert d.jobs == db.jobs + [d.jobs[r.value.0]];
    } else if r.Success? {
      assert Carries(db, key.value);
    }
  }

  /** An enqueue under no key, or one that no job carries, inserts a job with all its items. */
  lemma EnqueueWrites(s: State, key: Option<string>, drafts: seq<Draft>)
    requires s.proc.Some?
    ensures var d := Apply(s, Enqueue(key, drafts)).db;
            if key.Some? && ("schedule:" <= key.value || Carries(s.db, key.value)) then d == s.db
            else Inserted(s.db, d, key, None, drafts, s.now) && d.schedules == s.db.schedules
  {
    CreationWrites(s.db, key, None, drafts, s.now);
    hide CreateJob, HistoryOfNewJob, Carries, Inserted;
  }

  /** One draft per recipient, in order, all with the schedule's message. */
  function DraftsOf(row: Schedule): seq<Draft>
  {
    seq(|row.recipients|, k requires 0 <= k < |row.recipients| => Draft(row.recipients[k], row.message))
  }

  /** A schedule can be fired iff it is waiting and its time has come. Firing inserts the job of its occurrence, one
      item per recipient in order, unless a job carries its key already, and marks the row; a crash in between leaves
      the row as it was. */
  lemma FireWrites(s: State, a: Action)
    requires s.proc.Some? && (a.Fire? || a.CrashInFire?)
    ensures CanFire(s, a.id) <==>
              a.id in s.db.schedules && s.db.schedules[a.id].status == Scheduled
                  && s.db.schedules[a.id].nextRunAt <= s.now
    ensures !CanFire(s, a.id) ==> Apply(s, a) == s
    ensures CanFire(s, a.id) ==>
              var d, row := Apply(s, a).db, s.db.schedules[a.id];
              var key, drafts := OccurrenceKey(a.id, row.nextRunAt), DraftsOf(row);
              && (if Carries(s.db, key) then d == s.db.(schedules := d.schedules)
                  else Inserted(s.db, d, Some(key), Some(a.id), drafts, s.now))
              && d.schedules == if a.Fire? then s.db.schedules[a.id := row.(status := Sending)] else s.db.schedules
  {
    if CanFire(s, a.id) {
      var row := s.db.schedules[a.id];
      assert Sched.Drafts(row) == DraftsOf(row);
      CreationWrites(s.db, Some(OccurrenceKey(a.id, row.nextRunAt)), Some(a.id), DraftsOf(row), s.now);
      hide CreateJob, HistoryOfNewJob, OccurrenceKey, Carries;
    }
  }

  /** A creation adds the new row under a fresh id; a removal takes the row away; both leave all else alone. */
  lemma OwnerWrites(s: State, a: Action)
    requires s.proc.Some? && (a.AddSchedule? || a.RemoveSchedule?)
    ensures var d := Apply(s, a).db;
            && d.jobs == s.db.jobs && d.items == s.db.items && d.attempts == s.db.attempts
            && (a.RemoveSchedule? ==>
                  forall id :: (id in d.schedules <==> id in s.db.schedules && id != a.id)
                               && (id in d.schedules ==> d.schedules[id] == s.db.schedules[id]))
            && (a.AddSchedule? ==>
                  var row := Sched.NewSchedule(a.recipients, a.message, a.runAt, a.repeat);
                  d.schedules == if row.Success? && a.id !in s.h.first then s.db.schedules[a.id := row.value]
                                 else s.db.schedules)
  {
  }

  /** Time, the kill switch, a drain and a crash write no row. */
  lemma PlainWrites(s: State, a: Action)
    requires s.proc.Some?
    ensures a.Elapse? ==> Apply(s, a) == s.(now := s.now + a.ms)
    ensures a.SetKillSwitch? ==> Apply(s, a) == s.(disabled := a.disabled)
    ensures a.Drain? ==> Apply(s, a) == s.(proc := Some(s.proc.value.(draining := true)))
    ensures a.Crash? ==> Apply(s, a).db == s.db && Apply(s, a).proc == None
  {
  }

  /** A finish frees the permit and takes the item out of flight; a crash takes the process down. */
  lemma FinishFrees(s: State, a: Action)
    requires Inv(s) && IsFinish(s, a)
    ensures a.CrashInFinish? ==> Apply(s, a).proc == None
    ensures a.Finish? ==>
              var t := Apply(s, a);
              && t.proc.Some? && t.proc.value.inFlight == s.proc.value.inFlight - {a.item}
              && t.proc.value.active == s.proc.value.active - 1 && t.proc.value.draining == s.proc.value.draining
  {
    PermitsOf(s);
    FinishProcess(s, a);
    OneKeyLess(s.proc.value.inFlight, a.item);
    hide *;
  }

  lemma FinishProcess(s: State, a: Action)
    requires IsFinish(s, a)
    ensures a.CrashInFinish? ==> Apply(s, a).proc == None
    ensures a.Finish? ==>
              var t, p := Apply(s, a), s.proc.value;
              && t.proc.Some? && t.proc.value.inFlight == p.inFlight - {a.item} && t.proc.value.draining == p.draining
              && t.proc.value.active == if p.active == 0 then 0 else p.active - 1
  {
    hide FinishCut, FinishHistory, BreakerAfter;
  }

  lemma PermitsOf(s: State)
    requires Inv(s) && s.proc.Some?
    ensures s.proc.value.active == |s.proc.value.inFlight|
  {
  }
}
