/** What every reachable state of the engine satisfies, statement by statement. */
module Invariant {
  import opened Wrappers
  import opened ErrorClassifier
  import opened CircuitBreaker
  import opened Retry
  import opened Sequences
  import opened OccurrenceKeys
  import opened Tables
  import opened JobService
  import opened Worker
  import opened Engine
  import Sched = Scheduler

  // ---- One item ----

  ghost predicate ItemOk(it: Item, js: JobStatus, sends: nat, recoveries: nat)
  {
    && sends <= it.attemptCount
    && it.attemptCount <= (if it.status.Queued? || it.status.Claimed? then MAX_ATTEMPTS - 1
                           else MAX_ATTEMPTS) + recoveries
    && (it.leaseExpiresAt.Some? <==> it.status.Claimed? || it.status.Running?)
    && (it.status.Succeeded? ==> it.lastCategory.None?)
    && (it.status.Skipped? ==> it.lastCategory == Some(VALIDATION))
    && (it.status.Failed? ==> it.lastCategory == Some(PERMANENT) || it.attemptCount >= MAX_ATTEMPTS)
    && (it.status.Cancelled? ==> js.CANCELLED?)
    && (IsVerdict(js) ==> IsSettledItem(it.status))
  }

  ghost predicate ItemsOk(db: Db, h: History)
  {
    && |h.sends| == |h.recoveries| == |h.torn| == |db.items|
    && forall i {:trigger db.items[i]} :: 0 <= i < |db.items| ==>
         db.items[i].job < |db.jobs|
         && ItemOk(db.items[i], db.jobs[db.items[i].job].status, h.sends[i], h.recoveries[i])
  }

  // ---- One job against its items ----

  ghost predicate RowsInOrder(items: seq<Item>, j: nat)
  {
    var rows := ItemRows(items, j);
    forall k :: 0 <= k < |rows| ==> (assert rows[k] in rows; items[rows[k]].position == k)
  }

  ghost predicate CountersBelow(job: Job, items: seq<Item>, j: nat)
  {
    && job.succeeded <= Count(items, InStatus(j, Succeeded))
    && job.failed <= Count(items, InStatus(j, Failed))
    && job.skipped <= Count(items, InStatus(j, Skipped))
    && job.cancelled == 0
  }

  ghost predicate JobOk(job: Job, items: seq<Item>, j: nat, settles: nat)
  {
    && Count(items, OfJob(j)) == job.total
    && RowsInOrder(items, j)
    && CountersBelow(job, items, j)
    && (IsVerdict(job.status) ==> job.status == VerdictFor(Count(items, InStatus(j, Succeeded)), job.total))
    && settles == (if IsVerdict(job.status) then 1 else 0)
  }

  ghost predicate JobsOk(db: Db, h: History)
  {
    && |h.settles| == |h.occurrence| == |db.jobs|
    && forall j {:trigger db.jobs[j]} :: 0 <= j < |db.jobs| ==> JobOk(db.jobs[j], db.items, j, h.settles[j])
  }

  // ---- The attempt log ----

  ghost predicate NumbersExact(attempts: seq<Attempt>, i: nat, count: nat)
  {
    forall n: nat :: Count(attempts, Numbered(i, n)) == if 1 <= n <= count then 1 else 0
  }

  /** The item's last attempt row carries the outcome its terminal status came from. */
  ghost predicate SettledByLastAttempt(attempts: seq<Attempt>, it: Item, i: nat)
  {
    var p := LastPosition(attempts, OfItem(i));
    && p >= 0 && attempts[p].outcome.Some?
    && Consistent(attempts[p].outcome.value, attempts[p].category)
    && it.lastCategory == attempts[p].category
    && it.lastDetail == (if it.status.Succeeded? then None else attempts[p].message)
    && (it.status.Succeeded? <==> attempts[p].category.None?)
    && (it.status.Skipped? <==> attempts[p].category == Some(VALIDATION))
  }

  ghost predicate LogOkFor(attempts: seq<Attempt>, it: Item, i: nat, torn: nat)
  {
    && Count(attempts, OfItem(i)) == it.attemptCount + torn
    && (torn == 0 ==> NumbersExact(attempts, i, it.attemptCount))
    && (IsSettledItem(it.status) ==> SettledByLastAttempt(attempts, it, i))
  }

  ghost predicate LogOk(db: Db, h: History)
  {
    && |h.torn| == |db.items|
    && (forall a {:trigger db.attempts[a]} :: 0 <= a < |db.attempts| ==> db.attempts[a].item < |db.items|)
    && (forall i {:trigger db.items[i]} :: 0 <= i < |db.items| ==> LogOkFor(db.attempts, db.items[i], i, h.torn[i]))
  }

  // ---- Schedules and their jobs ----

  ghost predicate OnGrid(s: Schedule, first: int, at: int)
  {
    match s.repeat
    case None => at == first
    case Some(r) => at >= first && (at - first) % Sched.StepMs(r) == 0
  }

  ghost predicate WithinEnd(s: Schedule, first: int, at: int)
  {
    at == first || (s.repeat.Some? && (s.repeat.value.endAt.Some? && s.repeat.value.endAt.value != 0 ==>
                                         at <= s.repeat.value.endAt.value))
  }

  ghost predicate ScheduleOk(s: Schedule, first: int)
  {
    && s.recipients != []
    && OnGrid(s, first, s.nextRunAt)
    && WithinEnd(s, first, s.nextRunAt)
  }

  /** The job's rows are the schedule's recipients, in order. */
  ghost predicate RowsMatch(items: seq<Item>, j: nat, s: Schedule)
  {
    var rows := ItemRows(items, j);
    && |rows| == |s.recipients|
    && forall k :: 0 <= k < |rows| ==>
         (assert rows[k] in rows; items[rows[k]].to == s.recipients[k] && items[rows[k]].message == s.message)
  }

  ghost predicate LiveJobOk(job: Job, items: seq<Item>, j: nat, s: Schedule, first: int, at: int)
  {
    && at <= s.nextRunAt
    && (at < s.nextRunAt ==> IsTerminalJob(job.status))
    && OnGrid(s, first, at) && WithinEnd(s, first, at)
    && RowsMatch(items, j, s)
  }

  ghost predicate SourceOk(db: Db, h: History, j: nat, now: int)
    requires j < |db.jobs| && j < |h.occurrence|
  {
    match db.jobs[j].source
    case None => db.jobs[j].key.Some? ==> !IsOccurrenceLike(db.jobs[j].key.value)
    case Some(id) =>
      && id in h.first && h.occurrence[j].Some?
      && var at := h.occurrence[j].value;
         && db.jobs[j].key == Some(OccurrenceKey(id, at)) && at <= now
         && (id in db.schedules ==> LiveJobOk(db.jobs[j], db.items, j, db.schedules[id], h.first[id], at))
  }

  ghost predicate KeysUnique(jobs: seq<Job>)
  {
    forall j, k {:trigger jobs[j].key, jobs[k].key} ::
      0 <= j < |jobs| && 0 <= k < |jobs| && jobs[j].key.Some? && jobs[j].key == jobs[k].key ==> j == k
  }

  ghost predicate SchedulesOk(db: Db, h: History, now: int)
  {
    && |h.occurrence| == |db.jobs|
    && KeysUnique(db.jobs)
    && (forall id {:trigger db.schedules[id]} :: id in db.schedules ==>
         id in h.first && ScheduleOk(db.schedules[id], h.first[id]))
    && (forall j {:trigger db.jobs[j]} :: 0 <= j < |db.jobs| ==> SourceOk(db, h, j, now))
  }

  ghost predicate Safe(db: Db, h: History, now: int)
  {
    ItemsOk(db, h) && JobsOk(db, h) && LogOk(db, h) && SchedulesOk(db, h, now)
  }

  // ---- Worker memory ----

  ghost predicate InFlightOk(db: Db, i: nat, n: nat)
  {
    && i < |db.items|
    && (db.items[i].status.Running? || db.items[i].status.Cancelled?)
    && db.items[i].attemptCount == n
    && var p := LastPosition(db.attempts, OfItem(i));
       p >= 0 && db.attempts[p].number == n
  }

  ghost predicate MemoryOk(db: Db, p: Proc, limit: nat)
  {
    && p.active == |p.inFlight| && p.active <= limit
    && ProbeMarksHalfOpen(p.breaker)
    && forall i {:trigger i in p.inFlight} :: i in p.inFlight ==> InFlightOk(db, i, p.inFlight[i])
  }

  // ---- Crash-free runs: nothing torn, nothing stranded, nothing lost ----

  ghost predicate CountersExact(job: Job, items: seq<Item>, j: nat)
  {
    && job.succeeded == Count(items, InStatus(j, Succeeded))
    && job.failed == Count(items, InStatus(j, Failed))
    && job.skipped == Count(items, InStatus(j, Skipped))
  }

  ghost predicate CleanJob(job: Job, items: seq<Item>, j: nat)
  {
    && CountersExact(job, items, j)
    && (job.total > 0 && Count(items, OpenIn(j)) == 0 ==> IsTerminalJob(job.status))
  }

  ghost predicate CleanItem(it: Item, i: nat, torn: nat, p: Proc)
  {
    torn == 0 && !it.status.Claimed? && (it.status.Running? ==> i in p.inFlight)
  }

  /** A schedule is waiting exactly while its occurrence has no job, sending exactly while that job has no verdict. */
  ghost predicate CleanSchedule(jobs: seq<Job>, id: string, s: Schedule)
  {
    var job := FindByKey(jobs, OccurrenceKey(id, s.nextRunAt));
    && (s.status.Scheduled? <==> job.None?)
    && (s.status.Sending? <==> job.Some? && !IsVerdict(jobs[job.value].status))
  }

  ghost predicate Clean(db: Db, h: History, p: Proc)
  {
    && |h.torn| == |db.items|
    && (forall j {:trigger db.jobs[j]} :: 0 <= j < |db.jobs| ==> CleanJob(db.jobs[j], db.items, j))
    && (forall i {:trigger db.items[i]} :: 0 <= i < |db.items| ==> CleanItem(db.items[i], i, h.torn[i], p))
    && (forall id {:trigger db.schedules[id]} :: id in db.schedules ==> CleanSchedule(db.jobs, id, db.schedules[id]))
  }

  ghost predicate Inv(s: State)
  {
    && Safe(s.db, s.h, s.now)
    && (s.proc.Some? ==> MemoryOk(s.db, s.proc.value, s.limit))
    && (s.h.crashes == 0 ==> s.proc.Some? && Clean(s.db, s.h, s.proc.value))
  }
}
