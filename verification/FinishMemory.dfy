/** Finishing an item keeps the worker's memory in step and, in crash-free runs, loses nothing. */
module FinishMemory {
  import opened Wrappers
  import opened ErrorClassifier
  import opened CircuitBreaker
  import opened Retry
  import opened Sequences
  import opened OccurrenceKeys
  import opened Tables
  import opened JobService
  import opened Worker
  import opened Engine
  import opened Invariant
  import opened Frames
  import opened TurnStep
  import opened FinishStep
  import Sched = Scheduler

  /** What the three item-level statements of a finish leave behind. */
  ghost predicate ItemPartDone(db: Db, d: Db, i: nat, fate: ItemStatus)
  {
    && i < |db.items| && |d.items| == |db.items| && |d.jobs| == |db.jobs| && d.schedules == db.schedules
    && SameIdentity(db.items[i], d.items[i]) && d.items[i].status == fate
    && d.items == db.items[i := d.items[i]]
    && d.jobs == (if fate.Queued? || db.items[i].job >= |db.jobs| then db.jobs
                  else db.jobs[db.items[i].job := Bumped(db.jobs[db.items[i].job], fate)])
    && SameRows(db.attempts, d.attempts)
  }

  lemma ItemPartEffect(db: Db, i: nat, n: nat, r: SendResult, now: int, draw: Draw)
    requires i < |db.items|
    ensures ItemPartDone(db, FinishTrace(db, i, n, r, now, draw)[2], i, FateOf(r, n))
  {
    hide Settle, Settles, Sched.OnSettled;
    RouteIsSetItem(FinishAttempt(db, i, n, r), i, n, r, now, draw);
  }

  /** After the first statement of a finish the item is still as it was; after the second it has met its fate. */
  lemma EarlyCuts(db: Db, i: nat, n: nat, r: SendResult, now: int, draw: Draw)
    requires i < |db.items|
    ensures var trace := FinishTrace(db, i, n, r, now, draw);
            && trace[0].items == db.items && trace[0].jobs == db.jobs
            && trace[1].items == trace[2].items && trace[1].jobs == db.jobs
  {
    RouteIsSetItem(FinishAttempt(db, i, n, r), i, n, r, now, draw);
  }

  lemma FateIsFinal(r: SendResult, n: nat)
    ensures FateOf(r, n).Queued? || IsSettledItem(FateOf(r, n))
  {
  }

  /** The last two statements write no item and no attempt. */
  lemma TailEffect(db: Db, j: nat, now: int)
    ensures var d4 := Settle(db, j, now);
            && d4.items == db.items && d4.attempts == db.attempts && d4.schedules == db.schedules
            && var d5 := Sched.OnSettled(d4, j, now);
               d5.items == db.items && d5.attempts == db.attempts && d5.jobs == d4.jobs
  {
  }

  lemma OthersRemainInFlight(db: Db, d: Db, i: nat, fate: ItemStatus, k: nat, m: nat)
    requires ItemPartDone(db, d, i, fate) && InFlightOk(db, k, m) && k != i
    ensures InFlightOk(d, k, m)
  {
    SameRowsSameCounts(db.attempts, d.attempts, k);
  }

  lemma MemoryReadsRowsOnly(db: Db, d: Db, p: Proc, limit: nat)
    requires MemoryOk(db, p, limit) && d.items == db.items && d.attempts == db.attempts
    ensures MemoryOk(d, p, limit)
  {
    forall k | k in p.inFlight ensures InFlightOk(d, k, p.inFlight[k]) {
      assert InFlightOk(db, k, p.inFlight[k]);
    }
  }

  lemma FinishShrinksMemory(p: Proc, i: nat, r: SendResult, now: int, limit: nat)
    requires i in p.inFlight && p.active == |p.inFlight| <= limit
    ensures var q := ProcAfterFinish(p, i, r, now);
            q.inFlight == p.inFlight - {i} && q.active == |q.inFlight| <= limit
  {
    OneKeyLess(p.inFlight, i);
    hide BreakerAfter;
  }

  lemma FinishKeepsProbe(b: Breaker, r: SendResult, now: int)
    requires ProbeMarksHalfOpen(b)
    ensures ProbeMarksHalfOpen(BreakerAfter(b, r, now))
  {
  }

  lemma OthersKeepInFlight(db: Db, d: Db, p: Proc, q: Proc, i: nat, fate: ItemStatus)
    requires ItemPartDone(db, d, i, fate) && q.inFlight == p.inFlight - {i}
    requires forall k {:trigger k in p.inFlight} :: k in p.inFlight ==> InFlightOk(db, k, p.inFlight[k])
    ensures forall k {:trigger k in q.inFlight} :: k in q.inFlight ==> InFlightOk(d, k, q.inFlight[k])
  {
    hide InFlightOk, ItemPartDone;
    forall k | k in q.inFlight ensures InFlightOk(d, k, q.inFlight[k]) {
      assert k in p.inFlight && k != i && q.inFlight[k] == p.inFlight[k];
      OthersRemainInFlight(db, d, i, fate, k, p.inFlight[k]);
    }
  }

  lemma ItemPartKeepsMemory(db: Db, d: Db, p: Proc, limit: nat, i: nat, r: SendResult, n: nat, now: int)
    requires MemoryOk(db, p, limit) && i in p.inFlight && ItemPartDone(db, d, i, FateOf(r, n))
    ensures MemoryOk(d, ProcAfterFinish(p, i, r, now), limit)
  {
    hide InFlightOk, ItemPartDone, ProbeMarksHalfOpen, BreakerAfter, FateOf;
    FinishShrinksMemory(p, i, r, now, limit);
    FinishKeepsProbe(p.breaker, r, now);
    OthersKeepInFlight(db, d, p, ProcAfterFinish(p, i, r, now), i, FateOf(r, n));
  }

  lemma OneKeyLess(m: map<nat, nat>, i: nat)
    requires i in m
    ensures |m - {i}| == |m| - 1
  {
    assert (m - {i}).Keys == m.Keys - {i};
    assert |m.Keys| == |m| && |(m - {i}).Keys| == |m - {i}|;
  }

  lemma FinishKeepsMemory(db: Db, p: Proc, limit: nat, i: nat, r: SendResult, now: int, draw: Draw)
    requires MemoryOk(db, p, limit) && i in p.inFlight && i < |db.items|
    ensures MemoryOk(FinishTrace(db, i, p.inFlight[i], r, now, draw)[4], ProcAfterFinish(p, i, r, now), limit)
  {
    hide *;
    var n, j := p.inFlight[i], db.items[i].job;
    var trace := FinishTrace(db, i, n, r, now, draw);
    ItemPartEffect(db, i, n, r, now, draw);
    ItemPartKeepsMemory(db, trace[2], p, limit, i, r, n, now);
    TraceTail(db, i, n, r, now, draw);
    TailEffect(trace[2], j, now);
    MemoryReadsRowsOnly(trace[2], trace[4], ProcAfterFinish(p, i, r, now), limit);
  }

  // ---- Crash-free runs ----

  lemma ItemPartCounts(db: Db, d: Db, i: nat, fate: ItemStatus, k: nat)
    requires ItemPartDone(db, d, i, fate) && (fate.Queued? || IsSettledItem(fate))
    requires !IsSettledItem(db.items[i].status) && k < |db.jobs| && CleanJob(db.jobs[k], db.items, k)
    ensures CountersExact(d.jobs[k], d.items, k)
    ensures k != db.items[i].job ==> CleanJob(d.jobs[k], d.items, k)
  {
    CountAfterRoute(db.items, i, d.items[i], k);
    CountUpdate(db.items, i, d.items[i], OpenIn(k));
  }

  lemma SettleCompletes(db: Db, j: nat, now: int)
    requires j < |db.jobs| && Count(db.items, OfJob(j)) == db.jobs[j].total && CountersExact(db.jobs[j], db.items, j)
    ensures CleanJob(Settle(db, j, now).jobs[j], db.items, j)
  {
    RowsAreTerminalOrOpen(db.items, j);
  }

  /** Other schedules do not see the settled job. */
  lemma OtherSchedulesClean(db: Db, h: History, jobs': seq<Job>, j: nat, id: string, s: Schedule, now: int)
    requires Safe(db, h, now) && j < |db.jobs| && |jobs'| == |db.jobs|
    requires forall k :: 0 <= k < |db.jobs| ==>
               jobs'[k].key == db.jobs[k].key && (k != j ==> jobs'[k].status == db.jobs[k].status)
    requires db.jobs[j].source != Some(id) && CleanSchedule(db.jobs, id, s)
    ensures CleanSchedule(jobs', id, s)
  {
    var key := OccurrenceKey(id, s.nextRunAt);
    var a, b := FindByKey(db.jobs, key), FindByKey(jobs', key);
    assert a.Some? ==> jobs'[a.value].key == Some(key);
    assert b.Some? ==> db.jobs[b.value].key == Some(key);
    assert a == b;
    if a == Some(j) {
      KeyNamesItsSource(db, h, j, id, s.nextRunAt, now);
    }
  }

  /** A job that carries a schedule's key comes from that schedule and occurrence. */
  lemma KeyNamesItsSource(db: Db, h: History, j: nat, id: string, at: int, now: int)
    requires Safe(db, h, now) && j < |db.jobs| && db.jobs[j].key == Some(OccurrenceKey(id, at))
    ensures db.jobs[j].source == Some(id) && h.occurrence[j] == Some(at)
  {
    assert SourceOk(db, h, j, now);
    OccurrenceKeysCarryThePrefix(id, at);
    if db.jobs[j].source.Some? {
      KeyIsInjective(db.jobs[j].source.value, h.occurrence[j].value, id, at);
    }
  }

  /** Nothing was ever created for an occurrence still to come. */
  lemma NoJobForLaterOccurrence(db: Db, h: History, id: string, at: int, now: int)
    requires Safe(db, h, now) && id in db.schedules && at > db.schedules[id].nextRunAt
    ensures FindByKey(db.jobs, OccurrenceKey(id, at)).None?
  {
    var found := FindByKey(db.jobs, OccurrenceKey(id, at));
    if found.Some? {
      KeyNamesItsSource(db, h, found.value, id, at, now);
      assert SourceOk(db, h, found.value, now);
    }
  }

  lemma FoundByItsKey(jobs: seq<Job>, j: nat, key: string)
    requires KeysUnique(jobs) && j < |jobs| && jobs[j].key == Some(key)
    ensures FindByKey(jobs, key) == Some(j)
  {
  }

  lemma KeysSurvive(jobs: seq<Job>, jobs': seq<Job>)
    requires KeysUnique(jobs) && |jobs'| == |jobs| && forall k :: 0 <= k < |jobs| ==> jobs'[k].key == jobs[k].key
    ensures KeysUnique(jobs')
  {
  }

  lemma AbsenceSurvives(jobs: seq<Job>, jobs': seq<Job>, key: string)
    requires |jobs'| == |jobs| && forall k :: 0 <= k < |jobs| ==> jobs'[k].key == jobs[k].key
    ensures FindByKey(jobs, key).None? ==> FindByKey(jobs', key).None?
  {
  }

  /** The schedule whose job settles moves on: to a waiting occurrence without a job, or to done. */
  lemma OwnScheduleClean(db: Db, h: History, j: nat, now: int)
    requires Safe(db, h, now) && Settles(db, j)
    requires db.jobs[j].source.Some? && db.jobs[j].source.value in db.schedules
    ensures var id, d := db.jobs[j].source.value, Sched.OnSettled(Settle(db, j, now), j, now);
            CleanSchedule(d.jobs, id, d.schedules[id])
  {
    var id, d4 := db.jobs[j].source.value, Settle(db, j, now);
    var s, report := db.schedules[id], Report(Sched.RanAt(d4.jobs[j], now), Sched.ResultsOf(d4.items, j));
    var s' := Sched.Settled(s, report, now);
    SettledStaysOk(s, h.first[id], report, now);
    LiveJobIsCurrent(db, h, j, now);
    assert SourceOk(db, h, j, now);
    if s'.status.Scheduled? {
      NoJobForLaterOccurrence(db, h, id, s'.nextRunAt, now);
      AbsenceSurvives(db.jobs, d4.jobs, OccurrenceKey(id, s'.nextRunAt));
    } else {
      KeysSurvive(db.jobs, d4.jobs);
      FoundByItsKey(d4.jobs, j, OccurrenceKey(id, s'.nextRunAt));
    }
  }

  lemma TailKeepsSchedulesClean(db: Db, h: History, j: nat, now: int)
    requires Safe(db, h, now) && j < |db.jobs|
    requires forall id :: id in db.schedules ==> CleanSchedule(db.jobs, id, db.schedules[id])
    ensures var d := if Settles(db, j) then Sched.OnSettled(Settle(db, j, now), j, now) else Settle(db, j, now);
            && d.schedules.Keys == db.schedules.Keys
            && forall id :: id in d.schedules ==> CleanSchedule(d.jobs, id, d.schedules[id])
  {
    hide Safe, CleanSchedule, Settles, Settle, Sched.OnSettled;
    if Settles(db, j) {
      TailTouchesOneSchedule(db, j, now);
      var d := Sched.OnSettled(Settle(db, j, now), j, now);
      forall id | id in d.schedules ensures CleanSchedule(d.jobs, id, d.schedules[id]) {
        if db.jobs[j].source == Some(id) {
          OwnScheduleClean(db, h, j, now);
        } else {
          OtherSchedulesClean(db, h, d.jobs, j, id, db.schedules[id], now);
        }
      }
    } else {
      NoSettleNoChange(db, j, now);
    }
  }

  lemma TailTouchesOneSchedule(db: Db, j: nat, now: int)
    requires Settles(db, j)
    ensures var d := Sched.OnSettled(Settle(db, j, now), j, now);
            && |d.jobs| == |db.jobs|
            && (forall k :: 0 <= k < |db.jobs| ==>
                 d.jobs[k].key == db.jobs[k].key && (k != j ==> d.jobs[k] == db.jobs[k]))
            && d.schedules.Keys == db.schedules.Keys
            && forall id :: id in d.schedules && db.jobs[j].source != Some(id) ==> d.schedules[id] == db.schedules[id]
  {
  }

  lemma NoSettleNoChange(db: Db, j: nat, now: int)
    requires !Settles(db, j)
    ensures Settle(db, j, now) == db
  {
  }

  lemma FinishKeepsClean(db: Db, h: History, p: Proc, i: nat, n: nat, r: SendResult, now: int, draw: Draw)
    requires Safe(db, h, now) && Clean(db, h, p) && InFlightOk(db, i, n) && i < |db.items|
    ensures db.items[i].job < |db.jobs|
    ensures var trace := FinishTrace(db, i, n, r, now, draw);
            Clean(trace[4], HistoryInFinish(h, trace[2], db.items[i].job, 5), ProcAfterFinish(p, i, r, now))
  {
    var trace, j := FinishTrace(db, i, n, r, now, draw), db.items[i].job;
    ItemPartSafe(db, h, i, n, r, now, draw);
    ItemPartEffect(db, i, n, r, now, draw);
    FateIsFinal(r, n);
    TraceTail(db, i, n, r, now, draw);
    TailEffect(trace[2], j, now);
    hide FinishTrace;
    CleanFromParts(db, h, p, i, FateOf(r, n), trace[2], trace[4], j, now,
                   HistoryInFinish(h, trace[2], j, 5), ProcAfterFinish(p, i, r, now));
  }

  lemma CleanFromParts(db: Db, h: History, p: Proc, i: nat, fate: ItemStatus, d3: Db, d: Db, j: nat, now: int,
                       h': History, q: Proc)
    requires Safe(db, h, now) && Safe(d3, h, now) && Clean(db, h, p) && i < |db.items|
             && j == db.items[i].job < |db.jobs|
    requires ItemPartDone(db, d3, i, fate) && (fate.Queued? || IsSettledItem(fate))
             && !IsSettledItem(db.items[i].status)
    requires d == if Settles(d3, j) then Sched.OnSettled(Settle(d3, j, now), j, now) else Settle(d3, j, now)
    requires h'.torn == h.torn && q.inFlight.Keys == p.inFlight.Keys - {i}
    ensures Clean(d, h', q)
  {
    hide *;
    SchedulesStayClean(db, h, p, d3, i, fate, now);
    TailEffect(d3, j, now);
    CleanItemsFromParts(db, h, p, i, fate, d3, h', q);
    CleanJobsFromParts(db, h, p, d3, i, fate, j, now);
    TailKeepsSchedulesClean(d3, h, j, now);
    CleanFromPieces(d, h', q, Settle(d3, j, now).jobs, d3.items);
  }

  lemma SchedulesStayClean(db: Db, h: History, p: Proc, d3: Db, i: nat, fate: ItemStatus, now: int)
    requires Safe(db, h, now) && Clean(db, h, p) && ItemPartDone(db, d3, i, fate)
    ensures |h.torn| == |d3.items| && |d3.jobs| == |db.jobs|
    ensures forall id {:trigger d3.schedules[id]} :: id in d3.schedules ==> CleanSchedule(d3.jobs, id, d3.schedules[id])
  {
    hide CleanSchedule, CleanJob, CleanItem;
    SameKeysSameSchedules(db.jobs, d3.jobs, db.schedules);
  }

  lemma CleanJobsFromParts(db: Db, h: History, p: Proc, d3: Db, i: nat, fate: ItemStatus, j: nat, now: int)
    requires Clean(db, h, p) && Safe(d3, h, now) && i < |db.items| && j == db.items[i].job < |db.jobs|
    requires ItemPartDone(db, d3, i, fate) && (fate.Queued? || IsSettledItem(fate))
             && !IsSettledItem(db.items[i].status)
    ensures var jobs := Settle(d3, j, now).jobs;
            forall k {:trigger jobs[k]} :: 0 <= k < |jobs| ==> CleanJob(jobs[k], d3.items, k)
  {
    hide Safe, CleanJob, CleanItem, CleanSchedule;
    forall k | 0 <= k < |db.jobs| ensures CleanJob(Settle(d3, j, now).jobs[k], d3.items, k) {
      assert CleanJob(db.jobs[k], db.items, k);
      TotalCountsRows(d3, h, k, now);
      CleanJobFromParts(db, d3, i, fate, j, k, now);
    }
  }

  lemma TotalCountsRows(db: Db, h: History, k: nat, now: int)
    requires Safe(db, h, now) && k < |db.jobs|
    ensures Count(db.items, OfJob(k)) == db.jobs[k].total
  {
    JobFacts(db, h, k, now);
  }

  lemma CleanJobFromParts(db: Db, d3: Db, i: nat, fate: ItemStatus, j: nat, k: nat, now: int)
    requires i < |db.items| && j == db.items[i].job && k < |db.jobs| && CleanJob(db.jobs[k], db.items, k)
    requires ItemPartDone(db, d3, i, fate) && (fate.Queued? || IsSettledItem(fate))
             && !IsSettledItem(db.items[i].status)
    requires Count(d3.items, OfJob(k)) == d3.jobs[k].total
    ensures k < |Settle(d3, j, now).jobs| && CleanJob(Settle(d3, j, now).jobs[k], d3.items, k)
  {
    hide CleanJob;
    ItemPartCounts(db, d3, i, fate, k);
    if k == j {
      SettleCompletes(d3, j, now);
    }
  }

  lemma CleanItemsFromParts(db: Db, h: History, p: Proc, i: nat, fate: ItemStatus, d3: Db, h': History, q: Proc)
    requires Clean(db, h, p) && i < |db.items| && ItemPartDone(db, d3, i, fate) && (fate.Queued? || IsSettledItem(fate))
    requires h'.torn == h.torn && q.inFlight.Keys == p.inFlight.Keys - {i}
    ensures forall k {:trigger d3.items[k]} :: 0 <= k < |d3.items| ==> CleanItem(d3.items[k], k, h'.torn[k], q)
  {
    forall k | 0 <= k < |d3.items| ensures CleanItem(d3.items[k], k, h'.torn[k], q) {
      assert CleanItem(db.items[k], k, h.torn[k], p);
      assert k != i ==> d3.items[k] == db.items[k];
    }
  }

  // ---- The whole action ----

  lemma FinishActionDb(s: State, a: Action)
    requires s.proc.Some? && (a.Finish? || a.CrashInFinish?)
    ensures var cut := if a.Finish? then 5 else a.cut;
            Apply(s, a).db ==
              if CanFinish(s, a.item) && 1 <= cut <= 5 then
                FinishTrace(s.db, a.item, s.proc.value.inFlight[a.item], a.result, s.now, a.draw)[cut - 1]
              else s.db
  {
    hide FinishTrace;
  }

  lemma FinishKeepsInv(s: State, i: nat, r: SendResult, draw: Draw)
    requires Inv(s) && CanFinish(s, i)
    ensures Inv(ApplyFinish(s, i, r, draw))
  {
    var p := s.proc.value;
    var n := p.inFlight[i];
    assert InFlightOk(s.db, i, n);
    hide Safe, InFlightOk, MemoryOk, Clean, FinishTrace, ProcAfterFinish;
    FinishTraceSafe(s.db, s.h, i, n, r, s.now, draw, 5);
    FinishKeepsMemory(s.db, p, s.limit, i, r, s.now, draw);
    if s.h.crashes == 0 {
      FinishKeepsClean(s.db, s.h, p, i, n, r, s.now, draw);
    }
  }

  lemma FinishCutSafe(s: State, i: nat, r: SendResult, draw: Draw, cut: nat)
    requires CanFinish(s, i) && 1 <= cut <= 5
    requires Safe(s.db, s.h, s.now) && InFlightOk(s.db, i, s.proc.value.inFlight[i])
    ensures Safe(FinishCut(s, i, r, draw, cut), FinishHistory(s, i, r, draw, cut), s.now)
  {
    hide Safe, InFlightOk, FinishTrace, HistoryInFinish;
    FinishTraceSafe(s.db, s.h, i, s.proc.value.inFlight[i], r, s.now, draw, cut);
  }

  lemma InvInFlight(s: State, i: nat)
    requires Inv(s) && CanFinish(s, i)
    ensures Safe(s.db, s.h, s.now) && InFlightOk(s.db, i, s.proc.value.inFlight[i])
  {
  }

  lemma CrashInFinishKeepsInv(s: State, i: nat, r: SendResult, draw: Draw, cut: nat)
    requires Inv(s) && CanFinish(s, i) && 1 <= cut <= 5
    ensures Inv(Crashed(s, FinishCut(s, i, r, draw, cut), FinishHistory(s, i, r, draw, cut)))
  {
    hide Inv, Safe, FinishCut, FinishHistory, Crashed, InFlightOk;
    InvInFlight(s, i);
    FinishCutSafe(s, i, r, draw, cut);
    CrashKeepsInv(s, FinishCut(s, i, r, draw, cut), FinishHistory(s, i, r, draw, cut));
  }
}
