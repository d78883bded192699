/** Creation, firing, cancelling, pausing, schedules, restart: each keeps the invariant. */
module OtherSteps {
  import opened Wrappers
  import opened Sequences
  import opened OccurrenceKeys
  import opened Tables
  import opened JobService
  import opened Claiming
  import opened Worker
  import opened Engine
  import opened Invariant
  import opened Frames
  import opened TurnStep
  import opened FinishMemory
  import Sched = Scheduler

  // ---- Inserting a job with its items ----

  function NewItems(j: nat, drafts: seq<Draft>, now: int): seq<Item>
  {
    seq(|drafts|, k requires 0 <= k < |drafts| => NewItem(j, k, drafts[k], now))
  }

  ghost predicate ItemsBelow(items: seq<Item>, jobs: nat)
  {
    forall i :: 0 <= i < |items| ==> items[i].job < jobs
  }

  lemma OldJobCounts(items: seq<Item>, jobs: nat, drafts: seq<Draft>, now: int, k: nat)
    requires ItemsBelow(items, jobs) && k < jobs
    ensures var more := items + NewItems(jobs, drafts, now);
            && Count(more, OfJob(k)) == Count(items, OfJob(k)) && ItemRows(more, k) == ItemRows(items, k)
            && Count(more, OpenIn(k)) == Count(items, OpenIn(k))
            && forall st: ItemStatus :: Count(more, InStatus(k, st)) == Count(items, InStatus(k, st))
  {
    var added := NewItems(jobs, drafts, now);
    CountAppend(items, added, OfJob(k));
    CountNone(added, OfJob(k));
    PositionsNoneAppended(items, added, OfJob(k));
    CountAppend(items, added, OpenIn(k));
    CountNone(added, OpenIn(k));
    forall st: ItemStatus ensures Count(items + added, InStatus(k, st)) == Count(items, InStatus(k, st)) {
      CountAppend(items, added, InStatus(k, st));
      CountNone(added, InStatus(k, st));
    }
  }

  lemma CountOnlyAppended<T>(s: seq<T>, t: seq<T>, p: T -> bool)
    requires (forall k :: 0 <= k < |s| ==> !p(s[k])) && forall k :: 0 <= k < |t| ==> p(t[k])
    ensures Count(s + t, p) == |t|
  {
    CountAppend(s, t, p);
    CountNone(s, p);
    CountEvery(t, p);
  }

  lemma NewJobCounts(items: seq<Item>, jobs: nat, drafts: seq<Draft>, now: int)
    requires ItemsBelow(items, jobs)
    ensures var more := items + NewItems(jobs, drafts, now);
            && Count(more, OfJob(jobs)) == |drafts| && ItemRows(more, jobs) == Range(|items|, |drafts|)
            && Count(more, OpenIn(jobs)) == |drafts|
  {
    var added := NewItems(jobs, drafts, now);
    assert forall k :: 0 <= k < |items| ==> !OfJob(jobs)(items[k]) && !OpenIn(jobs)(items[k]);
    assert forall k :: 0 <= k < |added| ==> OfJob(jobs)(added[k]) && OpenIn(jobs)(added[k]);
    hide NewItems, ItemsBelow, OfJob, OpenIn, Count;
    CountOnlyAppended(items, added, OfJob(jobs));
    CountOnlyAppended(items, added, OpenIn(jobs));
    PositionsAllAppended(items, added, OfJob(jobs));
  }

  lemma NewJobStatuses(items: seq<Item>, jobs: nat, drafts: seq<Draft>, now: int, st: ItemStatus)
    requires ItemsBelow(items, jobs) && !st.Queued?
    ensures Count(items + NewItems(jobs, drafts, now), InStatus(jobs, st)) == 0
  {
    CountNone(items + NewItems(jobs, drafts, now), InStatus(jobs, st));
  }

  lemma NewJobIsClean(items: seq<Item>, jobs: nat, drafts: seq<Draft>, now: int, key: Option<string>,
                      source: Option<string>)
    requires ItemsBelow(items, jobs)
    ensures var more, job := items + NewItems(jobs, drafts, now), NewJob(|drafts|, key, source);
            JobOk(job, more, jobs, 0) && CleanJob(job, more, jobs)
  {
    NewJobCounts(items, jobs, drafts, now);
    RangeAt(|items|, |drafts|);
    NewJobStatuses(items, jobs, drafts, now, Succeeded);
    NewJobStatuses(items, jobs, drafts, now, Failed);
    NewJobStatuses(items, jobs, drafts, now, Skipped);
  }

  /** Who may create a job, under which key. */
  ghost predicate MayCreate(db: Db, h: History, key: Option<string>, source: Option<string>, drafts: seq<Draft>,
                            now: int, at: Option<int>)
  {
    && (key.Some? ==> FindByKey(db.jobs, key.value).None?)
    && match source
       case None => at.None? && (key.Some? ==> !IsOccurrenceLike(key.value))
       case Some(id) =>
         && id in db.schedules && at == Some(db.schedules[id].nextRunAt) && at.value <= now
         && key == Some(OccurrenceKey(id, at.value)) && drafts == Sched.Drafts(db.schedules[id])
  }

  lemma InsertJobItems(db: Db, h: History, key: Option<string>, source: Option<string>, drafts: seq<Draft>, now: int,
                       at: Option<int>)
    requires Safe(db, h, now)
    ensures var d, h' := InsertJob(db, key, source, drafts, now), HistoryOfNewJob(h, |drafts|, at);
            ItemsOk(d, h') && LogOk(d, h')
  {
    var d, h' := InsertJob(db, key, source, drafts, now), HistoryOfNewJob(h, |drafts|, at);
    forall i | 0 <= i < |d.items|
      ensures d.items[i].job < |d.jobs| && ItemOk(d.items[i], d.jobs[d.items[i].job].status, h'.sends[i],
                                                  h'.recoveries[i])
      ensures LogOkFor(d.attempts, d.items[i], i, h'.torn[i])
    {
      if i < |db.items| {
        assert d.items[i] == db.items[i];
        assert d.jobs[db.items[i].job] == db.jobs[db.items[i].job];
      } else {
        CountNone(db.attempts, OfItem(i));
        forall n: nat ensures Count(db.attempts, Numbered(i, n)) == 0 {
          CountNone(db.attempts, Numbered(i, n));
        }
      }
    }
  }

  lemma InsertJobJobs(db: Db, h: History, key: Option<string>, source: Option<string>, drafts: seq<Draft>, now: int,
                      at: Option<int>)
    requires JobsOk(db, h) && ItemsBelow(db.items, |db.jobs|)
    ensures JobsOk(InsertJob(db, key, source, drafts, now), HistoryOfNewJob(h, |drafts|, at))
  {
    var d, h' := InsertJob(db, key, source, drafts, now), HistoryOfNewJob(h, |drafts|, at);
    assert d.items == db.items + NewItems(|db.jobs|, drafts, now);
    forall j | 0 <= j < |d.jobs| ensures JobOk(d.jobs[j], d.items, j, h'.settles[j]) {
      if j < |db.jobs| {
        assert JobOk(db.jobs[j], db.items, j, h.settles[j]);
        OldJobCounts(db.items, |db.jobs|, drafts, now, j);
      } else {
        NewJobIsClean(db.items, |db.jobs|, drafts, now, key, source);
      }
    }
  }

  lemma NewItemAt(items: seq<Item>, jobs: nat, s: Schedule, now: int, k: nat)
    requires k < |s.recipients|
    ensures var more := items + NewItems(jobs, Sched.Drafts(s), now);
            |items| + k < |more| && more[|items| + k].to == s.recipients[k] && more[|items| + k].message == s.message
  {
  }

  lemma NewRowsMatch(items: seq<Item>, jobs: nat, s: Schedule, now: int)
    requires ItemsBelow(items, jobs)
    ensures RowsMatch(items + NewItems(jobs, Sched.Drafts(s), now), jobs, s)
  {
    hide ItemsBelow, Count, ItemRows, Range, NewItems, Positions;
    var more := items + NewItems(jobs, Sched.Drafts(s), now);
    NewJobCounts(items, jobs, Sched.Drafts(s), now);
    RangeAt(|items|, |s.recipients|);
    var rows := ItemRows(more, jobs);
    forall k | 0 <= k < |rows|
      ensures rows[k] < |more| && more[rows[k]].to == s.recipients[k] && more[rows[k]].message == s.message
    {
      NewItemAt(items, jobs, s, now, k);
    }
  }

  lemma OldSourceOk(db: Db, h: History, key: Option<string>, source: Option<string>, drafts: seq<Draft>, now: int,
                    at: Option<int>, j: nat)
    requires SchedulesOk(db, h, now) && ItemsBelow(db.items, |db.jobs|) && j < |db.jobs|
    ensures SourceOk(InsertJob(db, key, source, drafts, now), HistoryOfNewJob(h, |drafts|, at), j, now)
  {
    assert SourceOk(db, h, j, now);
    OldJobCounts(db.items, |db.jobs|, drafts, now, j);
    assert InsertJob(db, key, source, drafts, now).items == db.items + NewItems(|db.jobs|, drafts, now);
  }

  lemma NewSourceOk(db: Db, h: History, key: Option<string>, source: Option<string>, drafts: seq<Draft>, now: int,
                    at: Option<int>)
    requires SchedulesOk(db, h, now) && ItemsBelow(db.items, |db.jobs|)
             && MayCreate(db, h, key, source, drafts, now, at)
    ensures SourceOk(InsertJob(db, key, source, drafts, now), HistoryOfNewJob(h, |drafts|, at), |db.jobs|, now)
  {
    if source.Some? {
      assert ScheduleOk(db.schedules[source.value], h.first[source.value]);
      NewRowsMatch(db.items, |db.jobs|, db.schedules[source.value], now);
      assert InsertJob(db, key, source, drafts, now).items == db.items + NewItems(|db.jobs|, drafts, now);
    }
  }

  lemma InsertJobSchedules(db: Db, h: History, key: Option<string>, source: Option<string>, drafts: seq<Draft>,
                           now: int, at: Option<int>)
    requires SchedulesOk(db, h, now) && ItemsBelow(db.items, |db.jobs|)
             && MayCreate(db, h, key, source, drafts, now, at)
    ensures SchedulesOk(InsertJob(db, key, source, drafts, now), HistoryOfNewJob(h, |drafts|, at), now)
  {
    hide SourceOk, ItemsBelow, ScheduleOk;
    var d, h' := InsertJob(db, key, source, drafts, now), HistoryOfNewJob(h, |drafts|, at);
    forall j | 0 <= j < |d.jobs| ensures SourceOk(d, h', j, now) {
      if j < |db.jobs| {
        OldSourceOk(db, h, key, source, drafts, now, at, j);
      } else {
        NewSourceOk(db, h, key, source, drafts, now, at);
      }
    }
  }

  lemma InsertJobKeepsSafe(db: Db, h: History, key: Option<string>, source: Option<string>, drafts: seq<Draft>,
                           now: int, at: Option<int>)
    requires Safe(db, h, now) && MayCreate(db, h, key, source, drafts, now, at)
    ensures Safe(InsertJob(db, key, source, drafts, now), HistoryOfNewJob(h, |drafts|, at), now)
  {
    assert ItemsBelow(db.items, |db.jobs|);
    hide ItemsOk, LogOk, JobsOk, SchedulesOk, InsertJob, HistoryOfNewJob;
    InsertJobItems(db, h, key, source, drafts, now, at);
    InsertJobJobs(db, h, key, source, drafts, now, at);
    InsertJobSchedules(db, h, key, source, drafts, now, at);
  }

  lemma InsertJobKeepsMemory(db: Db, key: Option<string>, source: Option<string>, drafts: seq<Draft>, now: int,
                             p: Proc, limit: nat)
    requires MemoryOk(db, p, limit)
    ensures MemoryOk(InsertJob(db, key, source, drafts, now), p, limit)
  {
    var d := InsertJob(db, key, source, drafts, now);
    forall k | k in p.inFlight ensures InFlightOk(d, k, p.inFlight[k]) {
      assert InFlightOk(db, k, p.inFlight[k]);
    }
  }

  lemma InsertJobCleanJobs(db: Db, key: Option<string>, source: Option<string>, drafts: seq<Draft>, now: int)
    requires ItemsBelow(db.items, |db.jobs|) && forall j {:trigger db.jobs[j]} :: 0 <= j < |db.jobs| ==>
             CleanJob(db.jobs[j], db.items, j)
    ensures var d := InsertJob(db, key, source, drafts, now);
            forall j {:trigger d.jobs[j]} :: 0 <= j < |d.jobs| ==> CleanJob(d.jobs[j], d.items, j)
  {
    var d := InsertJob(db, key, source, drafts, now);
    assert d.items == db.items + NewItems(|db.jobs|, drafts, now);
    forall j | 0 <= j < |d.jobs| ensures CleanJob(d.jobs[j], d.items, j) {
      if j < |db.jobs| {
        assert CleanJob(db.jobs[j], db.items, j);
        OldJobCounts(db.items, |db.jobs|, drafts, now, j);
      } else {
        NewJobIsClean(db.items, |db.jobs|, drafts, now, key, source);
      }
    }
  }

  lemma InsertJobCleanItems(db: Db, h: History, key: Option<string>, source: Option<string>, drafts: seq<Draft>,
                            now: int, at: Option<int>, p: Proc)
    requires Clean(db, h, p)
    ensures var d, h' := InsertJob(db, key, source, drafts, now), HistoryOfNewJob(h, |drafts|, at);
            && |h'.torn| == |d.items|
            && forall i {:trigger d.items[i]} :: 0 <= i < |d.items| ==> CleanItem(d.items[i], i, h'.torn[i], p)
  {
    var d, h' := InsertJob(db, key, source, drafts, now), HistoryOfNewJob(h, |drafts|, at);
    forall i | 0 <= i < |d.items| ensures CleanItem(d.items[i], i, h'.torn[i], p) {
      if i < |db.items| {
        assert d.items[i] == db.items[i];
      }
    }
  }

  /** A schedule whose key the new job does not carry sees no difference. */
  lemma InsertJobOtherSchedules(db: Db, h: History, key: Option<string>, source: Option<string>, drafts: seq<Draft>,
                                now: int, at: Option<int>, id: string)
    requires MayCreate(db, h, key, source, drafts, now, at) && source != Some(id)
    requires id in db.schedules && CleanSchedule(db.jobs, id, db.schedules[id])
    ensures CleanSchedule(db.jobs + [NewJob(|drafts|, key, source)], id, db.schedules[id])
  {
    OtherKey(key, source, at, id, db.schedules[id].nextRunAt);
    FindAfterAppend(db.jobs, NewJob(|drafts|, key, source), OccurrenceKey(id, db.schedules[id].nextRunAt));
  }

  lemma OtherKey(key: Option<string>, source: Option<string>, at: Option<int>, id: string, run: int)
    requires source.None? ==> key.Some? ==> !IsOccurrenceLike(key.value)
    requires source.Some? ==> source.value != id && at.Some? && key == Some(OccurrenceKey(source.value, at.value))
    ensures key != Some(OccurrenceKey(id, run))
  {
    OccurrenceKeysCarryThePrefix(id, run);
    if source.Some? && key.value == OccurrenceKey(id, run) {
      KeyIsInjective(source.value, at.value, id, run);
    }
  }

  lemma EnqueueKeepsClean(db: Db, h: History, key: Option<string>, drafts: seq<Draft>, now: int, p: Proc)
    requires ItemsBelow(db.items, |db.jobs|) && Clean(db, h, p) && MayCreate(db, h, key, None, drafts, now, None)
    ensures Clean(InsertJob(db, key, None, drafts, now), HistoryOfNewJob(h, |drafts|, None), p)
  {
    InsertJobCleanJobs(db, key, None, drafts, now);
    InsertJobCleanItems(db, h, key, None, drafts, now, None, p);
    hide CleanJob, CleanSchedule;
    forall id | id in db.schedules
      ensures CleanSchedule(db.jobs + [NewJob(|drafts|, key, None)], id, db.schedules[id])
    {
      InsertJobOtherSchedules(db, h, key, None, drafts, now, None, id);
    }
  }

  /** What an enqueue does: nothing, or one insert under a key of no other job. */
  lemma EnqueueEffect(s: State, key: Option<string>, drafts: seq<Draft>)
    ensures ApplyEnqueue(s, key, drafts) == s ||
            (&& MayCreate(s.db, s.h, key, None, drafts, s.now, None)
             && ApplyEnqueue(s, key, drafts) ==
                  s.(db := InsertJob(s.db, key, None, drafts, s.now), h := HistoryOfNewJob(s.h, |drafts|, None)))
  {
    hide InsertJob, HistoryOfNewJob, FindByKey;
  }

  lemma EnqueueKeepsInv(s: State, key: Option<string>, drafts: seq<Draft>)
    requires Inv(s) && s.proc.Some?
    ensures Inv(ApplyEnqueue(s, key, drafts))
  {
    EnqueueEffect(s, key, drafts);
    assert ItemsBelow(s.db.items, |s.db.jobs|);
    hide Safe, InsertJob, HistoryOfNewJob, MemoryOk, Clean, ItemsBelow, MayCreate, ApplyEnqueue;
    if ApplyEnqueue(s, key, drafts) != s {
      InsertJobKeepsSafe(s.db, s.h, key, None, drafts, s.now, None);
      InsertJobKeepsMemory(s.db, key, None, drafts, s.now, s.proc.value, s.limit);
      KeepsCrashes(s.h, |drafts|, None);
      if s.h.crashes == 0 {
        EnqueueKeepsClean(s.db, s.h, key, drafts, s.now, s.proc.value);
      }
    }
  }

  lemma KeepsCrashes(h: History, items: nat, at: Option<int>)
    ensures HistoryOfNewJob(h, items, at).crashes == h.crashes
  {
  }

  // ---- Firing ----

  lemma FireCreates(s: State, id: string)
    requires Inv(s) && CanFire(s, id)
    ensures Safe(FireCut(s, id, 1), FireHistory(s, id), s.now)
    ensures FireCut(s, id, 1).schedules == s.db.schedules
  {
    var row := s.db.schedules[id];
    var key := OccurrenceKey(id, row.nextRunAt);
    if FindByKey(s.db.jobs, key).None? {
      hide Safe, InsertJob, HistoryOfNewJob;
      InsertJobKeepsSafe(s.db, s.h, Some(key), Some(id), Sched.Drafts(row), s.now, Some(row.nextRunAt));
      InsertKeepsSchedules(s.db, Some(key), Some(id), Sched.Drafts(row), s.now);
    }
  }

  lemma InsertKeepsSchedules(db: Db, key: Option<string>, source: Option<string>, drafts: seq<Draft>, now: int)
    ensures InsertJob(db, key, source, drafts, now).schedules == db.schedules
  {
  }

  lemma MarkSendingKeepsSafe(db: Db, h: History, id: string, now: int)
    requires Safe(db, h, now) && id in db.schedules
    ensures Safe(Sched.MarkSending(db, id), h, now)
  {
    if db.schedules[id].status.Scheduled? {
      var s := db.schedules[id].(status := Sending);
      forall j | 0 <= j < |db.jobs| && db.jobs[j].source == Some(id)
        ensures LiveJobOk(db.jobs[j], db.items, j, s, h.first[id], h.occurrence[j].value)
      {
        assert SourceOk(db, h, j, now);
      }
      assert ScheduleOk(db.schedules[id], h.first[id]);
      SetScheduleKeepsSafe(db, h, id, s, h, now);
    }
  }

  lemma FireKeepsMemory(s: State, id: string)
    requires Inv(s) && s.proc.Some? && CanFire(s, id)
    ensures MemoryOk(FireCut(s, id, 2), s.proc.value, s.limit)
  {
    var row := s.db.schedules[id];
    var d1 := FireCut(s, id, 1);
    assert MemoryOk(d1, s.proc.value, s.limit) by {
      InsertJobKeepsMemory(s.db, Some(OccurrenceKey(id, row.nextRunAt)), Some(id), Sched.Drafts(row), s.now,
                           s.proc.value, s.limit);
    }
    MemoryReadsRowsOnly(d1, FireCut(s, id, 2), s.proc.value, s.limit);
  }

  /** In a crash-free run a due schedule has no job yet; firing gives it one without a verdict. */
  lemma FireKeepsClean(s: State, id: string)
    requires Inv(s) && s.h.crashes == 0 && CanFire(s, id)
    ensures Clean(FireCut(s, id, 2), FireHistory(s, id), s.proc.value)
  {
    var row, key := s.db.schedules[id], OccurrenceKey(id, s.db.schedules[id].nextRunAt);
    assert CleanSchedule(s.db.jobs, id, row);
    assert ItemsBelow(s.db.items, |s.db.jobs|);
    hide Safe, MemoryOk, Clean, CleanSchedule;
    DueCreationKeepsClean(s.db, s.h, s.proc.value, id, s.now);
    assert FireHistory(s, id) == HistoryOfNewJob(s.h, |Sched.Drafts(row)|, Some(row.nextRunAt));
  }

  lemma DueCreationKeepsClean(db: Db, h: History, p: Proc, id: string, now: int)
    requires ItemsBelow(db.items, |db.jobs|) && Clean(db, h, p) && id in db.schedules
             && Sched.IsDue(db.schedules[id], now)
    requires FindByKey(db.jobs, OccurrenceKey(id, db.schedules[id].nextRunAt)).None?
    ensures var s := db.schedules[id];
            Clean(Sched.FireTrace(db, id, s, now)[1], HistoryOfNewJob(h, |Sched.Drafts(s)|, Some(s.nextRunAt)), p)
  {
    var row := db.schedules[id];
    var key, drafts, at := OccurrenceKey(id, row.nextRunAt), Sched.Drafts(row), Some(row.nextRunAt);
    var d, d1 := Sched.FireTrace(db, id, row, now)[1], InsertJob(db, Some(key), Some(id), drafts, now);
    FireEffect(db, id, now);
    InsertJobCleanJobs(db, Some(key), Some(id), drafts, now);
    InsertJobCleanItems(db, h, Some(key), Some(id), drafts, now, at, p);
    DueSchedulesClean(db, h, d, id, now);
    hide Sched.FireTrace, InsertJob, HistoryOfNewJob, CleanJob, CleanSchedule;
    CleanFromPieces(d, HistoryOfNewJob(h, |drafts|, at), p, d1.jobs, d1.items);
  }

  lemma DueSchedulesClean(db: Db, h: History, d: Db, id: string, now: int)
    requires id in db.schedules && Sched.IsDue(db.schedules[id], now)
    requires FindByKey(db.jobs, OccurrenceKey(id, db.schedules[id].nextRunAt)).None?
    requires forall k {:trigger db.schedules[k]} :: k in db.schedules ==> CleanSchedule(db.jobs, k, db.schedules[k])
    requires var row := db.schedules[id];
             var drafts := Sched.Drafts(row);
             && d.jobs == db.jobs + [NewJob(|drafts|, Some(OccurrenceKey(id, row.nextRunAt)), Some(id))]
             && d.schedules == db.schedules[id := row.(status := Sending)]
    ensures forall k :: k in d.schedules ==> CleanSchedule(d.jobs, k, d.schedules[k])
  {
    var row := db.schedules[id];
    var key, drafts := OccurrenceKey(id, row.nextRunAt), Sched.Drafts(row);
    FindAfterAppend(db.jobs, NewJob(|drafts|, Some(key), Some(id)), key);
    hide CleanSchedule, FindByKey;
    forall k | k in d.schedules ensures CleanSchedule(d.jobs, k, d.schedules[k]) {
      if k == id {
        FreshJobIsSending(d.jobs, id, d.schedules[id], key, |db.jobs|);
      } else {
        InsertJobOtherSchedules(db, h, Some(key), Some(id), drafts, now, Some(row.nextRunAt), k);
      }
    }
  }

  lemma FireEffect(db: Db, id: string, now: int)
    requires id in db.schedules && Sched.IsDue(db.schedules[id], now)
    requires FindByKey(db.jobs, OccurrenceKey(id, db.schedules[id].nextRunAt)).None?
    ensures var row := db.schedules[id];
            var key, drafts := Some(OccurrenceKey(id, row.nextRunAt)), Sched.Drafts(row);
            var d, d1 := Sched.FireTrace(db, id, row, now)[1], InsertJob(db, key, Some(id), drafts, now);
            && d.jobs == d1.jobs == db.jobs + [NewJob(|drafts|, key, Some(id))] && d.items == d1.items
            && d.attempts == db.attempts
            && d.schedules == db.schedules[id := row.(status := Sending)]
  {
  }

  lemma FreshJobIsSending(jobs: seq<Job>, id: string, s: Schedule, key: string, j: nat)
    requires key == OccurrenceKey(id, s.nextRunAt) && FindByKey(jobs, key) == Some(j) && s.status.Sending?
    requires !IsVerdict(jobs[j].status)
    ensures CleanSchedule(jobs, id, s)
  {
  }

  lemma FireKeepsInv(s: State, id: string)
    requires Inv(s) && s.proc.Some? && CanFire(s, id)
    ensures Inv(s.(db := FireCut(s, id, 2), h := FireHistory(s, id)))
  {
    hide Safe, MemoryOk, Clean;
    FireCreates(s, id);
    MarkSendingKeepsSafe(FireCut(s, id, 1), FireHistory(s, id), id, s.now);
    FireKeepsMemory(s, id);
    if s.h.crashes == 0 {
      FireKeepsClean(s, id);
    }
  }

  // ---- Cancel, pause, resume ----

  lemma CancelRowKeepsSafe(db: Db, h: History, j: nat, now: int)
    requires Safe(db, h, now)
    ensures Safe(CancelRow(db, j, now), h, now)
  {
    hide Safe;
    if j < |db.jobs| && !IsTerminalJob(db.jobs[j].status) {
      JobFacts(db, h, j, now);
      SetJobKeepsSafe(db, h, j, db.jobs[j].(status := CANCELLED, completedAt := Some(now)), h, now);
    }
  }

  lemma CancelledItemOk(it: Item, j: nat, js: JobStatus, sends: nat, recoveries: nat, attempts: seq<Attempt>, i: nat,
                        torn: nat)
    requires ItemOk(it, js, sends, recoveries) && LogOkFor(attempts, it, i, torn) && (it.job == j ==> js.CANCELLED?)
    ensures ItemOk(CancelledItem(it, j), js, sends, recoveries) && LogOkFor(attempts, CancelledItem(it, j), i, torn)
  {
  }

  lemma CancelItemsKeepsSafe(db: Db, h: History, j: nat, now: int)
    requires Safe(db, h, now) && j < |db.jobs| && db.jobs[j].status.CANCELLED?
    ensures Safe(CancelItems(db, j), h, now)
  {
    hide ItemOk, LogOkFor, Safe;
    var items' := CancelItems(db, j).items;
    forall i | 0 <= i < |items'|
      ensures items'[i].job < |db.jobs| && i < |h.sends| && i < |h.recoveries| && i < |h.torn|
      ensures ItemOk(items'[i], db.jobs[items'[i].job].status, h.sends[i], h.recoveries[i])
      ensures LogOkFor(db.attempts, items'[i], i, h.torn[i])
    {
      ItemFacts(db, h, i, now);
      CancelledItemOk(db.items[i], j, db.jobs[db.items[i].job].status, h.sends[i], h.recoveries[i], db.attempts, i,
                      h.torn[i]);
    }
    LogCoversItems(db, h, now);
    RewriteKeepsSafe(db, h, items', h, now);
  }

  lemma CancelKeepsSafe(db: Db, h: History, j: nat, now: int)
    requires Safe(db, h, now)
    ensures Safe(CancelTrace(db, j, now)[0], h, now) && Safe(CancelTrace(db, j, now)[1], h, now)
  {
    hide Safe;
    CancelRowKeepsSafe(db, h, j, now);
    if CancelRow(db, j, now) != db {
      CancelItemsKeepsSafe(CancelRow(db, j, now), h, j, now);
    }
  }

  /** What a cancel does to the tables. */
  ghost predicate CancelDone(db: Db, d: Db, j: nat)
  {
    && |d.items| == |db.items| && |d.jobs| == |db.jobs| && d.attempts == db.attempts && d.schedules == db.schedules
    && (d == db || (
          && j < |db.jobs| && !IsTerminalJob(db.jobs[j].status) && d.jobs[j].status.CANCELLED?
          && d.jobs == db.jobs[j := db.jobs[j].(status := CANCELLED, completedAt := d.jobs[j].completedAt)]
          && forall i {:trigger d.items[i]} {:trigger db.items[i]} :: 0 <= i < |db.items| ==>
               d.items[i] == CancelledItem(db.items[i], j)))
  }

  lemma CancelEffect(db: Db, j: nat, now: int)
    ensures CancelDone(db, CancelTrace(db, j, now)[1], j)
  {
  }

  lemma CancelKeepsMemory(db: Db, d: Db, j: nat, p: Proc, limit: nat)
    requires MemoryOk(db, p, limit) && CancelDone(db, d, j)
    ensures MemoryOk(d, p, limit)
  {
    forall k | k in p.inFlight ensures InFlightOk(d, k, p.inFlight[k]) {
      assert InFlightOk(db, k, p.inFlight[k]);
    }
  }

  lemma CancelKeepsCleanJob(db: Db, d: Db, j: nat, k: nat)
    requires CancelDone(db, d, j) && d != db && k < |db.jobs| && CleanJob(db.jobs[k], db.items, k)
    ensures CleanJob(d.jobs[k], d.items, k)
  {
    CountCongruent(db.items, d.items, InStatus(k, Succeeded));
    CountCongruent(db.items, d.items, InStatus(k, Failed));
    CountCongruent(db.items, d.items, InStatus(k, Skipped));
    if k != j {
      CountCongruent(db.items, d.items, OpenIn(k));
    }
  }

  lemma CancelKeepsClean(db: Db, d: Db, h: History, j: nat, p: Proc)
    requires KeysUnique(db.jobs) && Clean(db, h, p) && CancelDone(db, d, j)
    ensures Clean(d, h, p)
  {
    if d != db {
      SameKeysSameSchedules(db.jobs, d.jobs, db.schedules);
      forall i | 0 <= i < |d.items| ensures CleanItem(d.items[i], i, h.torn[i], p) {
        assert CleanItem(db.items[i], i, h.torn[i], p);
      }
      hide CleanJob;
      forall k | 0 <= k < |d.jobs| ensures CleanJob(d.jobs[k], d.items, k) {
        assert CleanJob(db.jobs[k], db.items, k);
        CancelKeepsCleanJob(db, d, j, k);
      }
    }
  }

  lemma CancelKeepsInv(s: State, j: nat)
    requires Inv(s)
    ensures Inv(s.(db := CancelTrace(s.db, j, s.now)[1]))
    ensures Inv(Crashed(s, CancelTrace(s.db, j, s.now)[0], s.h))
  {
    assert KeysUnique(s.db.jobs);
    hide Safe, MemoryOk, Clean, CancelTrace, CancelDone;
    CancelEffect(s.db, j, s.now);
    CancelKeepsSafe(s.db, s.h, j, s.now);
    CrashKeepsInv(s, CancelTrace(s.db, j, s.now)[0], s.h);
    if s.proc.Some? {
      CancelKeepsMemory(s.db, CancelTrace(s.db, j, s.now)[1], j, s.proc.value, s.limit);
      if s.h.crashes == 0 {
        CancelKeepsClean(s.db, CancelTrace(s.db, j, s.now)[1], s.h, j, s.proc.value);
      }
    }
  }

  lemma LiveStatusKeepsSafe(db: Db, h: History, j: nat, status: JobStatus, now: int)
    requires Safe(db, h, now) && j < |db.jobs| && !IsTerminalJob(db.jobs[j].status) && !IsTerminalJob(status)
    ensures Safe(SetJob(db, j, db.jobs[j].(status := status)), h, now)
  {
    JobFacts(db, h, j, now);
    hide Safe;
    SetJobKeepsSafe(db, h, j, db.jobs[j].(status := status), h, now);
  }

  lemma LiveStatusKeepsClean(db: Db, h: History, p: Proc, j: nat, status: JobStatus)
    requires KeysUnique(db.jobs) && Clean(db, h, p)
    requires j < |db.jobs| && !IsTerminalJob(db.jobs[j].status) && !IsTerminalJob(status)
    ensures Clean(SetJob(db, j, db.jobs[j].(status := status)), h, p)
  {
    var jobs' := SetJob(db, j, db.jobs[j].(status := status)).jobs;
    forall k | 0 <= k < |jobs'| ensures CleanJob(jobs'[k], db.items, k) {
      assert CleanJob(db.jobs[k], db.items, k);
    }
    hide CleanJob, CleanItem, CleanSchedule;
    SameKeysSameSchedules(db.jobs, jobs', db.schedules);
  }

  /** A status change between live statuses. */
  lemma SetLiveStatusKeepsInv(s: State, j: nat, status: JobStatus)
    requires Inv(s) && j < |s.db.jobs| && !IsTerminalJob(s.db.jobs[j].status) && !IsTerminalJob(status)
    ensures Inv(s.(db := SetJob(s.db, j, s.db.jobs[j].(status := status))))
  {
    assert KeysUnique(s.db.jobs);
    hide Safe, MemoryOk, Clean, KeysUnique;
    LiveStatusKeepsSafe(s.db, s.h, j, status, s.now);
    if s.proc.Some? {
      MemoryReadsRowsOnly(s.db, SetJob(s.db, j, s.db.jobs[j].(status := status)), s.proc.value, s.limit);
      if s.h.crashes == 0 {
        LiveStatusKeepsClean(s.db, s.h, s.proc.value, j, status);
      }
    }
  }

  // ---- Schedules ----

  lemma FreshIdHasNoJob(db: Db, h: History, id: string, at: int, now: int)
    requires Safe(db, h, now) && id !in h.first
    ensures forall j :: 0 <= j < |db.jobs| ==> db.jobs[j].source != Some(id)
    ensures FindByKey(db.jobs, OccurrenceKey(id, at)).None?
  {
    forall j | 0 <= j < |db.jobs| ensures db.jobs[j].source != Some(id) {
      assert SourceOk(db, h, j, now);
    }
    var found := FindByKey(db.jobs, OccurrenceKey(id, at));
    if found.Some? {
      KeyNamesItsSource(db, h, found.value, id, at, now);
    }
  }

  lemma AddScheduleKeepsSafe(db: Db, h: History, id: string, row: Schedule, now: int)
    requires Safe(db, h, now) && id !in h.first && ScheduleOk(row, row.nextRunAt)
    ensures Safe(Sched.PutSchedule(db, id, row), h.(first := h.first[id := row.nextRunAt]), now)
  {
    hide Safe, ScheduleOk;
    FreshIdHasNoJob(db, h, id, row.nextRunAt, now);
    SetScheduleKeepsSafe(db, h, id, row, h.(first := h.first[id := row.nextRunAt]), now);
  }

  lemma AddScheduleKeepsClean(db: Db, h: History, id: string, row: Schedule, now: int, p: Proc)
    requires Safe(db, h, now) && Clean(db, h, p) && id !in h.first && row.status.Scheduled?
    ensures Clean(Sched.PutSchedule(db, id, row), h.(first := h.first[id := row.nextRunAt]), p)
  {
    hide Safe, CleanJob, CleanItem, CleanSchedule, FindByKey;
    FreshIdHasNoJob(db, h, id, row.nextRunAt, now);
    WaitingIsClean(db.jobs, id, row);
    var d := Sched.PutSchedule(db, id, row);
    forall k | k in d.schedules ensures CleanSchedule(d.jobs, k, d.schedules[k]) {
      if k != id {
        assert d.schedules[k] == db.schedules[k];
      }
    }
  }

  lemma WaitingIsClean(jobs: seq<Job>, id: string, s: Schedule)
    requires s.status.Scheduled? && FindByKey(jobs, OccurrenceKey(id, s.nextRunAt)).None?
    ensures CleanSchedule(jobs, id, s)
  {
  }

  lemma AddScheduleKeepsInv(s: State, id: string, created: Result<Schedule, Sched.ScheduleError>)
    requires Inv(s) && s.proc.Some?
    requires created.Success? ==> ScheduleOk(created.value, created.value.nextRunAt) && created.value.status.Scheduled?
    ensures Inv(ApplyAddSchedule(s, id, created))
  {
    hide Safe, MemoryOk, Clean, ScheduleOk;
    if id !in s.h.first && created.Success? {
      AddScheduleKeepsSafe(s.db, s.h, id, created.value, s.now);
      MemoryReadsRowsOnly(s.db, Sched.PutSchedule(s.db, id, created.value), s.proc.value, s.limit);
      if s.h.crashes == 0 {
        AddScheduleKeepsClean(s.db, s.h, id, created.value, s.now, s.proc.value);
      }
    }
  }

  lemma NewScheduleIsOk(recipients: seq<Recipient>, message: string, runAt: Option<int>,
                        repeat: Option<Sched.RepeatRequest>)
    ensures var r := Sched.NewSchedule(recipients, message, runAt, repeat);
            r.Success? ==> ScheduleOk(r.value, r.value.nextRunAt) && r.value.status.Scheduled?
  {
  }

  lemma RemoveScheduleKeepsSafe(db: Db, h: History, id: string, now: int)
    requires Safe(db, h, now)
    ensures Safe(Sched.DeleteSchedule(db, id), h, now)
  {
    hide ItemOk, JobOk, LogOkFor, ScheduleOk, LiveJobOk;
    var d := Sched.DeleteSchedule(db, id);
    assert forall k :: k in d.schedules ==> k in db.schedules && d.schedules[k] == db.schedules[k];
    forall j | 0 <= j < |d.jobs| ensures SourceOk(d, h, j, now) {
      assert SourceOk(db, h, j, now);
    }
  }

  lemma RemoveScheduleKeepsClean(db: Db, h: History, p: Proc, id: string)
    requires Clean(db, h, p)
    ensures Clean(Sched.DeleteSchedule(db, id), h, p)
  {
    hide CleanJob, CleanItem, CleanSchedule;
    var d := Sched.DeleteSchedule(db, id);
    forall k | k in d.schedules ensures CleanSchedule(d.jobs, k, d.schedules[k]) {
      assert d.schedules[k] == db.schedules[k];
    }
  }

  lemma RemoveScheduleKeepsInv(s: State, id: string)
    requires Inv(s)
    ensures Inv(s.(db := Sched.DeleteSchedule(s.db, id)))
  {
    hide Safe, MemoryOk, Clean;
    RemoveScheduleKeepsSafe(s.db, s.h, id, s.now);
    if s.proc.Some? {
      MemoryReadsRowsOnly(s.db, Sched.DeleteSchedule(s.db, id), s.proc.value, s.limit);
      if s.h.crashes == 0 {
        RemoveScheduleKeepsClean(s.db, s.h, s.proc.value, id);
      }
    }
  }

  // ---- Time and restart ----

  lemma ElapseKeepsInv(s: State, ms: nat)
    requires Inv(s)
    ensures Inv(s.(now := s.now + ms))
  {
    var later := s.now + ms;
    forall j | 0 <= j < |s.db.jobs| ensures SourceOk(s.db, s.h, j, later) {
      assert SourceOk(s.db, s.h, j, s.now);
    }
  }

  lemma RecoveredItemOk(it: Item, js: JobStatus, sends: nat, recoveries: nat, attempts: seq<Attempt>, i: nat,
                        torn: nat, now: int)
    requires ItemOk(it, js, sends, recoveries) && LogOkFor(attempts, it, i, torn)
    ensures ItemOk(Recovered(it, now), js, sends, if IsStale(it, now) then recoveries + 1 else recoveries)
    ensures LogOkFor(attempts, Recovered(it, now), i, torn)
  {
  }

  lemma RecoverKeepsSafe(db: Db, h: History, h': History, now: int)
    requires Safe(db, h, now) && SameJobHistory(h, h') && h'.sends == h.sends && h'.torn == h.torn
    requires |h'.recoveries| == |db.items|
    requires forall i :: 0 <= i < |db.items| && i < |h.recoveries| ==>
               h'.recoveries[i] == if IsStale(db.items[i], now) then h.recoveries[i] + 1 else h.recoveries[i]
    ensures Safe(RecoverRows(db, now), h', now)
  {
    hide LogOkFor, ItemOk, Safe;
    LogCoversItems(db, h, now);
    var items' := RecoverRows(db, now).items;
    forall i | 0 <= i < |items'|
      ensures items'[i].job < |db.jobs| && ItemOk(items'[i], db.jobs[items'[i].job].status, h'.sends[i],
                                                  h'.recoveries[i])
      ensures LogOkFor(db.attempts, items'[i], i, h'.torn[i])
    {
      ItemFacts(db, h, i, now);
      RecoveredItemOk(db.items[i], db.jobs[db.items[i].job].status, h.sends[i], h.recoveries[i], db.attempts, i,
                      h.torn[i], now);
    }
    RewriteKeepsSafe(db, h, items', h', now);
  }

  lemma LogCoversItems(db: Db, h: History, now: int)
    requires Safe(db, h, now)
    ensures |h.sends| == |h.recoveries| == |h.torn| == |db.items|
  {
  }

  lemma RestartKeepsInv(s: State)
    requires Inv(s) && s.proc.None?
    ensures Inv(ApplyRestart(s))
  {
    hide Safe, RecoverRows;
    LogCoversItems(s.db, s.h, s.now);
    RecoverKeepsSafe(s.db, s.h, ApplyRestart(s).h, s.now);
  }
}
