/** What a run did to each counter and to each item's waiting time, summed over its actions. */
module Ledgers {
  import opened Wrappers
  import opened ErrorClassifier
  import opened Retry
  import opened Sequences
  import opened CircuitBreaker
  import opened Tables
  import opened JobService
  import opened Claiming
  import opened Worker
  import opened Engine
  import opened Invariant
  import opened Frames
  import opened TurnStep
  import opened FinishStep
  import opened FinishMemory
  import opened OtherSteps
  import opened Evolution
  import opened Progress
  import OccurrenceKeys
  import Sched = Scheduler

  /** The weight of each action in the state it met, added up. */
  function Along(s: State, actions: seq<Action>, weight: (State, Action) -> int): int
  {
    if actions == [] then 0
    else
      var init := actions[..|actions| - 1];
      Along(s, init, weight) + weight(Run(s, init), actions[|actions| - 1])
  }

  // ---- Counters ----

  function Counter(job: Job, st: ItemStatus): nat
  {
    match st
    case Succeeded => job.succeeded
    case Failed => job.failed
    case Skipped => job.skipped
    case Cancelled => job.cancelled
    case _ => 0
  }

  /** Items of the job in that status that its counter does not count. */
  function Gap(db: Db, j: nat, st: ItemStatus): int
    requires j < |db.jobs|
  {
    Count(db.items, InStatus(j, st)) - Counter(db.jobs[j], st)
  }

  /** A crash behind the status update of an item of job `j` and before its counter update. */
  predicate LosesBump(s: State, a: Action, j: nat, st: ItemStatus)
  {
    && a.CrashInFinish? && a.cut == 2 && CanFinish(s, a.item)
    && s.db.items[a.item].job == j && FateOf(a.result, s.proc.value.inFlight[a.item]) == st
  }

  function LostBump(j: nat, st: ItemStatus): (State, Action) -> int
  {
    (s, a) => if LosesBump(s, a, j, st) then 1 else 0
  }

  function LostBumps(s: State, actions: seq<Action>, j: nat, st: ItemStatus): int
  {
    Along(s, actions, LostBump(j, st))
  }

  /** No counter and no settled status differs. */
  ghost predicate Quiet(db: Db, d: Db)
  {
    && |d.items| == |db.items| && |d.jobs| == |db.jobs|
    && (forall i {:trigger d.items[i]} {:trigger db.items[i]} :: 0 <= i < |db.items| ==>
          && d.items[i].job == db.items[i].job
          && (IsSettledItem(db.items[i].status) || IsSettledItem(d.items[i].status) ==>
               d.items[i].status == db.items[i].status))
    && forall j {:trigger d.jobs[j]} {:trigger db.jobs[j]} :: 0 <= j < |db.jobs| ==> SameCounters(db.jobs[j], d.jobs[j])
  }

  predicate SameCounters(a: Job, b: Job)
  {
    b.succeeded == a.succeeded && b.failed == a.failed && b.skipped == a.skipped
  }

  lemma QuietKeepsGap(db: Db, d: Db, j: nat, st: ItemStatus)
    requires Quiet(db, d) && j < |db.jobs| && IsSettledItem(st)
    ensures Gap(d, j, st) == Gap(db, j, st)
  {
    CountCongruent(db.items, d.items, InStatus(j, st));
  }

  lemma StartIsQuiet(db: Db, i: nat, now: int, cut: nat)
    requires i < |db.items| && db.items[i].status.Queued? && cut < 5
    ensures Quiet(db, StartTrace(db, i, WORKER, now)[cut])
  {
  }

  lemma TurnIsQuiet(s: State, a: Action)
    requires s.proc.Some? && (a.WorkerTurn? || a.CrashInTurn?)
    ensures Quiet(s.db, Apply(s, a).db)
  {
    NextStartIsQueued(s);
    TurnClaimsEligible(s.db, s.proc.value, s.limit, WORKER, s.now);
    hide StartTrace, Turn, Quiet;
    QuietSelf(s.db);
    if NextStart(s).Some? {
      var cut := if a.CrashInTurn? && 1 <= a.cut <= 5 then a.cut - 1 else 4;
      StartIsQuiet(s.db, NextStart(s).value, s.now, cut);
    }
  }

  lemma QuietSelf(db: Db)
    ensures Quiet(db, db)
  {
  }

  lemma CancelIsQuiet(db: Db, j: nat, now: int)
    ensures Quiet(db, CancelTrace(db, j, now)[0]) && Quiet(db, CancelTrace(db, j, now)[1])
  {
  }

  lemma WritesAreQuiet(db: Db, j: nat, now: int, id: string, s: Schedule)
    ensures Quiet(db, PauseJob(db, j)) && Quiet(db, ResumeJob(db, j)) && Quiet(db, RecoverRows(db, now))
    ensures Quiet(db, Sched.PutSchedule(db, id, s)) && Quiet(db, Sched.DeleteSchedule(db, id))
  {
  }

  lemma PlainIsQuiet(s: State, a: Action)
    requires s.proc.None? || a.Elapse? || a.SetKillSwitch? || a.Drain? || a.Crash? || a.Restart?
    ensures Quiet(s.db, Apply(s, a).db)
  {
    WritesAreQuiet(s.db, 0, s.now, "", Schedule([], "", None, Done, 0, None, None));
    QuietSelf(s.db);
    hide Quiet, RecoverRows;
  }

  lemma JobWriteIsQuiet(s: State, a: Action)
    requires s.proc.Some? && (a.CancelJob? || a.Pause? || a.Resume? || a.CrashInCancel?)
    ensures Quiet(s.db, Apply(s, a).db)
  {
    WritesAreQuiet(s.db, a.job, s.now, "", Schedule([], "", None, Done, 0, None, None));
    CancelIsQuiet(s.db, a.job, s.now);
    hide Quiet, CancelTrace, PauseJob, ResumeJob;
  }

  lemma ScheduleWriteIsQuiet(s: State, a: Action)
    requires s.proc.Some? && (a.AddSchedule? || a.RemoveSchedule?)
    ensures Quiet(s.db, Apply(s, a).db)
  {
  }

  /** Inserting a job: old gaps stay, the new ones are zero. */
  lemma InsertKeepsGap(db: Db, key: Option<string>, source: Option<string>, drafts: seq<Draft>, now: int, j: nat,
                       st: ItemStatus)
    requires ItemsBelow(db.items, |db.jobs|) && IsSettledItem(st)
    ensures var d := InsertJob(db, key, source, drafts, now);
            && (j < |db.jobs| ==> Gap(d, j, st) == Gap(db, j, st))
            && (|db.jobs| <= j < |d.jobs| ==> Gap(d, j, st) == 0)
  {
    var d := InsertJob(db, key, source, drafts, now);
    assert d.items == db.items + NewItems(|db.jobs|, drafts, now);
    if j < |db.jobs| {
      OldJobCounts(db.items, |db.jobs|, drafts, now, j);
    } else if j == |db.jobs| {
      NewJobStatuses(db.items, |db.jobs|, drafts, now, st);
    }
  }

  lemma CreationKeepsGap(s: State, a: Action, j: nat, st: ItemStatus)
    requires Inv(s) && s.proc.Some? && (a.Enqueue? || a.Fire? || a.CrashInFire?) && IsSettledItem(st)
    ensures var t := Apply(s, a);
            && |s.db.jobs| <= |t.db.jobs|
            && (j < |s.db.jobs| ==> Gap(t.db, j, st) == Gap(s.db, j, st))
            && (|s.db.jobs| <= j < |t.db.jobs| ==> Gap(t.db, j, st) == 0)
  {
    hide *;
    CreationInserts(s, a);
    RowsHaveJobs(s);
    var t := Apply(s, a);
    if SameRowsAs(t.db, s.db) {
      CopyGap(t.db, s.db, j, st);
    } else {
      var key, source, drafts :| SameRowsAs(t.db, InsertJob(s.db, key, source, drafts, s.now));
      InsertKeepsGap(s.db, key, source, drafts, s.now, j, st);
      CopyGap(t.db, InsertJob(s.db, key, source, drafts, s.now), j, st);
      InsertGrows(s.db, key, source, drafts, s.now);
    }
  }

  lemma RowsHaveJobs(s: State)
    requires Inv(s)
    ensures ItemsBelow(s.db.items, |s.db.jobs|)
  {
  }

  lemma CopyGap(d: Db, e: Db, j: nat, st: ItemStatus)
    requires SameRowsAs(d, e)
    ensures |d.jobs| == |e.jobs| && (j < |e.jobs| ==> Gap(d, j, st) == Gap(e, j, st))
  {
  }

  lemma InsertGrows(db: Db, key: Option<string>, source: Option<string>, drafts: seq<Draft>, now: int)
    ensures |InsertJob(db, key, source, drafts, now).jobs| == |db.jobs| + 1
  {
  }

  predicate SameRowsAs(d: Db, e: Db) { d.jobs == e.jobs && d.items == e.items }

  lemma CreationInserts(s: State, a: Action)
    requires s.proc.Some? && (a.Enqueue? || a.Fire? || a.CrashInFire?)
    ensures var t := Apply(s, a);
            SameRowsAs(t.db, s.db) ||
            exists key, source, drafts :: SameRowsAs(t.db, InsertJob(s.db, key, source, drafts, s.now))
  {
    hide InsertJob, FindByKey;
    match a
    case Enqueue(key, drafts) =>
      assert SameRowsAs(Apply(s, a).db, s.db) || SameRowsAs(Apply(s, a).db, InsertJob(s.db, key, None, drafts, s.now));
    case Fire(id) => if CanFire(s, id) { FireInserts(s, id); }
    case CrashInFire(id) => if CanFire(s, id) { FireInserts(s, id); }
  }

  lemma FireInserts(s: State, id: string)
    requires CanFire(s, id)
    ensures var row := s.db.schedules[id];
            var key := Some(OccurrenceKeys.OccurrenceKey(id, row.nextRunAt));
            var e := InsertJob(s.db, key, Some(id), Sched.Drafts(row), s.now);
            forall cut :: 1 <= cut <= 2 ==> SameRowsAs(FireCut(s, id, cut), s.db) || SameRowsAs(FireCut(s, id, cut), e)
  {
    hide InsertJob, FindByKey;
  }

  /** The statements of a finish: the row meets its fate, then the counter does. */
  lemma FinishGap(db: Db, i: nat, n: nat, r: SendResult, now: int, draw: Draw, cut: nat, j: nat, st: ItemStatus)
    requires i < |db.items| && !IsSettledItem(db.items[i].status) && 1 <= cut <= 5 && j < |db.jobs| && IsSettledItem(st)
    ensures var d := FinishTrace(db, i, n, r, now, draw)[cut - 1];
            && |d.jobs| == |db.jobs|
            && Gap(d, j, st) == Gap(db, j, st) + if cut == 2 && db.items[i].job == j && FateOf(r, n) == st then 1 else 0
  {
    var trace := FinishTrace(db, i, n, r, now, draw);
    hide *;
    ItemPartEffect(db, i, n, r, now, draw);
    EarlyCuts(db, i, n, r, now, draw);
    TraceTail(db, i, n, r, now, draw);
    FateIsFinal(r, n);
    RoutedGap(db, trace[2], i, FateOf(r, n), j, st);
    if cut == 1 {
      assert SameRowsAs(trace[0], db) by { FirstCutRows(trace[0], db); }
      CopyGap(trace[0], db, j, st);
    } else if cut == 2 {
      GapOfRows(trace[1], trace[2], db, j, st);
    } else if cut >= 4 {
      TailGap(trace[2], db.items[i].job, now, j, st);
    }
  }

  lemma FirstCutRows(d: Db, db: Db)
    requires d.items == db.items && d.jobs == db.jobs
    ensures SameRowsAs(d, db)
  {
  }

  lemma GapOfRows(d: Db, d3: Db, db: Db, j: nat, st: ItemStatus)
    requires d.items == d3.items && d.jobs == db.jobs && j < |db.jobs|
    ensures Gap(d, j, st) == Count(d3.items, InStatus(j, st)) - Counter(db.jobs[j], st)
  {
  }

  lemma RoutedGap(db: Db, d3: Db, i: nat, fate: ItemStatus, j: nat, st: ItemStatus)
    requires ItemPartDone(db, d3, i, fate) && (fate.Queued? || IsSettledItem(fate))
             && !IsSettledItem(db.items[i].status)
    requires j < |db.jobs| && IsSettledItem(st)
    ensures |d3.jobs| == |db.jobs| && Gap(d3, j, st) == Gap(db, j, st)
    ensures Count(d3.items, InStatus(j, st)) - Counter(db.jobs[j], st) ==
              Gap(db, j, st) + if db.items[i].job == j && fate == st then 1 else 0
  {
    CountUpdate(db.items, i, d3.items[i], InStatus(j, st));
  }

  lemma TailGap(db: Db, k: nat, now: int, j: nat, st: ItemStatus)
    requires j < |db.jobs|
    ensures var d4 := Settle(db, k, now);
            && |d4.jobs| == |db.jobs| && Gap(d4, j, st) == Gap(db, j, st)
            && var d5 := Sched.OnSettled(d4, k, now);
               |d5.jobs| == |db.jobs| && Gap(d5, j, st) == Gap(db, j, st)
  {
  }

  /** One action moves the gap by exactly the bump it loses. */
  lemma ActionGap(s: State, a: Action, j: nat, st: ItemStatus)
    requires Inv(s) && IsSettledItem(st)
    ensures var t := Apply(s, a);
            && |s.db.jobs| <= |t.db.jobs|
            && (j < |s.db.jobs| ==> Gap(t.db, j, st) == Gap(s.db, j, st) + LostBump(j, st)(s, a))
            && (|s.db.jobs| <= j < |t.db.jobs| ==> Gap(t.db, j, st) == 0)
            && (j >= |s.db.jobs| ==> LostBump(j, st)(s, a) == 0)
  {
    hide *;
    LossNeedsCut(s, a, j, st);
    var t := Apply(s, a);
    if s.proc.None? || a.Elapse? || a.SetKillSwitch? || a.Drain? || a.Crash? || a.Restart? {
      PlainIsQuiet(s, a);
      QuietGap(s.db, t.db, j, st);
    } else if a.WorkerTurn? || a.CrashInTurn? {
      TurnIsQuiet(s, a);
      QuietGap(s.db, t.db, j, st);
    } else if a.CancelJob? || a.Pause? || a.Resume? || a.CrashInCancel? {
      JobWriteIsQuiet(s, a);
      QuietGap(s.db, t.db, j, st);
    } else if a.AddSchedule? || a.RemoveSchedule? {
      ScheduleWriteIsQuiet(s, a);
      QuietGap(s.db, t.db, j, st);
    } else if a.Enqueue? || a.Fire? || a.CrashInFire? {
      CreationKeepsGap(s, a, j, st);
    } else {
      FinishActionGap(s, a, j, st);
    }
  }

  lemma LossNeedsCut(s: State, a: Action, j: nat, st: ItemStatus)
    requires Inv(s)
    ensures LostBump(j, st)(s, a) == if LosesBump(s, a, j, st) then 1 else 0
    ensures LosesBump(s, a, j, st) ==> s.proc.Some? && a.CrashInFinish? && j < |s.db.jobs|
  {
    if LosesBump(s, a, j, st) {
      ItemFacts(s.db, s.h, a.item, s.now);
    }
  }

  lemma QuietGap(db: Db, d: Db, j: nat, st: ItemStatus)
    requires Quiet(db, d) && IsSettledItem(st)
    ensures |d.jobs| == |db.jobs| && (j < |db.jobs| ==> Gap(d, j, st) == Gap(db, j, st))
  {
    if j < |db.jobs| { QuietKeepsGap(db, d, j, st); }
  }

  lemma FinishActionGap(s: State, a: Action, j: nat, st: ItemStatus)
    requires Inv(s) && s.proc.Some? && (a.Finish? || a.CrashInFinish?) && IsSettledItem(st)
    ensures var t := Apply(s, a);
            && |t.db.jobs| == |s.db.jobs|
            && (j < |s.db.jobs| ==> Gap(t.db, j, st) == Gap(s.db, j, st) + if LosesBump(s, a, j, st) then 1 else 0)
  {
    hide Inv, Apply, FinishTrace, Gap, FateOf;
    FinishActionDb(s, a);
    var cut := if a.Finish? then 5 else a.cut;
    if CanFinish(s, a.item) && 1 <= cut <= 5 {
      var n := s.proc.value.inFlight[a.item];
      FinishCutJobCount(s.db, a.item, n, a.result, s.now, a.draw, cut);
      if j < |s.db.jobs| {
        InFlightIsOpen(s, a.item);
        FinishGap(s.db, a.item, n, a.result, s.now, a.draw, cut, j, st);
      }
    }
  }

  lemma FinishCutJobCount(db: Db, i: nat, n: nat, r: SendResult, now: int, draw: Draw, cut: nat)
    requires i < |db.items| && 1 <= cut <= 5
    ensures |FinishTrace(db, i, n, r, now, draw)[cut - 1].jobs| == |db.jobs|
  {
    EarlyCuts(db, i, n, r, now, draw);
    ItemPartEffect(db, i, n, r, now, draw);
    TraceTail(db, i, n, r, now, draw);
    TailEffect(FinishTrace(db, i, n, r, now, draw)[2], db.items[i].job, now);
    hide FinishTrace, Settles;
  }

  lemma {:induction false} RunGap(limit: nat, start: int, actions: seq<Action>, j: nat, st: ItemStatus)
    requires IsSettledItem(st)
    ensures var s := Run(Init(limit, start), actions);
            if j < |s.db.jobs| then Gap(s.db, j, st) == LostBumps(Init(limit, start), actions, j, st)
            else LostBumps(Init(limit, start), actions, j, st) == 0
  {
    hide Apply, Gap, LostBump, IsSettledItem;
    if actions != [] {
      var init := actions[..|actions| - 1];
      RunGap(limit, start, init, j, st);
      ReachableStatesAreInv(limit, start, init);
      ActionGap(Run(Init(limit, start), init), actions[|actions| - 1], j, st);
    }
  }

  /** In every run each counter and the bumps crashes cost it number the items in that status. */
  lemma CountersAndLosses(limit: nat, start: int, actions: seq<Action>, j: nat)
    requires j < |Run(Init(limit, start), actions).db.jobs|
    ensures var s, z := Run(Init(limit, start), actions), Init(limit, start);
            var job, items := s.db.jobs[j], s.db.items;
            && job.succeeded + LostBumps(z, actions, j, Succeeded) == Count(items, InStatus(j, Succeeded))
            && job.failed + LostBumps(z, actions, j, Failed) == Count(items, InStatus(j, Failed))
            && job.skipped + LostBumps(z, actions, j, Skipped) == Count(items, InStatus(j, Skipped))
  {
    hide Run, LostBumps, Apply, Init;
    RunGap(limit, start, actions, j, Succeeded);
    RunGap(limit, start, actions, j, Failed);
    RunGap(limit, start, actions, j, Skipped);
  }

  /** A counter is exact iff no crash of the run fell between a status update to it and its own update. */
  lemma CounterIsExactIff(limit: nat, start: int, actions: seq<Action>, j: nat, st: ItemStatus)
    requires IsSettledItem(st) && j < |Run(Init(limit, start), actions).db.jobs|
    ensures Counter(Run(Init(limit, start), actions).db.jobs[j], st)
            == Count(Run(Init(limit, start), actions).db.items, InStatus(j, st)) <==>
            forall k :: 0 <= k < |actions| ==> !LosesBump(Run(Init(limit, start), actions[..k]), actions[k], j, st)
  {
    hide Run, LostBumps, LosesBump, Apply, Init;
    RunGap(limit, start, actions, j, st);
    NoLossIff(Init(limit, start), actions, j, st);
  }

  lemma {:induction false} NoLossIff(s: State, actions: seq<Action>, j: nat, st: ItemStatus)
    ensures LostBumps(s, actions, j, st) >= 0
    ensures LostBumps(s, actions, j, st) == 0 <==>
            forall k :: 0 <= k < |actions| ==> !LosesBump(Run(s, actions[..k]), actions[k], j, st)
  {
    hide Apply, LosesBump, Run;
    if actions != [] {
      var n := |actions| - 1;
      var init := actions[..n];
      NoLossIff(s, init, j, st);
      forall k | 0 <= k < n ensures init[..k] == actions[..k] && init[k] == actions[k] {
      }
    }
  }

  // ---- Backoff ----

  /** The delay an action has just put an item to wait. */
  function BackoffBy(i: nat): (State, Action) -> int
  {
    (s, a) => if Requeues(s, a, i) then BackoffMs(s.proc.value.inFlight[i], a.draw) else 0
  }

  predicate Requeues(s: State, a: Action, i: nat)
  {
    && ((a.Finish? && a.item == i) || (a.CrashInFinish? && 2 <= a.cut <= 5 && a.item == i))
    && CanFinish(s, i) && FateOf(a.result, s.proc.value.inFlight[i]).Queued?
  }

  /** The waiting an item was put to over a run. */
  function BackoffOf(s: State, actions: seq<Action>, i: nat): int
  {
    Along(s, actions, BackoffBy(i))
  }

  /** What an item can have waited: one retry for each attempt, its own attempt not yet retried while in flight. */
  ghost predicate WaitOk(s: State, i: nat, waited: int)
  {
    if i >= |s.db.items| then waited == 0
    else
      && waited <= BackoffCap(s.db.items[i].attemptCount)
      && (i in InFlight(s) ==>
            s.db.items[i].attemptCount >= 1 && waited <= BackoffCap(s.db.items[i].attemptCount - 1))
  }

  lemma NewWait(attempt: nat, draw: Draw, waited: int)
    requires 1 <= attempt < MAX_ATTEMPTS && waited <= BackoffCap(attempt - 1)
    ensures waited + BackoffMs(attempt, draw) <= BackoffCap(attempt)
  {
    BackoffBounds(attempt, draw);
  }

  /** Only attempts below the limit are retried. */
  lemma RetriedAttempt(s: State, a: Action, i: nat)
    requires Inv(s) && Requeues(s, a, i)
    ensures i < |s.db.items| && i in InFlight(s)
            && s.proc.value.inFlight[i] == s.db.items[i].attemptCount < MAX_ATTEMPTS
    ensures i !in InFlight(Apply(s, a))
  {
    hide Inv, FinishTrace, FinishCut, FinishHistory, BreakerAfter;
    FlightCount(s, i);
  }

  lemma BackoffByIs(s: State, a: Action, i: nat)
    ensures !Requeues(s, a, i) ==> BackoffBy(i)(s, a) == 0
    ensures Requeues(s, a, i) ==>
              (a.Finish? || a.CrashInFinish?) && i in InFlight(s)
                && BackoffBy(i)(s, a) == BackoffMs(s.proc.value.inFlight[i], a.draw)
  {
  }

  lemma ActionWait(s: State, a: Action, i: nat, waited: int)
    requires Inv(s) && WaitOk(s, i, waited)
    ensures WaitOk(Apply(s, a), i, waited + BackoffBy(i)(s, a))
  {
    hide Inv, Apply, Evolves, InFlight, BackoffCap, BackoffBy, Requeues, BackoffMs, CanFinish;
    var t := Apply(s, a);
    ApplyEvolves(s, a);
    CountsNeverDrop(s.db, t.db);
    BackoffByIs(s, a, i);
    if i < |s.db.items| {
      BackoffCapBounds(s.db.items[i].attemptCount, t.db.items[i].attemptCount);
    } else if i < |t.db.items| {
      BackoffCapBounds(0, t.db.items[i].attemptCount);
    }
    if i in InFlight(t) {
      AttemptInFlight(s, a, i);
    }
    if Requeues(s, a, i) {
      RetriedAttempt(s, a, i);
      NewWait(s.db.items[i].attemptCount, a.draw, waited);
    }
  }

  /** An item comes into flight with its attempt counted, and stays there with the count unchanged. */
  lemma AttemptInFlight(s: State, a: Action, i: nat)
    requires Inv(s) && i in InFlight(Apply(s, a))
    ensures var t := Apply(s, a);
            && i < |s.db.items| && i < |t.db.items|
            && t.db.items[i].attemptCount == s.db.items[i].attemptCount + if i in InFlight(s) then 0 else 1
  {
    hide Inv, Apply, InFlight, DoesWork, NextStart;
    InFlightChange(s, a);
    if i in InFlight(s) {
      StaysInFlight(s, a, i);
      ApplyKeepsInv(s, a);
      FlightCount(s, i);
      FlightCount(Apply(s, a), i);
    } else {
      assert DoesWork(s, a);
      WorkIsTurnOrFinish(s, a);
    }
  }

  lemma FlightCount(s: State, i: nat)
    requires Inv(s) && i in InFlight(s)
    ensures s.proc.Some? && i < |s.db.items| && s.db.items[i].attemptCount == s.proc.value.inFlight[i]
  {
    assert InFlightOk(s.db, i, s.proc.value.inFlight[i]);
  }

  lemma StaysInFlight(s: State, a: Action, i: nat)
    requires Inv(s) && i in InFlight(s) && i in InFlight(Apply(s, a))
    ensures Apply(s, a).proc.value.inFlight[i] == s.proc.value.inFlight[i]
  {
    hide FinishCut, CancelTrace, PauseJob, ResumeJob, CreateJob, RecoverRows, FireCut, Sched.NewSchedule, Safe, Clean,
         InFlightOk, FinishHistory, FireHistory, HistoryInTurn, StartTrace, NextItem, CanAttempt, BreakerAfter;
    if a.WorkerTurn? && NextStart(s).Some? {
      NextStartIsQueued(s);
      QueuedIsNotInFlight(s.db, s.proc.value, s.limit, NextStart(s).value);
    }
  }

  lemma {:induction false} RunWait(limit: nat, start: int, actions: seq<Action>, i: nat)
    ensures WaitOk(Run(Init(limit, start), actions), i, BackoffOf(Init(limit, start), actions, i))
  {
    hide Apply, WaitOk, BackoffBy;
    if actions == [] {
      NothingWaited(limit, start, i);
    } else {
      var init := actions[..|actions| - 1];
      RunWait(limit, start, init, i);
      ReachableStatesAreInv(limit, start, init);
      ActionWait(Run(Init(limit, start), init), actions[|actions| - 1], i, BackoffOf(Init(limit, start), init, i));
    }
  }

  lemma NothingWaited(limit: nat, start: int, i: nat)
    ensures WaitOk(Init(limit, start), i, 0)
  {
  }

  /** In every run no item is put to wait for more than 18 seconds in all, recovered or not. */
  lemma BackoffIsBounded(limit: nat, start: int, actions: seq<Action>, i: nat)
    ensures BackoffOf(Init(limit, start), actions, i) <= 18000
  {
    RunWait(limit, start, actions, i);
    var s := Run(Init(limit, start), actions);
    if i < |s.db.items| {
      BackoffCapBounds(0, s.db.items[i].attemptCount);
    }
    hide Run, BackoffOf;
  }
}
