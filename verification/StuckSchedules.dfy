/** Schedules left sending for good, behind a terminal or an orphaned job; exactly how they get there, and that every
    other sending schedule can still move on. */
module StuckSchedules {
  import opened Wrappers
  import opened OccurrenceKeys
  import opened Tables
  import opened JobService
  import opened Worker
  import opened Engine
  import opened Invariant
  import opened Frames
  import opened FinishStep
  import opened FinishMemory
  import opened Evolution
  import opened Theorems
  import opened ScheduleLife
  import opened Ledgers
  import opened Orphans
  import opened Liveness
  import Sched = Scheduler

  /** Sending, for a job that is already terminal; the other dead end, an orphaned job, is added below. */
  ghost predicate Stuck(s: State, id: string)
  {
    && id in s.db.schedules && s.db.schedules[id].status.Sending?
    && var job := CurrentJob(s.db, id);
       job.Some? && IsTerminalJob(s.db.jobs[job.value].status)
  }

  // ---- No way out ----

  /** Nothing but deleting it ever moves a stuck schedule again. */
  lemma {:induction false} StuckForever(s: State, actions: seq<Action>, id: string)
    requires Inv(s) && Stuck(s, id) && RemoveSchedule(id) !in actions
    ensures Stuck(Run(s, actions), id) && Run(s, actions).db.schedules[id] == s.db.schedules[id]
  {
    hide Inv, Apply, Stuck;
    if actions != [] {
      var init, a := actions[..|actions| - 1], actions[|actions| - 1];
      assert forall b :: b in init ==> b in actions;
      StuckForever(s, init, id);
      RunKeepsInv(s, init);
      assert a in actions;
      ActionKeepsStuck(Run(s, init), a, id);
    }
  }

  lemma ActionKeepsStuck(s: State, a: Action, id: string)
    requires Inv(s) && Stuck(s, id) && a != RemoveSchedule(id)
    ensures Stuck(Apply(s, a), id) && Apply(s, a).db.schedules[id] == s.db.schedules[id]
  {
    hide Inv, Apply, OccurrenceKey, Evolves;
    var t, j := Apply(s, a), CurrentJob(s.db, id).value;
    ScheduleIsKnown(s, id);
    ActionMovesRow(s, a, id);
    ApplyEvolves(s, a);
    JobStays(s.db, t.db, j);
    StuckWith(s, a, id, j);
  }

  lemma JobStays(a: Db, b: Db, j: nat)
    requires Evolves(a, b) && j < |a.jobs|
    ensures j < |b.jobs| && b.jobs[j].key == a.jobs[j].key && b.jobs[j].source == a.jobs[j].source
    ensures IsTerminalJob(a.jobs[j].status) ==> b.jobs[j].status == a.jobs[j].status
  {
  }

  lemma KeysOf(s: State)
    requires Inv(s)
    ensures KeysUnique(s.db.jobs)
  {
  }

  /** A sending row whose occurrence has not changed, and whose job is terminal now. */
  lemma StuckWith(s: State, a: Action, id: string, j: nat)
    requires Inv(s) && id in s.db.schedules && CurrentJob(s.db, id) == Some(j)
    requires var t := Apply(s, a);
             && id in t.db.schedules && t.db.schedules[id].status.Sending?
             && t.db.schedules[id].nextRunAt == s.db.schedules[id].nextRunAt
             && j < |t.db.jobs| && IsTerminalJob(t.db.jobs[j].status)
    ensures Stuck(Apply(s, a), id)
  {
    hide Inv, Apply, OccurrenceKey, Evolves;
    ApplyEvolves(s, a);
    ApplyKeepsInv(s, a);
    KeysOf(Apply(s, a));
    JobStays(s.db, Apply(s, a).db, j);
    FoundByItsKey(Apply(s, a).db.jobs, j, OccurrenceKey(id, s.db.schedules[id].nextRunAt));
  }

  // ---- The three ways in ----

  /** A cancel, complete or cut short, of the unfinished job a schedule is sending. */
  ghost predicate CancelledWhileSending(s: State, a: Action, id: string)
  {
    && s.proc.Some? && id in s.db.schedules && s.db.schedules[id].status.Sending? && HasLiveJob(s.db, id)
    && var j := CurrentJob(s.db, id).value;
       a == CancelJob(j) || a == CrashInCancel(j)
  }

  /** A crash between the verdict of the job a schedule is sending and the schedule's own update. */
  ghost predicate CutBehindVerdict(s: State, a: Action, id: string)
  {
    && id in s.db.schedules && s.db.schedules[id].status.Sending?
    && a.CrashInFinish? && a.cut == 4 && CanFinish(s, a.item) && CurrentJob(s.db, id) == Some(s.db.items[a.item].job)
    && Settles(FinishCut(s, a.item, a.result, a.draw, 3), s.db.items[a.item].job)
  }

  /** A due schedule is marked as sending although the job of its occurrence is already terminal. */
  ghost predicate FiredTooLate(s: State, a: Action, id: string)
  {
    && s.proc.Some? && a == Fire(id) && CanFire(s, id)
    && var job := CurrentJob(s.db, id);
       job.Some? && IsTerminalJob(s.db.jobs[job.value].status)
  }

  /** Whatever the state and the action: a schedule becomes stuck in exactly these three ways. */
  lemma BecomesStuckIff(s: State, a: Action, id: string)
    requires Inv(s)
    ensures !Stuck(s, id) && Stuck(Apply(s, a), id) <==>
              CancelledWhileSending(s, a, id) || CutBehindVerdict(s, a, id) || FiredTooLate(s, a, id)
  {
    hide Inv, Apply, Stuck, CancelledWhileSending, CutBehindVerdict, FiredTooLate;
    if CancelledWhileSending(s, a, id) {
      CancelSticks(s, a, id);
    } else if CutBehindVerdict(s, a, id) {
      CrashAfterVerdictSticks(s, a, id);
    } else if FiredTooLate(s, a, id) {
      LateFireSticks(s, a, id);
    } else if !Stuck(s, id) && Stuck(Apply(s, a), id) {
      NoOtherWayIn(s, a, id);
    }
  }

  lemma CancelSticks(s: State, a: Action, id: string)
    requires Inv(s) && CancelledWhileSending(s, a, id)
    ensures !Stuck(s, id) && Stuck(Apply(s, a), id)
  {
    var j := CurrentJob(s.db, id).value;
    hide Inv, Apply, OccurrenceKey;
    CancelsLiveJob(s, a, j);
    StuckWith(s, a, id, j);
  }

  lemma CrashAfterVerdictSticks(s: State, a: Action, id: string)
    requires Inv(s) && CutBehindVerdict(s, a, id)
    ensures !Stuck(s, id) && Stuck(Apply(s, a), id)
  {
    hide Inv, Apply, OccurrenceKey, FinishCut, Settles;
    var j := s.db.items[a.item].job;
    CutVerdict(s, a, j);
    StuckWith(s, a, id, j);
  }

  lemma CutVerdict(s: State, a: Action, j: nat)
    requires a.CrashInFinish? && a.cut == 4 && CanFinish(s, a.item) && s.db.items[a.item].job == j < |s.db.jobs|
    requires Settles(FinishCut(s, a.item, a.result, a.draw, 3), j)
    ensures var t := Apply(s, a);
            && t.db.schedules == s.db.schedules && j < |t.db.jobs|
            && IsTerminalJob(t.db.jobs[j].status) && !IsTerminalJob(s.db.jobs[j].status)
  {
    hide *;
    FinishIsItsTrace(s, a.item, a.result, a.draw);
    FinishActionDb(s, a);
    var n := s.proc.value.inFlight[a.item];
    var trace := FinishTrace(s.db, a.item, n, a.result, s.now, a.draw);
    ItemPartEffect(s.db, a.item, n, a.result, s.now, a.draw);
    TraceTail(s.db, a.item, n, a.result, s.now, a.draw);
    VerdictIff(s.db, trace[2], a.item, FateOf(a.result, n), j, s.now);
  }

  /** Behind the item's own statements, the completion check makes the job terminal iff it settles it. */
  lemma VerdictIff(db: Db, d3: Db, i: nat, fate: ItemStatus, j: nat, now: int)
    requires ItemPartDone(db, d3, i, fate) && j < |db.jobs|
    ensures |d3.jobs| == |db.jobs| && d3.jobs[j].status == db.jobs[j].status && d3.jobs[j].source == db.jobs[j].source
    ensures d3.schedules == db.schedules && Settle(d3, j, now).schedules == db.schedules
    ensures |Settle(d3, j, now).jobs| == |db.jobs| && Settle(d3, j, now).jobs[j].source == db.jobs[j].source
    ensures IsTerminalJob(Settle(d3, j, now).jobs[j].status) <==> IsTerminalJob(db.jobs[j].status) || Settles(d3, j)
    ensures Settles(d3, j) ==> !IsTerminalJob(db.jobs[j].status)
  {
  }

  lemma LateFireSticks(s: State, a: Action, id: string)
    requires Inv(s) && FiredTooLate(s, a, id)
    ensures !Stuck(s, id) && Stuck(Apply(s, a), id)
  {
    FireMarks(s, id);
    hide Inv, Apply, OccurrenceKey;
    StuckWith(s, a, id, CurrentJob(s.db, id).value);
  }

  lemma FireMarks(s: State, id: string)
    requires s.proc.Some? && CanFire(s, id) && CurrentJob(s.db, id).Some?
    ensures var t := Apply(s, Fire(id));
            && t.db.jobs == s.db.jobs && id in t.db.schedules
            && t.db.schedules[id] == s.db.schedules[id].(status := Sending)
  {
  }

  // ---- And no other ----

  lemma NoOtherWayIn(s: State, a: Action, id: string)
    requires Inv(s) && !Stuck(s, id) && Stuck(Apply(s, a), id)
    ensures CancelledWhileSending(s, a, id) || CutBehindVerdict(s, a, id) || FiredTooLate(s, a, id)
  {
    hide Inv, Apply, OccurrenceKey, Evolves, CancelledWhileSending, CutBehindVerdict, FiredTooLate;
    var t := Apply(s, a);
    SendingRowStayed(s, a, id);
    var j := CurrentJob(t.db, id).value;
    StuckIsForGood(t, id);
    CurrentJobIsOld(s, a, id);
    if s.db.schedules[id].status.Sending? {
      if t.db.jobs[j].status.CANCELLED? {
        CancelIsTheCause(s, a, id, j);
      } else {
        VerdictIsTheCause(s, a, id, j);
      }
    } else {
      FireIsTheCause(s, id, j);
    }
  }

  /** The row of a schedule that is sending now named the same occurrence before. */
  lemma SendingRowStayed(s: State, a: Action, id: string)
    requires Inv(s) && id in Apply(s, a).db.schedules && Apply(s, a).db.schedules[id].status.Sending?
    ensures id in s.db.schedules
    ensures var row, before := Apply(s, a).db.schedules[id], s.db.schedules[id];
            || row == before
            || (before.status.Scheduled? && row == before.(status := Sending)
                && s.proc.Some? && a == Fire(id) && CanFire(s, id))
  {
    hide Inv, Apply, OccurrenceKey, CurrentJob, CanFire, HasLiveJob, JustGotVerdict;
    ActionMovesRow(s, a, id);
    SettledRowIsNotSending(s.db.schedules[id], s.now);
  }

  lemma SettledRowIsNotSending(row: Schedule, now: int)
    ensures forall report :: !Sched.Settled(row, report, now).status.Sending?
  {
  }

  /** The dead job a schedule is sending for existed before. */
  lemma CurrentJobIsOld(s: State, a: Action, id: string)
    requires Inv(s) && SentForGood(Apply(s, a), id) && id in s.db.schedules
    requires Apply(s, a).db.schedules[id].nextRunAt == s.db.schedules[id].nextRunAt
    ensures CurrentJob(s.db, id) == CurrentJob(Apply(s, a).db, id)
  {
    hide Inv, Apply, OccurrenceKey, Evolves, Orphaned;
    var t := Apply(s, a);
    var j := CurrentJob(t.db, id).value;
    NewJobsAreQueued(s, a, j);
    ApplyEvolves(s, a);
    if j >= |s.db.jobs| {
      ApplyKeepsInv(s, a);
      CurrentJobHasItems(t, id);
      NewJobIsNoOrphan(s, a, j);
    }
    JobStays(s.db, t.db, j);
    KeysOf(s);
    FoundByItsKey(s.db.jobs, j, OccurrenceKey(id, s.db.schedules[id].nextRunAt));
  }

  /** An occurrence's job has an item per recipient, and a schedule has recipients. */
  lemma CurrentJobHasItems(s: State, id: string)
    requires Inv(s) && id in s.db.schedules && CurrentJob(s.db, id).Some?
    ensures s.db.jobs[CurrentJob(s.db, id).value].total > 0
  {
    var j := CurrentJob(s.db, id).value;
    KeyNamesItsSource(s.db, s.h, j, id, s.db.schedules[id].nextRunAt, s.now);
    JobFacts(s.db, s.h, j, s.now);
    assert ScheduleOk(s.db.schedules[id], s.h.first[id]);
  }

  lemma NewJobsAreQueued(s: State, a: Action, j: nat)
    requires j < |Apply(s, a).db.jobs|
    ensures j >= |s.db.jobs| ==> Apply(s, a).db.jobs[j].status.QUEUED?
  {
    hide FinishTrace, StartTrace, Turn, Sched.NewSchedule, FindByKey, OccurrenceKey;
    if s.proc.Some? && (a.WorkerTurn? || a.CrashInTurn?) {
      TurnAddsNoJob(s, a);
    } else if s.proc.Some? && (a.Finish? || a.CrashInFinish?) {
      FinishKeepsJobs(s, a);
    }
  }

  lemma TurnAddsNoJob(s: State, a: Action)
    requires s.proc.Some? && (a.WorkerTurn? || a.CrashInTurn?)
    ensures |Apply(s, a).db.jobs| == |s.db.jobs|
  {
    hide Apply;
    TurnIsQuiet(s, a);
  }

  lemma FinishKeepsJobs(s: State, a: Action)
    requires s.proc.Some? && (a.Finish? || a.CrashInFinish?)
    ensures |Apply(s, a).db.jobs| == |s.db.jobs|
  {
    hide Apply, FinishTrace;
    FinishActionDb(s, a);
    var cut := if a.Finish? then 5 else a.cut;
    if CanFinish(s, a.item) && 1 <= cut <= 5 {
      FinishCutJobCount(s.db, a.item, s.proc.value.inFlight[a.item], a.result, s.now, a.draw, cut);
    }
  }

  lemma CancelIsTheCause(s: State, a: Action, id: string, j: nat)
    requires id in s.db.schedules && s.db.schedules[id].status.Sending? && CurrentJob(s.db, id) == Some(j)
    requires !Stuck(s, id) && j < |Apply(s, a).db.jobs| && Apply(s, a).db.jobs[j].status.CANCELLED?
    ensures CancelledWhileSending(s, a, id)
  {
    hide Apply, OccurrenceKey;
    DeadProcessKeepsJobs(s, a);
    if a != CancelJob(j) && a != CrashInCancel(j) {
      OnlyACancelCancels(s, a, j);
    }
  }

  lemma DeadProcessKeepsJobs(s: State, a: Action)
    ensures s.proc.None? ==> Apply(s, a).db.jobs == s.db.jobs
  {
  }

  lemma FireIsTheCause(s: State, id: string, j: nat)
    requires s.proc.Some? && CanFire(s, id) && CurrentJob(s.db, id) == Some(j)
    requires Stuck(Apply(s, Fire(id)), id) && CurrentJob(Apply(s, Fire(id)).db, id) == Some(j)
    ensures FiredTooLate(s, Fire(id), id)
  {
    FireMarks(s, id);
    hide Apply, OccurrenceKey;
  }

  /** A verdict comes from a finish; a complete one moves the row on, so the crash fell right behind the verdict. */
  lemma VerdictIsTheCause(s: State, a: Action, id: string, j: nat)
    requires Inv(s) && id in s.db.schedules && s.db.schedules[id].status.Sending? && CurrentJob(s.db, id) == Some(j)
    requires !Stuck(s, id) && Stuck(Apply(s, a), id) && CurrentJob(Apply(s, a).db, id) == Some(j)
    requires !Apply(s, a).db.jobs[j].status.CANCELLED?
    ensures CutBehindVerdict(s, a, id)
  {
    hide Inv, Apply, OccurrenceKey, FinishTrace, FinishCut, Settle, Settles;
    var t := Apply(s, a);
    ApplyKeepsInv(s, a);
    JobsAndItems(s, j);
    JobsAndItems(t, j);
    SettlementComesFromAFinish(s, a, j);
    var i, n, cut := a.item, s.proc.value.inFlight[a.item], if a.Finish? then 5 else a.cut;
    FinishActionDb(s, a);
    FinishIsItsTrace(s, i, a.result, a.draw);
    var trace := FinishTrace(s.db, i, n, a.result, s.now, a.draw);
    ItemPartEffect(s.db, i, n, a.result, s.now, a.draw);
    EarlyCuts(s.db, i, n, a.result, s.now, a.draw);
    TraceTail(s.db, i, n, a.result, s.now, a.draw);
    VerdictIff(s.db, trace[2], i, FateOf(a.result, n), j, s.now);
    CurrentJobHasSource(s, id, j);
    OnSettledMovesRow(Settle(trace[2], j, s.now), j, id, s.now);
  }

  lemma CurrentJobHasSource(s: State, id: string, j: nat)
    requires Inv(s) && id in s.db.schedules && CurrentJob(s.db, id) == Some(j)
    ensures s.db.jobs[j].source == Some(id)
  {
    KeyNamesItsSource(s.db, s.h, j, id, s.db.schedules[id].nextRunAt, s.now);
  }

  lemma OnSettledMovesRow(db: Db, j: nat, id: string, now: int)
    requires j < |db.jobs| && db.jobs[j].source == Some(id) && id in db.schedules
    ensures var d := Sched.OnSettled(db, j, now);
            id in d.schedules && !d.schedules[id].status.Sending?
  {
  }

  /** In crash-free runs a sending schedule is stuck exactly if its job was cancelled. */
  lemma CrashFreeStuckMeansCancelled(s: State, id: string)
    requires Inv(s) && s.h.crashes == 0 && id in s.db.schedules && s.db.schedules[id].status.Sending?
    ensures var job := CurrentJob(s.db, id);
            job.Some? && (Stuck(s, id) <==> s.db.jobs[job.value].status.CANCELLED?)
  {
    assert CleanSchedule(s.db.jobs, id, s.db.schedules[id]);
  }

  // ---- Sending for good ----

  /** Sending, for a job that is terminal or orphaned. */
  ghost predicate SentForGood(s: State, id: string)
  {
    && id in s.db.schedules && s.db.schedules[id].status.Sending?
    && var job := CurrentJob(s.db, id);
       job.Some? && (IsTerminalJob(s.db.jobs[job.value].status) || Orphaned(s, job.value))
  }

  lemma StuckIsForGood(s: State, id: string)
    requires Stuck(s, id)
    ensures SentForGood(s, id)
  {
  }

  /** Nothing but deleting it ever moves such a schedule again. */
  lemma {:induction false} SentForGoodForever(s: State, actions: seq<Action>, id: string)
    requires Inv(s) && SentForGood(s, id) && RemoveSchedule(id) !in actions
    ensures SentForGood(Run(s, actions), id) && Run(s, actions).db.schedules[id] == s.db.schedules[id]
  {
    hide Inv, Apply, SentForGood;
    if actions != [] {
      var init, a := actions[..|actions| - 1], actions[|actions| - 1];
      assert forall b :: b in init ==> b in actions;
      SentForGoodForever(s, init, id);
      RunKeepsInv(s, init);
      assert a in actions;
      ActionKeepsSent(Run(s, init), a, id);
    }
  }

  lemma ActionKeepsSent(s: State, a: Action, id: string)
    requires Inv(s) && SentForGood(s, id) && a != RemoveSchedule(id)
    ensures SentForGood(Apply(s, a), id) && Apply(s, a).db.schedules[id] == s.db.schedules[id]
  {
    hide Inv, Apply, OccurrenceKey, CurrentJob, Orphaned;
    var j := CurrentJob(s.db, id).value;
    if IsTerminalJob(s.db.jobs[j].status) {
      ActionKeepsStuck(s, a, id);
    } else {
      OrphanStep(s, a, j);
      OrphanKeepsRow(s, a, id, j);
      CurrentStays(s, a, id, j);
    }
  }

  lemma OrphanKeepsRow(s: State, a: Action, id: string, j: nat)
    requires Inv(s) && Orphaned(s, j) && id in s.db.schedules && CurrentJob(s.db, id) == Some(j)
    requires s.db.schedules[id].status.Sending? && a != RemoveSchedule(id)
    ensures id in Apply(s, a).db.schedules && Apply(s, a).db.schedules[id] == s.db.schedules[id]
  {
    hide Inv, Apply, OccurrenceKey, CurrentJob, CanFire, HasLiveJob, Sched.Settled;
    ActionMovesRow(s, a, id);
    RunOne(s, a);
    OrphanNeverSettles(s, [a], j);
    ScheduleIsKnown(s, id);
    SettledRowIsNotSending(s.db.schedules[id], s.now);
  }

  /** A row that names the same occurrence names the same job. */
  lemma CurrentStays(s: State, a: Action, id: string, j: nat)
    requires Inv(s) && id in s.db.schedules && CurrentJob(s.db, id) == Some(j)
    requires id in Apply(s, a).db.schedules && Apply(s, a).db.schedules[id].nextRunAt == s.db.schedules[id].nextRunAt
    ensures CurrentJob(Apply(s, a).db, id) == Some(j)
  {
    hide Inv, Apply, OccurrenceKey, Evolves;
    ApplyEvolves(s, a);
    ApplyKeepsInv(s, a);
    KeysOf(Apply(s, a));
    JobStays(s.db, Apply(s, a).db, j);
    FoundByItsKey(Apply(s, a).db.jobs, j, OccurrenceKey(id, s.db.schedules[id].nextRunAt));
  }

  // ---- The four ways in ----

  /** A cancel of the job a schedule is sending, which could still have got its verdict. */
  ghost predicate CancelledInTime(s: State, a: Action, id: string)
  {
    CancelledWhileSending(s, a, id) && !Orphaned(s, CurrentJob(s.db, id).value)
  }

  /** A crash that orphans the job a schedule is sending. */
  ghost predicate OrphanedWhileSending(s: State, a: Action, id: string)
  {
    && id in s.db.schedules && s.db.schedules[id].status.Sending? && CurrentJob(s.db, id).Some?
    && OrphansBy(s, a, CurrentJob(s.db, id).value)
  }

  /** A due schedule is marked as sending although the job of its occurrence is terminal or orphaned. */
  ghost predicate FiredForDeadJob(s: State, a: Action, id: string)
  {
    && s.proc.Some? && a == Fire(id) && CanFire(s, id)
    && var job := CurrentJob(s.db, id);
       job.Some? && (IsTerminalJob(s.db.jobs[job.value].status) || Orphaned(s, job.value))
  }

  /** Whatever the state and the action: a schedule starts sending for good in exactly these four ways. */
  lemma BecomesSentForGoodIff(s: State, a: Action, id: string)
    requires Inv(s)
    ensures !SentForGood(s, id) && SentForGood(Apply(s, a), id) <==>
              || CancelledInTime(s, a, id) || CutBehindVerdict(s, a, id)
              || OrphanedWhileSending(s, a, id) || FiredForDeadJob(s, a, id)
  {
    hide Inv, Apply, SentForGood, CancelledInTime, CutBehindVerdict, OrphanedWhileSending, FiredForDeadJob;
    if CancelledInTime(s, a, id) {
      CancelSendsForGood(s, a, id);
    } else if CutBehindVerdict(s, a, id) {
      CutSendsForGood(s, a, id);
    } else if OrphanedWhileSending(s, a, id) {
      OrphaningSendsForGood(s, a, id);
    } else if FiredForDeadJob(s, a, id) {
      DeadFireSendsForGood(s, a, id);
    } else if !SentForGood(s, id) && SentForGood(Apply(s, a), id) {
      NoFifthWayIn(s, a, id);
    }
  }

  lemma CancelSendsForGood(s: State, a: Action, id: string)
    requires Inv(s) && CancelledInTime(s, a, id)
    ensures !SentForGood(s, id) && SentForGood(Apply(s, a), id)
  {
    hide Inv, Apply, OccurrenceKey, Orphaned;
    CancelSticks(s, a, id);
    StuckIsForGood(Apply(s, a), id);
  }

  lemma CutSendsForGood(s: State, a: Action, id: string)
    requires Inv(s) && CutBehindVerdict(s, a, id)
    ensures !SentForGood(s, id) && SentForGood(Apply(s, a), id)
  {
    hide Inv, Apply, OccurrenceKey, Orphaned, FinishCut, Settles;
    CrashAfterVerdictSticks(s, a, id);
    StuckIsForGood(Apply(s, a), id);
    if Orphaned(s, s.db.items[a.item].job) {
      OrphanHasNothingInFlight(s, s.db.items[a.item].job);
    }
  }

  lemma OrphaningSendsForGood(s: State, a: Action, id: string)
    requires Inv(s) && OrphanedWhileSending(s, a, id)
    ensures !SentForGood(s, id) && SentForGood(Apply(s, a), id)
  {
    hide Inv, Apply, OccurrenceKey, CurrentJob, Orphaned, CanFire, CanFinish;
    var j := CurrentJob(s.db, id).value;
    OrphansByOrphans(s, a, j);
    OrphaningKeepsRow(s, a, id, j);
    CurrentStays(s, a, id, j);
  }

  lemma OrphaningKeepsRow(s: State, a: Action, id: string, j: nat)
    requires Inv(s) && id in s.db.schedules && CurrentJob(s.db, id) == Some(j) && OrphansBy(s, a, j)
    requires s.db.schedules[id].status.Sending?
    ensures id in Apply(s, a).db.schedules && Apply(s, a).db.schedules[id] == s.db.schedules[id]
  {
    hide Inv, Apply, OccurrenceKey, CurrentJob, CanFire, HasLiveJob, CanFinish, LastOneIn, Sched.Settled;
    ActionMovesRow(s, a, id);
    OrphansByOrphans(s, a, j);
    SettledRowIsNotSending(s.db.schedules[id], s.now);
  }

  lemma DeadFireSendsForGood(s: State, a: Action, id: string)
    requires Inv(s) && FiredForDeadJob(s, a, id)
    ensures !SentForGood(s, id) && SentForGood(Apply(s, a), id)
  {
    FireMarks(s, id);
    hide Inv, Apply, OccurrenceKey, Orphaned;
    var j := CurrentJob(s.db, id).value;
    CurrentStays(s, a, id, j);
    if Orphaned(s, j) {
      ActionKeepsOrphaned(s, a, j);
    }
  }

  lemma NoFifthWayIn(s: State, a: Action, id: string)
    requires Inv(s) && !SentForGood(s, id) && SentForGood(Apply(s, a), id)
    ensures || CancelledInTime(s, a, id) || CutBehindVerdict(s, a, id)
            || OrphanedWhileSending(s, a, id) || FiredForDeadJob(s, a, id)
  {
    hide Inv, Apply, OccurrenceKey, Orphaned, CutBehindVerdict, CanFire;
    var t := Apply(s, a);
    SendingRowStayed(s, a, id);
    CurrentJobIsOld(s, a, id);
    var j := CurrentJob(s.db, id).value;
    if s.db.schedules[id].status.Sending? {
      if Orphaned(t, j) && !IsTerminalJob(t.db.jobs[j].status) {
        ApplyKeepsInv(s, a);
        CurrentJobHasItems(t, id);
        BecomesOrphanedIff(s, a, j);
      } else {
        NoOtherWayIn(s, a, id);
        BecomesStuckIff(s, a, id);
      }
    } else {
      DeadBeforeFire(s, id, j);
    }
  }

  lemma DeadBeforeFire(s: State, id: string, j: nat)
    requires Inv(s) && s.proc.Some? && CanFire(s, id) && CurrentJob(s.db, id) == Some(j)
    requires SentForGood(Apply(s, Fire(id)), id) && CurrentJob(Apply(s, Fire(id)).db, id) == Some(j)
    ensures FiredForDeadJob(s, Fire(id), id)
  {
    FireMarks(s, id);
    hide Inv, Apply, OccurrenceKey, Orphaned;
    if !Orphaned(s, j) {
      StepKeepsOpen(s, Fire(id), j);
    }
  }

  // ---- Every other sending schedule can move on ----

  /** Whoever is sending has a job. */
  ghost predicate SendersHaveJobs(s: State)
  {
    forall id :: id in s.db.schedules && s.db.schedules[id].status.Sending? ==> CurrentJob(s.db, id).Some?
  }

  lemma ActionKeepsJobs(s: State, a: Action)
    requires Inv(s) && SendersHaveJobs(s)
    ensures SendersHaveJobs(Apply(s, a))
  {
    hide Inv, Apply, CurrentJob, CanFire;
    var t := Apply(s, a);
    forall id | id in t.db.schedules && t.db.schedules[id].status.Sending? ensures CurrentJob(t.db, id).Some? {
      SendingRowStayed(s, a, id);
      if s.db.schedules[id].status.Sending? {
        CurrentStays(s, a, id, CurrentJob(s.db, id).value);
      } else {
        FireFindsJob(s, id);
      }
    }
  }

  lemma FireFindsJob(s: State, id: string)
    requires s.proc.Some? && CanFire(s, id)
    ensures var t := Apply(s, Fire(id)); id in t.db.schedules && CurrentJob(t.db, id).Some?
  {
    hide OccurrenceKey;
  }

  lemma {:induction false} SendersAlwaysHaveJobs(limit: nat, start: int, actions: seq<Action>)
    ensures SendersHaveJobs(Run(Init(limit, start), actions))
  {
    hide Apply, SendersHaveJobs, Inv;
    if actions == [] {
      NobodySends(limit, start);
    } else {
      var init := actions[..|actions| - 1];
      SendersAlwaysHaveJobs(limit, start, init);
      ReachableStatesAreInv(limit, start, init);
      ActionKeepsJobs(Run(Init(limit, start), init), actions[|actions| - 1]);
    }
  }

  lemma NobodySends(limit: nat, start: int)
    ensures SendersHaveJobs(Init(limit, start))
  {
  }

  lemma GentleStep(s: State, a: Action, id: string)
    requires Inv(s) && !SentForGood(s, id) && Gentle(a) && id in s.db.schedules
    ensures var t := Apply(s, a);
            && !SentForGood(t, id) && id in t.db.schedules
            && (t.db.schedules[id].status.Sending? ==> t.db.schedules[id] == s.db.schedules[id])
  {
    hide Inv, Apply, SentForGood, RowMoves, CanFire, JustGotVerdict;
    BecomesSentForGoodIff(s, a, id);
    ActionMovesRow(s, a, id);
    GentleIsNoWayIn(s, a, id);
  }

  lemma GentleIsNoWayIn(s: State, a: Action, id: string)
    requires Gentle(a)
    ensures !CancelledInTime(s, a, id) && !CutBehindVerdict(s, a, id)
    ensures !OrphanedWhileSending(s, a, id) && !FiredForDeadJob(s, a, id)
  {
  }

  lemma {:induction false} GentleRun(s: State, actions: seq<Action>, id: string)
    requires Inv(s) && !SentForGood(s, id) && AllGentle(actions) && id in s.db.schedules
    ensures var t := Run(s, actions);
            && !SentForGood(t, id) && id in t.db.schedules
            && (t.db.schedules[id].status.Sending? ==> t.db.schedules[id] == s.db.schedules[id])
  {
    hide Inv, Apply, SentForGood, Gentle;
    if actions != [] {
      var init, a := actions[..|actions| - 1], actions[|actions| - 1];
      assert a in actions && forall b :: b in init ==> b in actions;
      GentleRun(s, init, id);
      RunKeepsInv(s, init);
      GentleStep(Run(s, init), a, id);
    }
  }

  /** A schedule that is not sending for good can still stop sending, with nothing cancelled, fired or deleted. */
  lemma SenderCanMoveOn(s: State, id: string) returns (actions: seq<Action>)
    requires Inv(s) && SendersHaveJobs(s) && s.limit > 0
    requires id in s.db.schedules && s.db.schedules[id].status.Sending? && !SentForGood(s, id)
    ensures AllGentle(actions)
    ensures id in Run(s, actions).db.schedules && !Run(s, actions).db.schedules[id].status.Sending?
  {
    hide Inv, Run, OccurrenceKey, Orphaned, AllGentle, Evolves;
    var j := CurrentJob(s.db, id).value;
    actions := OpenJobCanSettle(s, j);
    var t := Run(s, actions);
    GentleRun(s, actions, id);
    if t.db.schedules[id].status.Sending? {
      RunKeepsInv(s, actions);
      RunsOnlyMoveForward(s, actions);
      JobStays(s.db, t.db, j);
      KeysOf(t);
      FoundByItsKey(t.db.jobs, j, OccurrenceKey(id, s.db.schedules[id].nextRunAt));
    }
  }

  /** Exactly the schedules that send for good can never stop sending unless deleted. */
  lemma MovesOnIff(limit: nat, start: int, before: seq<Action>, id: string)
    requires limit > 0
    requires var s := Run(Init(limit, start), before); id in s.db.schedules && s.db.schedules[id].status.Sending?
    ensures var s := Run(Init(limit, start), before);
            (exists actions :: RemoveSchedule(id) !in actions && StopsSending(s, actions, id)) <==> !SentForGood(s, id)
  {
    hide Inv, Apply, SentForGood, SendersHaveJobs;
    var s := Run(Init(limit, start), before);
    ReachableStatesAreInv(limit, start, before);
    SendersAlwaysHaveJobs(limit, start, before);
    LimitStays(Init(limit, start), before);
    hide Run;
    if SentForGood(s, id) {
      forall actions | RemoveSchedule(id) !in actions ensures !StopsSending(s, actions, id) {
        SentForGoodForever(s, actions, id);
      }
    } else {
      var actions := SenderCanMoveOn(s, id);
      assert Gentle(RemoveSchedule(id)) == false;
      assert StopsSending(s, actions, id);
    }
  }

  ghost predicate StopsSending(s: State, actions: seq<Action>, id: string)
  {
    id in Run(s, actions).db.schedules && !Run(s, actions).db.schedules[id].status.Sending?
  }

  lemma {:induction false} LimitStays(s: State, actions: seq<Action>)
    ensures Run(s, actions).limit == s.limit
  {
    hide Apply;
    if actions != [] {
      LimitStays(s, actions[..|actions| - 1]);
      ActionKeepsLimit(Run(s, actions[..|actions| - 1]), actions[|actions| - 1]);
    }
  }

  lemma ActionKeepsLimit(s: State, a: Action)
    ensures Apply(s, a).limit == s.limit
  {
    hide FinishCut, FinishHistory, CancelTrace, PauseJob, ResumeJob, CreateJob, FireCut, Sched.NewSchedule, StartTrace,
         Turn;
  }
}
