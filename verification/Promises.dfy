/** What the effects of single actions promise over whole runs: waits are kept, a paused job is quiet, a removed
    schedule stays removed, and the breaker follows the outcomes of the sends. */
module Promises {
  import opened Wrappers
  import opened ErrorClassifier
  import opened CircuitBreaker
  import opened Retry
  import opened Tables
  import opened JobService
  import opened Claiming
  import opened Worker
  import opened Engine
  import opened Invariant
  import opened Frames
  import opened FinishMemory
  import opened OtherSteps
  import opened Evolution
  import opened ScheduleLife
  import opened Progress
  import opened Ledgers
  import opened Admission
  import opened Stalls
  import opened Effects
  import OccurrenceKeys
  import Sched = Scheduler

  /** The action starts an attempt of item `i`, be it complete or cut short. */
  predicate Starts(s: State, a: Action, i: nat)
  {
    s.proc.Some? && (a.WorkerTurn? || (a.CrashInTurn? && 1 <= a.cut <= 5)) && NextStart(s) == Some(i)
  }

  /** No item is started before its time, twice, or for a job that is paused or finished. */
  lemma OnlyReadyItemsStart(s: State, a: Action, i: nat)
    requires Starts(s, a, i)
    ensures Ready(s, i)
  {
    ChosenFirst(s, i);
  }

  // ---- Rows nobody works on ----

  ghost predicate InHand(s: State, i: nat)
  {
    s.proc.Some? && i in s.proc.value.inFlight
  }

  /** A queued or cancelled row that is not in flight and not started now stays as it is, but for a cancel. */
  lemma IdleRowStays(s: State, a: Action, i: nat)
    requires Inv(s) && i < |s.db.items| && s.db.items[i].status in {Queued, Cancelled} && !InHand(s, i)
    requires !Starts(s, a, i)
    ensures var t := Apply(s, a);
            && t.now >= s.now && i < |t.db.items| && !InHand(t, i)
            && t.db.items[i].status in {Queued, Cancelled} && t.db.items[i].nextAttemptAt == s.db.items[i].nextAttemptAt
  {
    hide *;
    if s.proc.None? {
      DownRowStays(s, a, i);
    } else if a.WorkerTurn? || a.CrashInTurn? {
      TurnRowStays(s, a, i);
    } else if a.Finish? || a.CrashInFinish? {
      FinishRowStays(s, a, i);
    } else {
      OtherRowStays(s, a, i);
    }
  }

  lemma DownRowStays(s: State, a: Action, i: nat)
    requires Inv(s) && i < |s.db.items| && s.db.items[i].status in {Queued, Cancelled} && s.proc.None?
    ensures var t := Apply(s, a);
            && t.now >= s.now && i < |t.db.items| && !InHand(t, i) && t.db.items[i] == s.db.items[i]
  {
    RestartWrites(s);
    RestartKeepsTime(s, a);
    hide Inv, ApplyRestart;
  }

  lemma RestartKeepsTime(s: State, a: Action)
    ensures Apply(s, a).now >= s.now
    ensures s.proc.None? && !a.Restart? ==> Apply(s, a).db == s.db && Apply(s, a).proc.None?
  {
    hide FinishCut, FinishHistory, CancelTrace, PauseJob, ResumeJob, CreateJob, FireCut, Sched.NewSchedule, StartTrace,
         Turn;
  }

  lemma TurnRowStays(s: State, a: Action, i: nat)
    requires Inv(s) && s.proc.Some? && (a.WorkerTurn? || a.CrashInTurn?) && i < |s.db.items|
    requires !InHand(s, i) && !Starts(s, a, i)
    ensures var t := Apply(s, a);
            && t.now >= s.now && i < |t.db.items| && !InHand(t, i) && t.db.items[i] == s.db.items[i]
  {
    hide Inv, Apply, NextStart, Ready;
    RestartKeepsTime(s, a);
    if a.WorkerTurn? || 1 <= a.cut <= 5 {
      TurnWrites(s, a);
      if NextStart(s).None? {
        IdleTurnKeepsFlight(s, a);
      } else {
        var k := NextStart(s).value;
        ReadyHasRow(s, k);
        StartedElsewhere(s, Apply(s, a).db, k, if a.WorkerTurn? then 5 else a.cut, i);
      }
    } else {
      CutNothing(s, a);
    }
  }

  lemma StartedElsewhere(s: State, d: Db, k: nat, cut: nat, i: nat)
    requires k < |s.db.items| && s.db.items[k].job < |s.db.jobs| && StartedTo(s, d, k, cut) && i < |s.db.items|
             && i != k
    ensures i < |d.items| && d.items[i] == s.db.items[i]
  {
  }

  lemma IdleTurnKeepsFlight(s: State, a: Action)
    requires s.proc.Some? && (a.WorkerTurn? || a.CrashInTurn?) && NextStart(s).None?
    ensures Apply(s, a).proc.Some? && Apply(s, a).proc.value.inFlight == s.proc.value.inFlight
  {
    hide StartTrace, NextItem, CanAttempt;
  }

  lemma FinishRowStays(s: State, a: Action, i: nat)
    requires Inv(s) && s.proc.Some? && (a.Finish? || a.CrashInFinish?) && i < |s.db.items| && !InHand(s, i)
    ensures var t := Apply(s, a);
            && t.now >= s.now && i < |t.db.items| && !InHand(t, i) && t.db.items[i] == s.db.items[i]
  {
    hide Inv, Apply, BackoffMs;
    RestartKeepsTime(s, a);
    if IsFinish(s, a) {
      FinishWritesItem(s, a);
      FinishFrees(s, a);
    } else {
      NoFinishNoChange(s, a);
    }
  }

  lemma NoFinishNoChange(s: State, a: Action)
    requires s.proc.Some? && (a.Finish? || a.CrashInFinish?) && !IsFinish(s, a)
    ensures Apply(s, a) == s
  {
  }

  lemma OtherRowStays(s: State, a: Action, i: nat)
    requires s.proc.Some? && !a.WorkerTurn? && !a.CrashInTurn? && !a.Finish? && !a.CrashInFinish?
    requires i < |s.db.items| && s.db.items[i].status in {Queued, Cancelled} && !InHand(s, i)
    ensures var t := Apply(s, a);
            && t.now >= s.now && i < |t.db.items| && !InHand(t, i)
            && t.db.items[i].status in {Queued, Cancelled} && t.db.items[i].nextAttemptAt == s.db.items[i].nextAttemptAt
  {
    RestartKeepsTime(s, a);
    OthersKeepMemory(s, a);
    OtherItems(s, a);
    hide Apply;
    var t := Apply(s, a);
    if a.CancelJob? || a.CrashInCancel? {
      CancelWrites(s, a);
    } else {
      assert t.db.items[i] == s.db.items[i];
    }
  }

  lemma OtherItems(s: State, a: Action)
    requires s.proc.Some? && !a.WorkerTurn? && !a.CrashInTurn? && !a.Finish? && !a.CrashInFinish?
    ensures a.CancelJob? || a.CrashInCancel? || s.db.items <= Apply(s, a).db.items
  {
    PlainWrites(s, a);
    match a
    case Enqueue(key, drafts) => EnqueueWrites(s, key, drafts);
    case Fire(_) => FireWrites(s, a);
    case CrashInFire(_) => FireWrites(s, a);
    case AddSchedule(_, _, _, _, _) => OwnerWrites(s, a);
    case RemoveSchedule(_) => OwnerWrites(s, a);
    case Pause(j) => PauseWrites(s, j);
    case Resume(j) => PauseWrites(s, j);
    case _ =>
  }

  // ---- A retry waits ----

  /** Until `due` the row is not started: it is idle, with that time in it. */
  ghost predicate Waits(s: State, i: nat, due: int)
  {
    s.now >= due ||
    (i < |s.db.items| && s.db.items[i].status in {Queued, Cancelled} && s.db.items[i].nextAttemptAt == due
     && !InHand(s, i))
  }

  lemma WaitGoesOn(s: State, a: Action, i: nat, due: int)
    requires Inv(s) && Waits(s, i, due)
    ensures Waits(Apply(s, a), i, due)
  {
    hide Inv, Apply, Starts;
    RestartKeepsTime(s, a);
    if s.now < due {
      if Starts(s, a, i) {
        OnlyReadyItemsStart(s, a, i);
      }
      IdleRowStays(s, a, i);
    }
  }

  lemma {:induction false} WaitLasts(s: State, actions: seq<Action>, i: nat, due: int)
    requires Inv(s) && Waits(s, i, due)
    ensures Waits(Run(s, actions), i, due)
  {
    hide Inv, Apply, Waits;
    if actions != [] {
      var init := actions[..|actions| - 1];
      WaitLasts(s, init, i, due);
      RunKeepsInv(s, init);
      WaitGoesOn(Run(s, init), actions[|actions| - 1], i, due);
    }
  }

  /** After attempt `n` of an item goes to a retry at time t, whatever happens next, crashes and restarts included, no
      attempt of the item starts before t + the exponential delay of `n`. */
  lemma RetryWaits(s: State, a: Action, t: State, actions: seq<Action>, u: State, b: Action)
    requires Inv(s) && IsFinish(s, a) && CutOf(a) >= 2 && t == Apply(s, a) && u == Run(t, actions)
    requires a.item < |t.db.items| && t.db.items[a.item].status == Queued && Starts(u, b, a.item)
    ensures u.now >= s.now + ExpDelayMs(s.proc.value.inFlight[a.item])
  {
    hide *;
    FinishedFacts(s, a);
    var i, n := a.item, s.proc.value.inFlight[a.item];
    RetriedRowWaits(s, a);
    ApplyKeepsInv(s, a);
    BackoffBounds(n, a.draw);
    WaitLasts(t, actions, i, s.now + BackoffMs(n, a.draw));
    StartEndsWait(u, b, i, s.now + BackoffMs(n, a.draw));
  }

  lemma StartEndsWait(u: State, b: Action, i: nat, due: int)
    requires Waits(u, i, due) && Starts(u, b, i)
    ensures u.now >= due
  {
    OnlyReadyItemsStart(u, b, i);
    hide NextStart;
  }

  lemma RetriedRowWaits(s: State, a: Action)
    requires Inv(s) && IsFinish(s, a) && CutOf(a) >= 2
    requires a.item < |Apply(s, a).db.items| && Apply(s, a).db.items[a.item].status == Queued
    ensures Waits(Apply(s, a), a.item, s.now + BackoffMs(s.proc.value.inFlight[a.item], a.draw))
  {
    FinishWritesItem(s, a);
    FinishFrees(s, a);
    hide Inv, Apply, BackoffMs;
  }

  // ---- A paused job is quiet ----

  /** Paused, or finished since. */
  ghost predicate Quieted(s: State, j: nat)
  {
    j < |s.db.jobs| && (s.db.jobs[j].status == PAUSED || IsTerminalJob(s.db.jobs[j].status))
  }

  lemma QuietStep(s: State, a: Action, j: nat)
    requires Inv(s) && Quieted(s, j) && a != Resume(j)
    ensures Quieted(Apply(s, a), j)
  {
    hide Inv, Apply;
    ApplyEvolves(s, a);
    var _ := Apply(s, a).db.jobs[j];
    if s.db.jobs[j].status == PAUSED {
      PausedStep(s, a, j);
    }
  }

  lemma PausedStep(s: State, a: Action, j: nat)
    requires Inv(s) && j < |s.db.jobs| && s.db.jobs[j].status == PAUSED && a != Resume(j)
    ensures Quieted(Apply(s, a), j)
  {
    hide Inv, Apply;
    if s.proc.None? {
      if a.Restart? { RestartWrites(s); } else { RestartKeepsTime(s, a); }
    } else if a.WorkerTurn? || a.CrashInTurn? {
      if a.WorkerTurn? || 1 <= a.cut <= 5 {
        TurnWrites(s, a);
      } else {
        CutNothing(s, a);
      }
    } else if a.Finish? || a.CrashInFinish? {
      if IsFinish(s, a) { FinishWritesJob(s, a); } else { NoFinishNoChange(s, a); }
    } else if a.CancelJob? || a.CrashInCancel? {
      CancelWrites(s, a);
    } else {
      OtherJobs(s, a, j);
    }
  }

  lemma CutNothing(s: State, a: Action)
    requires s.proc.Some? && a.CrashInTurn? && !(1 <= a.cut <= 5)
    ensures Apply(s, a) == s
  {
  }

  lemma OtherJobs(s: State, a: Action, j: nat)
    requires s.proc.Some? && !a.WorkerTurn? && !a.CrashInTurn? && !a.Finish? && !a.CrashInFinish?
    requires !a.CancelJob? && !a.CrashInCancel? && j < |s.db.jobs| && s.db.jobs[j].status == PAUSED && a != Resume(j)
    ensures j < |Apply(s, a).db.jobs| && Apply(s, a).db.jobs[j] == s.db.jobs[j]
  {
    PlainWrites(s, a);
    match a
    case Enqueue(key, drafts) => EnqueueWrites(s, key, drafts);
    case Fire(_) => FireWrites(s, a);
    case CrashInFire(_) => FireWrites(s, a);
    case AddSchedule(_, _, _, _, _) => OwnerWrites(s, a);
    case RemoveSchedule(_) => OwnerWrites(s, a);
    case Pause(k) => PauseWrites(s, k);
    case Resume(k) => PauseWrites(s, k);
    case _ =>
  }

  lemma {:induction false} QuietRun(s: State, actions: seq<Action>, j: nat)
    requires Inv(s) && Quieted(s, j) && Resume(j) !in actions
    ensures Quieted(Run(s, actions), j)
  {
    hide Inv, Apply, Quieted;
    if actions != [] {
      var init, a := actions[..|actions| - 1], actions[|actions| - 1];
      assert a in actions && forall b :: b in init ==> b in actions;
      QuietRun(s, init, j);
      RunKeepsInv(s, init);
      QuietStep(Run(s, init), a, j);
    }
  }

  /** After a pause no item of the job starts until it is resumed. */
  lemma PausedJobIsQuiet(s: State, j: nat, actions: seq<Action>, b: Action, i: nat)
    requires Inv(s) && s.proc.Some? && j < |s.db.jobs| && Resume(j) !in actions
    ensures var u := Run(Apply(s, Pause(j)), actions);
            Starts(u, b, i) ==> i < |u.db.items| && u.db.items[i].job != j
  {
    hide Inv, Apply, Starts, Run, Quieted;
    PauseQuiets(s, j);
    ApplyKeepsInv(s, Pause(j));
    var u := Run(Apply(s, Pause(j)), actions);
    QuietRun(Apply(s, Pause(j)), actions, j);
    if Starts(u, b, i) {
      OnlyReadyItemsStart(u, b, i);
      ReadyIsNotQuiet(u, i, j);
    }
  }

  lemma PauseQuiets(s: State, j: nat)
    requires s.proc.Some? && j < |s.db.jobs|
    ensures Quieted(Apply(s, Pause(j)), j)
  {
    PauseWrites(s, j);
    hide Apply;
  }

  lemma ReadyIsNotQuiet(u: State, i: nat, j: nat)
    requires Ready(u, i) && Quieted(u, j)
    ensures i < |u.db.items| && u.db.items[i].job != j
  {
  }

  /** Nothing but work is missing for the next turn to start an item. */
  predicate MaySend(s: State)
  {
    && s.proc.Some? && !s.proc.value.draining && !s.disabled && s.proc.value.active < s.limit
    && BreakerLets(s.proc.value.breaker, s.now)
  }

  /** A resume makes the job's due items ready at once; so the next turn of a process that may send starts something. */
  lemma ResumedItemsAreReady(s: State, j: nat, i: nat)
    requires s.proc.Some? && j < |s.db.jobs| && s.db.jobs[j].status == PAUSED
    requires i < |s.db.items| && s.db.items[i].job == j && s.db.items[i].status == Queued
    requires s.db.items[i].nextAttemptAt <= s.now
    ensures var t := Apply(s, Resume(j));
            && Ready(t, i)
            && (MaySend(s) ==> NextStart(t).Some?)
  {
    PauseWrites(s, j);
    hide Apply;
    TurnStartsIff(Apply(s, Resume(j)));
  }

  // ---- A removed schedule stays removed ----

  /** A known schedule without a row. */
  ghost predicate Gone(s: State, id: string)
  {
    id in s.h.first && id !in s.db.schedules
  }

  lemma RemovalRemoves(s: State, id: string)
    requires Inv(s) && s.proc.Some? && id in s.db.schedules
    ensures Gone(Apply(s, RemoveSchedule(id)), id)
  {
    hide Inv;
    ScheduleIsKnown(s, id);
  }

  lemma GoneStep(s: State, a: Action, id: string)
    requires Inv(s) && Gone(s, id)
    ensures Gone(Apply(s, a), id)
    ensures var t := Apply(s, a);
            |s.db.jobs| <= |t.db.jobs| && forall j :: |s.db.jobs| <= j < |t.db.jobs| ==> t.db.jobs[j].source != Some(id)
  {
    hide Inv, Apply, RowMoves, CanFire, JustGotVerdict;
    ActionMovesRow(s, a, id);
    JobsOnlyFrom(s, a);
  }

  /** New jobs come from an enqueue, or from a schedule that is there. */
  lemma JobsOnlyFrom(s: State, a: Action)
    requires Inv(s)
    ensures var t := Apply(s, a);
            && |s.db.jobs| <= |t.db.jobs|
            && forall j :: |s.db.jobs| <= j < |t.db.jobs| ==>
                 t.db.jobs[j].source == None || (t.db.jobs[j].source.Some?
                                                 && t.db.jobs[j].source.value in s.db.schedules)
  {
    hide Inv, Apply, CanFire;
    ApplyEvolves(s, a);
    if s.proc.None? {
      if a.Restart? { RestartWrites(s); } else { RestartKeepsTime(s, a); }
    } else if a.Enqueue? {
      EnqueueWrites(s, a.key, a.drafts);
    } else if a.Fire? || a.CrashInFire? {
      FireWrites(s, a);
      FireNeedsRow(s, a.id);
    } else {
      OthersAddNoJob(s, a);
    }
  }

  lemma FireNeedsRow(s: State, id: string)
    ensures CanFire(s, id) ==> id in s.db.schedules
  {
  }

  lemma OthersAddNoJob(s: State, a: Action)
    requires Inv(s) && s.proc.Some? && !a.Enqueue? && !a.Fire? && !a.CrashInFire?
    ensures |Apply(s, a).db.jobs| == |s.db.jobs|
  {
    hide Inv, Apply, NextStart, Ready;
    if a.WorkerTurn? || a.CrashInTurn? {
      if a.WorkerTurn? || 1 <= a.cut <= 5 {
        TurnWrites(s, a);
        if NextStart(s).Some? {
          ReadyHasRow(s, NextStart(s).value);
          StartAddsNoJob(s, Apply(s, a).db, NextStart(s).value, if a.WorkerTurn? then 5 else a.cut);
        }
      } else {
        CutNothing(s, a);
      }
    } else if a.Finish? || a.CrashInFinish? {
      if IsFinish(s, a) { FinishWritesJob(s, a); } else { NoFinishNoChange(s, a); }
    } else if a.CancelJob? || a.CrashInCancel? {
      CancelWrites(s, a);
    } else {
      SmallWritesAddNoJob(s, a);
    }
  }

  lemma StartAddsNoJob(s: State, d: Db, k: nat, cut: nat)
    requires k < |s.db.items| && s.db.items[k].job < |s.db.jobs| && StartedTo(s, d, k, cut)
    ensures |d.jobs| == |s.db.jobs|
  {
  }

  lemma SmallWritesAddNoJob(s: State, a: Action)
    requires s.proc.Some? && !a.Enqueue? && !a.Fire? && !a.CrashInFire? && !a.WorkerTurn? && !a.CrashInTurn?
    requires !a.Finish? && !a.CrashInFinish? && !a.CancelJob? && !a.CrashInCancel?
    ensures |Apply(s, a).db.jobs| == |s.db.jobs|
  {
    PlainWrites(s, a);
    match a
    case AddSchedule(_, _, _, _, _) => OwnerWrites(s, a);
    case RemoveSchedule(_) => OwnerWrites(s, a);
    case Pause(j) => PauseWrites(s, j);
    case Resume(j) => PauseWrites(s, j);
    case _ =>
  }

  /** Once removed, a schedule has no row in any later state, and no later action makes a job for it. */
  lemma {:induction false} RemovedForGood(s: State, actions: seq<Action>, id: string)
    requires Inv(s) && Gone(s, id)
    ensures var u := Run(s, actions);
            && Gone(u, id) && |s.db.jobs| <= |u.db.jobs|
            && forall j :: |s.db.jobs| <= j < |u.db.jobs| ==> u.db.jobs[j].source != Some(id)
  {
    hide Inv, Apply, Gone, Evolves;
    if actions != [] {
      var init, a := actions[..|actions| - 1], actions[|actions| - 1];
      RemovedForGood(s, init, id);
      RunKeepsInv(s, init);
      var u := Run(s, init);
      GoneStep(u, a, id);
      ApplyEvolves(u, a);
      OldSourcesStay(u.db, Apply(u, a).db);
    }
  }

  lemma OldSourcesStay(a: Db, b: Db)
    requires Evolves(a, b)
    ensures |a.jobs| <= |b.jobs|
    ensures forall j {:trigger b.jobs[j]} :: 0 <= j < |a.jobs| ==> b.jobs[j].source == a.jobs[j].source
  {
  }

  // ---- The breaker in terms of the sends ----

  /** Sends of the present process that failed with an error, or because the transport was not ready, since the last
      one that got through. */
  function Streak(s: State, actions: seq<Action>): nat
  {
    if actions == [] || Run(s, actions).proc.None? then 0
    else
      var before, u, a := Streak(s, actions[..|actions| - 1]), Run(s, actions[..|actions| - 1]), actions[|actions| - 1];
      if a.Finish? && CanFinish(u, a.item) then
        match a.result
        case Returned(Sent, _) => 0
        case Returned(SendError, _) => before + 1
        case Threw(true, _) => before + 1
        case _ => before
      else before
  }

  lemma {:induction false} StreakIsTransient(s: State, actions: seq<Action>)
    requires s.proc == Some(NewProc())
    ensures TransientRun(BreakerTrace(s, actions)) == Streak(s, actions)
  {
    hide Apply;
    if actions != [] && Run(s, actions).proc.Some? {
      var init, a := actions[..|actions| - 1], actions[|actions| - 1];
      StreakIsTransient(s, init);
      var u, trace := Run(s, init), BreakerTrace(s, init);
      OneMoreTold(trace, u, a);
      if u.proc.None? {
        TraceEmptyWhileDown(s, init);
      }
    }
  }

  lemma OneMoreTold(trace: seq<Event>, u: State, a: Action)
    ensures TransientRun(trace + Told(u, a)) ==
              if u.proc.Some? && a.Finish? && CanFinish(u, a.item) then
                match a.result
                case Returned(Sent, _) => 0
                case Returned(SendError, _) => TransientRun(trace) + 1
                case Threw(true, _) => TransientRun(trace) + 1
                case _ => TransientRun(trace)
              else TransientRun(trace)
  {
    var told := Told(u, a);
    if told == [] {
      assert trace + told == trace;
    } else {
      assert (trace + told)[..|trace + told| - 1] == trace;
    }
  }

  /** The breaker of a live process is CLOSED iff fewer than five of its sends failed with an error, or because the
      transport was not ready, since the last one that got through. */
  lemma ClosedIffFewFailures(limit: nat, start: int, actions: seq<Action>)
    ensures var s := Run(Init(limit, start), actions);
            s.proc.Some? ==> (s.proc.value.breaker.state == CLOSED <==> Streak(Init(limit, start), actions) < 5)
  {
    var z := Init(limit, start);
    StreakIsTransient(z, actions);
    BreakerIsItsTrace(limit, start, actions);
    BreakerRefinesHistory(5, 30000, BreakerTrace(z, actions));
    hide Run, Replay, BreakerTrace, Streak;
  }
}
