/** How one schedule row can move, over single actions and whole runs. */
module ScheduleLife {
  import opened Wrappers
  import opened ErrorClassifier
  import opened Retry
  import opened OccurrenceKeys
  import opened Tables
  import opened JobService
  import opened Claiming
  import opened Worker
  import opened Engine
  import opened Invariant
  import opened Frames
  import opened FinishStep
  import opened FinishMemory
  import opened OtherSteps
  import opened Evolution
  import Sched = Scheduler

  /** The job of the occurrence the schedule's row names. */
  function CurrentJob(db: Db, id: string): (job: Option<nat>)
    requires id in db.schedules
    ensures job.Some? ==> job.value < |db.jobs|
  {
    FindByKey(db.jobs, OccurrenceKey(id, db.schedules[id].nextRunAt))
  }

  /** The schedule's current occurrence has a job that is not finished yet. */
  ghost predicate HasLiveJob(db: Db, id: string)
    requires id in db.schedules
  {
    var job := CurrentJob(db, id);
    job.Some? && !IsTerminalJob(db.jobs[job.value].status)
  }

  /** A row stays, is marked as sending, or is settled because its live job just was. */
  ghost predicate RowMoves(db: Db, id: string, row: Schedule, now: int)
    requires id in db.schedules
  {
    var old_ := db.schedules[id];
    || row == old_
    || (old_.status.Scheduled? && row == old_.(status := Sending))
    || (HasLiveJob(db, id) && row.lastResult.Some? && row == Sched.Settled(old_, row.lastResult.value, now))
  }

  lemma LiveJobShows(db: Db, h: History, j: nat, id: string, now: int)
    requires Safe(db, h, now) && j < |db.jobs| && !IsTerminalJob(db.jobs[j].status)
    requires db.jobs[j].source == Some(id) && id in db.schedules
    ensures HasLiveJob(db, id) && CurrentJob(db, id) == Some(j)
  {
    LiveJobIsCurrent(db, h, j, now);
    assert SourceOk(db, h, j, now);
    FoundByItsKey(db.jobs, j, OccurrenceKey(id, db.schedules[id].nextRunAt));
  }

  lemma TailMovesRow(db: Db, j: nat, id: string, now: int)
    requires id in db.schedules
    ensures var d := if Settles(db, j) then Sched.OnSettled(Settle(db, j, now), j, now) else Settle(db, j, now);
            && id in d.schedules
            && (d.schedules[id] == db.schedules[id]
                || (Settles(db, j) && db.jobs[j].source == Some(id) && d.schedules[id].lastResult.Some?
                    && !d.schedules[id].status.Sending?
                    && d.schedules[id] == Sched.Settled(db.schedules[id], d.schedules[id].lastResult.value, now)))
  {
  }

  /** The job of the schedule's occurrence carries a verdict in `d`. */
  ghost predicate JustGotVerdict(db: Db, d: Db, id: string)
    requires id in db.schedules
  {
    var job := CurrentJob(db, id);
    job.Some? && job.value < |d.jobs| && IsVerdict(d.jobs[job.value].status)
  }

  lemma SettlingShows(db: Db, d3: Db, d: Db, j: nat, id: string, now: int)
    requires id in db.schedules && CurrentJob(db, id) == Some(j) && Settles(d3, j)
    requires d == Sched.OnSettled(Settle(d3, j, now), j, now)
    ensures JustGotVerdict(db, d, id)
  {
  }

  lemma FinishMovesRow(db: Db, h: History, i: nat, n: nat, r: SendResult, now: int, draw: Draw, cut: nat, id: string)
    requires Safe(db, h, now) && InFlightOk(db, i, n) && i < |db.items| && id in db.schedules && cut < 5
    ensures var d := FinishTrace(db, i, n, r, now, draw)[cut];
            && id in d.schedules && RowMoves(db, id, d.schedules[id], now)
            && (d.schedules[id] != db.schedules[id] ==> !d.schedules[id].status.Sending? && JustGotVerdict(db, d, id))
  {
    var trace, j := FinishTrace(db, i, n, r, now, draw), db.items[i].job;
    SchedulesUntilTail(db, i, n, r, now, draw, cut);
    hide *;
    ItemPartSafe(db, h, i, n, r, now, draw);
    ItemPartEffect(db, i, n, r, now, draw);
    TraceTail(db, i, n, r, now, draw);
    TailMovesRow(trace[2], j, id, now);
    if cut == 4 && Settles(trace[2], j) && trace[2].jobs[j].source == Some(id) {
      StillLive(db, trace[2], i, FateOf(r, n), j);
      LiveJobShows(db, h, j, id, now);
      SettlingShows(db, trace[2], trace[4], j, id, now);
    }
    MovesBySettling(db, id, trace[4].schedules[id], now);
    MovesNowhere(db, id, now);
  }

  lemma SchedulesUntilTail(db: Db, i: nat, n: nat, r: SendResult, now: int, draw: Draw, cut: nat)
    requires i < |db.items| && cut < 5
    ensures var trace := FinishTrace(db, i, n, r, now, draw);
            (cut < 4 ==> trace[cut].schedules == db.schedules) && trace[2].schedules == db.schedules
  {
  }

  lemma StillLive(db: Db, d: Db, i: nat, fate: ItemStatus, j: nat)
    requires ItemPartDone(db, d, i, fate) && Settles(d, j)
    ensures j < |db.jobs| && !IsTerminalJob(db.jobs[j].status) && db.jobs[j].source == d.jobs[j].source
  {
  }

  lemma MovesBySettling(db: Db, id: string, row: Schedule, now: int)
    requires id in db.schedules
    ensures HasLiveJob(db, id) && row.lastResult.Some?
            && row == Sched.Settled(db.schedules[id], row.lastResult.value, now) ==>
              RowMoves(db, id, row, now)
  {
  }

  lemma MovesNowhere(db: Db, id: string, now: int)
    requires id in db.schedules
    ensures RowMoves(db, id, db.schedules[id], now)
  {
  }

  lemma FireMovesRow(s: State, other: string, id: string)
    requires CanFire(s, other) && id in s.db.schedules
    ensures FireCut(s, other, 1).schedules == s.db.schedules && id in FireCut(s, other, 2).schedules
    ensures RowMoves(s.db, id, FireCut(s, other, 2).schedules[id], s.now)
    ensures FireCut(s, other, 2).schedules[id] != s.db.schedules[id] ==>
              other == id && FireCut(s, other, 2).schedules[id].status.Sending?
  {
    hide HasLiveJob, Sched.Settled;
  }

  lemma TurnKeepsSchedules(s: State, cut: nat)
    requires s.proc.Some?
    ensures ApplyTurn(s).db.schedules == s.db.schedules
    ensures NextStart(s).Some? && NextStart(s).value < |s.db.items| && cut < 5 ==>
              StartTrace(s.db, NextStart(s).value, WORKER, s.now)[cut].schedules == s.db.schedules
  {
  }

  lemma WritesKeepSchedules(db: Db, j: nat, key: Option<string>, drafts: seq<Draft>, now: int)
    ensures PauseJob(db, j).schedules == ResumeJob(db, j).schedules == db.schedules
    ensures CancelTrace(db, j, now)[0].schedules == CancelTrace(db, j, now)[1].schedules == db.schedules
    ensures CreateJob(db, key, None, drafts, now).0.schedules == RecoverRows(db, now).schedules == db.schedules
  {
  }

  /** A row moves in one of the three ways: it is marked as sending by its own fire only, and settled only as its job
      gets its verdict. Only its owner's action creates or deletes one, and a deleted schedule stays deleted. */
  ghost predicate RowStep(s: State, t: State, a: Action, id: string)
  {
    && (id in s.h.first ==> id in t.h.first && (id in t.db.schedules ==> id in s.db.schedules))
    && (id in s.db.schedules && id in t.db.schedules ==>
          var before, row := s.db.schedules[id], t.db.schedules[id];
          && RowMoves(s.db, id, row, s.now)
          && (row != before && row.status.Sending? ==> s.proc.Some? && a == Fire(id) && CanFire(s, id))
          && (row != before && !row.status.Sending? ==> JustGotVerdict(s.db, t.db, id)))
    && (id in t.db.schedules && id !in s.db.schedules ==> a.AddSchedule? && t.db.schedules[id].status.Scheduled?)
    && (id in s.db.schedules && a != RemoveSchedule(id) ==> id in t.db.schedules)
  }

  lemma SameRowsStep(s: State, t: State, a: Action, id: string)
    requires (id in s.h.first ==> id in t.h.first) && t.db.schedules == s.db.schedules
    ensures RowStep(s, t, a, id)
  {
    hide RowMoves, JustGotVerdict;
    if id in s.db.schedules { MovesNowhere(s.db, id, s.now); }
  }

  lemma TurnRowStep(s: State, a: Action, id: string)
    requires s.proc.Some? && (a.WorkerTurn? || a.CrashInTurn?)
    ensures RowStep(s, Apply(s, a), a, id)
  {
    TurnKeepsSchedules(s, if a.CrashInTurn? && 1 <= a.cut <= 5 then a.cut - 1 else 0);
    hide StartTrace, Turn, RowStep;
    SameRowsStep(s, Apply(s, a), a, id);
  }

  lemma FinishRowStep(s: State, a: Action, id: string)
    requires Inv(s) && s.proc.Some? && (a.Finish? || a.CrashInFinish?)
    ensures RowStep(s, Apply(s, a), a, id)
  {
    hide Inv, RowMoves, FinishCut, JustGotVerdict;
    var cut := if a.CrashInFinish? then a.cut else 5;
    if CanFinish(s, a.item) && 1 <= cut <= 5 {
      FinishActionMovesRow(s, a.item, a.result, a.draw, cut, id);
    } else {
      SameRowsStep(s, s, a, id);
    }
  }

  lemma FireRowStep(s: State, a: Action, id: string)
    requires s.proc.Some? && (a.Fire? || a.CrashInFire?)
    ensures RowStep(s, Apply(s, a), a, id)
  {
    hide RowMoves, FireCut, JustGotVerdict;
    if CanFire(s, a.id) {
      FireAddsNone(s, a.id);
      if id in s.db.schedules {
        FireMovesRow(s, a.id, id);
        MovesNowhere(s.db, id, s.now);
      }
    } else {
      SameRowsStep(s, s, a, id);
    }
  }

  lemma OwnerRowStep(s: State, a: Action, id: string)
    requires Inv(s) && s.proc.Some? && (a.AddSchedule? || a.RemoveSchedule?)
    ensures RowStep(s, Apply(s, a), a, id)
  {
    hide Inv, RowMoves, Sched.NewSchedule, ScheduleOk, JustGotVerdict;
    if id in s.db.schedules { ScheduleIsKnown(s, id); }
    if a.AddSchedule? { NewScheduleIsOk(a.recipients, a.message, a.runAt, a.repeat); }
    if id in s.db.schedules { MovesNowhere(s.db, id, s.now); }
  }

  lemma JobRowStep(s: State, a: Action, id: string)
    requires s.proc.Some? && (a.Enqueue? || a.CancelJob? || a.Pause? || a.Resume? || a.CrashInCancel?)
    ensures RowStep(s, Apply(s, a), a, id)
  {
    WritesKeepSchedules(s.db, if a.Enqueue? then 0 else a.job, if a.Enqueue? then a.key else None,
                        if a.Enqueue? then a.drafts else [], s.now);
    hide RowStep, CancelTrace, PauseJob, ResumeJob, CreateJob, RecoverRows;
    SameRowsStep(s, Apply(s, a), a, id);
  }

  lemma PlainRowStep(s: State, a: Action, id: string)
    requires s.proc.Some? ==> a.Elapse? || a.SetKillSwitch? || a.Drain? || a.Crash? || a.Restart?
    ensures RowStep(s, Apply(s, a), a, id)
  {
    WritesKeepSchedules(s.db, 0, None, [], s.now);
    hide RowStep, RecoverRows;
    SameRowsStep(s, Apply(s, a), a, id);
  }

  /** What a single action does to a schedule row. */
  lemma ActionMovesRow(s: State, a: Action, id: string)
    requires Inv(s)
    ensures RowStep(s, Apply(s, a), a, id)
  {
    hide *;
    if s.proc.None? {
      PlainRowStep(s, a, id);
    } else {
      match a
      case WorkerTurn => TurnRowStep(s, a, id);
      case CrashInTurn(_) => TurnRowStep(s, a, id);
      case Finish(_, _, _) => FinishRowStep(s, a, id);
      case CrashInFinish(_, _, _, _) => FinishRowStep(s, a, id);
      case Fire(_) => FireRowStep(s, a, id);
      case CrashInFire(_) => FireRowStep(s, a, id);
      case AddSchedule(_, _, _, _, _) => OwnerRowStep(s, a, id);
      case RemoveSchedule(_) => OwnerRowStep(s, a, id);
      case Enqueue(_, _) => JobRowStep(s, a, id);
      case CancelJob(_) => JobRowStep(s, a, id);
      case Pause(_) => JobRowStep(s, a, id);
      case Resume(_) => JobRowStep(s, a, id);
      case CrashInCancel(_) => JobRowStep(s, a, id);
      case _ => PlainRowStep(s, a, id);
    }
  }

  lemma FireAddsNone(s: State, other: string)
    requires CanFire(s, other)
    ensures FireCut(s, other, 1).schedules.Keys == FireCut(s, other, 2).schedules.Keys == s.db.schedules.Keys
  {
  }

  lemma FinishActionMovesRow(s: State, i: nat, r: SendResult, draw: Draw, cut: nat, id: string)
    requires Inv(s) && CanFinish(s, i) && 1 <= cut <= 5
    ensures id in FinishCut(s, i, r, draw, cut).schedules <==> id in s.db.schedules
    ensures id in s.db.schedules ==>
              var row := FinishCut(s, i, r, draw, cut).schedules[id];
              && RowMoves(s.db, id, row, s.now)
              && (row != s.db.schedules[id] ==>
                    !row.status.Sending? && JustGotVerdict(s.db, FinishCut(s, i, r, draw, cut), id))
  {
    InvInFlight(s, i);
    hide Inv, Safe, InFlightOk, RowMoves, FinishTrace, JustGotVerdict;
    FinishKeepsKeys(s.db, i, s.proc.value.inFlight[i], r, s.now, draw, cut - 1);
    if id in s.db.schedules {
      FinishMovesRow(s.db, s.h, i, s.proc.value.inFlight[i], r, s.now, draw, cut - 1, id);
    }
  }

  lemma FinishKeepsKeys(db: Db, i: nat, n: nat, r: SendResult, now: int, draw: Draw, cut: nat)
    requires i < |db.items| && cut < 5
    ensures FinishTrace(db, i, n, r, now, draw)[cut].schedules.Keys == db.schedules.Keys
  {
    SchedulesUntilTail(db, i, n, r, now, draw, cut);
    TraceTail(db, i, n, r, now, draw);
    hide FinishTrace;
    var trace, j := FinishTrace(db, i, n, r, now, draw), db.items[i].job;
    OnSettledKeepsKeys(trace[2], j, now);
  }

  lemma OnSettledKeepsKeys(db: Db, j: nat, now: int)
    ensures Settle(db, j, now).schedules.Keys == Sched.OnSettled(Settle(db, j, now), j, now).schedules.Keys
            == db.schedules.Keys
  {
  }

  /** Over any run next_run_at of a schedule never moves back; a single action leaves it or moves it strictly
      forward, behind the clock. */
  lemma {:induction false} NextRunNeverMovesBack(s: State, actions: seq<Action>, id: string)
    requires Inv(s) && id in s.h.first
    ensures id in Run(s, actions).h.first
    ensures id in Run(s, actions).db.schedules ==>
              id in s.db.schedules && s.db.schedules[id].nextRunAt <= Run(s, actions).db.schedules[id].nextRunAt
  {
    hide Inv, Apply;
    if actions != [] {
      var init, a := actions[..|actions| - 1], actions[|actions| - 1];
      NextRunNeverMovesBack(s, init, id);
      RunKeepsInv(s, init);
      ActionAdvancesRun(Run(s, init), a, id);
    }
  }

  lemma ActionAdvancesRun(s: State, a: Action, id: string)
    requires Inv(s) && id in s.h.first
    ensures var t := Apply(s, a);
            && id in t.h.first
            && (id in t.db.schedules ==>
                  && id in s.db.schedules
                  && var before, after := s.db.schedules[id].nextRunAt, t.db.schedules[id].nextRunAt;
                     after == before || (after > before && after > s.now))
  {
    ActionMovesRow(s, a, id);
    var t := Apply(s, a);
    if id in t.db.schedules {
      var row := t.db.schedules[id];
      assert ScheduleOk(s.db.schedules[id], s.h.first[id]);
      if row.lastResult.Some? {
        SettledStaysOk(s.db.schedules[id], s.h.first[id], row.lastResult.value, s.now);
      }
    }
  }
}
