/** Rows only move forward: what every action, and so every run, leaves alone. */
module Evolution {
  import opened Wrappers
  import opened ErrorClassifier
  import opened Retry
  import opened Tables
  import opened JobService
  import opened Claiming
  import opened Worker
  import opened Engine
  import opened Invariant
  import opened Frames
  import opened TurnStep
  import opened FinishStep
  import opened FinishMemory
  import opened OtherSteps
  import OccurrenceKeys
  import Sched = Scheduler

  // ---- The invariant over all runs ----

  lemma ApplyKeepsInv(s: State, a: Action)
    requires Inv(s)
    ensures Inv(Apply(s, a))
  {
    hide Inv, ApplyTurn, ApplyFinish, ApplyEnqueue, ApplyAddSchedule, ApplyRestart, Crashed, FinishCut, FinishHistory,
         FireCut, FireHistory, CancelTrace, StartTrace, HistoryInTurn, PauseJob, ResumeJob, Sched.NewSchedule, Turn,
             NextStart;
    if a.Elapse? {
      ElapseKeepsInv(s, a.ms);
    } else if s.proc.None? {
      if a.Restart? { RestartKeepsInv(s); }
    } else {
      match a
      case SetKillSwitch(d) => SwitchesKeepInv(s, d);
      case Drain => SwitchesKeepInv(s, s.disabled);
      case WorkerTurn => TurnKeepsInv(s);
      case Finish(i, r, draw) => if CanFinish(s, i) { FinishKeepsInv(s, i, r, draw); }
      case Enqueue(key, drafts) => EnqueueKeepsInv(s, key, drafts);
      case Fire(id) => if CanFire(s, id) { FireKeepsInv(s, id); }
      case AddSchedule(id, rs, m, at, rep) =>
        NewScheduleIsOk(rs, m, at, rep);
        AddScheduleKeepsInv(s, id, Sched.NewSchedule(rs, m, at, rep));
      case RemoveSchedule(id) => RemoveScheduleKeepsInv(s, id);
      case CancelJob(j) => CancelKeepsInv(s, j);
      case Pause(j) => PauseKeepsInv(s, j);
      case Resume(j) => PauseKeepsInv(s, j);
      case Crash => PlainCrashKeepsInv(s);
      case CrashInTurn(cut) =>
        if NextStart(s).Some? && 1 <= cut <= 5 { CrashInTurnKeepsInv(s, cut); }
      case CrashInFinish(i, r, draw, cut) =>
        if CanFinish(s, i) && 1 <= cut <= 5 { CrashInFinishKeepsInv(s, i, r, draw, cut); }
      case CrashInFire(id) => if CanFire(s, id) { CrashInFireKeepsInv(s, id); }
      case CrashInCancel(j) => CancelKeepsInv(s, j);
      case _ =>
    }
  }

  lemma SwitchesKeepInv(s: State, disabled: bool)
    requires Inv(s) && s.proc.Some?
    ensures Inv(s.(disabled := disabled)) && Inv(s.(proc := Some(s.proc.value.(draining := true))))
  {
    hide Safe, MemoryOk, Clean;
    var p, q := s.proc.value, s.proc.value.(draining := true);
    DrainingChangesNoMemory(s.db, p, q, s.limit);
    if s.h.crashes == 0 {
      CleanReadsInFlightOnly(s.db, s.h, p, q);
    }
    assert Inv(s.(proc := Some(q)));
  }

  lemma DrainingChangesNoMemory(db: Db, p: Proc, q: Proc, limit: nat)
    requires MemoryOk(db, p, limit) && q == p.(draining := q.draining)
    ensures MemoryOk(db, q, limit)
  {
    hide InFlightOk;
    assert q.inFlight == p.inFlight;
  }

  lemma PauseKeepsInv(s: State, j: nat)
    requires Inv(s)
    ensures Inv(s.(db := PauseJob(s.db, j))) && Inv(s.(db := ResumeJob(s.db, j)))
  {
    hide Inv;
    if j < |s.db.jobs| {
      var st := s.db.jobs[j].status;
      if st.QUEUED? || st.RUNNING? { SetLiveStatusKeepsInv(s, j, PAUSED); }
      if st.PAUSED? { SetLiveStatusKeepsInv(s, j, QUEUED); }
    }
  }

  lemma PlainCrashKeepsInv(s: State)
    requires Inv(s)
    ensures Inv(Crashed(s, s.db, s.h))
  {
    CrashKeepsInv(s, s.db, s.h);
  }

  lemma CrashInFireKeepsInv(s: State, id: string)
    requires Inv(s) && CanFire(s, id)
    ensures Inv(Crashed(s, FireCut(s, id, 1), FireHistory(s, id)))
  {
    FireCreates(s, id);
    CrashKeepsInv(s, FireCut(s, id, 1), FireHistory(s, id));
  }

  lemma InitIsInv(limit: nat, now: int)
    ensures Inv(Init(limit, now))
  {
  }

  lemma {:induction false} RunKeepsInv(s: State, actions: seq<Action>)
    requires Inv(s)
    ensures Inv(Run(s, actions))
  {
    hide Inv, Apply;
    if actions != [] {
      RunKeepsInv(s, actions[..|actions| - 1]);
      ApplyKeepsInv(Run(s, actions[..|actions| - 1]), actions[|actions| - 1]);
    }
  }

  /** Every reachable state, crashes at every statement included, satisfies the invariant. */
  lemma ReachableStatesAreInv(limit: nat, start: int, actions: seq<Action>)
    ensures Inv(Run(Init(limit, start), actions))
  {
    InitIsInv(limit, start);
    RunKeepsInv(Init(limit, start), actions);
  }

  // ---- Forward only ----

  /** No row disappears; settled items and terminal jobs keep their rows' meaning; attempt counts never drop. */
  ghost predicate Evolves(a: Db, b: Db)
  {
    && |a.items| <= |b.items| && |a.jobs| <= |b.jobs|
    && (forall i {:trigger b.items[i]} {:trigger a.items[i]} :: 0 <= i < |a.items| ==>
          && SameIdentity(a.items[i], b.items[i]) && a.items[i].attemptCount <= b.items[i].attemptCount
          && (IsSettledItem(a.items[i].status) ==> b.items[i] == a.items[i]))
    && (forall j {:trigger b.jobs[j]} {:trigger a.jobs[j]} :: 0 <= j < |a.jobs| ==>
          && b.jobs[j].total == a.jobs[j].total && b.jobs[j].key == a.jobs[j].key
          && b.jobs[j].source == a.jobs[j].source
          && (IsTerminalJob(a.jobs[j].status) ==>
                b.jobs[j].status == a.jobs[j].status && b.jobs[j].completedAt == a.jobs[j].completedAt))
  }

  lemma EvolvesTransitively(a: Db, b: Db, c: Db)
    requires Evolves(a, b) && Evolves(b, c)
    ensures Evolves(a, c)
  {
    forall i | 0 <= i < |a.items|
      ensures SameIdentity(a.items[i], c.items[i]) && a.items[i].attemptCount <= c.items[i].attemptCount
      ensures IsSettledItem(a.items[i].status) ==> c.items[i] == a.items[i]
    {
      var _ := b.items[i];
    }
    forall j | 0 <= j < |a.jobs|
      ensures c.jobs[j].total == a.jobs[j].total && c.jobs[j].key == a.jobs[j].key
              && c.jobs[j].source == a.jobs[j].source
      ensures IsTerminalJob(a.jobs[j].status) ==>
                c.jobs[j].status == a.jobs[j].status && c.jobs[j].completedAt == a.jobs[j].completedAt
    {
      var _ := b.jobs[j];
    }
  }

  lemma StartEvolves(db: Db, i: nat, who: string, now: int, cut: nat)
    requires i < |db.items| && db.items[i].status.Queued? && cut < 5
    ensures Evolves(db, StartTrace(db, i, who, now)[cut])
  {
    var d := StartTrace(db, i, who, now)[cut];
    assert |d.jobs| == |db.jobs| && forall j :: 0 <= j < |db.jobs| ==>
      d.jobs[j] == db.jobs[j] || (db.jobs[j].status.QUEUED? && d.jobs[j] == db.jobs[j].(status := RUNNING));
    assert |d.items| == |db.items| && d.items == db.items[i := d.items[i]];
    hide StartTrace;
  }

  lemma ItemPartEvolves(db: Db, i: nat, n: nat, r: SendResult, now: int, draw: Draw, cut: nat)
    requires i < |db.items| && !IsSettledItem(db.items[i].status) && cut < 3
    ensures Evolves(db, FinishTrace(db, i, n, r, now, draw)[cut])
  {
    hide Settle, Settles, Sched.OnSettled;
    RouteIsSetItem(FinishAttempt(db, i, n, r), i, n, r, now, draw);
  }

  lemma TailEvolves(db: Db, j: nat, now: int)
    ensures Evolves(db, Settle(db, j, now)) && Evolves(db, Sched.OnSettled(Settle(db, j, now), j, now))
  {
  }

  lemma FinishEvolves(db: Db, i: nat, n: nat, r: SendResult, now: int, draw: Draw, cut: nat)
    requires i < |db.items| && !IsSettledItem(db.items[i].status) && cut < 5
    ensures Evolves(db, FinishTrace(db, i, n, r, now, draw)[cut])
  {
    hide *;
    if cut < 3 {
      ItemPartEvolves(db, i, n, r, now, draw, cut);
    } else {
      var trace := FinishTrace(db, i, n, r, now, draw);
      ItemPartEvolves(db, i, n, r, now, draw, 2);
      TraceTail(db, i, n, r, now, draw);
      TailEvolves(trace[2], db.items[i].job, now);
      EvolvesTransitively(db, trace[2], trace[3]);
      EvolvesTransitively(db, trace[2], trace[4]);
    }
  }

  lemma CreateEvolves(db: Db, key: Option<string>, source: Option<string>, drafts: seq<Draft>, now: int)
    ensures Evolves(db, CreateJob(db, key, source, drafts, now).0)
  {
  }

  lemma FireEvolves(s: State, id: string)
    requires CanFire(s, id)
    ensures Evolves(s.db, FireCut(s, id, 1)) && Evolves(s.db, FireCut(s, id, 2))
  {
    hide CreateJob, Evolves;
    var row := s.db.schedules[id];
    CreateEvolves(s.db, Some(OccurrenceKeys.OccurrenceKey(id, row.nextRunAt)), Some(id), Sched.Drafts(row), s.now);
    MarkingEvolves(s.db, FireCut(s, id, 1), id);
  }

  lemma MarkingEvolves(a: Db, b: Db, id: string)
    requires Evolves(a, b)
    ensures Evolves(a, Sched.MarkSending(b, id))
  {
  }

  lemma CancelEvolves(db: Db, j: nat, now: int)
    ensures Evolves(db, CancelTrace(db, j, now)[0]) && Evolves(db, CancelTrace(db, j, now)[1])
  {
  }

  lemma InFlightIsOpen(s: State, i: nat)
    requires Inv(s) && CanFinish(s, i)
    ensures !IsSettledItem(s.db.items[i].status) && i < |s.db.items|
  {
    assert InFlightOk(s.db, i, s.proc.value.inFlight[i]);
  }

  lemma RestartEvolves(s: State)
    ensures Evolves(s.db, ApplyRestart(s).db)
  {
  }

  lemma SmallWritesEvolve(db: Db, j: nat, id: string, s: Schedule)
    ensures Evolves(db, PauseJob(db, j)) && Evolves(db, ResumeJob(db, j))
    ensures Evolves(db, Sched.PutSchedule(db, id, s)) && Evolves(db, Sched.DeleteSchedule(db, id)) && Evolves(db, db)
  {
  }

  lemma ApplyEvolves(s: State, a: Action)
    requires Inv(s)
    ensures Evolves(s.db, Apply(s, a).db)
  {
    hide Inv, Evolves, CancelTrace, StartTrace, PauseJob, ResumeJob, Sched.NewSchedule, FinishTrace, CreateJob,
         RecoverRows, FireCut,
         FinishHistory, FireHistory, HistoryInTurn, Turn;
    SmallWritesEvolve(s.db, 0, "", Schedule([], "", None, Done, 0, None, None));
    if s.proc.None? {
      RestartEvolves(s);
    } else {
      match a
      case WorkerTurn => TurnEvolves(s);
      case Finish(i, r, draw) =>
        if CanFinish(s, i) {
          InFlightIsOpen(s, i);
          FinishEvolves(s.db, i, s.proc.value.inFlight[i], r, s.now, draw, 4);
        }
      case Enqueue(key, drafts) => CreateEvolves(s.db, key, None, drafts, s.now);
      case Fire(id) => if CanFire(s, id) { FireEvolves(s, id); }
      case AddSchedule(id, rs, m, at, rep) =>
        var created := Sched.NewSchedule(rs, m, at, rep);
        if created.Success? { SmallWritesEvolve(s.db, 0, id, created.value); }
      case RemoveSchedule(id) => SmallWritesEvolve(s.db, 0, id, Schedule([], "", None, Done, 0, None, None));
      case CancelJob(j) => CancelEvolves(s.db, j, s.now);
      case Pause(j) => SmallWritesEvolve(s.db, j, "", Schedule([], "", None, Done, 0, None, None));
      case Resume(j) => SmallWritesEvolve(s.db, j, "", Schedule([], "", None, Done, 0, None, None));
      case CrashInTurn(cut) =>
        NextStartIsQueued(s);
        if NextStart(s).Some? && 1 <= cut <= 5 { StartEvolves(s.db, NextStart(s).value, WORKER, s.now, cut - 1); }
      case CrashInFinish(i, r, draw, cut) =>
        if CanFinish(s, i) && 1 <= cut <= 5 {
          InFlightIsOpen(s, i);
          FinishEvolves(s.db, i, s.proc.value.inFlight[i], r, s.now, draw, cut - 1);
        }
      case CrashInFire(id) => if CanFire(s, id) { FireEvolves(s, id); }
      case CrashInCancel(j) => CancelEvolves(s.db, j, s.now);
      case _ =>
    }
  }

  lemma NextStartIsQueued(s: State)
    requires s.proc.Some?
    ensures NextStart(s).Some? ==> NextStart(s).value < |s.db.items| && s.db.items[NextStart(s).value].status.Queued?
  {
  }

  lemma TurnEvolves(s: State)
    requires s.proc.Some?
    ensures Evolves(s.db, ApplyTurn(s).db)
  {
    hide Evolves, StartTrace;
    SmallWritesEvolve(s.db, 0, "", Schedule([], "", None, Done, 0, None, None));
    var claimed := Turn(s.db, s.proc.value, s.limit, WORKER, s.now).2;
    if claimed.Some? {
      StartEvolves(s.db, claimed.value, WORKER, s.now, 4);
    }
  }

  /** Over any run, late finishes after a cancel and crashes included: a terminal job keeps its status, a succeeded,
      failed or skipped item never changes, no row is lost and no attempt count drops. */
  lemma {:induction false} RunsOnlyMoveForward(s: State, actions: seq<Action>)
    requires Inv(s)
    ensures Evolves(s.db, Run(s, actions).db)
  {
    hide Inv, Apply, Evolves;
    if actions == [] {
      SmallWritesEvolve(s.db, 0, "", Schedule([], "", None, Done, 0, None, None));
    } else {
      var init := actions[..|actions| - 1];
      RunsOnlyMoveForward(s, init);
      RunKeepsInv(s, init);
      ApplyEvolves(Run(s, init), actions[|actions| - 1]);
      EvolvesTransitively(s.db, Run(s, init).db, Run(s, actions).db);
    }
  }
}
