/** One process running scheduler and worker over the tables, as a state machine. Actions are the atomic segments
    of the single-threaded process; a crash may fall between any two autocommitted statements of a segment. */
module Engine {
  import opened Wrappers
  import opened ErrorClassifier
  import opened Retry
  import opened Sequences
  import opened OccurrenceKeys
  import opened Tables
  import opened JobService
  import opened Claiming
  import opened Worker
  import Sched = Scheduler

  /** Bookkeeping about the run that no code reads. Per item: calls of the transport, recoveries, and attempt rows
      whose count update a crash cut off. Per job: completions reported, and the occurrence it was created for.
      `first` keeps the first run time of every schedule ever created. */
  datatype History = History(sends: seq<nat>, recoveries: seq<nat>, torn: seq<nat>,
                             settles: seq<nat>, occurrence: seq<Option<int>>,
                             first: map<string, int>, crashes: nat)

  /** `proc` is None between a crash and the next start. */
  datatype State = State(db: Db, proc: Option<Proc>, limit: nat, now: int, disabled: bool, h: History)

  datatype Action =
    | Elapse(ms: nat)
    | SetKillSwitch(disabled: bool)
    | WorkerTurn
    | Finish(item: nat, result: SendResult, draw: Draw)
    | Enqueue(key: Option<string>, drafts: seq<Draft>)
    | Fire(id: string)
    | AddSchedule(id: string, recipients: seq<Recipient>, message: string, runAt: Option<int>,
                  repeat: Option<Sched.RepeatRequest>)
    | RemoveSchedule(id: string)
    | CancelJob(job: nat)
    | Pause(job: nat)
    | Resume(job: nat)
    | Drain
    | Crash
    | CrashInTurn(cut: nat)
    | CrashInFinish(item: nat, result: SendResult, draw: Draw, cut: nat)
    | CrashInFire(id: string)
    | CrashInCancel(job: nat)
    | Restart

  const WORKER: string := "worker"

  function Init(limit: nat, now: int): State
  {
    State(Db([], [], [], map[]), Some(NewProc()), limit, now, false, History([], [], [], [], [], map[], 0))
  }

  function Crashed(s: State, db: Db, h: History): State
  {
    s.(db := db, proc := None, h := h.(crashes := h.crashes + 1))
  }

  /** History once the first `cut` statements of a turn on item `i` are done; beyond the last one the send is out. */
  function HistoryInTurn(h: History, i: nat, cut: nat): History
  {
    if cut == 4 then h.(torn := Inc(h.torn, i))
    else if cut > 5 then h.(sends := Inc(h.sends, i)) else h
  }

  /** The completion check reports once its update is done. */
  function HistoryInFinish(h: History, before: Db, j: nat, cut: nat): History
  {
    if cut >= 4 && Settles(before, j) then h.(settles := Inc(h.settles, j)) else h
  }

  function HistoryOfNewJob(h: History, items: nat, at: Option<int>): History
  {
    h.(sends := h.sends + seq(items, _ => 0), recoveries := h.recoveries + seq(items, _ => 0),
       torn := h.torn + seq(items, _ => 0), settles := h.settles + [0], occurrence := h.occurrence + [at])
  }

  /** The item the next turn of the claim loop starts, if it gets that far. */
  function NextStart(s: State): Option<nat>
    requires s.proc.Some?
  {
    if s.proc.value.draining || s.disabled then None else Turn(s.db, s.proc.value, s.limit, WORKER, s.now).2
  }

  function ApplyTurn(s: State): State
    requires s.proc.Some?
  {
    if s.proc.value.draining || s.disabled then s
    else
      var (db, p, claimed) := Turn(s.db, s.proc.value, s.limit, WORKER, s.now);
      s.(db := db, proc := Some(p), h := if claimed.Some? then HistoryInTurn(s.h, claimed.value, 6) else s.h)
  }

  predicate CanFinish(s: State, i: nat)
  {
    s.proc.Some? && i in s.proc.value.inFlight && i < |s.db.items|
  }

  /** Tables after the first `cut` statements of finishing item `i`. */
  function FinishCut(s: State, i: nat, r: SendResult, draw: Draw, cut: nat): Db
    requires CanFinish(s, i) && 1 <= cut <= 5
  {
    FinishTrace(s.db, i, s.proc.value.inFlight[i], r, s.now, draw)[cut - 1]
  }

  function FinishHistory(s: State, i: nat, r: SendResult, draw: Draw, cut: nat): History
    requires CanFinish(s, i) && 1 <= cut <= 5
  {
    HistoryInFinish(s.h, FinishCut(s, i, r, draw, 3), s.db.items[i].job, cut)
  }

  function ApplyFinish(s: State, i: nat, r: SendResult, draw: Draw): State
    requires CanFinish(s, i)
  {
    s.(db := FinishCut(s, i, r, draw, 5), proc := Some(ProcAfterFinish(s.proc.value, i, r, s.now)),
       h := FinishHistory(s, i, r, draw, 5))
  }

  /** Only the scheduler uses keys that look like an occurrence's. */
  function ApplyEnqueue(s: State, key: Option<string>, drafts: seq<Draft>): State
  {
    if key.Some? && IsOccurrenceLike(key.value) then s
    else
      var (db, r) := CreateJob(s.db, key, None, drafts, s.now);
      s.(db := db, h := if r.Success? && r.value.1 then HistoryOfNewJob(s.h, |drafts|, None) else s.h)
  }

  predicate CanFire(s: State, id: string)
  {
    id in s.db.schedules && Sched.IsDue(s.db.schedules[id], s.now)
  }

  function FireHistory(s: State, id: string): History
    requires CanFire(s, id)
  {
    var row := s.db.schedules[id];
    if FindByKey(s.db.jobs, OccurrenceKey(id, row.nextRunAt)).Some? then s.h
    else HistoryOfNewJob(s.h, |row.recipients|, Some(row.nextRunAt))
  }

  function FireCut(s: State, id: string, cut: nat): Db
    requires CanFire(s, id) && 1 <= cut <= 2
  {
    Sched.FireTrace(s.db, id, s.db.schedules[id], s.now)[cut - 1]
  }

  /** A UUID is never handed out twice. */
  function ApplyAddSchedule(s: State, id: string, created: Result<Schedule, Sched.ScheduleError>): State
  {
    if id in s.h.first || created.Failure? then s
    else s.(db := Sched.PutSchedule(s.db, id, created.value),
            h := s.h.(first := s.h.first[id := created.value.nextRunAt]))
  }

  function ApplyRestart(s: State): State
  {
    s.(db := RecoverRows(s.db, s.now), proc := Some(NewProc()),
       h := s.h.(recoveries := seq(|s.h.recoveries|, k requires 0 <= k < |s.h.recoveries| =>
                   if k < |s.db.items| && IsStale(s.db.items[k], s.now) then s.h.recoveries[k] + 1
                       else s.h.recoveries[k])))
  }

  /** A disabled action changes nothing, so every action sequence is a run. */
  function Apply(s: State, a: Action): State
  {
    if a.Elapse? then s.(now := s.now + a.ms)
    else if s.proc.None? then (if a.Restart? then ApplyRestart(s) else s)
    else
      match a
      case SetKillSwitch(d) => s.(disabled := d)
      case WorkerTurn => ApplyTurn(s)
      case Finish(i, r, draw) => if CanFinish(s, i) then ApplyFinish(s, i, r, draw) else s
      case Enqueue(key, drafts) => ApplyEnqueue(s, key, drafts)
      case Fire(id) => if CanFire(s, id) then s.(db := FireCut(s, id, 2), h := FireHistory(s, id)) else s
      case AddSchedule(id, rs, m, at, rep) => ApplyAddSchedule(s, id, Sched.NewSchedule(rs, m, at, rep))
      case RemoveSchedule(id) => s.(db := Sched.DeleteSchedule(s.db, id))
      case CancelJob(j) => s.(db := CancelTrace(s.db, j, s.now)[1])
      case Pause(j) => s.(db := PauseJob(s.db, j))
      case Resume(j) => s.(db := ResumeJob(s.db, j))
      case Drain => s.(proc := Some(s.proc.value.(draining := true)))
      case Crash => Crashed(s, s.db, s.h)
      case CrashInTurn(cut) =>
        var i := NextStart(s);
        if i.Some? && i.value < |s.db.items| && 1 <= cut <= 5 then
          Crashed(s, StartTrace(s.db, i.value, WORKER, s.now)[cut - 1], HistoryInTurn(s.h, i.value, cut))
        else s
      case CrashInFinish(i, r, draw, cut) =>
        if CanFinish(s, i) && 1 <= cut <= 5 then
          Crashed(s, FinishCut(s, i, r, draw, cut), FinishHistory(s, i, r, draw, cut))
        else s
      case CrashInFire(id) => if CanFire(s, id) then Crashed(s, FireCut(s, id, 1), FireHistory(s, id)) else s
      case CrashInCancel(j) => Crashed(s, CancelTrace(s.db, j, s.now)[0], s.h)
      case _ => s
  }

  function Run(s: State, actions: seq<Action>): State
  {
    if actions == [] then s else Apply(Run(s, actions[..|actions| - 1]), actions[|actions| - 1])
  }

  lemma {:induction false} RunConcat(s: State, a: seq<Action>, b: seq<Action>)
    ensures Run(s, a + b) == Run(Run(s, a), b)
  {
    if b == [] {
      assert a + b == a;
    } else {
      assert (a + b)[..|a + b| - 1] == a + b[..|b| - 1];
      RunConcat(s, a, b[..|b| - 1]);
    }
  }

  lemma RunOne(s: State, a: Action)
    ensures Run(s, [a]) == Apply(s, a)
  {
    assert [a][..0] == [];
  }

  lemma RunTwo(s: State, a: Action, b: Action)
    ensures Run(s, [a, b]) == Apply(Apply(s, a), b)
  {
    hide Apply;
    assert [a, b] == [a] + [b];
    RunOne(s, a);
    RunConcat(s, [a], [b]);
    RunOne(Apply(s, a), b);
  }

  lemma RunThree(s: State, a: Action, b: Action, c: Action)
    ensures Run(s, [a, b, c]) == Apply(Apply(Apply(s, a), b), c)
  {
    hide Apply;
    assert [a, b, c] == [a] + [b] + [c];
    RunOne(s, a);
    RunConcat(s, [a], [b]);
    RunOne(Apply(s, a), b);
    RunConcat(s, [a] + [b], [c]);
    RunOne(Apply(Apply(s, a), b), c);
  }
}
