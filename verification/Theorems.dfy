/** What the engine guarantees in every reachable state and over every run. */
module Theorems {
  import opened Wrappers
  import opened ErrorClassifier
  import opened CircuitBreaker
  import opened Retry
  import opened Sequences
  import opened OccurrenceKeys
  import opened Tables
  import opened JobService
  import opened Worker
  import opened Engine
  import opened Invariant
  import opened Frames
  import opened FinishStep
  import opened FinishMemory
  import opened Evolution
  import Sched = Scheduler

  ghost predicate Reachable(s: State)
  {
    exists limit: nat, start: int, actions: seq<Action> :: s == Run(Init(limit, start), actions)
  }

  lemma ReachableIsInv(s: State)
    requires Reachable(s)
    ensures Inv(s)
  {
    var limit: nat, start: int, actions: seq<Action> :| s == Run(Init(limit, start), actions);
    ReachableStatesAreInv(limit, start, actions);
  }

  // ---- Bounded sends ----

  /** At most MAX_ATTEMPTS sends of one item, plus one per recovery. */
  lemma SendsAreBounded(s: State, i: nat)
    requires Reachable(s) && i < |s.db.items|
    ensures |s.h.sends| == |s.h.recoveries| == |s.db.items|
    ensures s.h.sends[i] <= s.db.items[i].attemptCount <= MAX_ATTEMPTS + s.h.recoveries[i]
  {
    ReachableIsInv(s);
    ItemFacts(s.db, s.h, i, s.now);
  }

  function Total(values: seq<nat>, rows: seq<nat>): nat
    requires forall k :: k in rows ==> k < |values|
  {
    if rows == [] then 0
    else
      assert rows[0] in rows && forall k :: k in rows[1..] ==> k in rows;
      values[rows[0]] + Total(values, rows[1..])
  }

  lemma {:induction false} TotalBound(sends: seq<nat>, recoveries: seq<nat>, rows: seq<nat>)
    requires |sends| == |recoveries|
    requires forall k :: k in rows ==> k < |sends| && sends[k] <= MAX_ATTEMPTS + recoveries[k]
    ensures Total(sends, rows) <= MAX_ATTEMPTS * |rows| + Total(recoveries, rows)
  {
    if rows != [] {
      assert rows[0] in rows;
      forall k | k in rows[1..] ensures k < |sends| && sends[k] <= MAX_ATTEMPTS + recoveries[k] {
        assert k in rows;
      }
      TotalBound(sends, recoveries, rows[1..]);
    }
  }

  /** A job of n items makes at most 5n sends plus one per recovery of its items. */
  lemma JobSendsAreBounded(s: State, j: nat)
    requires Reachable(s) && j < |s.db.jobs|
    ensures var rows := ItemRows(s.db.items, j);
            && |rows| == s.db.jobs[j].total
            && (forall k :: k in rows ==> k < |s.h.sends| && k < |s.h.recoveries|)
            && Total(s.h.sends, rows) <= MAX_ATTEMPTS * s.db.jobs[j].total + Total(s.h.recoveries, rows)
  {
    ReachableIsInv(s);
    JobFacts(s.db, s.h, j, s.now);
    var rows := ItemRows(s.db.items, j);
    forall k | k in rows ensures k < |s.h.sends| && s.h.sends[k] <= MAX_ATTEMPTS + s.h.recoveries[k] {
      ItemFacts(s.db, s.h, k, s.now);
    }
    TotalBound(s.h.sends, s.h.recoveries, rows);
  }

  // ---- Attempt log and lifecycles ----

  /** Attempt rows of an item are exactly 1..attempt_count, each once, iff no crash ever fell between inserting a
      row and counting it; and a failed item failed for good reason. */
  lemma AttemptLog(s: State, i: nat)
    requires Reachable(s) && i < |s.db.items|
    ensures i < |s.h.torn| && (s.h.torn[i] == 0 <==> NumbersExactly(s.db.attempts, i, s.db.items[i].attemptCount))
    ensures s.db.items[i].status.Failed? ==>
              s.db.items[i].lastCategory == Some(PERMANENT) || s.db.items[i].attemptCount >= MAX_ATTEMPTS
    ensures s.h.crashes == 0 ==> s.h.torn[i] == 0
  {
    ReachableIsInv(s);
    ItemFacts(s.db, s.h, i, s.now);
  }

  /** One row per number in 1..count and no other row. */
  ghost predicate NumbersExactly(attempts: seq<Attempt>, i: nat, count: nat)
  {
    Count(attempts, OfItem(i)) == count && NumbersExact(attempts, i, count)
  }

  // ---- Counters, verdicts, settlement ----

  /** Item rows always number `total`, in order of position; the counters never exceed the items in each status, and
      in crash-free runs equal them; the cancelled counter stays 0; a verdict says how many items succeeded. */
  lemma CountersAndVerdict(s: State, j: nat)
    requires Reachable(s) && j < |s.db.jobs|
    ensures var job, items := s.db.jobs[j], s.db.items;
            && Count(items, OfJob(j)) == job.total && RowsInOrder(items, j)
            && CountersBelow(job, items, j)
            && (s.h.crashes == 0 ==> CountersExact(job, items, j))
            && (IsVerdict(job.status) ==>
                  && (forall i :: 0 <= i < |items| && items[i].job == j ==> IsSettledItem(items[i].status))
                  && (job.status.COMPLETED? <==> Count(items, InStatus(j, Succeeded)) == job.total)
                  && (job.status.FAILED? <==> Count(items, InStatus(j, Succeeded)) == 0 && job.total > 0)
                  && (job.status.PARTIALLY_COMPLETED? <==> 0 < Count(items, InStatus(j, Succeeded)) < job.total))
  {
    ReachableIsInv(s);
    JobFacts(s.db, s.h, j, s.now);
    CountMonotoneIn(s.db.items, j);
    if s.h.crashes == 0 {
      assert CleanJob(s.db.jobs[j], s.db.items, j);
    }
  }

  lemma {:induction false} CountMonotoneIn(items: seq<Item>, j: nat)
    ensures Count(items, InStatus(j, Succeeded)) <= Count(items, OfJob(j))
  {
    if items != [] {
      CountMonotoneIn(items[..|items| - 1], j);
    }
  }

  /** checkJobCompletion reports a job at most once, and has reported it iff the job carries a verdict. In crash-free
      runs a non-empty job that was not cancelled has been reported iff none of its items is outstanding. */
  lemma SettledAtMostOnce(s: State, j: nat)
    requires Reachable(s) && j < |s.db.jobs|
    ensures j < |s.h.settles| && s.h.settles[j] <= 1
    ensures s.h.settles[j] == 1 <==> IsVerdict(s.db.jobs[j].status)
    ensures s.h.crashes == 0 && s.db.jobs[j].total > 0 && !s.db.jobs[j].status.CANCELLED? ==>
              (s.h.settles[j] == 1 <==> forall i :: 0 <= i < |s.db.items| && s.db.items[i].job == j ==>
               IsTerminalItem(s.db.items[i].status))
  {
    ReachableIsInv(s);
    JobFacts(s.db, s.h, j, s.now);
    if s.h.crashes == 0 {
      assert CleanJob(s.db.jobs[j], s.db.items, j);
      NoOpenRow(s.db.items, j);
    }
  }

  /** Only finishing an item of the job reports it, and then no item of the job is outstanding. */
  lemma SettlementComesFromAFinish(s: State, a: Action, j: nat)
    requires j < |s.db.jobs| && j < |s.h.settles|
    ensures var t := Apply(s, a);
            && j < |t.h.settles|
            && (t.h.settles[j] != s.h.settles[j] ==>
                  && (a.Finish? || a.CrashInFinish?) && CanFinish(s, a.item) && s.db.items[a.item].job == j
                  && t.h.settles[j] == s.h.settles[j] + 1)
  {
    hide Turn, StartTrace, FinishTrace, CancelTrace, CreateJob, Sched.FireTrace, Sched.NewSchedule, PauseJob,
         ResumeJob, Settles;
    if s.proc.Some? {
      match a
      case Finish(i, r, draw) =>
      case CrashInFinish(i, r, draw, cut) =>
      case _ =>
    }
  }

  // ---- Permits ----

  /** Permits taken equal items in flight, within the limit, so no release ever meets a count of zero; and the
      probe flag is up exactly while the breaker is HALF_OPEN. */
  lemma PermitBalance(s: State)
    requires Reachable(s) && s.proc.Some?
    ensures var p := s.proc.value;
            && p.active == |p.inFlight| <= s.limit
            && (forall i :: CanFinish(s, i) ==> p.active > 0)
            && ProbeMarksHalfOpen(p.breaker)
            && (forall i :: i in p.inFlight ==>
                  i < |s.db.items| && (s.db.items[i].status.Running? || s.db.items[i].status.Cancelled?))
  {
    ReachableIsInv(s);
    forall i | i in s.proc.value.inFlight
      ensures i < |s.db.items| && (s.db.items[i].status.Running? || s.db.items[i].status.Cancelled?)
    {
      assert InFlightOk(s.db, i, s.proc.value.inFlight[i]);
    }
    forall i | CanFinish(s, i) ensures s.proc.value.active > 0 {
      OneKeyLess(s.proc.value.inFlight, i);
    }
  }

  // ---- Schedules and jobs ----

  /** One job per (schedule, occurrence), even when a crash separates creation from the status update. */
  lemma OneJobPerOccurrence(s: State, j: nat, k: nat, id: string)
    requires Reachable(s) && j < |s.db.jobs| && k < |s.db.jobs|
    requires s.db.jobs[j].source == Some(id) && s.db.jobs[k].source == Some(id)
    ensures j < |s.h.occurrence| && k < |s.h.occurrence| && (s.h.occurrence[j] == s.h.occurrence[k] ==> j == k)
  {
    ReachableIsInv(s);
    if s.h.occurrence[j] == s.h.occurrence[k] {
      CurrentJobIsUnique(s.db, s.h, j, k, id, s.now);
    }
  }

  /** A live schedule has at most one unfinished job, and that job's key names its current next_run_at. */
  lemma LiveJobIsTheCurrentOne(s: State, j: nat, k: nat, id: string)
    requires Reachable(s) && j < |s.db.jobs| && k < |s.db.jobs| && id in s.db.schedules
    requires s.db.jobs[j].source == Some(id) && !IsTerminalJob(s.db.jobs[j].status)
    requires s.db.jobs[k].source == Some(id) && !IsTerminalJob(s.db.jobs[k].status)
    ensures j == k && s.db.jobs[j].key == Some(OccurrenceKey(id, s.db.schedules[id].nextRunAt))
  {
    ReachableIsInv(s);
    LiveJobIsCurrent(s.db, s.h, j, s.now);
    LiveJobIsCurrent(s.db, s.h, k, s.now);
    CurrentJobIsUnique(s.db, s.h, j, k, id, s.now);
    assert SourceOk(s.db, s.h, j, s.now);
  }

  /** Every occurrence a schedule had or will next have lies on its grid and, after the first, within its end;
      none was fired early. */
  lemma OccurrencesKeepPhase(s: State, id: string, j: nat)
    requires Reachable(s) && id in s.db.schedules
    ensures id in s.h.first
    ensures var row, first := s.db.schedules[id], s.h.first[id];
            && OnGrid(row, first, row.nextRunAt) && WithinEnd(row, first, row.nextRunAt)
            && (j < |s.db.jobs| && s.db.jobs[j].source == Some(id) ==>
                  && j < |s.h.occurrence| && s.h.occurrence[j].Some?
                  && var at := s.h.occurrence[j].value;
                     at <= s.now && at <= row.nextRunAt && OnGrid(row, first, at) && WithinEnd(row, first, at))
  {
    ReachableIsInv(s);
    assert ScheduleOk(s.db.schedules[id], s.h.first[id]);
    if j < |s.db.jobs| {
      assert SourceOk(s.db, s.h, j, s.now);
    }
  }

  ghost function JobsOf(db: Db, id: string): set<nat>
  {
    set j | 0 <= j < |db.jobs| && db.jobs[j].source == Some(id)
  }

  lemma {:induction false} DistinctIndicesAreFew(js: set<nat>, f: nat -> int, bound: nat)
    requires forall j :: j in js ==> 0 <= f(j) < bound
    requires forall j, k :: j in js && k in js && f(j) == f(k) ==> j == k
    ensures |js| <= bound
  {
    if js != {} {
      if j :| j in js && f(j) == bound - 1 {
        DistinctIndicesAreFew(js - {j}, f, bound - 1);
      } else {
        var j :| j in js;
        DistinctIndicesAreFew(js, f, bound - 1);
      }
    }
  }

  lemma DivideFloor(a: int, b: int, step: int)
    requires step > 0 && a <= b
    ensures a / step <= b / step
  {
    var p, q := a / step, b / step;
    assert a == step * p + a % step && b == step * q + b % step;
    assert step * (q + 1) == step * q + step;
    if p > q {
      Sched.MulMonotone(step, q + 1, p);
    }
  }

  /** Which repetition of its schedule a job is. */
  function RepetitionOf(occurrence: seq<Option<int>>, first: int, step: int): nat -> int
    requires step > 0
  {
    (j: nat) => if j < |occurrence| && occurrence[j].Some? then (occurrence[j].value - first) / step else 0
  }

  lemma RepetitionIsPast(s: State, id: string, j: nat, first: int, step: int)
    requires Inv(s) && id in s.db.schedules && j in JobsOf(s.db, id)
    requires s.db.schedules[id].repeat.Some? && step == Sched.StepMs(s.db.schedules[id].repeat.value)
    requires id in s.h.first && first == s.h.first[id]
    ensures first <= s.now && 0 <= RepetitionOf(s.h.occurrence, first, step)(j) <= (s.now - first) / step
    ensures j < |s.h.occurrence| && s.h.occurrence[j] == Some(first + step * RepetitionOf(s.h.occurrence, first,
          step)(j))
  {
    hide Inv, Sched.StepMs;
    OccurrenceIsPast(s, id, j, step);
    GridIndex(s.h.occurrence[j].value, first, s.now, step);
  }

  lemma GridIndex(at: int, first: int, now: int, step: int)
    requires step > 0 && first <= at <= now && (at - first) % step == 0
    ensures 0 <= (at - first) / step <= (now - first) / step
    ensures at == first + step * ((at - first) / step)
  {
    DivideFloor(at - first, now - first, step);
    DivideFloor(0, at - first, step);
    assert at - first == step * ((at - first) / step) + (at - first) % step;
  }

  lemma OccurrenceIsPast(s: State, id: string, j: nat, step: int)
    requires Inv(s) && id in s.db.schedules && j in JobsOf(s.db, id)
    requires s.db.schedules[id].repeat.Some? && step == Sched.StepMs(s.db.schedules[id].repeat.value)
    ensures id in s.h.first && j < |s.h.occurrence| && s.h.occurrence[j].Some?
    ensures var at, first := s.h.occurrence[j].value, s.h.first[id];
            first <= at <= s.now && step > 0 && (at - first) % step == 0
  {
    hide Sched.StepMs;
    assert SourceOk(s.db, s.h, j, s.now);
  }

  /** By time T a repeating schedule has had at most floor((T - first) / step) + 1 jobs. */
  lemma OccurrencesAreFew(s: State, id: string)
    requires Reachable(s) && id in s.db.schedules && s.db.schedules[id].repeat.Some?
    ensures id in s.h.first
    ensures var step, first := Sched.StepMs(s.db.schedules[id].repeat.value), s.h.first[id];
            if s.now < first then JobsOf(s.db, id) == {} else |JobsOf(s.db, id)| <= (s.now - first) / step + 1
  {
    hide Inv, Reachable, RepetitionOf, Sched.StepMs, ScheduleOk;
    ReachableIsInv(s);
    ScheduleIsKnown(s, id);
    var step, first := Sched.StepMs(s.db.schedules[id].repeat.value), s.h.first[id];
    var f, js := RepetitionOf(s.h.occurrence, first, step), JobsOf(s.db, id);
    var last := (s.now - first) / step;
    forall j | j in js ensures first <= s.now && 0 <= f(j) <= last {
      RepetitionIsPast(s, id, j, first, step);
    }
    forall j, k | j in js && k in js && f(j) == f(k) ensures j == k {
      SameRepetitionSameJob(s, id, j, k, first, step);
    }
    assert js != {} ==> exists j :: j in js;
    if s.now >= first {
      DivideFloor(0, s.now - first, step);
      DistinctIndicesAreFew(js, f, last + 1);
    }
  }

  lemma SameRepetitionSameJob(s: State, id: string, j: nat, k: nat, first: int, step: int)
    requires Inv(s) && id in s.db.schedules && j in JobsOf(s.db, id) && k in JobsOf(s.db, id)
    requires s.db.schedules[id].repeat.Some? && step == Sched.StepMs(s.db.schedules[id].repeat.value)
    requires id in s.h.first && first == s.h.first[id]
    requires RepetitionOf(s.h.occurrence, first, step)(j) == RepetitionOf(s.h.occurrence, first, step)(k)
    ensures j == k
  {
    hide Inv, RepetitionOf, Sched.StepMs;
    RepetitionIsPast(s, id, j, first, step);
    RepetitionIsPast(s, id, k, first, step);
    InvIsSafe(s);
    CurrentJobIsUnique(s.db, s.h, j, k, id, s.now);
  }

  lemma InvIsSafe(s: State)
    requires Inv(s)
    ensures Safe(s.db, s.h, s.now)
  {
  }

  /** Crash-free exactness: a schedule waits exactly while its occurrence has no job, is sending exactly while that job
      has no verdict, and is done exactly when it has one. */
  lemma CrashFreeSchedules(s: State, id: string)
    requires Reachable(s) && s.h.crashes == 0 && id in s.db.schedules
    ensures var row := s.db.schedules[id];
            var job := FindByKey(s.db.jobs, OccurrenceKey(id, row.nextRunAt));
            && (row.status.Scheduled? <==> job.None?)
            && (row.status.Sending? <==> job.Some? && !IsVerdict(s.db.jobs[job.value].status))
            && (row.status.Done? <==> job.Some? && IsVerdict(s.db.jobs[job.value].status))
  {
    ReachableIsInv(s);
    assert CleanSchedule(s.db.jobs, id, s.db.schedules[id]);
  }

  // ---- The report ----

  function LineFor(outcome: SendStatus): LineStatus
  {
    match outcome
    case Sent => LineSent
    case SendSkipped => LineSkipped
    case NotOnWhatsapp => LineNotOnWhatsapp
    case _ => LineError
  }

  /** Last transport outcome recorded for an item. */
  function LastOutcome(attempts: seq<Attempt>, i: nat): Option<SendStatus>
  {
    var p := LastPosition(attempts, OfItem(i));
    if p < 0 then None else attempts[p].outcome
  }

  /** The error message recorded with it; a success reports none. */
  function LastMessage(attempts: seq<Attempt>, i: nat): Option<string>
  {
    var p := LastPosition(attempts, OfItem(i));
    if p < 0 || attempts[p].outcome == Some(Sent) then None else attempts[p].message
  }

  /** One line per recipient, in order, each saying what the transport last reported for that recipient's item. */
  ghost predicate ReportsOutcomes(results: seq<ReportLine>, db: Db, j: nat, s: Schedule)
  {
    var rows := ItemRows(db.items, j);
    && |results| == |rows| == |s.recipients|
    && forall k :: 0 <= k < |results| ==>
         && results[k].to == s.recipients[k]
         && var last := LastOutcome(db.attempts, rows[k]);
            && last.Some? && results[k].status == LineFor(last.value)
            && results[k].detail == LastMessage(db.attempts, rows[k])
  }

  lemma VerdictReportsOutcomes(db: Db, h: History, j: nat, id: string, now: int)
    requires Safe(db, h, now) && j < |db.jobs| && IsVerdict(db.jobs[j].status)
    requires db.jobs[j].source == Some(id) && id in db.schedules
    ensures ReportsOutcomes(Sched.ResultsOf(db.items, j), db, j, db.schedules[id])
  {
    JobFacts(db, h, j, now);
    var rows, results := ItemRows(db.items, j), Sched.ResultsOf(db.items, j);
    forall k | 0 <= k < |rows|
      ensures var last := LastOutcome(db.attempts, rows[k]);
              && last.Some? && results[k].status == LineFor(last.value)
              && results[k].detail == LastMessage(db.attempts, rows[k])
    {
      assert rows[k] in rows;
      ItemFacts(db, h, rows[k], now);
    }
  }

  /** Whenever an occurrence of a live schedule settles, be it by a finish or by one that crashes right behind its last
      statement, the stored report has one line per recipient in recipient order, and each line tells the last outcome
      of that recipient's item and the message that came with it, through classification, retries,
          terminal marking and the settle mapping. */
  lemma SettlementReportsOutcomes(s: State, a: Action, id: string)
    requires Reachable(s) && (a.Finish? || (a.CrashInFinish? && a.cut == 5)) && CanFinish(s, a.item)
    ensures s.db.items[a.item].job < |s.db.jobs|
    ensures var t, j := Apply(s, a), s.db.items[a.item].job;
            Settles(FinishCut(s, a.item, a.result, a.draw, 3), j) && s.db.jobs[j].source == Some(id)
                && id in s.db.schedules ==>
              && id in t.db.schedules && t.db.schedules[id].lastResult.Some?
              && ReportsOutcomes(t.db.schedules[id].lastResult.value.results, t.db, j, s.db.schedules[id])
  {
    var i, r, draw := a.item, a.result, a.draw;
    hide *;
    ReachableIsInv(s);
    FinishIsItsTrace(s, i, r, draw);
    FinishActionDb(s, a);
    InvInFlight(s, i);
    FinishReportsOutcomes(s.db, s.h, i, s.proc.value.inFlight[i], r, s.now, draw, id);
  }

  lemma FinishIsItsTrace(s: State, i: nat, r: SendResult, draw: Draw)
    requires CanFinish(s, i)
    ensures i < |s.db.items| && s.proc.Some? && i in s.proc.value.inFlight
    ensures FinishCut(s, i, r, draw, 3) == FinishTrace(s.db, i, s.proc.value.inFlight[i], r, s.now, draw)[2]
  {
    hide FinishTrace;
  }

  lemma FinishReportsOutcomes(db: Db, h: History, i: nat, n: nat, r: SendResult, now: int, draw: Draw, id: string)
    requires Safe(db, h, now) && InFlightOk(db, i, n) && i < |db.items|
    ensures db.items[i].job < |db.jobs|
    ensures var trace, j := FinishTrace(db, i, n, r, now, draw), db.items[i].job;
            Settles(trace[2], j) && db.jobs[j].source == Some(id) && id in db.schedules ==>
              && id in trace[4].schedules && trace[4].schedules[id].lastResult.Some?
              && ReportsOutcomes(trace[4].schedules[id].lastResult.value.results, trace[4], j, db.schedules[id])
  {
    hide *;
    var trace, j := FinishTrace(db, i, n, r, now, draw), db.items[i].job;
    ItemPartSafe(db, h, i, n, r, now, draw);
    ItemPartEffect(db, i, n, r, now, draw);
    TraceTail(db, i, n, r, now, draw);
    DoneKeepsSources(db, trace[2], i, FateOf(r, n), j);
    if Settles(trace[2], j) && db.jobs[j].source == Some(id) && id in db.schedules {
      SettledReport(trace[2], h, j, id, now);
    }
  }

  lemma DoneKeepsSources(db: Db, d: Db, i: nat, fate: ItemStatus, j: nat)
    requires ItemPartDone(db, d, i, fate) && j < |db.jobs|
    ensures j < |d.jobs| && d.jobs[j].source == db.jobs[j].source && d.schedules == db.schedules
  {
  }

  lemma SettledReport(db: Db, h: History, j: nat, id: string, now: int)
    requires Safe(db, h, now) && Settles(db, j) && db.jobs[j].source == Some(id) && id in db.schedules
    ensures var d := Sched.OnSettled(Settle(db, j, now), j, now);
            && id in d.schedules && d.schedules[id].lastResult.Some?
            && ReportsOutcomes(d.schedules[id].lastResult.value.results, d, j, db.schedules[id])
  {
    SettleKeepsSafe(db, h, j, now);
    var d4 := Settle(db, j, now);
    assert IsVerdict(d4.jobs[j].status) && d4.schedules == db.schedules;
    hide Safe;
    VerdictReportsOutcomes(d4, h.(settles := Inc(h.settles, j)), j, id, now);
  }

  /** The query result a settled job is read back with: its rows, ordered by seq. */
  lemma RowsComeBySeq(s: State, j: nat)
    requires Reachable(s) && j < |s.db.jobs|
    ensures var rows := ItemRows(s.db.items, j);
            && (forall i :: i in rows <==> 0 <= i < |s.db.items| && s.db.items[i].job == j)
            && (forall k :: 0 <= k < |rows| ==> rows[k] < |s.db.items| && s.db.items[rows[k]].position == k)
  {
    ReachableIsInv(s);
    JobFacts(s.db, s.h, j, s.now);
    var rows := ItemRows(s.db.items, j);
    assert forall k :: 0 <= k < |rows| ==> rows[k] in rows;
  }
}
