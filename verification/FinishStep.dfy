/** Finishing an item keeps the invariant, at every cut point: attempt row, item, counter, job, schedule. */
module FinishStep {
  import opened Wrappers
  import opened ErrorClassifier
  import opened Retry
  import opened Sequences
  import opened Tables
  import opened JobService
  import opened Worker
  import opened Engine
  import opened Invariant
  import opened Frames
  import opened TurnStep
  import Sched = Scheduler

  // ---- The attempt row ----

  lemma {:induction false} LastPositionCongruent(a: seq<Attempt>, b: seq<Attempt>, i: nat)
    requires |a| == |b| && forall k :: 0 <= k < |a| ==> a[k].item == b[k].item
    ensures LastPosition(a, OfItem(i)) == LastPosition(b, OfItem(i))
  {
    if a != [] {
      LastPositionCongruent(a[..|a| - 1], b[..|b| - 1], i);
    }
  }

  /** Finishing writes outcomes, no row moves. */
  ghost predicate SameRows(a: seq<Attempt>, b: seq<Attempt>)
  {
    |a| == |b| && forall k {:trigger a[k]} {:trigger b[k]} :: 0 <= k < |a| ==>
         a[k].item == b[k].item && a[k].number == b[k].number
  }

  lemma SameRowsSameCounts(a: seq<Attempt>, b: seq<Attempt>, i: nat)
    requires SameRows(a, b)
    ensures Count(a, OfItem(i)) == Count(b, OfItem(i))
    ensures forall n: nat :: Count(a, Numbered(i, n)) == Count(b, Numbered(i, n))
    ensures LastPosition(a, OfItem(i)) == LastPosition(b, OfItem(i))
  {
    CountCongruent(a, b, OfItem(i));
    forall n: nat ensures Count(a, Numbered(i, n)) == Count(b, Numbered(i, n)) {
      CountCongruent(a, b, Numbered(i, n));
    }
    LastPositionCongruent(a, b, i);
  }

  lemma OtherLogAfterFinish(db: Db, i: nat, n: nat, r: SendResult, it: Item, k: nat, torn: nat)
    requires LogOkFor(db.attempts, it, k, torn) && (k == i ==> !IsSettledItem(it.status))
    ensures LogOkFor(FinishAttempt(db, i, n, r).attempts, it, k, torn)
  {
    SameRowsSameCounts(db.attempts, FinishAttempt(db, i, n, r).attempts, k);
  }

  lemma FinishAttemptKeepsSafe(db: Db, h: History, i: nat, n: nat, r: SendResult, now: int)
    requires Safe(db, h, now) && InFlightOk(db, i, n)
    ensures Safe(FinishAttempt(db, i, n, r), h, now)
  {
    var db' := FinishAttempt(db, i, n, r);
    forall k | 0 <= k < |db.items| ensures LogOkFor(db'.attempts, db.items[k], k, h.torn[k]) {
      OtherLogAfterFinish(db, i, n, r, db.items[k], k, h.torn[k]);
    }
    OtherTablesUnchanged(db, h, db', h, now);
  }

  /** The item's last row now carries the outcome. */
  lemma OutcomeIsRecorded(db: Db, i: nat, n: nat, r: SendResult)
    requires InFlightOk(db, i, n)
    ensures var a := FinishAttempt(db, i, n, r).attempts;
            var p := LastPosition(a, OfItem(i));
            && p >= 0 && a[p].outcome == Some(RecordedStatus(r)) && a[p].category == CategoryOf(r)
            && a[p].message == DetailOf(r)
  {
    SameRowsSameCounts(db.attempts, FinishAttempt(db, i, n, r).attempts, i);
  }

  // ---- The item row ----

  /** The row the routing statement writes. */
  function Routed(it: Item, n: nat, r: SendResult, now: int, draw: Draw): Item
  {
    var fate := FateOf(r, n);
    var out := Released(it).(status := fate, lastCategory := CategoryOf(r),
                             lastDetail := if fate.Succeeded? then None else DetailOf(r));
    if fate.Queued? then out.(nextAttemptAt := now + BackoffMs(n, draw)) else out
  }

  lemma RouteIsSetItem(db: Db, i: nat, n: nat, r: SendResult, now: int, draw: Draw)
    requires i < |db.items|
    ensures RouteItem(db, i, n, r, now, draw) == SetItem(db, i, Routed(db.items[i], n, r, now, draw))
  {
  }

  lemma RoutedRowIsOk(db: Db, h: History, i: nat, n: nat, r: SendResult, now: int, draw: Draw)
    requires Safe(db, h, now) && InFlightOk(db, i, n)
    ensures var it := Routed(db.items[i], n, r, now, draw);
            && it.job < |db.jobs| && |h.sends| == |h.recoveries| == |h.torn| == |db.items|
            && ItemOk(it, db.jobs[it.job].status, h.sends[i], h.recoveries[i])
            && LogOkFor(FinishAttempt(db, i, n, r).attempts, it, i, h.torn[i])
  {
    ItemFacts(db, h, i, now);
    OutcomeIsRecorded(db, i, n, r);
    OtherLogAfterFinish(db, i, n, r, db.items[i], i, h.torn[i]);
    ClassificationIsConsistent(r);
  }

  lemma RouteKeepsSafe(db: Db, h: History, i: nat, n: nat, r: SendResult, now: int, draw: Draw)
    requires Safe(db, h, now) && InFlightOk(db, i, n)
    ensures Safe(RouteItem(FinishAttempt(db, i, n, r), i, n, r, now, draw), h, now)
  {
    var d1, it := FinishAttempt(db, i, n, r), Routed(db.items[i], n, r, now, draw);
    hide Safe, LogOkFor, ItemOk, Routed, RouteItem;
    RoutedRowIsOk(db, h, i, n, r, now, draw);
    RouteIsSetItem(d1, i, n, r, now, draw);
    FinishAttemptKeepsSafe(db, h, i, n, r, now);
    SetItemKeepsSafe(d1, h, i, it, h, now);
  }

  // ---- The counter ----

  lemma CountAfterRoute(items: seq<Item>, i: nat, it: Item, j: nat)
    requires i < |items| && !IsSettledItem(items[i].status) && it.job == items[i].job
    ensures forall st :: IsSettledItem(st) ==>
              Count(items[i := it], InStatus(j, st)) ==
                Count(items, InStatus(j, st)) + (if it.job == j && it.status == st then 1 else 0)
  {
    forall st | IsSettledItem(st)
      ensures Count(items[i := it], InStatus(j, st)) ==
                Count(items, InStatus(j, st)) + (if it.job == j && it.status == st then 1 else 0)
    {
      CountUpdate(items, i, it, InStatus(j, st));
    }
  }

  lemma BumpKeepsSafe(db: Db, items: seq<Item>, i: nat, h: History, j: nat, st: ItemStatus, now: int)
    requires Safe(db, h, now) && j < |db.jobs| && IsSettledItem(st)
    requires i < |items| && !IsSettledItem(items[i].status) && i < |db.items| && db.items == items[i := db.items[i]]
    requires db.items[i].job == items[i].job == j && db.items[i].status == st
    requires CountersBelow(db.jobs[j], items, j)
    ensures Safe(BumpCounter(db, j, st), h, now)
  {
    hide Safe;
    JobFacts(db, h, j, now);
    CountAfterRoute(items, i, db.items[i], j);
    var job := Bumped(db.jobs[j], st);
    assert JobOk(job, db.items, j, h.settles[j]);
    SetJobKeepsSafe(db, h, j, job, h, now);
  }

  // ---- The verdict ----

  lemma SettleKeepsSafe(db: Db, h: History, j: nat, now: int)
    requires Safe(db, h, now) && j < |db.jobs|
    ensures Safe(Settle(db, j, now), if Settles(db, j) then h.(settles := Inc(h.settles, j)) else h, now)
  {
    hide Safe;
    if Settles(db, j) {
      JobFacts(db, h, j, now);
      CompletionMeansAllTerminal(db, j);
      var verdict := VerdictFor(Count(db.items, InStatus(j, Succeeded)), db.jobs[j].total);
      SetJobKeepsSafe(db, h, j, db.jobs[j].(status := verdict, completedAt := Some(now)),
                      h.(settles := Inc(h.settles, j)), now);
    }
  }

  // ---- The schedule ----

  lemma GridStep(a: int, b: int, step: int)
    requires step > 0 && a % step == 0 && b % step == 0
    ensures (a + b) % step == 0
  {
    var p, q := a / step, b / step;
    assert a == step * p && b == step * q;
    assert a + b == step * (p + q);
    Sched.ModOfMultiple(step, p + q);
  }

  lemma SettledStaysOk(s: Schedule, first: int, report: Report, now: int)
    requires ScheduleOk(s, first)
    ensures var s' := Sched.Settled(s, report, now);
            && ScheduleOk(s', first) && s'.nextRunAt >= s.nextRunAt
            && s'.recipients == s.recipients && s'.message == s.message && s'.repeat == s.repeat
            && s'.lastResult == Some(report)
            && (s'.status.Done? || s'.status.Scheduled?)
            && (s'.status.Done? ==> s'.nextRunAt == s.nextRunAt)
            && (s'.status.Scheduled? ==> s'.nextRunAt > s.nextRunAt && s'.nextRunAt > now)
  {
    if s.repeat.Some? {
      var step := Sched.StepMs(s.repeat.value);
      var next := Sched.NextRun(s.nextRunAt, step, now);
      Sched.NextRunIsLeastFuturePoint(s.nextRunAt, step, now);
      GridStep(s.nextRunAt - first, next - s.nextRunAt, step);
    }
  }

  lemma JobFollowsSchedule(db: Db, h: History, j: nat, k: nat, id: string, s': Schedule, now: int)
    requires Safe(db, h, now) && j < |db.jobs| && k < |db.jobs| && id in db.schedules
    requires db.jobs[j].source == Some(id) && db.jobs[k].source == Some(id)
    requires IsTerminalJob(db.jobs[j].status) && h.occurrence[j] == Some(db.schedules[id].nextRunAt)
    requires var s := db.schedules[id];
             s'.recipients == s.recipients && s'.message == s.message && s'.repeat == s.repeat
                 && s'.nextRunAt >= s.nextRunAt
    ensures id in h.first && h.occurrence[k].Some?
    ensures LiveJobOk(db.jobs[k], db.items, k, s', h.first[id], h.occurrence[k].value)
  {
    assert SourceOk(db, h, k, now);
    if h.occurrence[k] == h.occurrence[j] {
      CurrentJobIsUnique(db, h, j, k, id, now);
    }
  }

  /** The job of the schedule's current occurrence, now terminal, was its last live job. */
  lemma OnSettledKeepsSafe(db: Db, h: History, j: nat, now: int)
    requires Safe(db, h, now) && j < |db.jobs| && IsTerminalJob(db.jobs[j].status)
    requires db.jobs[j].source.Some? && db.jobs[j].source.value in db.schedules ==>
               h.occurrence[j] == Some(db.schedules[db.jobs[j].source.value].nextRunAt)
    ensures Safe(Sched.OnSettled(db, j, now), h, now)
  {
    if db.jobs[j].source.Some? && db.jobs[j].source.value in db.schedules {
      var id := db.jobs[j].source.value;
      var s, first := db.schedules[id], h.first[id];
      var report := Report(Sched.RanAt(db.jobs[j], now), Sched.ResultsOf(db.items, j));
      var s' := Sched.Settled(s, report, now);
      SettledStaysOk(s, first, report, now);
      hide Safe, Sched.Settled, LiveJobOk;
      forall k | 0 <= k < |db.jobs| && db.jobs[k].source == Some(id)
        ensures LiveJobOk(db.jobs[k], db.items, k, s', first, h.occurrence[k].value)
      {
        JobFollowsSchedule(db, h, j, k, id, s', now);
      }
      SetScheduleKeepsSafe(db, h, id, s', h, now);
    }
  }

  /** Two jobs of one occurrence are one job. */
  lemma CurrentJobIsUnique(db: Db, h: History, j: nat, k: nat, id: string, now: int)
    requires Safe(db, h, now) && j < |db.jobs| && k < |db.jobs|
    requires db.jobs[j].source == Some(id) && db.jobs[k].source == Some(id) && h.occurrence[j] == h.occurrence[k]
    ensures j == k
  {
    assert SourceOk(db, h, j, now) && SourceOk(db, h, k, now);
    assert db.jobs[j].key == db.jobs[k].key;
  }

  lemma LiveJobIsCurrent(db: Db, h: History, j: nat, now: int)
    requires Safe(db, h, now) && j < |db.jobs| && !IsTerminalJob(db.jobs[j].status)
    requires db.jobs[j].source.Some? && db.jobs[j].source.value in db.schedules
    ensures h.occurrence[j] == Some(db.schedules[db.jobs[j].source.value].nextRunAt)
  {
    assert SourceOk(db, h, j, now);
  }

  // ---- All cut points ----

  lemma ItemPartSafe(db: Db, h: History, i: nat, n: nat, r: SendResult, now: int, draw: Draw)
    requires Safe(db, h, now) && InFlightOk(db, i, n)
    ensures var trace := FinishTrace(db, i, n, r, now, draw);
            && db.items[i].job < |db.jobs| && |trace[2].jobs| == |db.jobs|
            && Safe(trace[0], h, now) && Safe(trace[1], h, now) && Safe(trace[2], h, now)
  {
    hide Safe;
    var d1, j, fate := FinishAttempt(db, i, n, r), db.items[i].job, FateOf(r, n);
    ItemFacts(db, h, i, now);
    JobFacts(db, h, j, now);
    FinishAttemptKeepsSafe(db, h, i, n, r, now);
    RouteKeepsSafe(db, h, i, n, r, now, draw);
    RouteIsSetItem(d1, i, n, r, now, draw);
    var d2 := RouteItem(d1, i, n, r, now, draw);
    hide RouteItem, FinishAttempt, JobOk, ItemOk, LogOkFor, Settle, Settles;
    if !fate.Queued? {
      assert CountersBelow(db.jobs[j], db.items, j) by { CountersAreBelow(db, h, j, now); }
      BumpKeepsSafe(d2, db.items, i, h, j, fate, now);
    }
  }

  lemma CountersAreBelow(db: Db, h: History, j: nat, now: int)
    requires Safe(db, h, now) && j < |db.jobs|
    ensures CountersBelow(db.jobs[j], db.items, j)
  {
    assert JobOk(db.jobs[j], db.items, j, h.settles[j]);
  }

  lemma FinishTraceSafe(db: Db, h: History, i: nat, n: nat, r: SendResult, now: int, draw: Draw, cut: nat)
    requires Safe(db, h, now) && InFlightOk(db, i, n) && i < |db.items| && 1 <= cut <= 5
    ensures var trace := FinishTrace(db, i, n, r, now, draw);
            db.items[i].job < |db.jobs| && Safe(trace[cut - 1], HistoryInFinish(h, trace[2], db.items[i].job, cut), now)
  {
    hide *;
    ItemPartSafe(db, h, i, n, r, now, draw);
    TraceTail(db, i, n, r, now, draw);
    var trace, j := FinishTrace(db, i, n, r, now, draw), db.items[i].job;
    HistoryCases(h, trace[2], j, cut);
    if cut >= 4 {
      TailSafe(trace[2], h, j, now);
      if cut == 5 {
        assert Safe(trace[4], HistoryInFinish(h, trace[2], j, cut), now);
      }
    }
  }

  lemma TraceTail(db: Db, i: nat, n: nat, r: SendResult, now: int, draw: Draw)
    requires i < |db.items|
    ensures var trace, j := FinishTrace(db, i, n, r, now, draw), db.items[i].job;
            && trace[3] == Settle(trace[2], j, now)
            && trace[4] == if Settles(trace[2], j) then Sched.OnSettled(trace[3], j, now) else trace[3]
  {
    hide Settle, Settles, RouteItem, BumpCounter, FinishAttempt, Sched.OnSettled;
  }

  lemma HistoryCases(h: History, d: Db, j: nat, cut: nat)
    ensures HistoryInFinish(h, d, j, cut) == if cut >= 4 && Settles(d, j) then h.(settles := Inc(h.settles, j)) else h
  {
  }

  lemma TailSafe(db: Db, h: History, j: nat, now: int)
    requires Safe(db, h, now) && j < |db.jobs|
    ensures var h' := if Settles(db, j) then h.(settles := Inc(h.settles, j)) else h;
            && Safe(Settle(db, j, now), h', now)
            && Safe(if Settles(db, j) then Sched.OnSettled(Settle(db, j, now), j, now) else Settle(db, j, now), h', now)
  {
    hide *;
    SettleKeepsSafe(db, h, j, now);
    if Settles(db, j) {
      SettledJobOnSettled(db, h, j, now);
    }
  }

  lemma SettledJobOnSettled(db: Db, h: History, j: nat, now: int)
    requires Safe(db, h, now) && j < |db.jobs| && Settles(db, j)
    ensures Safe(Sched.OnSettled(Settle(db, j, now), j, now), h.(settles := Inc(h.settles, j)), now)
  {
    hide Safe;
    SettleKeepsSafe(db, h, j, now);
    if db.jobs[j].source.Some? && db.jobs[j].source.value in db.schedules {
      LiveJobIsCurrent(db, h, j, now);
    }
    OnSettledKeepsSafe(Settle(db, j, now), h.(settles := Inc(h.settles, j)), j, now);
  }
}
