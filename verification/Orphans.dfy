/** Jobs that never get a verdict although nothing of theirs is outstanding, and exactly how they arise. */
module Orphans {
  import opened ErrorClassifier
  import opened CircuitBreaker
  import opened Retry
  import opened Sequences
  import opened Tables
  import opened JobService
  import opened Claiming
  import opened Worker
  import opened Engine
  import opened Invariant
  import opened Frames
  import opened TurnStep
  import opened FinishStep
  import opened FinishMemory
  import opened Evolution
  import opened Theorems
  import opened Progress
  import Sched = Scheduler

  // ---- Orphaned jobs ----

  /** Not terminal, although none of its items is outstanding. */
  ghost predicate Orphan(db: Db, j: nat)
  {
    && j < |db.jobs| && !IsTerminalJob(db.jobs[j].status)
    && forall i :: 0 <= i < |db.items| && db.items[i].job == j ==> IsTerminalItem(db.items[i].status)
  }

  ghost predicate Orphaned(s: State, j: nat) { Orphan(s.db, j) }

  /** Completion is only checked behind a finish of one of the job's items; so an orphaned job never gets a verdict
      again, whatever happens, crashes and restarts included. Only a cancel ends it. */
  lemma {:induction false} OrphanedForever(s: State, actions: seq<Action>, j: nat)
    requires Inv(s) && Orphaned(s, j) && CancelJob(j) !in actions && CrashInCancel(j) !in actions
    ensures Orphaned(Run(s, actions), j)
  {
    hide Inv, Apply, Orphaned;
    if actions != [] {
      var init, a := actions[..|actions| - 1], actions[|actions| - 1];
      assert a in actions && forall b :: b in init ==> b in actions;
      OrphanedForever(s, init, j);
      RunKeepsInv(s, init);
      ActionKeepsOrphaned(Run(s, init), a, j);
    }
  }

  lemma ActionKeepsOrphaned(s: State, a: Action, j: nat)
    requires Inv(s) && Orphaned(s, j) && a != CancelJob(j) && a != CrashInCancel(j)
    ensures Orphaned(Apply(s, a), j)
  {
    var t := Apply(s, a);
    hide Apply, Evolves, Inv, JobOk;
    ApplyEvolves(s, a);
    ApplyKeepsInv(s, a);
    JobsAndItems(s, j);
    OrphanHasNothingInFlight(s, j);
    SettlementComesFromAFinish(s, a, j);
    OnlyACancelCancels(s, a, j);
    EvolvedJob(s.db, t.db, j);
    JobsAndItems(t, j);
    OrphanRowsStayTerminal(s.db, t.db, j);
  }

  lemma EvolvedJob(a: Db, b: Db, j: nat)
    requires Evolves(a, b) && j < |a.jobs|
    ensures j < |b.jobs| && b.jobs[j].total == a.jobs[j].total
  {
  }

  /** What the invariant says of one job and the state of its items. */
  lemma JobsAndItems(s: State, j: nat)
    requires Inv(s) && j < |s.db.jobs|
    ensures j < |s.h.settles| && s.h.settles[j] == (if IsVerdict(s.db.jobs[j].status) then 1 else 0)
    ensures Count(s.db.items, OfJob(j)) == s.db.jobs[j].total
    ensures forall i :: 0 <= i < |s.db.items| && s.db.items[i].job == j && s.db.items[i].status.Cancelled? ==>
            s.db.jobs[j].status.CANCELLED?
  {
    JobFacts(s.db, s.h, j, s.now);
  }

  lemma OrphanHasNothingInFlight(s: State, j: nat)
    requires Inv(s) && Orphaned(s, j)
    ensures forall i: nat :: CanFinish(s, i) ==> s.db.items[i].job != j
  {
    JobsAndItems(s, j);
    forall i: nat | CanFinish(s, i) ensures s.db.items[i].job != j {
      assert InFlightOk(s.db, i, s.proc.value.inFlight[i]);
    }
  }

  lemma OrphanRowsStayTerminal(a: Db, b: Db, j: nat)
    requires Evolves(a, b) && j < |a.jobs|
    requires Count(b.items, OfJob(j)) == Count(a.items, OfJob(j))
    requires forall i :: 0 <= i < |a.items| && a.items[i].job == j ==> IsSettledItem(a.items[i].status)
    ensures forall i :: 0 <= i < |b.items| && b.items[i].job == j ==> IsTerminalItem(b.items[i].status)
  {
    var old_, more := b.items[..|a.items|], b.items[|a.items|..];
    assert b.items == old_ + more;
    CountAppend(old_, more, OfJob(j));
    CountCongruent(a.items, old_, OfJob(j));
    NoneCounted(more, OfJob(j));
    NoNewRows(b.items, |a.items|, j);
    forall i | 0 <= i < |b.items| && b.items[i].job == j ensures IsTerminalItem(b.items[i].status) {
      var _ := a.items[i];
    }
  }

  lemma NoNewRows(items: seq<Item>, n: nat, j: nat)
    requires n <= |items| && forall k :: 0 <= k < |items[n..]| ==> !OfJob(j)(items[n..][k])
    ensures forall i :: 0 <= i < |items| && items[i].job == j ==> i < n
  {
    forall i | n <= i < |items| ensures items[i].job != j {
      assert !OfJob(j)(items[n..][i - n]);
    }
  }

  lemma {:induction false} NoneCounted<T>(s: seq<T>, p: T -> bool)
    requires Count(s, p) == 0
    ensures forall k :: 0 <= k < |s| ==> !p(s[k])
  {
    if s != [] {
      NoneCounted(s[..|s| - 1], p);
    }
  }

  /** Only a cancel of the job, finished or not, makes it CANCELLED. */
  lemma OnlyACancelCancels(s: State, a: Action, j: nat)
    requires j < |s.db.jobs| && !s.db.jobs[j].status.CANCELLED? && a != CancelJob(j) && a != CrashInCancel(j)
    ensures j < |Apply(s, a).db.jobs| ==> !Apply(s, a).db.jobs[j].status.CANCELLED?
  {
    hide Sched.NewSchedule, FinishTrace, StartTrace, FireCut, Turn;
    if s.proc.Some? {
      match a
      case WorkerTurn => TurnCancelsNone(s, 4, j);
      case CrashInTurn(cut) => if 1 <= cut <= 5 { TurnCancelsNone(s, cut - 1, j); }
      case Finish(i, r, draw) => if CanFinish(s, i) { FinishCancelsNone(s.db, i, s.proc.value.inFlight[i], r, s.now,
            draw, j); }
      case CrashInFinish(i, r, draw, _) => if CanFinish(s,
                                                        i) { FinishCancelsNone(s.db, i, s.proc.value.inFlight[i], r,
                                                              s.now, draw, j); }
      case Fire(id) => if CanFire(s, id) { FireCancelsNone(s, id, j); }
      case CrashInFire(id) => if CanFire(s, id) { FireCancelsNone(s, id, j); }
      case _ =>
    }
  }

  lemma StartCancelsNone(db: Db, i: nat, now: int, cut: nat, j: nat)
    requires i < |db.items| && j < |db.jobs| && !db.jobs[j].status.CANCELLED? && cut < 5
    ensures var d := StartTrace(db, i, WORKER, now)[cut]; j < |d.jobs| && !d.jobs[j].status.CANCELLED?
  {
  }

  lemma TurnCancelsNone(s: State, cut: nat, j: nat)
    requires s.proc.Some? && j < |s.db.jobs| && !s.db.jobs[j].status.CANCELLED? && cut < 5
    ensures j < |ApplyTurn(s).db.jobs| && !ApplyTurn(s).db.jobs[j].status.CANCELLED?
    ensures NextStart(s).Some? && NextStart(s).value < |s.db.items| ==>
              var d := StartTrace(s.db, NextStart(s).value, WORKER, s.now)[cut];
              j < |d.jobs| && !d.jobs[j].status.CANCELLED?
  {
    TurnClaimsEligible(s.db, s.proc.value, s.limit, WORKER, s.now);
    hide CanAttempt, NextItem, StartTrace, Turn;
    if NextStart(s).Some? && NextStart(s).value < |s.db.items| {
      StartCancelsNone(s.db, NextStart(s).value, s.now, cut, j);
      StartCancelsNone(s.db, NextStart(s).value, s.now, 4, j);
    }
  }

  lemma FinishCancelsNone(db: Db, i: nat, n: nat, r: SendResult, now: int, draw: Draw, j: nat)
    requires i < |db.items| && j < |db.jobs| && !db.jobs[j].status.CANCELLED?
    ensures forall cut :: 0 <= cut < 5 ==>
              var d := FinishTrace(db, i, n, r, now, draw)[cut]; j < |d.jobs| && !d.jobs[j].status.CANCELLED?
  {
    hide Count, TerminalCount, Sched.ResultsOf, Sched.Settled;
    var trace := FinishTrace(db, i, n, r, now, draw);
    forall cut | 0 <= cut < 5 ensures j < |trace[cut].jobs| && !trace[cut].jobs[j].status.CANCELLED? {
    }
  }

  lemma FireCancelsNone(s: State, id: string, j: nat)
    requires CanFire(s, id) && j < |s.db.jobs| && !s.db.jobs[j].status.CANCELLED?
    ensures !FireCut(s, id, 1).jobs[j].status.CANCELLED? && !FireCut(s, id, 2).jobs[j].status.CANCELLED?
  {
  }

  /** A crash while an item is being finished orphans its job exactly if it falls between making the last outstanding
      item terminal and checking for completion. */
  lemma CrashInFinishOrphansIff(s: State, i: nat, r: SendResult, draw: Draw, cut: nat)
    requires Inv(s) && CanFinish(s, i) && 1 <= cut <= 5
    ensures Orphaned(Apply(s, CrashInFinish(i, r, draw, cut)), s.db.items[i].job) <==>
              (cut == 2 || cut == 3) && LastOneIn(s.db, i, FateOf(r, s.proc.value.inFlight[i]))
  {
    var n, j := s.proc.value.inFlight[i], s.db.items[i].job;
    hide *;
    InvInFlight(s, i);
    FinishIsItsCut(s, i, r, draw, cut);
    OrphanedIsOrphan(Apply(s, CrashInFinish(i, r, draw, cut)), j);
    if cut == 1 {
      FirstCutOrphansNone(s.db, s.h, i, n, r, s.now, draw);
    } else if cut <= 3 {
      EarlyCutOrphansIff(s.db, i, n, r, s.now, draw, cut);
    } else {
      LateCutOrphansNone(s.db, s.h, i, n, r, s.now, draw, cut);
    }
  }

  lemma OrphanedIsOrphan(s: State, j: nat)
    ensures Orphaned(s, j) <==> Orphan(s.db, j)
  {
  }

  /** Every row of job `j` but row `i` is terminal. */
  ghost predicate OthersTerminal(items: seq<Item>, i: nat, j: nat)
  {
    forall k :: 0 <= k < |items| && k != i && items[k].job == j ==> IsTerminalItem(items[k].status)
  }

  lemma FirstCutOrphansNone(db: Db, h: History, i: nat, n: nat, r: SendResult, now: int, draw: Draw)
    requires Safe(db, h, now) && InFlightOk(db, i, n) && i < |db.items|
    ensures !Orphan(FinishTrace(db, i, n, r, now, draw)[0], db.items[i].job)
  {
    hide *;
    EarlyCuts(db, i, n, r, now, draw);
    InFlightStatus(db, h, i, n, now);
    OpenRowNoOrphan(FinishTrace(db, i, n, r, now, draw)[0], i);
  }

  /** Whether a crash behind the second or third statement leaves the job orphaned. */
  ghost predicate LastOneIn(db: Db, i: nat, fate: ItemStatus)
    requires i < |db.items|
  {
    var j := db.items[i].job;
    fate != Queued && j < |db.jobs| && !IsTerminalJob(db.jobs[j].status) && OthersTerminal(db.items, i, j)
  }

  lemma EarlyCutOrphansIff(db: Db, i: nat, n: nat, r: SendResult, now: int, draw: Draw, cut: nat)
    requires i < |db.items| && 2 <= cut <= 3
    ensures Orphan(FinishTrace(db, i, n, r, now, draw)[cut - 1], db.items[i].job) <==> LastOneIn(db, i, FateOf(r, n))
  {
    var trace := FinishTrace(db, i, n, r, now, draw);
    hide *;
    ItemPartEffect(db, i, n, r, now, draw);
    EarlyCuts(db, i, n, r, now, draw);
    FateIsFinal(r, n);
    RoutedOrphanIff(db, trace[1], trace[2], i, FateOf(r, n));
    RoutedOrphanIff(db, trace[2], trace[2], i, FateOf(r, n));
  }

  lemma InFlightStatus(db: Db, h: History, i: nat, n: nat, now: int)
    requires Safe(db, h, now) && InFlightOk(db, i, n)
    ensures i < |db.items| && (db.items[i].status.Running?
                               || (db.items[i].job < |db.jobs| && IsTerminalJob(db.jobs[db.items[i].job].status)))
  {
    ItemFacts(db, h, i, now);
  }

  lemma OpenRowNoOrphan(db: Db, i: nat)
    requires i < |db.items|
    requires db.items[i].status.Running? || (db.items[i].job < |db.jobs|
                                             && IsTerminalJob(db.jobs[db.items[i].job].status))
    ensures !Orphan(db, db.items[i].job)
  {
  }

  lemma RoutedOrphanIff(db: Db, d: Db, d3: Db, i: nat, fate: ItemStatus)
    requires ItemPartDone(db, d3, i, fate) && (fate.Queued? || IsSettledItem(fate))
    requires d.items == d3.items && (d.jobs == db.jobs || d.jobs == d3.jobs)
    ensures Orphan(d, db.items[i].job) <==> LastOneIn(db, i, fate)
  {
    var j := db.items[i].job;
    assert j < |db.jobs| ==> j < |d.jobs| && d.jobs[j].status == db.jobs[j].status;
    assert forall k :: 0 <= k < |db.items| && k != i ==> d.items[k] == db.items[k];
    if Orphan(d, j) {
      assert d.items[i].job == j;
      forall k | 0 <= k < |db.items| && k != i && db.items[k].job == j ensures IsTerminalItem(db.items[k].status) {
        assert d.items[k].job == j;
      }
    }
  }

  lemma LateCutOrphansNone(db: Db, h: History, i: nat, n: nat, r: SendResult, now: int, draw: Draw, cut: nat)
    requires Safe(db, h, now) && InFlightOk(db, i, n) && i < |db.items| && 4 <= cut <= 5
    ensures !Orphan(FinishTrace(db, i, n, r, now, draw)[cut - 1], db.items[i].job)
  {
    hide *;
    var trace, j := FinishTrace(db, i, n, r, now, draw), db.items[i].job;
    ItemPartSafe(db, h, i, n, r, now, draw);
    TraceTail(db, i, n, r, now, draw);
    TailOrphansNone(trace[2], h, j, now);
  }

  lemma TailOrphansNone(db: Db, h: History, j: nat, now: int)
    requires Safe(db, h, now)
    ensures !Orphan(Settle(db, j, now), j) && !Orphan(Sched.OnSettled(Settle(db, j, now), j, now), j)
  {
    TailEffect(db, j, now);
    if j < |db.jobs| {
      JobFacts(db, h, j, now);
      CompletionMeansAllTerminal(db, j);
    }
    hide Safe, Sched.OnSettled;
  }

  lemma FinishIsItsCut(s: State, i: nat, r: SendResult, draw: Draw, cut: nat)
    requires CanFinish(s, i) && 1 <= cut <= 5
    ensures Apply(s, CrashInFinish(i, r, draw, cut)).db
            == FinishTrace(s.db, i, s.proc.value.inFlight[i], r, s.now, draw)[cut - 1]
  {
    hide FinishTrace;
  }

  /** In crash-free runs no job that has items is ever orphaned. */
  lemma CrashFreeRunsOrphanNone(s: State, j: nat)
    requires Reachable(s) && s.h.crashes == 0 && j < |s.db.jobs| && s.db.jobs[j].total > 0
    ensures !Orphaned(s, j)
  {
    ReachableIsInv(s);
    assert CleanJob(s.db.jobs[j], s.db.items, j);
    NoOpenRow(s.db.items, j);
  }

  // ---- Which action ends a row ----

  /** No open row of `db` is terminal in `d`. */
  ghost predicate EndsNone(db: Db, d: Db)
  {
    && |db.items| <= |d.items|
    && forall i {:trigger d.items[i]} {:trigger db.items[i]} :: 0 <= i < |db.items| ==>
         (IsTerminalItem(d.items[i].status) ==> IsTerminalItem(db.items[i].status))
  }

  lemma StartEndsNone(db: Db, i: nat, now: int, cut: nat)
    requires i < |db.items| && cut < 5
    ensures EndsNone(db, StartTrace(db, i, WORKER, now)[cut])
  {
  }

  lemma SameItemsEndNone(db: Db, d: Db)
    requires db.items <= d.items
    ensures EndsNone(db, d)
  {
  }

  lemma RecoveryEndsNone(db: Db, now: int)
    ensures EndsNone(db, RecoverRows(db, now))
  {
  }

  lemma TurnEndsNone(s: State, a: Action)
    requires s.proc.Some? && (a.WorkerTurn? || a.CrashInTurn?)
    ensures EndsNone(s.db, Apply(s, a).db)
  {
    NextStartIsQueued(s);
    TurnClaimsEligible(s.db, s.proc.value, s.limit, WORKER, s.now);
    hide StartTrace, Turn, EndsNone;
    SameItemsEndNone(s.db, s.db);
    if NextStart(s).Some? {
      StartEndsNone(s.db, NextStart(s).value, s.now, if a.CrashInTurn? && 1 <= a.cut <= 5 then a.cut - 1 else 4);
    }
  }

  lemma PlainEndsNone(s: State, a: Action)
    requires s.proc.None? || a.Elapse? || a.SetKillSwitch? || a.Drain? || a.Crash? || a.Restart?
    ensures EndsNone(s.db, Apply(s, a).db)
  {
    hide EndsNone, RecoverRows;
    SameItemsEndNone(s.db, s.db);
    RecoveryEndsNone(s.db, s.now);
  }

  lemma CreationEndsNone(s: State, a: Action)
    requires s.proc.Some? && (a.Enqueue? || a.Fire? || a.CrashInFire?)
    ensures EndsNone(s.db, Apply(s, a).db)
  {
    hide EndsNone, FindByKey;
    SameItemsEndNone(s.db, Apply(s, a).db);
  }

  lemma OtherWritesEndNone(s: State, a: Action)
    requires s.proc.Some? && (a.Pause? || a.Resume? || a.AddSchedule? || a.RemoveSchedule?)
    ensures EndsNone(s.db, Apply(s, a).db)
  {
    hide EndsNone, Sched.NewSchedule;
    SameItemsEndNone(s.db, Apply(s, a).db);
  }

  /** A cancel ends rows of the job it makes CANCELLED only. */
  lemma CancelEndsOwnRows(s: State, a: Action, i: nat)
    requires s.proc.Some? && (a.CancelJob? || a.CrashInCancel?)
    requires i < |s.db.items| && !IsTerminalItem(s.db.items[i].status)
    ensures var t := Apply(s, a);
            && i < |t.db.items|
            && (IsTerminalItem(t.db.items[i].status) ==>
                  s.db.items[i].job == a.job < |t.db.jobs| && t.db.jobs[a.job].status.CANCELLED?)
  {
  }

  lemma FinishEndsOwnRow(db: Db, k: nat, n: nat, r: SendResult, now: int, draw: Draw, cut: nat, i: nat)
    requires k < |db.items| && i < |db.items| && i != k && 1 <= cut <= 5
    ensures var d := FinishTrace(db, k, n, r, now, draw)[cut - 1]; i < |d.items| && d.items[i] == db.items[i]
  {
    hide *;
    EarlyCuts(db, k, n, r, now, draw);
    ItemPartEffect(db, k, n, r, now, draw);
    FinishLeavesOthers(db, k, n, r, now, draw, i);
    TraceTail(db, k, n, r, now, draw);
    var trace := FinishTrace(db, k, n, r, now, draw);
    TailEffect(trace[2], db.items[k].job, now);
    OnlyOneRow(db, trace[2], k, FateOf(r, n), i);
  }

  /** An open row ends by its own finish, or by a cancel of its job. */
  lemma RowEnds(s: State, a: Action, i: nat)
    requires i < |s.db.items| && !IsTerminalItem(s.db.items[i].status)
    ensures var t, j := Apply(s, a), s.db.items[i].job;
            && i < |t.db.items|
            && (IsTerminalItem(t.db.items[i].status) ==>
                  || ((a.Finish? || a.CrashInFinish?) && a.item == i && CanFinish(s, i))
                  || ((a.CancelJob? || a.CrashInCancel?) && a.job == j < |t.db.jobs| && t.db.jobs[j].status.CANCELLED?))
  {
    hide Apply, FinishTrace;
    if s.proc.None? || a.Elapse? || a.SetKillSwitch? || a.Drain? || a.Crash? || a.Restart? {
      PlainEndsNone(s, a);
    } else if a.WorkerTurn? || a.CrashInTurn? {
      TurnEndsNone(s, a);
    } else if a.CancelJob? || a.CrashInCancel? {
      CancelEndsOwnRows(s, a, i);
    } else if a.Enqueue? || a.Fire? || a.CrashInFire? {
      CreationEndsNone(s, a);
    } else if a.Finish? || a.CrashInFinish? {
      FinishActionDb(s, a);
      var cut := if a.Finish? then 5 else a.cut;
      if CanFinish(s, a.item) && 1 <= cut <= 5 {
        var n := s.proc.value.inFlight[a.item];
        FinishAddsNone(s.db, a.item, n, a.result, s.now, a.draw, cut);
        if a.item != i {
          FinishEndsOwnRow(s.db, a.item, n, a.result, s.now, a.draw, cut, i);
        }
      }
    } else {
      OtherWritesEndNone(s, a);
    }
  }

  // ---- How a job is orphaned ----

  /** A crash between making the last outstanding item of job `j` terminal and checking for completion. */
  ghost predicate OrphansBy(s: State, a: Action, j: nat)
  {
    && a.CrashInFinish? && (a.cut == 2 || a.cut == 3) && CanFinish(s, a.item) && s.db.items[a.item].job == j
    && LastOneIn(s.db, a.item, FateOf(a.result, s.proc.value.inFlight[a.item]))
  }

  /** Whatever the state and the action: a job that has items becomes orphaned exactly by such a crash. */
  lemma BecomesOrphanedIff(s: State, a: Action, j: nat)
    requires Inv(s) && (j < |Apply(s, a).db.jobs| ==> Apply(s, a).db.jobs[j].total > 0)
    ensures !Orphaned(s, j) && Orphaned(Apply(s, a), j) <==> OrphansBy(s, a, j)
  {
    hide Inv, Apply, OrphansBy;
    if OrphansBy(s, a, j) {
      OrphansByOrphans(s, a, j);
    }
    if !Orphaned(s, j) && Orphaned(Apply(s, a), j) {
      OrphanedOnlyBy(s, a, j);
    }
  }

  lemma OrphansByOrphans(s: State, a: Action, j: nat)
    requires Inv(s) && OrphansBy(s, a, j)
    ensures !Orphaned(s, j) && Orphaned(Apply(s, a), j)
  {
    hide Inv, Apply, FateOf;
    CrashInFinishOrphansIff(s, a.item, a.result, a.draw, a.cut);
    InvInFlight(s, a.item);
    InFlightStatus(s.db, s.h, a.item, s.proc.value.inFlight[a.item], s.now);
  }

  lemma OrphanedOnlyBy(s: State, a: Action, j: nat)
    requires Inv(s) && !Orphaned(s, j) && Orphaned(Apply(s, a), j) && Apply(s, a).db.jobs[j].total > 0
    ensures OrphansBy(s, a, j)
  {
    hide Inv, Apply, FateOf, FinishTrace;
    var t := Apply(s, a);
    if j >= |s.db.jobs| {
      NewJobIsNoOrphan(s, a, j);
    } else {
      var k := OpenRow(s, a, j);
      RowEnds(s, a, k);
      if a.Finish? {
        FinishActionDb(s, a);
        InvInFlight(s, k);
        LateCutOrphansNone(s.db, s.h, k, s.proc.value.inFlight[k], a.result, s.now, a.draw, 5);
      } else if a.CrashInFinish? {
        if 1 <= a.cut <= 5 {
          CrashInFinishOrphansIff(s, k, a.result, a.draw, a.cut);
        } else {
          FinishActionDb(s, a);
        }
      }
    }
  }

  /** A row that was open and no longer is, of a job that became orphaned. */
  lemma OpenRow(s: State, a: Action, j: nat) returns (k: nat)
    requires Inv(s) && j < |s.db.jobs| && !Orphaned(s, j) && Orphaned(Apply(s, a), j)
    ensures k < |s.db.items| && s.db.items[k].job == j && !IsTerminalItem(s.db.items[k].status)
    ensures k < |Apply(s, a).db.items| && IsTerminalItem(Apply(s, a).db.items[k].status)
  {
    hide Inv, Apply;
    ApplyEvolves(s, a);
    var t := Apply(s, a);
    assert !IsTerminalJob(s.db.jobs[j].status) by { var _ := t.db.jobs[j]; }
    k :| 0 <= k < |s.db.items| && s.db.items[k].job == j && !IsTerminalItem(s.db.items[k].status);
    assert t.db.items[k].job == j;
  }

  lemma NewJobIsNoOrphan(s: State, a: Action, j: nat)
    requires Inv(s) && |s.db.jobs| <= j < |Apply(s, a).db.jobs| && Apply(s, a).db.jobs[j].total > 0
    ensures !Orphaned(Apply(s, a), j)
  {
    hide Inv, Apply;
    var t := Apply(s, a);
    ApplyKeepsInv(s, a);
    JobsAndItems(t, j);
    SomeRow(t.db.items, j);
    var k: nat :| k < |t.db.items| && t.db.items[k].job == j;
    ApplyEvolves(s, a);
    OldRowsHaveOldJobs(s, t, k);
    NewRowsAreQueued(s, a, k);
  }

  lemma {:induction false} SomeRow(items: seq<Item>, j: nat)
    requires Count(items, OfJob(j)) > 0
    ensures exists k: nat :: k < |items| && items[k].job == j
  {
    var n := |items| - 1;
    if items[n].job != j {
      SomeRow(items[..n], j);
      var k: nat :| k < n && items[..n][k].job == j;
      assert items[k].job == j;
    }
  }

  lemma OldRowsHaveOldJobs(s: State, t: State, k: nat)
    requires Inv(s) && Evolves(s.db, t.db) && k < |t.db.items|
    ensures k < |s.db.items| ==> t.db.items[k].job < |s.db.jobs|
  {
    if k < |s.db.items| {
      ItemFacts(s.db, s.h, k, s.now);
      var _ := s.db.items[k];
    }
  }

  lemma NewRowsAreQueued(s: State, a: Action, k: nat)
    requires |s.db.items| <= k < |Apply(s, a).db.items|
    ensures Apply(s, a).db.items[k].status.Queued?
  {
    hide FinishTrace, StartTrace, Turn, Sched.NewSchedule, FindByKey, OccurrenceKeys.OccurrenceKey;
    if s.proc.Some? && (a.WorkerTurn? || a.CrashInTurn?) {
      TurnAddsNone(s, a);
    } else if s.proc.Some? && (a.Finish? || a.CrashInFinish?) {
      FinishActionDb(s, a);
      var cut := if a.Finish? then 5 else a.cut;
      if CanFinish(s, a.item) && 1 <= cut <= 5 {
        FinishAddsNone(s.db, a.item, s.proc.value.inFlight[a.item], a.result, s.now, a.draw, cut);
      }
    }
  }

  lemma TurnAddsNone(s: State, a: Action)
    requires s.proc.Some? && (a.WorkerTurn? || a.CrashInTurn?)
    ensures |Apply(s, a).db.items| == |s.db.items|
  {
    NextStartIsQueued(s);
    TurnClaimsEligible(s.db, s.proc.value, s.limit, WORKER, s.now);
    hide StartTrace, Turn;
    if NextStart(s).Some? {
      StartAddsNone(s.db, NextStart(s).value, s.now, if a.CrashInTurn? && 1 <= a.cut <= 5 then a.cut - 1 else 4);
    }
  }

  lemma StartAddsNone(db: Db, i: nat, now: int, cut: nat)
    requires i < |db.items| && cut < 5
    ensures |StartTrace(db, i, WORKER, now)[cut].items| == |db.items|
  {
  }

  lemma FinishAddsNone(db: Db, i: nat, n: nat, r: SendResult, now: int, draw: Draw, cut: nat)
    requires i < |db.items| && 1 <= cut <= 5
    ensures |FinishTrace(db, i, n, r, now, draw)[cut - 1].items| == |db.items|
  {
    EarlyCuts(db, i, n, r, now, draw);
    ItemPartEffect(db, i, n, r, now, draw);
    TraceTail(db, i, n, r, now, draw);
    TailEffect(FinishTrace(db, i, n, r, now, draw)[2], db.items[i].job, now);
    hide FinishTrace;
  }

  // ---- How it can be told from the others ----

  lemma {:induction false} RowCounts(items: seq<Item>, k: nat)
    requires k < |items|
    ensures Count(items, OfJob(items[k].job)) > 0
  {
    if k < |items| - 1 {
      RowCounts(items[..|items| - 1], k);
    }
  }

  /** Nothing but a crash inside a finish orphans a job. */
  lemma StepKeepsOpen(s: State, a: Action, j: nat)
    requires Inv(s) && j < |s.db.jobs| && !Orphaned(s, j) && !a.CrashInFinish?
    ensures !Orphaned(Apply(s, a), j)
  {
    hide Inv, Apply;
    ApplyEvolves(s, a);
    var _ := Apply(s, a).db.jobs[j];
    if !IsTerminalJob(s.db.jobs[j].status) {
      var k :| 0 <= k < |s.db.items| && s.db.items[k].job == j && !IsTerminalItem(s.db.items[k].status);
      RowCounts(s.db.items, k);
      JobsAndItems(s, j);
      EvolvedJob(s.db, Apply(s, a).db, j);
      BecomesOrphanedIff(s, a, j);
    }
  }

  lemma {:induction false} RunKeepsOpen(s: State, actions: seq<Action>, j: nat)
    requires Inv(s) && j < |s.db.jobs| && !Orphaned(s, j) && forall a :: a in actions ==> !a.CrashInFinish?
    ensures !Orphaned(Run(s, actions), j) && j < |Run(s, actions).db.jobs|
  {
    hide Inv, Apply, Orphaned;
    if actions != [] {
      var init, a := actions[..|actions| - 1], actions[|actions| - 1];
      assert a in actions && forall b :: b in init ==> b in actions;
      RunKeepsOpen(s, init, j);
      RunKeepsInv(s, init);
      StepKeepsOpen(Run(s, init), a, j);
      ApplyEvolves(Run(s, init), a);
      EvolvedJob(Run(s, init).db, Apply(Run(s, init), a).db, j);
    }
  }

  lemma CancelsLiveJob(s: State, a: Action, j: nat)
    requires s.proc.Some? && j < |s.db.jobs| && !IsTerminalJob(s.db.jobs[j].status)
    requires a == CancelJob(j) || a == CrashInCancel(j)
    ensures var t := Apply(s, a);
            t.db.schedules == s.db.schedules && j < |t.db.jobs| && t.db.jobs[j].status.CANCELLED?
  {
  }

  lemma NoProcessNoCancel(s: State, a: Action)
    requires s.proc.None? && (a.CancelJob? || a.CrashInCancel?)
    ensures Apply(s, a) == s
  {
  }

  /** An orphaned job stays one or is cancelled; neither ever carries a verdict. */
  lemma {:induction false} OrphanNeverSettles(s: State, actions: seq<Action>, j: nat)
    requires Inv(s) && Orphaned(s, j)
    ensures var t := Run(s, actions);
            j < |t.db.jobs| && (Orphaned(t, j) || t.db.jobs[j].status.CANCELLED?) && !IsVerdict(t.db.jobs[j].status)
  {
    hide Inv, Apply;
    if actions != [] {
      var init, a := actions[..|actions| - 1], actions[|actions| - 1];
      OrphanNeverSettles(s, init, j);
      RunKeepsInv(s, init);
      var u := Run(s, init);
      if Orphaned(u, j) {
        OrphanStep(u, a, j);
      } else {
        ApplyEvolves(u, a);
        var _ := Apply(u, a).db.jobs[j];
      }
    }
  }

  lemma OrphanStep(s: State, a: Action, j: nat)
    requires Inv(s) && Orphaned(s, j)
    ensures var t := Apply(s, a); j < |t.db.jobs| && (Orphaned(t, j) || t.db.jobs[j].status.CANCELLED?)
  {
    hide Inv, Apply;
    if a == CancelJob(j) || a == CrashInCancel(j) {
      if s.proc.Some? {
        CancelsLiveJob(s, a, j);
      } else {
        NoProcessNoCancel(s, a);
      }
    } else {
      ActionKeepsOrphaned(s, a, j);
    }
  }
}
