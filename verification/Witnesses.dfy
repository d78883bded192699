/** Concrete runs from the start into each state the engine does not leave on its own. */
module Witnesses {
  import opened Wrappers
  import opened ErrorClassifier
  import opened CircuitBreaker
  import opened Retry
  import opened Sequences
  import opened OccurrenceKeys
  import opened Tables
  import opened JobService
  import opened Claiming
  import opened Worker
  import opened Engine
  import opened Invariant
  import opened FinishStep
  import opened FinishMemory
  import opened Evolution
  import opened ScheduleLife
  import opened Progress
  import opened Tightness
  import opened Liveness
  import opened Orphans
  import opened StuckSchedules
  import Sched = Scheduler

  // ---- A stranded item and a stalled worker, from the start ----

  const HELLO: Draft := Draft(Recipient("1", ""), "hi")

  lemma FirstEnqueueWaits()
    ensures var s := Run(Init(1, 0), [Enqueue(None, [HELLO])]);
            Waiting(s, 0, 0) && s.proc == Some(NewProc()) && s.now == 0
  {
    RunOne(Init(1, 0), Enqueue(None, [HELLO]));
  }

  /** A process that is back within the lease: the item it was sending when it died is stranded. */
  lemma StrandIsReachable()
    ensures Stranded(Run(Init(1, 0), [Enqueue(None, [HELLO]), WorkerTurn, Crash, Restart]), 0)
  {
    var s0 := Init(1, 0);
    var s1, rest: seq<Action> := Run(s0, [Enqueue(None, [HELLO])]), [WorkerTurn, Crash, Restart];
    FirstEnqueueWaits();
    TurnSends(s1, 0, 0);
    var s2 := Apply(s1, WorkerTurn);
    assert Stranded(Apply(Apply(s2, Crash), Restart), 0);
    hide Apply, Waiting, InTheAir, Stranded;
    assert [Enqueue(None, [HELLO]), WorkerTurn, Crash, Restart] == [Enqueue(None, [HELLO])] + rest;
    RunConcat(s0, [Enqueue(None, [HELLO])], rest);
    RunThree(s1, WorkerTurn, Crash, Restart);
  }

  const FAILING: SendResult := Returned(SendError, None)
  const FAILING_ROUND: seq<Action> := [WorkerTurn, Finish(0, FAILING, 0.0), Elapse(60000)]

  /** Waiting for its next attempt after `n` TRANSIENT failures in a row. */
  ghost predicate Failing(s: State, n: nat)
  {
    Waiting(s, n, 0) && s.proc.value.breaker == NewBreaker(DEFAULT_THRESHOLD, DEFAULT_COOLDOWN_MS).(failures := n)
  }

  lemma TurnKeepsClosedBreaker(s: State, n: nat)
    requires Failing(s, n)
    ensures Apply(s, WorkerTurn).proc.Some? && Apply(s, WorkerTurn).proc.value.breaker == s.proc.value.breaker
  {
  }

  lemma FailingRound(s: State, n: nat)
    requires Failing(s, n) && n + 1 < MAX_ATTEMPTS
    ensures Failing(Run(s, FAILING_ROUND), n + 1)
  {
    TurnSends(s, n, 0);
    TurnKeepsClosedBreaker(s, n);
    RunThree(s, WorkerTurn, Finish(0, FAILING, 0.0), Elapse(60000));
    var b, t := s.proc.value.breaker, Apply(s, WorkerTurn);
    FinishTellsBreaker(t, FAILING);
    assert BreakerAfter(b, FAILING, t.now) == b.(failures := n + 1);
    RetryRequeues(t, n + 1, 0, FAILING);
    hide Waiting, InTheAir, Run;
  }

  lemma FinishTellsBreaker(s: State, r: SendResult)
    requires CanFinish(s, 0)
    ensures var t := Apply(Apply(s, Finish(0, r, 0.0)), Elapse(60000));
            t.proc.Some? && t.proc.value.breaker == BreakerAfter(s.proc.value.breaker, r, s.now)
  {
    hide FinishCut, FinishHistory;
  }

  /** After the fifth failure in a row the item is given up and the breaker is open. */
  lemma LastFailure(s: State)
    requires InTheAir(s, MAX_ATTEMPTS, 0)
    requires s.proc.value.breaker == NewBreaker(DEFAULT_THRESHOLD, DEFAULT_COOLDOWN_MS).(failures := MAX_ATTEMPTS - 1)
    ensures Cooling(Apply(Apply(s, Finish(0, FAILING, 0.0)), Elapse(60000)))
  {
    FailTables(s.db, s.now);
    FinishTellsBreaker(s, FAILING);
    assert map[0 := MAX_ATTEMPTS] - {0} == map[];
    hide FinishTrace;
  }

  lemma FailTables(db: Db, now: int)
    requires OneItem(db)
    ensures var d := FinishTrace(db, 0, MAX_ATTEMPTS, FAILING, now, 0.0)[4];
            |d.items| == 1 && d.items[0].status.Failed? && |d.jobs| == 1
  {
    ItemPartEffect(db, 0, MAX_ATTEMPTS, FAILING, now, 0.0);
    TraceTail(db, 0, MAX_ATTEMPTS, FAILING, now, 0.0);
    TailEffect(FinishTrace(db, 0, MAX_ATTEMPTS, FAILING, now, 0.0)[2], 0, now);
    hide FinishTrace, Sched.OnSettled;
  }

  /** Idle with an open breaker whose cooldown is over, and nothing to send. */
  ghost predicate Cooling(s: State)
  {
    && s.proc.Some? && s.proc.value.inFlight == map[] && s.proc.value.active == 0 && !s.proc.value.draining
    && s.proc.value.breaker.state.OPEN? && s.proc.value.breaker.openedAt + s.proc.value.breaker.cooldownMs <= s.now
    && s.limit == 1 && !s.disabled && |s.db.jobs| == 1 && |s.db.items| == 1 && s.db.items[0].status.Failed?
  }

  lemma CoolingStalls(s: State)
    requires Cooling(s)
    ensures var t := Apply(Apply(s, WorkerTurn), Enqueue(None, [HELLO]));
            && t.proc.Some? && IsStalled(t.proc.value) && t.limit == 1 && !t.disabled && Eligible(t.db, t.now, 1)
  {
    assert NextItem(s.db, s.now) == None;
  }

  const FOUR_ROUNDS: seq<Action> := FAILING_ROUND + FAILING_ROUND + FAILING_ROUND + FAILING_ROUND
  const LAST_ROUNDS: seq<Action> := FAILING_ROUND + [WorkerTurn, Enqueue(None, [HELLO])]

  lemma FourRounds(s: State)
    requires Failing(s, 0)
    ensures Failing(Run(s, FOUR_ROUNDS), 4)
  {
    hide Failing, Apply, Run;
    var two, three := FAILING_ROUND + FAILING_ROUND, FAILING_ROUND + FAILING_ROUND + FAILING_ROUND;
    FailingRound(s, 0);
    FailingRound(Run(s, FAILING_ROUND), 1);
    RunConcat(s, FAILING_ROUND, FAILING_ROUND);
    FailingRound(Run(s, two), 2);
    RunConcat(s, two, FAILING_ROUND);
    FailingRound(Run(s, three), 3);
    RunConcat(s, three, FAILING_ROUND);
  }

  lemma FifthRound(s: State)
    requires Failing(s, 4)
    ensures Cooling(Run(s, FAILING_ROUND))
  {
    TurnSends(s, 4, 0);
    TurnKeepsClosedBreaker(s, 4);
    RunThree(s, WorkerTurn, Finish(0, FAILING, 0.0), Elapse(60000));
    hide Apply, Cooling, InTheAir, Run;
    LastFailure(Apply(s, WorkerTurn));
  }

  lemma FirstEnqueueIsFailing()
    ensures Failing(Run(Init(1, 0), [Enqueue(None, [HELLO])]), 0)
  {
    FirstEnqueueWaits();
    hide Run, Waiting;
  }

  /** A run without a crash, with the default settings and sending enabled, that ends stalled with an item due: after
      five TRANSIENT failures of one item, a tick during the quiet spends the probe. */
  lemma StallIsReachable()
    ensures var s := Run(Init(1, 0), [Enqueue(None, [HELLO])] + FOUR_ROUNDS + LAST_ROUNDS);
            && s.proc.Some? && IsStalled(s.proc.value) && !s.disabled && s.limit == 1 && Eligible(s.db, s.now, 1)
    ensures CrashFree([Enqueue(None, [HELLO])] + FOUR_ROUNDS + LAST_ROUNDS)
  {
    hide Apply, Cooling, Failing, IsStalled, Eligible, Run, Init;
    var start, tail: seq<Action> := [Enqueue(None, [HELLO])], [WorkerTurn, Enqueue(None, [HELLO])];
    var s1 := Run(Init(1, 0), start);
    FirstEnqueueIsFailing();
    FourRounds(s1);
    var s2 := Run(s1, FOUR_ROUNDS);
    FifthRound(s2);
    var s3 := Run(s2, FAILING_ROUND);
    CoolingStalls(s3);
    RunTwo(s3, WorkerTurn, Enqueue(None, [HELLO]));
    RunConcat(s2, FAILING_ROUND, tail);
    RunConcat(Init(1, 0), start, FOUR_ROUNDS);
    RunConcat(Init(1, 0), start + FOUR_ROUNDS, LAST_ROUNDS);
  }

  // ---- An orphaned job, and a stuck schedule in each of its three ways ----


  const CUT_SHORT: Action := CrashInFinish(0, DELIVERED, 0.0, 2)

  /** A crash between marking the only item succeeded and counting it: its job is left running for good. */
  lemma OrphanIsReachable()
    ensures Orphaned(Run(Init(1, 0), [Enqueue(None, [HELLO])] + [WorkerTurn, CUT_SHORT, Restart]), 0)
  {
    hide Apply, Run, Waiting, InTheAir, Orphaned, Inv, LastOneIn, CanFinish, Init;
    var s0, start: seq<Action> := Init(1, 0), [Enqueue(None, [HELLO])];
    var s1 := Run(s0, start);
    FirstEnqueueWaits();
    TurnSends(s1, 0, 0);
    ReachableStatesAreInv(1, 0, start);
    ApplyKeepsInv(s1, WorkerTurn);
    CutShortOrphans(Apply(s1, WorkerTurn));
    RunThree(s1, WorkerTurn, CUT_SHORT, Restart);
    RunConcat(s0, start, [WorkerTurn, CUT_SHORT, Restart]);
  }

  lemma CutShortOrphans(s: State)
    requires Inv(s) && InTheAir(s, 1, 0)
    ensures Orphaned(Apply(Apply(s, CUT_SHORT), Restart), 0)
  {
    InTheAirIsLast(s);
    hide Apply, InTheAir, Orphaned, Inv, LastOneIn, CanFinish, FateOf;
    ApplyKeepsInv(s, CUT_SHORT);
    CrashInFinishOrphansIff(s, 0, DELIVERED, 0.0, 2);
    ActionKeepsOrphaned(Apply(s, CUT_SHORT), Restart, 0);
  }

  lemma InTheAirIsLast(s: State)
    requires InTheAir(s, 1, 0)
    ensures CanFinish(s, 0) && s.db.items[0].job == 0 && LastOneIn(s.db, 0, FateOf(DELIVERED, s.proc.value.inFlight[0]))
  {
  }

  const DAILY: Action := AddSchedule("s", [Recipient("1", "")], "hi", Some(0),
                                     Some(Sched.RepeatRequest(1, Some(Days), None)))

  /** One schedule, due, whose occurrence has no job; the process is idle. */
  ghost predicate Due(s: State)
  {
    && s.proc == Some(NewProc()) && s.limit == 1 && s.now == 0 && !s.disabled && CanFire(s, "s")
    && s.db.jobs == [] && s.db.items == [] && s.db.schedules.Keys == {"s"}
    && |s.db.schedules["s"].recipients| == 1 && s.db.schedules["s"].nextRunAt == 0
  }

  lemma DailyIsDue()
    ensures Due(Run(Init(1, 0), [DAILY]))
  {
    RunOne(Init(1, 0), DAILY);
    assert Sched.DigitsOf("1") == "1" by {
      assert "1"[1..] == "";
    }
    assert Sched.NormalizeRecipients([Recipient("1", "")]) == [Recipient("1", "")] by {
      assert [Recipient("1", "")][1..] == [];
    }
  }

  /** Its job exists and has nothing done on it yet; `sent` says whether the row is marked. */
  ghost predicate Fired(s: State, sent: bool)
  {
    && s.limit == 1 && s.now == 0 && !s.disabled && "s" in s.db.schedules
    && s.db.schedules["s"].nextRunAt == 0 && s.db.schedules["s"].status == (if sent then Sending else Scheduled)
    && |s.db.jobs| == 1 && s.db.jobs[0].status.QUEUED? && s.db.jobs[0].total == 1
    && s.db.jobs[0].key == Some(OccurrenceKey("s", 0)) && s.db.jobs[0].source == Some("s")
    && |s.db.items| == 1 && s.db.items[0].job == 0 && s.db.items[0].status.Queued? && s.db.items[0].attemptCount == 0
    && s.db.items[0].nextAttemptAt == 0
  }

  lemma FireFires(s: State)
    requires Due(s)
    ensures Fired(Apply(s, Fire("s")), true) && Apply(s, Fire("s")).proc == Some(NewProc())
    ensures Fired(Apply(s, CrashInFire("s")), false) && Apply(s, CrashInFire("s")).proc.None?
  {
    hide OccurrenceKey;
  }

  lemma FiredHasJob(s: State, sent: bool)
    requires Fired(s, sent)
    ensures CurrentJob(s.db, "s") == Some(0) && HasLiveJob(s.db, "s")
  {
    hide OccurrenceKey;
  }

  /** A schedule whose job is cancelled while it is being sent. */
  lemma StuckByCancel()
    ensures Stuck(Run(Init(1, 0), [DAILY, Fire("s"), CancelJob(0)]), "s")
  {
    var s0 := Init(1, 0);
    var s1 := Apply(s0, DAILY);
    hide Apply, Due, Stuck, Inv, Init, OccurrenceKey, CurrentJob, HasLiveJob;
    DailyIsDue();
    RunOne(s0, DAILY);
    FireFires(s1);
    var s2 := Apply(s1, Fire("s"));
    FiredHasJob(s2, true);
    ReachableStatesAreInv(1, 0, [DAILY, Fire("s")]);
    RunTwo(s0, DAILY, Fire("s"));
    CancelSticks(s2, CancelJob(0), "s");
    RunThree(s0, DAILY, Fire("s"), CancelJob(0));
  }

  /** A schedule whose process dies right behind its job's verdict, and comes back. */
  lemma StuckByCrash()
    ensures Stuck(Run(Init(1, 0), [DAILY, Fire("s"), WorkerTurn] + [CrashInFinish(0, DELIVERED, 0.0, 4), Restart]), "s")
  {
    var s0, front: seq<Action> := Init(1, 0), [DAILY, Fire("s"), WorkerTurn];
    var s1 := Apply(s0, DAILY);
    hide Apply, Due, Stuck, Inv, Init, OccurrenceKey, CurrentJob, HasLiveJob, CanFinish, FinishCut, Settles, Flying,
         Fired;
    DailyIsDue();
    RunOne(s0, DAILY);
    FireFires(s1);
    var s3, crash := Apply(Apply(s1, Fire("s")), WorkerTurn), CrashInFinish(0, DELIVERED, 0.0, 4);
    FiredFlies(Apply(s1, Fire("s")));
    FlyingSettles(s3);
    RunThree(s0, DAILY, Fire("s"), WorkerTurn);
    ReachableStatesAreInv(1, 0, front);
    ApplyKeepsInv(s3, crash);
    CrashAfterVerdictSticks(s3, crash, "s");
    ActionKeepsStuck(Apply(s3, crash), Restart, "s");
    RunTwo(s3, crash, Restart);
    RunConcat(s0, front, [crash, Restart]);
  }

  /** The fired job's only item has been sent for the first time. */
  ghost predicate Flying(s: State)
  {
    && s.proc.Some? && s.proc.value.inFlight == map[0 := 1] && "s" in s.db.schedules
    && s.db.schedules["s"].nextRunAt == 0 && s.db.schedules["s"].status.Sending?
    && |s.db.jobs| == 1 && s.db.jobs[0].status.RUNNING? && s.db.jobs[0].total == 1
    && s.db.jobs[0].key == Some(OccurrenceKey("s", 0))
    && |s.db.items| == 1 && s.db.items[0].job == 0 && s.db.items[0].status.Running?
  }

  lemma FiredFlies(s: State)
    requires Fired(s, true) && s.proc == Some(NewProc())
    ensures Flying(Apply(s, WorkerTurn))
  {
    hide OccurrenceKey;
    assert Eligible(s.db, s.now, 0);
    assert NextItem(s.db, s.now) == Some(0);
  }

  lemma FlyingSettles(s: State)
    requires Flying(s)
    ensures CutBehindVerdict(s, CrashInFinish(0, DELIVERED, 0.0, 4), "s")
  {
    FlyingTables(s.db);
    hide OccurrenceKey, FinishTrace, Settles;
  }

  lemma FlyingTables(db: Db)
    requires |db.jobs| == 1 && db.jobs[0].status.RUNNING? && db.jobs[0].total == 1
    requires |db.items| == 1 && db.items[0].job == 0 && db.items[0].status.Running?
    ensures Settles(FinishTrace(db, 0, 1, DELIVERED, 0, 0.0)[2], 0)
    ensures forall now :: FinishTrace(db, 0, 1, DELIVERED, now, 0.0)[2] == FinishTrace(db, 0, 1, DELIVERED, 0, 0.0)[2]
  {
    var d := FinishTrace(db, 0, 1, DELIVERED, 0, 0.0)[2];
    ItemPartEffect(db, 0, 1, DELIVERED, 0, 0.0);
    assert d.items[..0] == [];
    assert Count(d.items, OfJob(0)) == 1;
    hide FinishTrace;
    CompletionMeansAllTerminal(d, 0);
  }

  /** A schedule whose process dies between marking its job's only item and counting it, and comes back: no job of its
      is terminal, and it sends for good. */
  lemma SentForGoodByOrphan()
    ensures var s := Run(Init(1, 0), [DAILY, Fire("s"), WorkerTurn] + [CUT_SHORT, Restart]);
            SentForGood(s, "s") && !Stuck(s, "s")
  {
    var s0, front: seq<Action> := Init(1, 0), [DAILY, Fire("s"), WorkerTurn];
    var s1 := Apply(s0, DAILY);
    hide Apply, Due, Stuck, SentForGood, Inv, Init, OccurrenceKey, CurrentJob, CanFinish, Flying, Fired, OrphansBy;
    DailyIsDue();
    RunOne(s0, DAILY);
    FireFires(s1);
    var s2 := Apply(s1, Fire("s"));
    var s3 := Apply(s2, WorkerTurn);
    FiredFlies(s2);
    FlyingOrphans(s3);
    RunThree(s0, DAILY, Fire("s"), WorkerTurn);
    ReachableStatesAreInv(1, 0, front);
    ApplyKeepsInv(s3, CUT_SHORT);
    OrphaningSendsForGood(s3, CUT_SHORT, "s");
    OrphanedIsNotStuck(s3, CUT_SHORT);
    var s4 := Apply(s3, CUT_SHORT);
    ActionKeepsSent(s4, Restart, "s");
    BecomesStuckIff(s4, Restart, "s");
    RunTwo(s3, CUT_SHORT, Restart);
    RunConcat(s0, front, [CUT_SHORT, Restart]);
  }

  lemma FlyingOrphans(s: State)
    requires Flying(s)
    ensures OrphanedWhileSending(s, CUT_SHORT, "s")
  {
    hide OccurrenceKey;
  }

  lemma OrphanedIsNotStuck(s: State, a: Action)
    requires Inv(s) && OrphanedWhileSending(s, a, "s")
    ensures !Stuck(Apply(s, a), "s")
  {
    hide Inv, Apply, OccurrenceKey, CurrentJob, CanFinish, LastOneIn;
    var j := CurrentJob(s.db, "s").value;
    OrphansByOrphans(s, a, j);
    OrphaningKeepsRow(s, a, "s", j);
    CurrentStays(s, a, "s", j);
  }

  /** A crash between the job and the mark, a cancel, and the next tick: marked as sending for a cancelled job. */
  lemma StuckByLateFire()
    ensures !Stuck(Run(Init(1, 0), [DAILY, CrashInFire("s"), Restart] + [CancelJob(0)]), "s")
    ensures Stuck(Run(Init(1, 0), [DAILY, CrashInFire("s"), Restart] + [CancelJob(0), Fire("s")]), "s")
  {
    var s0, front: seq<Action> := Init(1, 0), [DAILY, CrashInFire("s"), Restart];
    var s1 := Apply(s0, DAILY);
    hide Apply, Due, Stuck, Inv, Init, Fired, FiredTooLate;
    DailyIsDue();
    RunOne(s0, DAILY);
    FireFires(s1);
    var s3 := Apply(Apply(s1, CrashInFire("s")), Restart);
    CancelledBeforeFire(Apply(s1, CrashInFire("s")));
    var s4 := Apply(s3, CancelJob(0));
    RunThree(s0, DAILY, CrashInFire("s"), Restart);
    ReachableStatesAreInv(1, 0, front);
    ApplyKeepsInv(s3, CancelJob(0));
    LateFireSticks(s4, Fire("s"), "s");
    RunOne(s3, CancelJob(0));
    RunConcat(s0, front, [CancelJob(0)]);
    RunTwo(s3, CancelJob(0), Fire("s"));
    RunConcat(s0, front, [CancelJob(0), Fire("s")]);
  }

  lemma CancelledBeforeFire(s: State)
    requires Fired(s, false) && s.proc.None?
    ensures FiredTooLate(Apply(Apply(s, Restart), CancelJob(0)), Fire("s"), "s")
  {
    hide OccurrenceKey;
  }
}
