/** The bound MAX_ATTEMPTS + recoveries on sends is attained, for any number of recoveries: the attempt limit alone
    does not bound an item across crash and restart cycles. */
module Tightness {
  import opened Wrappers
  import opened ErrorClassifier
  import opened Retry
  import opened Sequences
  import opened Tables
  import opened JobService
  import opened Claiming
  import opened Worker
  import opened Engine
  import opened FinishStep

  /** One job with one item, idle and due; the item was sent `n` times and recovered `r` times. */
  ghost predicate Waiting(s: State, n: nat, r: nat)
  {
    && s.proc.Some? && s.proc.value.inFlight == map[] && s.proc.value.active == 0 && !s.proc.value.draining
    && s.proc.value.breaker.state.CLOSED? && s.limit == 1 && !s.disabled
    && OneItem(s.db) && s.db.items[0].status.Queued? && s.db.items[0].attemptCount == n
        && s.db.items[0].nextAttemptAt <= s.now
    && s.h.sends == [n] && s.h.recoveries == [r]
  }

  ghost predicate OneItem(db: Db)
  {
    && |db.jobs| == 1 && (db.jobs[0].status.QUEUED? || db.jobs[0].status.RUNNING?) && db.jobs[0].total == 1
    && |db.items| == 1 && db.items[0].job == 0
  }

  /** The same with the item sent once more and in flight. */
  ghost predicate InTheAir(s: State, n: nat, r: nat)
  {
    && s.proc.Some? && s.proc.value.inFlight == map[0 := n] && s.proc.value.active == 1 && !s.proc.value.draining
    && s.proc.value.breaker.state.CLOSED? && s.limit == 1 && !s.disabled
    && OneItem(s.db) && s.db.items[0].status.Running? && s.db.items[0].attemptCount == n
        && s.db.items[0].nextAttemptAt <= s.now
    && s.db.items[0].leaseExpiresAt == Some(s.now + LEASE_MS)
    && s.h.sends == [n] && s.h.recoveries == [r]
  }

  lemma TurnSends(s: State, n: nat, r: nat)
    requires Waiting(s, n, r)
    ensures InTheAir(Apply(s, WorkerTurn), n + 1, r)
  {
    assert Eligible(s.db, s.now, 0);
    assert NextItem(s.db, s.now) == Some(0);
  }

  predicate IsRetried(result: SendResult)
  {
    CategoryOf(result).Some? && IsRetryable(CategoryOf(result).value)
  }

  const PUZZLING: SendResult := Returned(Other("later"), None)

  lemma RetryRequeues(s: State, n: nat, r: nat, result: SendResult)
    requires InTheAir(s, n, r) && n < MAX_ATTEMPTS && IsRetried(result)
    requires BreakerAfter(s.proc.value.breaker, result, s.now).state.CLOSED?
    ensures Waiting(Apply(Apply(s, Finish(0, result, 0.0)), Elapse(60000)), n, r)
  {
    RetryTables(s.db, n, s.now, result);
    assert map[0 := n] - {0} == map[];
    hide FinishTrace, OneItem;
  }

  lemma RetryTables(db: Db, n: nat, now: int, result: SendResult)
    requires OneItem(db) && db.items[0].status.Running? && n < MAX_ATTEMPTS && IsRetried(result)
    ensures var trace := FinishTrace(db, 0, n, result, now, 0.0);
            && OneItem(trace[4]) && trace[4].items[0].status.Queued?
            && trace[4].items[0].attemptCount == db.items[0].attemptCount
                && trace[4].items[0].nextAttemptAt <= now + 60000
            && !Settles(trace[2], 0)
  {
    var trace := FinishTrace(db, 0, n, result, now, 0.0);
    BackoffBounds(n, 0.0);
    RouteIsSetItem(FinishAttempt(db, 0, n, result), 0, n, result, now, 0.0);
    assert OneItem(trace[2]) && trace[2].items[0].status.Queued?;
    CompletionMeansAllTerminalForOne(trace[2]);
  }

  /** UNKNOWN failures never trip the breaker. */
  lemma PuzzlingRequeues(s: State, n: nat, r: nat)
    requires InTheAir(s, n, r) && n < MAX_ATTEMPTS
    ensures Waiting(Apply(Apply(s, Finish(0, PUZZLING, 0.0)), Elapse(60000)), n, r)
  {
    hide Apply, OneItem;
    RetryRequeues(s, n, r, PUZZLING);
  }

  lemma CompletionMeansAllTerminalForOne(db: Db)
    requires OneItem(db) && db.items[0].status.Queued?
    ensures !Settles(db, 0)
  {
    assert db.items[..0] == [];
    RowsAreTerminalOrOpen(db.items, 0);
    assert Count(db.items, OfJob(0)) == 1 && Count(db.items, OpenIn(0)) == 1;
  }

  lemma CrashAndRestartRequeue(s: State, n: nat, r: nat)
    requires InTheAir(s, n, r)
    ensures Waiting(Apply(Apply(Apply(s, Crash), Elapse(LEASE_MS + 1)), Restart), n, r + 1)
  {
  }

  const RETRY_ROUND: seq<Action> := [WorkerTurn, Finish(0, PUZZLING, 0.0), Elapse(60000)]
  const CRASH_ROUND: seq<Action> := [WorkerTurn, Crash, Elapse(LEASE_MS + 1), Restart]

  lemma RetryRound(s: State, n: nat, r: nat)
    requires Waiting(s, n, r) && n + 1 < MAX_ATTEMPTS
    ensures Waiting(Run(s, RETRY_ROUND), n + 1, r)
  {
    hide Waiting, InTheAir, Apply;
    TurnSends(s, n, r);
    PuzzlingRequeues(Apply(s, WorkerTurn), n + 1, r);
    var two: seq<Action> := [WorkerTurn, Finish(0, PUZZLING, 0.0)];
    assert RETRY_ROUND == two + [Elapse(60000)] && two == [WorkerTurn] + [Finish(0, PUZZLING, 0.0)];
    RunConcat(s, two, [Elapse(60000)]);
    RunConcat(s, [WorkerTurn], [Finish(0, PUZZLING, 0.0)]);
    RunOne(s, WorkerTurn);
    RunOne(Apply(s, WorkerTurn), Finish(0, PUZZLING, 0.0));
    RunOne(Run(s, two), Elapse(60000));
  }

  lemma CrashRound(s: State, n: nat, r: nat)
    requires Waiting(s, n, r)
    ensures Waiting(Run(s, CRASH_ROUND), n + 1, r + 1)
  {
    hide Waiting, InTheAir, Apply;
    TurnSends(s, n, r);
    CrashAndRestartRequeue(Apply(s, WorkerTurn), n + 1, r);
    var two: seq<Action> := [WorkerTurn, Crash];
    var late: seq<Action> := [Elapse(LEASE_MS + 1), Restart];
    assert CRASH_ROUND == two + late && two == [WorkerTurn] + [Crash] && late == [Elapse(LEASE_MS + 1)] + [Restart];
    RunConcat(s, two, late);
    RunConcat(s, [WorkerTurn], [Crash]);
    RunConcat(Run(s, two), [Elapse(LEASE_MS + 1)], [Restart]);
    RunOne(s, WorkerTurn);
    RunOne(Apply(s, WorkerTurn), Crash);
    RunOne(Run(s, two), Elapse(LEASE_MS + 1));
    RunOne(Apply(Run(s, two), Elapse(LEASE_MS + 1)), Restart);
  }

  lemma {:induction false} ManyRounds(s: State, retries: nat, r: nat) returns (actions: seq<Action>)
    requires Waiting(s, 0, 0) && retries < MAX_ATTEMPTS
    ensures Waiting(Run(s, actions), retries + r, r)
    decreases retries + r
  {
    hide Waiting;
    if r > 0 {
      var before := ManyRounds(s, retries, r - 1);
      CrashRound(Run(s, before), retries + r - 1, r - 1);
      RunConcat(s, before, CRASH_ROUND);
      actions := before + CRASH_ROUND;
    } else if retries > 0 {
      var before := ManyRounds(s, retries - 1, 0);
      RetryRound(Run(s, before), retries - 1, 0);
      RunConcat(s, before, RETRY_ROUND);
      actions := before + RETRY_ROUND;
    } else {
      actions := [];
    }
  }

  /** For every r some run recovers one item r times and sends it MAX_ATTEMPTS + r times. */
  lemma SendBoundIsAttained(r: nat) returns (actions: seq<Action>)
    ensures var s := Run(Init(1, 0), actions);
            s.h.sends == [MAX_ATTEMPTS + r] && s.h.recoveries == [r]
  {
    var enqueue := Enqueue(None, [Draft(Recipient("1", ""), "hi")]);
    RunOne(Init(1, 0), enqueue);
    var s := Run(Init(1, 0), [enqueue]);
    assert Waiting(s, 0, 0);
    var rounds := ManyRounds(s, MAX_ATTEMPTS - 1, r);
    RunConcat(Init(1, 0), [enqueue], rounds);
    TurnSends(Run(s, rounds), MAX_ATTEMPTS - 1 + r, r);
    RunOne(Run(s, rounds), WorkerTurn);
    RunConcat(Init(1, 0), [enqueue] + rounds, [WorkerTurn]);
    actions := [enqueue] + rounds + [WorkerTurn];
  }
}
