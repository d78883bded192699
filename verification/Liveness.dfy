/** The work can still be done: from every state some continuation gives every job its verdict that is not orphaned. */
module Liveness {
  import opened Wrappers
  import opened ErrorClassifier
  import opened CircuitBreaker
  import opened Retry
  import opened Sequences
  import opened Tables
  import opened JobService
  import opened Claiming
  import opened Worker
  import opened Engine
  import opened Invariant
  import opened Frames
  import opened FinishStep
  import opened FinishMemory
  import opened Evolution
  import opened Ledgers
  import opened Stalls
  import opened Orphans

  predicate IsLive(s: JobStatus) { s.QUEUED? || s.RUNNING? }

  /** Up, sending enabled, with permits, not draining and not stalled. */
  ghost predicate Able(s: State)
  {
    s.proc.Some? && !s.proc.value.draining && !s.disabled && s.limit > 0 && !Stalled(s)
  }

  /** Every claimed or running row is in flight. */
  ghost predicate NoStrays(s: State)
  {
    s.proc.Some? ==>
      forall i {:trigger s.db.items[i]} :: 0 <= i < |s.db.items| ==>
        (s.db.items[i].status.Claimed? || s.db.items[i].status.Running? ==> i in s.proc.value.inFlight)
  }

  ghost predicate Healthy(s: State)
  {
    Inv(s) && Able(s) && NoStrays(s)
  }

  lemma CrashFreeHasNoStrays(s: State)
    requires Inv(s) && s.h.crashes == 0
    ensures NoStrays(s)
  {
    forall i | 0 <= i < |s.db.items| && (s.db.items[i].status.Claimed? || s.db.items[i].status.Running?)
      ensures i in s.proc.value.inFlight
    {
      assert CleanItem(s.db.items[i], i, s.h.torn[i], s.proc.value);
    }
  }

  // ---- Something to do ----

  /** In a crash-free state a live job that has items has one in flight, or a queued one that is eligible from its
      next attempt time on. */
  lemma LiveJobHasWork(s: State, j: nat) returns (i: nat)
    requires Inv(s) && s.h.crashes == 0 && j < |s.db.jobs| && IsLive(s.db.jobs[j].status) && s.db.jobs[j].total > 0
    ensures s.proc.Some? && i < |s.db.items| && s.db.items[i].job == j
    ensures i in s.proc.value.inFlight ||
            (s.db.items[i].status.Queued? && forall now :: now >= s.db.items[i].nextAttemptAt ==>
             Eligible(s.db, now, i))
  {
    OpenRowOf(s, j);
    i :| i < |s.db.items| && s.db.items[i].job == j && !IsTerminalItem(s.db.items[i].status);
    CrashFreeHasNoStrays(s);
    assert s.proc.Some?;
    OpenRowWaitsOrFlies(s, i);
  }

  lemma OpenRowOf(s: State, j: nat)
    requires Inv(s) && s.h.crashes == 0 && j < |s.db.jobs| && IsLive(s.db.jobs[j].status) && s.db.jobs[j].total > 0
    ensures exists i: nat :: i < |s.db.items| && s.db.items[i].job == j && !IsTerminalItem(s.db.items[i].status)
  {
    assert CleanJob(s.db.jobs[j], s.db.items, j);
    hide Inv;
    NoOpenRow(s.db.items, j);
  }

  lemma OpenRowWaitsOrFlies(s: State, i: nat)
    requires NoStrays(s) && s.proc.Some? && i < |s.db.items| && !IsTerminalItem(s.db.items[i].status)
    ensures s.db.items[i].status.Queued? || i in s.proc.value.inFlight
  {
    var _ := s.db.items[i];
  }

  // ---- Doing it ----

  function Unsettled(): Item -> bool { (it: Item) => !IsSettledItem(it.status) }

  /** Live jobs stay live or get a verdict. */
  ghost predicate JobsGoOn(a: Db, b: Db)
  {
    && |b.jobs| == |a.jobs|
    && forall j {:trigger b.jobs[j]} {:trigger a.jobs[j]} :: 0 <= j < |a.jobs| ==>
         && (IsLive(a.jobs[j].status) ==> IsLive(b.jobs[j].status) || IsVerdict(b.jobs[j].status))
         && (IsVerdict(a.jobs[j].status) ==> IsVerdict(b.jobs[j].status))
         && b.jobs[j].total == a.jobs[j].total
  }

  lemma GoOnTransitively(a: Db, b: Db, c: Db)
    requires JobsGoOn(a, b) && JobsGoOn(b, c)
    ensures JobsGoOn(a, c)
  {
    forall j | 0 <= j < |a.jobs|
      ensures IsLive(a.jobs[j].status) ==> IsLive(c.jobs[j].status) || IsVerdict(c.jobs[j].status)
      ensures IsVerdict(a.jobs[j].status) ==> IsVerdict(c.jobs[j].status)
      ensures c.jobs[j].total == a.jobs[j].total
    {
      var _ := b.jobs[j];
    }
  }

  const DELIVERED: SendResult := Returned(Sent, None)

  /** Delivering an item in flight settles one item more. */
  lemma Deliver(s: State, i: nat)
    requires Healthy(s) && CanFinish(s, i)
    ensures var t := Apply(s, Finish(i, DELIVERED, 0.0));
            Healthy(t) && JobsGoOn(s.db, t.db) && Count(t.db.items, Unsettled()) < Count(s.db.items, Unsettled())
  {
    hide Inv, FinishTrace, JobsGoOn, Apply, Stalled, NoStrays;
    var a := Finish(i, DELIVERED, 0.0);
    ApplyKeepsInv(s, a);
    InFlightIsOpen(s, i);
    FinishActionDb(s, a);
    DeliveredTables(s.db, i, s.proc.value.inFlight[i], s.now);
    DeliveredProcess(s, i);
    DeliveredNoStrays(s, Apply(s, a), i);
  }

  lemma DeliveredProcess(s: State, i: nat)
    requires Able(s) && CanFinish(s, i)
    ensures var t := Apply(s, Finish(i, DELIVERED, 0.0));
            Able(t) && t.proc.value.inFlight == s.proc.value.inFlight - {i}
  {
    hide FinishCut, Settles;
  }

  lemma DeliveredNoStrays(s: State, t: State, i: nat)
    requires NoStrays(s) && CanFinish(s, i) && t.proc.Some? && t.proc.value.inFlight == s.proc.value.inFlight - {i}
    requires |t.db.items| == |s.db.items| && t.db.items == s.db.items[i := t.db.items[i]]
             && t.db.items[i].status.Succeeded?
    ensures NoStrays(t)
  {
    forall k | 0 <= k < |t.db.items| && (t.db.items[k].status.Claimed? || t.db.items[k].status.Running?)
      ensures k in t.proc.value.inFlight
    {
      assert t.db.items[k] == s.db.items[k];
    }
  }

  lemma DeliveredTables(db: Db, i: nat, n: nat, now: int)
    requires i < |db.items| && !IsSettledItem(db.items[i].status)
    ensures var d := FinishTrace(db, i, n, DELIVERED, now, 0.0)[4];
            && JobsGoOn(db, d) && Count(d.items, Unsettled()) < Count(db.items, Unsettled())
            && |d.items| == |db.items| && d.items == db.items[i := d.items[i]] && d.items[i].status.Succeeded?
  {
    hide FinishTrace, JobsGoOn, Settle, Settles;
    var trace, j := FinishTrace(db, i, n, DELIVERED, now, 0.0), db.items[i].job;
    ItemPartEffect(db, i, n, DELIVERED, now, 0.0);
    TraceTail(db, i, n, DELIVERED, now, 0.0);
    TailEffect(trace[2], j, now);
    CountUpdate(db.items, i, trace[2].items[i], Unsettled());
    RoutedGoesOn(db, trace[2], i, Succeeded);
    SettleGoesOn(trace[2], j, now);
    GoOnTransitively(db, trace[2], Settle(trace[2], j, now));
    GoOnReadsJobs(db, Settle(trace[2], j, now), trace[4]);
  }

  lemma RoutedGoesOn(db: Db, d3: Db, i: nat, fate: ItemStatus)
    requires ItemPartDone(db, d3, i, fate)
    ensures JobsGoOn(db, d3)
  {
  }

  lemma SettleGoesOn(db: Db, j: nat, now: int)
    ensures JobsGoOn(db, Settle(db, j, now))
  {
  }

  lemma GoOnReadsJobs(a: Db, b: Db, c: Db)
    requires JobsGoOn(a, b) && c.jobs == b.jobs
    ensures JobsGoOn(a, c)
  {
  }

  /** Enough for the row's next attempt and for the breaker's cooldown. */
  function LongEnough(s: State, k: nat): nat
    requires s.proc.Some? && k < |s.db.items|
  {
    var b := s.proc.value.breaker;
    Max(0, Max(s.db.items[k].nextAttemptAt - s.now, b.openedAt + b.cooldownMs - s.now))
  }

  /** Idle with a queued row of a live job: a late enough turn takes some row. */
  lemma Take(s: State, k: nat) returns (i: nat)
    requires Healthy(s) && s.proc.value.inFlight.Keys == {}
    requires k < |s.db.items| && s.db.items[k].status.Queued? && IsLiveRow(s.db, k)
    ensures var t := Apply(Apply(s, Elapse(LongEnough(s, k))), WorkerTurn);
            && Healthy(t) && CanFinish(t, i) && JobsGoOn(s.db, t.db)
            && Count(t.db.items, Unsettled()) == Count(s.db.items, Unsettled())
  {
    var u := Apply(s, Elapse(LongEnough(s, k)));
    assert Eligible(u.db, u.now, k);
    IdleHasPermits(s);
    ProbeIsMarked(s);
    assert NoStrays(u);
    hide Inv, JobsGoOn, Eligible, LongEnough, IsLiveRow, NoStrays;
    ApplyKeepsInv(s, Elapse(LongEnough(s, k)));
    ApplyKeepsInv(u, WorkerTurn);
    i := TurnTakes(u, k);
  }

  predicate IsLiveRow(db: Db, k: nat)
    requires k < |db.items|
  {
    db.items[k].job < |db.jobs| && IsLive(db.jobs[db.items[k].job].status)
  }

  lemma IdleHasPermits(s: State)
    requires Healthy(s) && s.proc.value.inFlight.Keys == {}
    ensures s.proc.value.active == 0 < s.limit
  {
    PermitCount(s);
    assert |s.proc.value.inFlight.Keys| == |s.proc.value.inFlight|;
  }

  lemma TurnTakes(u: State, k: nat) returns (i: nat)
    requires Able(u) && NoStrays(u) && u.proc.value.inFlight.Keys == {} && u.proc.value.active == 0
             && ProbeMarksHalfOpen(u.proc.value.breaker)
    requires Eligible(u.db, u.now, k)
    requires u.proc.value.breaker.state.OPEN? ==>
             u.now >= u.proc.value.breaker.openedAt + u.proc.value.breaker.cooldownMs
    ensures var t := Apply(u, WorkerTurn);
            && Able(t) && NoStrays(t) && CanFinish(t, i) && JobsGoOn(u.db, t.db)
            && Count(t.db.items, Unsettled()) == Count(u.db.items, Unsettled())
  {
    IdleButNotStalledTicksClaim(u.db, u.proc.value, u.limit, WORKER, u.now, k);
    i := NextStart(u).value;
    TurnTaken(u, i);
    StartStraysNone(u, Apply(u, WorkerTurn), i);
    StartGoesOn(u.db, i, u.now);
    TurnIsQuiet(u, WorkerTurn);
    QuietKeepsUnsettled(u.db, Apply(u, WorkerTurn).db);
    hide StartTrace, CanAttempt;
  }

  lemma TurnTaken(u: State, i: nat)
    requires Able(u) && NextStart(u) == Some(i)
    ensures var t := Apply(u, WorkerTurn);
            && Able(t) && CanFinish(t, i) && i < |u.db.items| && u.db.items[i].status.Queued?
            && t.db == StartTrace(u.db, i, WORKER, u.now)[4]
            && t.proc.value.inFlight.Keys == u.proc.value.inFlight.Keys + {i}
  {
    NextStartIsQueued(u);
    StartedRows(u.db, i, u.now);
    hide StartTrace, CanAttempt, NextItem;
    var t := Apply(u, WorkerTurn);
    assert i in t.proc.value.inFlight.Keys;
  }

  lemma StartedRows(db: Db, i: nat, now: int)
    requires i < |db.items|
    ensures var d := StartTrace(db, i, WORKER, now)[4];
            |d.items| == |db.items| && forall k :: 0 <= k < |db.items| && k != i ==> d.items[k] == db.items[k]
  {
  }

  lemma StartStraysNone(u: State, t: State, i: nat)
    requires NoStrays(u) && u.proc.Some? && t.proc.Some? && i < |u.db.items|
    requires t.proc.value.inFlight.Keys == u.proc.value.inFlight.Keys + {i}
    requires t.db == StartTrace(u.db, i, WORKER, u.now)[4]
    ensures NoStrays(t)
  {
    StartedRows(u.db, i, u.now);
    hide StartTrace;
    forall k | 0 <= k < |t.db.items| && (t.db.items[k].status.Claimed? || t.db.items[k].status.Running?)
      ensures k in t.proc.value.inFlight
    {
      assert k != i ==> t.db.items[k] == u.db.items[k];
      assert k in t.proc.value.inFlight.Keys;
    }
  }

  lemma StartGoesOn(db: Db, i: nat, now: int)
    requires i < |db.items|
    ensures JobsGoOn(db, StartTrace(db, i, WORKER, now)[4])
  {
  }

  lemma QuietKeepsUnsettled(db: Db, d: Db)
    requires Quiet(db, d)
    ensures Count(d.items, Unsettled()) == Count(db.items, Unsettled())
  {
    CountCongruent(db.items, d.items, Unsettled());
  }

  // ---- The continuation ----

  predicate PlainWork(actions: seq<Action>)
  {
    forall a :: a in actions ==> a.Elapse? || a.WorkerTurn? || a.Finish?
  }

  ghost predicate HasOpenRow(s: State)
  {
    exists k: nat :: k < |s.db.items| && !IsTerminalItem(s.db.items[k].status) && IsLiveRow(s.db, k)
  }

  /** One item more is settled. */
  ghost predicate Advances(s: State, actions: seq<Action>)
  {
    && PlainWork(actions) && Healthy(Run(s, actions)) && JobsGoOn(s.db, Run(s, actions).db)
    && Count(Run(s, actions).db.items, Unsettled()) < Count(s.db.items, Unsettled())
  }

  /** While a live job has an open row, one item more can be settled. */
  lemma SettleOneMore(s: State) returns (actions: seq<Action>)
    requires Healthy(s) && HasOpenRow(s)
    ensures Advances(s, actions)
  {
    hide Healthy, Advances, LongEnough;
    HealthyFacts(s);
    if s.proc.value.inFlight.Keys != {} {
      var i: nat :| i in s.proc.value.inFlight.Keys;
      FlyingAdvances(s, i);
      actions := [Finish(i, DELIVERED, 0.0)];
    } else {
      var k: nat :| k < |s.db.items| && !IsTerminalItem(s.db.items[k].status) && IsLiveRow(s.db, k);
      OpenRowWaitsOrFlies(s, k);
      var i := WaitingAdvances(s, k);
      actions := [Elapse(LongEnough(s, k)), WorkerTurn, Finish(i, DELIVERED, 0.0)];
    }
  }

  lemma FlyingAdvances(s: State, i: nat)
    requires Healthy(s) && s.proc.Some? && i in s.proc.value.inFlight
    ensures Advances(s, [Finish(i, DELIVERED, 0.0)])
  {
    hide Healthy, Apply, Run, CanFinish, JobsGoOn;
    FlyingCanFinish(s, i);
    Deliver(s, i);
    RunOne(s, Finish(i, DELIVERED, 0.0));
  }

  lemma WaitingAdvances(s: State, k: nat) returns (i: nat)
    requires Healthy(s) && s.proc.Some? && s.proc.value.inFlight.Keys == {}
    requires k < |s.db.items| && s.db.items[k].status.Queued? && IsLiveRow(s.db, k)
    ensures Advances(s, [Elapse(LongEnough(s, k)), WorkerTurn, Finish(i, DELIVERED, 0.0)])
  {
    hide Healthy, Apply, Run, CanFinish, JobsGoOn, LongEnough;
    i := Take(s, k);
    var u := Apply(Apply(s, Elapse(LongEnough(s, k))), WorkerTurn);
    Deliver(u, i);
    GoOnTransitively(s.db, u.db, Apply(u, Finish(i, DELIVERED, 0.0)).db);
    RunThree(s, Elapse(LongEnough(s, k)), WorkerTurn, Finish(i, DELIVERED, 0.0));
  }

  lemma HealthyFacts(s: State)
    requires Healthy(s)
    ensures Inv(s) && NoStrays(s) && s.proc.Some?
  {
  }

  lemma FlyingCanFinish(s: State, i: nat)
    requires Healthy(s) && s.proc.Some? && i in s.proc.value.inFlight
    ensures CanFinish(s, i)
  {
    assert InFlightOk(s.db, i, s.proc.value.inFlight[i]);
  }

  /** While the process is able and strays from no claim, a continuation of waits, turns and deliveries alone gives
      every live job its verdict that is not orphaned. */
  lemma {:induction false} OpenJobsCanSettle(s: State) returns (actions: seq<Action>)
    requires Healthy(s)
    ensures PlainWork(actions) && Healthy(Run(s, actions)) && JobsGoOn(s.db, Run(s, actions).db)
    ensures forall j :: 0 <= j < |s.db.jobs| && IsLive(s.db.jobs[j].status) && !Orphaned(s, j) ==>
              j < |Run(s, actions).db.jobs| && IsVerdict(Run(s, actions).db.jobs[j].status)
    decreases Count(s.db.items, Unsettled())
  {
    hide Healthy, Apply, Run, HasOpenRow, Orphaned;
    HealthyFacts(s);
    if HasOpenRow(s) {
      var front := SettleOneMore(s);
      var u := Run(s, front);
      var rest := OpenJobsCanSettle(u);
      actions := front + rest;
      RunConcat(s, front, rest);
      GoOnTransitively(s.db, u.db, Run(u, rest).db);
      forall j | 0 <= j < |s.db.jobs| && IsLive(s.db.jobs[j].status) && !Orphaned(s, j)
        ensures j < |Run(s, actions).db.jobs| && IsVerdict(Run(s, actions).db.jobs[j].status)
      {
        RunKeepsOpen(s, front, j);
        var _ := u.db.jobs[j];
      }
    } else {
      actions := [];
      RunNothing(s);
      forall j | 0 <= j < |s.db.jobs| && IsLive(s.db.jobs[j].status) && !Orphaned(s, j) ensures false {
        OpenJobHasRow(s, j);
      }
    }
  }

  lemma OpenJobHasRow(s: State, j: nat)
    requires j < |s.db.jobs| && IsLive(s.db.jobs[j].status) && !Orphaned(s, j)
    ensures HasOpenRow(s)
  {
    var k :| 0 <= k < |s.db.items| && s.db.items[k].job == j && !IsTerminalItem(s.db.items[k].status);
    assert IsLiveRow(s.db, k);
  }

  /** From every crash-free state that can send, such a continuation gives every live job that has items its verdict. */
  lemma EveryLiveJobCanSettle(s: State) returns (actions: seq<Action>)
    requires Inv(s) && Able(s) && s.h.crashes == 0
    ensures PlainWork(actions) && Healthy(Run(s, actions)) && JobsGoOn(s.db, Run(s, actions).db)
    ensures forall j :: 0 <= j < |s.db.jobs| && IsLive(s.db.jobs[j].status) && s.db.jobs[j].total > 0 ==>
              j < |Run(s, actions).db.jobs| && IsVerdict(Run(s, actions).db.jobs[j].status)
  {
    hide Inv, Able, Run, JobsGoOn, Orphaned;
    CrashFreeHasNoStrays(s);
    actions := OpenJobsCanSettle(s);
    forall j | 0 <= j < |s.db.jobs| && IsLive(s.db.jobs[j].status) && s.db.jobs[j].total > 0
      ensures j < |Run(s, actions).db.jobs| && IsVerdict(Run(s, actions).db.jobs[j].status)
    {
      CleanJobIsNoOrphan(s, j);
    }
  }

  lemma CleanJobIsNoOrphan(s: State, j: nat)
    requires Inv(s) && s.h.crashes == 0 && j < |s.db.jobs| && s.db.jobs[j].total > 0
    ensures !Orphaned(s, j)
  {
    assert CleanJob(s.db.jobs[j], s.db.items, j);
    hide Inv;
    NoOpenRow(s.db.items, j);
  }

  // ---- From any state, crashes behind it or not ----

  /** The last lease in the table. */
  function LastLease(items: seq<Item>): (last: int)
    ensures forall i :: 0 <= i < |items| && items[i].leaseExpiresAt.Some? ==> items[i].leaseExpiresAt.value <= last
  {
    if items == [] then 0
    else
      var before, it := LastLease(items[..|items| - 1]), items[|items| - 1];
      if it.leaseExpiresAt.Some? then Max(before, it.leaseExpiresAt.value) else before
  }

  /** Time enough for every lease to run out. */
  function PastLeases(s: State): nat
  {
    Max(0, LastLease(s.db.items) - s.now + 1)
  }

  /** Take the process down, wait for the leases, start it again and enable sending. */
  function FreshStart(s: State): seq<Action>
  {
    [Crash, Elapse(PastLeases(s)), Restart, SetKillSwitch(false)]
  }

  lemma RunFour(s: State, a: Action, b: Action, c: Action, d: Action)
    ensures Run(s, [a, b, c, d]) == Apply(Apply(Apply(Apply(s, a), b), c), d)
  {
    hide Apply;
    assert [a, b, c, d] == [a, b, c] + [d];
    RunThree(s, a, b, c);
    RunConcat(s, [a, b, c], [d]);
    RunOne(Run(s, [a, b, c]), d);
  }

  lemma FreshStartIsHealthy(s: State)
    requires Inv(s) && s.limit > 0
    ensures var u := Run(s, FreshStart(s));
            Healthy(u) && u.limit == s.limit && u.db.jobs == s.db.jobs && u.db.schedules == s.db.schedules
  {
    hide Inv, RecoverRows, Apply, PastLeases;
    RunFour(s, Crash, Elapse(PastLeases(s)), Restart, SetKillSwitch(false));
    RunKeepsInv(s, FreshStart(s));
    FreshProcess(s);
    AllRecovered(s);
  }

  lemma FreshProcess(s: State)
    ensures var u := Apply(Apply(Apply(Apply(s, Crash), Elapse(PastLeases(s))), Restart), SetKillSwitch(false));
            && u.proc == Some(NewProc()) && !u.disabled && u.limit == s.limit
            && u.db == RecoverRows(s.db, s.now + PastLeases(s))
  {
    hide RecoverRows, PastLeases;
  }

  /** A lease if and only if claimed or running: behind all leases, recovery leaves no such row. */
  lemma AllRecovered(s: State)
    requires Inv(s)
    ensures var d := RecoverRows(s.db, s.now + PastLeases(s));
            && d.jobs == s.db.jobs && d.schedules == s.db.schedules
            && forall i {:trigger d.items[i]} :: 0 <= i < |d.items| ==>
                 !d.items[i].status.Claimed? && !d.items[i].status.Running?
  {
    var d := RecoverRows(s.db, s.now + PastLeases(s));
    forall i | 0 <= i < |d.items| ensures !d.items[i].status.Claimed? && !d.items[i].status.Running? {
      LeaseOfClaimed(s, i);
    }
  }

  lemma LeaseOfClaimed(s: State, i: nat)
    requires Inv(s) && i < |s.db.items|
    ensures s.db.items[i].leaseExpiresAt.Some? <==> s.db.items[i].status.Claimed? || s.db.items[i].status.Running?
  {
    ItemFacts(s.db, s.h, i, s.now);
  }

  /** Actions that cancel, fire, delete and cut nothing short. */
  predicate Gentle(a: Action)
  {
    a.Crash? || a.Elapse? || a.Restart? || a.SetKillSwitch? || a.Resume? || a.WorkerTurn? || a.Finish?
  }

  predicate AllGentle(actions: seq<Action>)
  {
    forall a :: a in actions ==> Gentle(a)
  }

  /** A job that is neither terminal nor orphaned can still get its verdict, whatever crashes lie behind. */
  lemma OpenJobCanSettle(s: State, j: nat) returns (actions: seq<Action>)
    requires Inv(s) && s.limit > 0 && j < |s.db.jobs| && !IsTerminalJob(s.db.jobs[j].status) && !Orphaned(s, j)
    ensures AllGentle(actions)
    ensures j < |Run(s, actions).db.jobs| && IsVerdict(Run(s, actions).db.jobs[j].status)
  {
    hide Inv, Healthy, Apply, Run, Orphaned, FreshStart;
    var u := Run(s, FreshStart(s));
    FreshStartIsHealthy(s);
    FreshStartIsGentle(s);
    RunKeepsOpen(s, FreshStart(s), j);
    ResumeIsHealthy(u, j);
    var v := Apply(u, Resume(j));
    HealthyFacts(u);
    StepKeepsOpen(u, Resume(j), j);
    var rest := OpenJobsCanSettle(v);
    actions := FreshStart(s) + [Resume(j)] + rest;
    RunConcat(s, FreshStart(s), [Resume(j)]);
    RunOne(u, Resume(j));
    RunConcat(s, FreshStart(s) + [Resume(j)], rest);
  }

  lemma FreshStartIsGentle(s: State)
    ensures AllGentle(FreshStart(s)) && forall a :: a in FreshStart(s) ==> !a.CrashInFinish?
  {
  }

  lemma ResumeEffect(u: State, j: nat)
    requires u.proc.Some? && j < |u.db.jobs| && !IsTerminalJob(u.db.jobs[j].status)
    ensures var v := Apply(u, Resume(j));
            && v.proc == u.proc && v.limit == u.limit && v.disabled == u.disabled && v.db.items == u.db.items
            && j < |v.db.jobs| && IsLive(v.db.jobs[j].status)
  {
  }

  lemma ResumeIsHealthy(u: State, j: nat)
    requires Healthy(u) && j < |u.db.jobs| && !IsTerminalJob(u.db.jobs[j].status)
    ensures var v := Apply(u, Resume(j)); Healthy(v) && j < |v.db.jobs| && IsLive(v.db.jobs[j].status)
  {
    hide Inv, Apply, IsStalled;
    ApplyKeepsInv(u, Resume(j));
    ResumeEffect(u, j);
  }

  /** Exactly the orphaned ones among the unfinished jobs can never get a verdict. */
  lemma VerdictStaysPossibleIff(s: State, j: nat)
    requires Inv(s) && s.limit > 0 && j < |s.db.jobs| && !IsTerminalJob(s.db.jobs[j].status)
    ensures (exists actions :: j < |Run(s, actions).db.jobs| && IsVerdict(Run(s, actions).db.jobs[j].status))
            <==> !Orphaned(s, j)
  {
    hide Inv, Run, Orphaned;
    if Orphaned(s, j) {
      forall actions ensures !(j < |Run(s, actions).db.jobs| && IsVerdict(Run(s, actions).db.jobs[j].status)) {
        OrphanNeverSettles(s, actions, j);
      }
    } else {
      var actions := OpenJobCanSettle(s, j);
      assert j < |Run(s, actions).db.jobs| && IsVerdict(Run(s, actions).db.jobs[j].status);
    }
  }
}
