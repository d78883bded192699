/** Work done, work bounded, and the two ways the engine stops making progress. */
module Progress {
  import opened ErrorClassifier
  import opened Retry
  import opened Tables
  import opened JobService
  import opened Claiming
  import opened Worker
  import opened Engine
  import opened Invariant
  import opened Frames
  import opened TurnStep
  import opened FinishStep
  import opened FinishMemory
  import opened Evolution
  import Sched = Scheduler

  // ---- Global work bound ----

  /** The action claimed an item or finished one. */
  predicate DoesWork(s: State, a: Action)
  {
    s.proc.Some? && ((a.WorkerTurn? && NextStart(s).Some?) || (a.Finish? && CanFinish(s, a.item)))
  }

  function WorkDone(s: State, actions: seq<Action>): nat
  {
    if actions == [] then 0
    else
      var init := actions[..|actions| - 1];
      WorkDone(s, init) + if DoesWork(Run(s, init), actions[|actions| - 1]) then 1 else 0
  }

  function InFlight(s: State): set<nat>
  {
    match s.proc case None => {} case Some(p) => p.inFlight.Keys
  }

  /** Two steps per attempt, less the one an attempt in flight still owes. */
  function Spent(items: seq<Item>, inFlight: set<nat>): int
  {
    if items == [] then 0
    else
      var n := |items| - 1;
      Spent(items[..n], inFlight) + 2 * items[n].attemptCount - (if n in inFlight then 1 else 0)
  }

  lemma {:induction false} SpentGrows(a: seq<Item>, b: seq<Item>, fa: set<nat>, fb: set<nat>, k: int)
    requires |a| <= |b|
    requires forall i: nat :: i < |a| ==> a[i].attemptCount <= b[i].attemptCount
    requires forall i: nat :: i < |a| && i in fb && i !in fa ==> a[i].attemptCount < b[i].attemptCount
    requires forall i: nat :: i in fb ==> i < |a|
    requires 0 <= k < |a| ==> 2 * b[k].attemptCount - (if k in fb then 1
                                                       else 0) > 2 * a[k].attemptCount - (if k in fa then 1 else 0)
    ensures Spent(a, fa) + (if 0 <= k < |a| then 1 else 0) <= Spent(b, fb)
    decreases |b|
  {
    if |a| < |b| {
      SpentGrows(a, b[..|b| - 1], fa, fb, k);
    } else if a != [] {
      var n := |a| - 1;
      SpentGrowsAt(a[..n], b[..n], fa, fb - {n}, if k == n then -1 else k);
      SpentIgnores(b[..n], fb, n);
    }
  }

  lemma {:induction false} SpentIgnores(items: seq<Item>, f: set<nat>, n: nat)
    requires |items| <= n
    ensures Spent(items, f) == Spent(items, f - {n})
  {
    if items != [] {
      SpentIgnores(items[..|items| - 1], f, n);
    }
  }

  lemma {:induction false} SpentGrowsAt(a: seq<Item>, b: seq<Item>, fa: set<nat>, fb: set<nat>, k: int)
    requires |a| == |b|
    requires forall i: nat :: i < |a| ==> a[i].attemptCount <= b[i].attemptCount
    requires forall i: nat :: i < |a| && i in fb && i !in fa ==> a[i].attemptCount < b[i].attemptCount
    requires 0 <= k < |a| ==> 2 * b[k].attemptCount - (if k in fb then 1
                                                       else 0) > 2 * a[k].attemptCount - (if k in fa then 1 else 0)
    ensures Spent(a, fa) + (if 0 <= k < |a| then 1 else 0) <= Spent(b, fb)
  {
    if a != [] {
      var n := |a| - 1;
      SpentGrowsAt(a[..n], b[..n], fa, fb, if k == n then -1 else k);
    }
  }

  lemma {:induction false} SpentBound(items: seq<Item>, inFlight: set<nat>, recoveries: seq<nat>)
    requires |recoveries| == |items|
    requires forall i :: 0 <= i < |items| ==> items[i].attemptCount <= MAX_ATTEMPTS + recoveries[i]
    ensures Spent(items, inFlight) <= 2 * MAX_ATTEMPTS * |items| + 2 * Sum(recoveries)
  {
    if items != [] {
      var n := |items| - 1;
      SpentBound(items[..n], inFlight, recoveries[..n]);
    }
  }

  function Sum(values: seq<nat>): nat
  {
    if values == [] then 0 else Sum(values[..|values| - 1]) + values[|values| - 1]
  }

  /** An action that claims or finishes spends one unit more; no action gives any back. */
  lemma ActionSpends(s: State, a: Action)
    requires Inv(s)
    ensures Spent(s.db.items, InFlight(s)) + (if DoesWork(s, a) then 1 else 0)
            <= Spent(Apply(s, a).db.items, InFlight(Apply(s, a)))
  {
    hide *;
    var t := Apply(s, a);
    ApplyEvolves(s, a);
    CountsNeverDrop(s.db, t.db);
    InFlightInRange(s);
    InFlightChange(s, a);
    var k: int := -1;
    if DoesWork(s, a) {
      WorkIsTurnOrFinish(s, a);
      k := if a.Finish? then a.item else NextStart(s).value;
    }
    SpentGrows(s.db.items, t.db.items, InFlight(s), InFlight(t), k);
  }

  lemma CountsNeverDrop(a: Db, b: Db)
    requires Evolves(a, b)
    ensures |a.items| <= |b.items| && forall i: nat :: i < |a.items| ==>
            a.items[i].attemptCount <= b.items[i].attemptCount
  {
  }

  lemma WorkIsTurnOrFinish(s: State, a: Action)
    requires DoesWork(s, a)
    ensures s.proc.Some? && (a.Finish? || (a.WorkerTurn? && NextStart(s).Some?))
  {
  }

  lemma InFlightInRange(s: State)
    requires Inv(s)
    ensures forall i: nat :: i in InFlight(s) ==> i < |s.db.items|
  {
    forall i: nat | i in InFlight(s) ensures i < |s.db.items| {
      assert InFlightOk(s.db, i, s.proc.value.inFlight[i]);
    }
  }

  /** Who is in flight after an action, and what working costs. */
  lemma InFlightChange(s: State, a: Action)
    requires Inv(s)
    ensures var t := Apply(s, a);
            && (!DoesWork(s, a) ==> InFlight(t) <= InFlight(s))
            && (DoesWork(s, a) && a.Finish? ==>
                 a.item < |s.db.items| && a.item in InFlight(s) && InFlight(t) == InFlight(s) - {a.item})
            && (DoesWork(s, a) && a.WorkerTurn? ==>
                  var i := NextStart(s).value;
                  && i < |s.db.items| && i < |t.db.items| && i !in InFlight(s) && InFlight(t) == InFlight(s) + {i}
                  && t.db.items[i].attemptCount == s.db.items[i].attemptCount + 1)
  {
    hide FinishTrace, CancelTrace, PauseJob, ResumeJob, CreateJob, RecoverRows, FireCut, Sched.NewSchedule, Safe,
         InFlightOk,
         MemoryOk, Clean, FinishHistory, FireHistory, HistoryInTurn, Turn, StartTrace;
    if s.proc.Some? && a.WorkerTurn? {
      TurnInFlight(s);
    }
  }

  lemma TurnInFlight(s: State)
    requires Inv(s) && s.proc.Some?
    ensures var t := ApplyTurn(s);
            && (NextStart(s).None? ==> InFlight(t) == InFlight(s))
            && (NextStart(s).Some? ==>
                  var i := NextStart(s).value;
                  && i < |s.db.items| && i < |t.db.items| && i !in InFlight(s) && InFlight(t) == InFlight(s) + {i}
                  && t.db.items[i].attemptCount == s.db.items[i].attemptCount + 1)
  {
    hide Safe, InFlightOk, Clean;
    if NextStart(s).Some? {
      var i := NextStart(s).value;
      StartEffect(s.db, i, WORKER, s.now);
      hide StartTrace;
      QueuedIsNotInFlight(s.db, s.proc.value, s.limit, i);
    }
  }

  /** Claims and finishes of a whole run, crashes included, number at most ten per item plus two per recovery; so a
      crash-free run can only do 2 * MAX_ATTEMPTS steps of work per item. */
  lemma WorkIsBounded(limit: nat, start: int, actions: seq<Action>)
    ensures var s := Run(Init(limit, start), actions);
            WorkDone(Init(limit, start), actions) <= 2 * MAX_ATTEMPTS * |s.db.items| + 2 * Sum(s.h.recoveries)
  {
    var s := Run(Init(limit, start), actions);
    InitIsInv(limit, start);
    RunSpends(Init(limit, start), actions);
    ReachableStatesAreInv(limit, start, actions);
    assert |s.h.recoveries| == |s.db.items|;
    forall i | 0 <= i < |s.db.items| ensures s.db.items[i].attemptCount <= MAX_ATTEMPTS + s.h.recoveries[i] {
      ItemFacts(s.db, s.h, i, s.now);
    }
    SpentBound(s.db.items, InFlight(s), s.h.recoveries);
  }

  lemma {:induction false} RunSpends(s: State, actions: seq<Action>)
    requires Inv(s)
    ensures Spent(s.db.items, InFlight(s)) + WorkDone(s, actions) <= Spent(Run(s, actions).db.items,
          InFlight(Run(s, actions)))
  {
    hide Inv, Apply, DoesWork, InFlight;
    if actions != [] {
      var init := actions[..|actions| - 1];
      RunSpends(s, init);
      RunKeepsInv(s, init);
      ActionSpends(Run(s, init), actions[|actions| - 1]);
    }
  }

  // ---- Crashes ----

  predicate IsCrash(a: Action)
  {
    a.Crash? || a.CrashInTurn? || a.CrashInFinish? || a.CrashInFire? || a.CrashInCancel?
  }

  predicate CrashFree(actions: seq<Action>)
  {
    forall a :: a in actions ==> !IsCrash(a)
  }

  // ---- The stalled worker ----

  /** Sends so far, extended by the items that came since, none of which was sent. */
  ghost predicate NothingSent(before: seq<nat>, after: seq<nat>)
  {
    && |before| <= |after|
    && forall i :: 0 <= i < |after| ==> after[i] == if i < |before| then before[i] else 0
  }

  lemma ActionKeepsStalled(s: State, a: Action)
    requires s.proc.Some? && IsStalled(s.proc.value) && !IsCrash(a)
    ensures var t := Apply(s, a);
            t.proc.Some? && IsStalled(t.proc.value) && NothingSent(s.h.sends, t.h.sends)
  {
    hide FinishTrace, StartTrace, CancelTrace, PauseJob, ResumeJob, RecoverRows, FireCut, Sched.NewSchedule;
  }

  /** A HALF_OPEN breaker with nothing in flight is absorbing: whatever is enqueued, fired, paused, resumed or waited
      for, nothing is ever sent again until the process goes down. */
  lemma {:induction false} StalledUntilRestart(s: State, actions: seq<Action>)
    requires s.proc.Some? && IsStalled(s.proc.value) && CrashFree(actions)
    ensures var t := Run(s, actions);
            t.proc.Some? && IsStalled(t.proc.value) && NothingSent(s.h.sends, t.h.sends)
  {
    hide Apply, IsStalled;
    if actions != [] {
      var init, a := actions[..|actions| - 1], actions[|actions| - 1];
      assert a in actions && forall b :: b in init ==> b in actions;
      StalledUntilRestart(s, init);
      ActionKeepsStalled(Run(s, init), a);
    }
  }

  // ---- Items stranded by an early restart ----

  /** Claimed by a process that is gone, under a lease that had not expired when the present one started. */
  ghost predicate Stranded(s: State, i: nat)
  {
    && s.proc.Some? && i < |s.db.items| && i !in s.proc.value.inFlight
    && (s.db.items[i].status.Claimed? || s.db.items[i].status.Running?)
  }

  lemma ActionKeepsStranded(s: State, a: Action, i: nat)
    requires Inv(s) && Stranded(s, i) && !IsCrash(a) && a != CancelJob(s.db.items[i].job)
    ensures Stranded(Apply(s, a), i) && Apply(s, a).db.items[i] == s.db.items[i]
  {
    hide Inv, Sched.NewSchedule, StartTrace, FinishTrace, RecoverRows;
    match a
    case WorkerTurn =>
      if NextStart(s).Some? { StartEffect(s.db, NextStart(s).value, WORKER, s.now); }
    case Finish(k, r, draw) =>
      if CanFinish(s, k) { FinishLeavesOthers(s.db, k, s.proc.value.inFlight[k], r, s.now, draw, i); }
    case _ =>
  }

  lemma FinishLeavesOthers(db: Db, k: nat, n: nat, r: SendResult, now: int, draw: Draw, i: nat)
    requires k < |db.items| && i < |db.items| && i != k
    ensures var d := FinishTrace(db, k, n, r, now, draw)[4]; i < |d.items| && d.items[i] == db.items[i]
  {
    hide *;
    ItemPartEffect(db, k, n, r, now, draw);
    TraceTail(db, k, n, r, now, draw);
    var trace := FinishTrace(db, k, n, r, now, draw);
    TailEffect(trace[2], db.items[k].job, now);
    OnlyOneRow(db, trace[2], k, FateOf(r, n), i);
  }

  lemma OnlyOneRow(db: Db, d: Db, k: nat, fate: ItemStatus, i: nat)
    requires ItemPartDone(db, d, k, fate) && i < |db.items| && i != k
    ensures i < |d.items| && d.items[i] == db.items[i]
  {
  }

  /** Recovery runs only at startup: until the process goes down again or the job is cancelled, a stranded item is
      neither sent nor requeued, and its job never gets a verdict. */
  lemma {:induction false} StrandedUntilRestart(s: State, actions: seq<Action>, i: nat)
    requires Inv(s) && Stranded(s, i) && CrashFree(actions) && CancelJob(s.db.items[i].job) !in actions
    ensures var t := Run(s, actions);
            && Stranded(t, i) && t.db.items[i] == s.db.items[i] && s.db.items[i].job < |t.db.jobs|
            && !IsVerdict(t.db.jobs[s.db.items[i].job].status)
  {
    hide Apply, Inv, Stranded;
    if actions != [] {
      var init, a := actions[..|actions| - 1], actions[|actions| - 1];
      assert a in actions && forall b :: b in init ==> b in actions;
      StrandedUntilRestart(s, init, i);
      RunKeepsInv(s, init);
      ActionKeepsStranded(Run(s, init), a, i);
    }
    RunKeepsInv(s, actions);
    StrandedJobIsOpen(Run(s, actions), i);
  }

  lemma StrandedJobIsOpen(s: State, i: nat)
    requires Inv(s) && Stranded(s, i)
    ensures i < |s.db.items| && s.db.items[i].job < |s.db.jobs| && !IsVerdict(s.db.jobs[s.db.items[i].job].status)
  {
    ItemFacts(s.db, s.h, i, s.now);
  }

  /** A restart strands exactly the claimed items whose lease has not expired yet. */
  lemma RestartStrandsIff(s: State, i: nat)
    requires Inv(s) && s.proc.None? && i < |s.db.items|
    ensures Stranded(Apply(s, Restart), i) <==>
              && (s.db.items[i].status.Claimed? || s.db.items[i].status.Running?)
              && s.db.items[i].leaseExpiresAt.Some? && s.now <= s.db.items[i].leaseExpiresAt.value
  {
    ItemFacts(s.db, s.h, i, s.now);
  }
}
