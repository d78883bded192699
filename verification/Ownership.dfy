/** Any number of worker processes over one database: claims, statements of attempts in progress, deaths and startup
    recoveries interleave freely. No statement of a worker checks who owns the row it writes. */
module Ownership {
  import opened Wrappers
  import opened ErrorClassifier
  import opened Sequences
  import opened Tables
  import opened JobService
  import opened Claiming

  /** A live worker between claiming an item and being done with it. */
  datatype Hold = Hold(worker: nat, item: nat, since: int)

  datatype Cluster = Cluster(db: Db, holds: set<Hold>, now: int,
                             claims: seq<nat>, retries: seq<nat>, recoveries: seq<nat>)

  datatype Step =
    | Wait(ms: nat)
    | Create(drafts: seq<Draft>)
    | Claim(worker: nat)
    | MarkRunning(hold: Hold)
    | BeginAttempt(hold: Hold, number: nat)
    | Retry(hold: Hold, at: int, category: Category)
    | Finish(hold: Hold, status: ItemStatus, reason: Option<Category>)
    | Die(worker: nat)
    | Recover
    | CancelAll(job: nat)
    | PauseOne(job: nat)
    | ResumeOne(job: nat)

  function Start(now: int): Cluster
  {
    Cluster(Db([], [], [], map[]), {}, now, [], [], [])
  }

  function Zeros(n: nat): seq<nat> { seq(n, _ => 0) }

  function ClaimStep(s: Cluster, worker: nat): Cluster
  {
    match NextItem(s.db, s.now)
    case None => s
    case Some(i) =>
      s.(db := ClaimRow(s.db, i, "worker", s.now), holds := s.holds + {Hold(worker, i, s.now)},
         claims := Inc(s.claims, i))
  }

  function RecoverStep(s: Cluster): Cluster
  {
    s.(db := RecoverRows(s.db, s.now),
       recoveries := seq(|s.recoveries|, k requires 0 <= k < |s.recoveries| =>
                       if k < |s.db.items| && IsStale(s.db.items[k], s.now) then s.recoveries[k] + 1
                           else s.recoveries[k]))
  }

  function After(s: Cluster, step: Step): Cluster
  {
    match step
    case Wait(ms) => s.(now := s.now + ms)
    case Create(drafts) =>
      s.(db := InsertJob(s.db, None, None, drafts, s.now), claims := s.claims + Zeros(|drafts|),
         retries := s.retries + Zeros(|drafts|), recoveries := s.recoveries + Zeros(|drafts|))
    case Claim(w) => ClaimStep(s, w)
    case MarkRunning(h) => if h in s.holds then s.(db := SetRunning(s.db, h.item)) else s
    case BeginAttempt(h, n) =>
      if h in s.holds then s.(db := SetAttemptCount(InsertAttempt(s.db, h.item, n), h.item, n)) else s
    case Retry(h, at, c) =>
      if h in s.holds then
        s.(db := Requeue(s.db, h.item, at, c, None), holds := s.holds - {h}, retries := Inc(s.retries, h.item))
      else s
    case Finish(h, st, c) =>
      if h in s.holds && IsSettledItem(st) then s.(db := SetTerminal(s.db, h.item, st, c, None),
                                                   holds := s.holds - {h}) else s
    case Die(w) => s.(holds := set h | h in s.holds && h.worker != w)
    case Recover => RecoverStep(s)
    case CancelAll(j) => s.(db := CancelTrace(s.db, j, s.now)[1])
    case PauseOne(j) => s.(db := PauseJob(s.db, j))
    case ResumeOne(j) => s.(db := ResumeJob(s.db, j))
  }

  function Run(s: Cluster, steps: seq<Step>): Cluster
  {
    if steps == [] then s else After(Run(s, steps[..|steps| - 1]), steps[|steps| - 1])
  }

  /** What a worker's steps write: the row of its hold, whoever the row says it belongs to, and what ends the hold. */
  lemma HolderWrites(s: Cluster, step: Step, h: Hold)
    requires h in s.holds && h.item < |s.db.items|
    ensures step == MarkRunning(h) ==>
              After(s, step) == s.(db := s.db.(items := s.db.items[h.item := s.db.items[h.item].(status := Running)]))
    ensures step.BeginAttempt? && step.hold == h ==>
              After(s, step) ==
              s.(db := s.db.(items := s.db.items[h.item := s.db.items[h.item].(attemptCount := step.number)],
                             attempts := s.db.attempts + [Attempt(h.item, step.number, None, None, None)]))
    ensures step.Retry? && step.hold == h && h.item < |s.retries| ==>
              After(s, step) ==
              s.(db := s.db.(items := s.db.items[h.item := s.db.items[h.item].(
                                        status := Queued, nextAttemptAt := step.at, claimedBy := None,
                                            leaseExpiresAt := None,
                                        lastCategory := Some(step.category), lastDetail := None)]),
                 holds := s.holds - {h}, retries := s.retries[h.item := s.retries[h.item] + 1])
    ensures step.Finish? && step.hold == h && step.status in {Succeeded, Failed, Skipped} ==>
              After(s, step) ==
              s.(db := s.db.(items := s.db.items[h.item := s.db.items[h.item].(
                                        status := step.status, claimedBy := None, leaseExpiresAt := None,
                                        lastCategory := step.reason, lastDetail := None)]),
                 holds := s.holds - {h})
  {
  }

  /** A claim takes a queued row under a lease of a minute and counts; a recovery counts for the rows it queues; death
      ends the holds of the dead. */
  lemma ClusterWrites(s: Cluster, worker: nat)
    requires |s.claims| == |s.recoveries| == |s.db.items|
    ensures NextItem(s.db, s.now).Some? ==>
              var i := NextItem(s.db, s.now).value;
              var t := After(s, Claim(worker));
              && i < |s.db.items| && s.db.items[i].status == Queued
              && t.db == s.db.(items := s.db.items[i := s.db.items[i].(status := Claimed, claimedBy := Some("worker"),
                                                                        leaseExpiresAt := Some(s.now + 60000))])
              && t.holds == s.holds + {Hold(worker, i, s.now)} && t.claims == s.claims[i := s.claims[i] + 1]
    ensures var t := After(s, Recover);
            && t.holds == s.holds && |t.db.items| == |t.recoveries| == |s.db.items|
            && forall k :: 0 <= k < |s.db.items| ==>
                 t.recoveries[k] == s.recoveries[k] + if t.db.items[k] != s.db.items[k] then 1 else 0
    ensures forall h :: h in After(s, Die(worker)).holds <==> h in s.holds && h.worker != worker
  {
    assert NextItem(s.db, s.now).Some? ==> Eligible(s.db, s.now, NextItem(s.db, s.now).value);
  }

  /** Every live worker is still within its lease. */
  ghost predicate Timely(s: Cluster)
  {
    forall h :: h in s.holds ==> s.now <= h.since + LEASE_MS
  }

  ghost predicate AlwaysTimely(s: Cluster, steps: seq<Step>)
  {
    forall k :: 0 <= k <= |steps| ==> Timely(Run(s, steps[..k]))
  }

  ghost predicate Exclusive(s: Cluster)
  {
    forall a, b :: a in s.holds && b in s.holds && a.item == b.item ==> a == b
  }

  /** A held row is not up for grabs, and its lease is the holder's. */
  ghost predicate HeldRowOk(db: Db, h: Hold)
  {
    && h.item < |db.items|
    && var it := db.items[h.item];
       && (it.status.Claimed? || it.status.Running? || it.status.Cancelled?)
       && (it.leaseExpiresAt.None? || it.leaseExpiresAt == Some(h.since + LEASE_MS))
  }

  ghost predicate OwnershipOk(s: Cluster)
  {
    Exclusive(s) && forall h :: h in s.holds ==> HeldRowOk(s.db, h)
  }

  /** A recovery keeps ownership intact exactly if no live worker's row has outlived its lease. */
  lemma RecoveryIsSafeIff(s: Cluster)
    requires OwnershipOk(s)
    ensures OwnershipOk(After(s, Recover)) <==>
              forall h ::
                h in s.holds && !s.db.items[h.item].status.Cancelled? && s.db.items[h.item].leaseExpiresAt.Some? ==>
                  s.now <= h.since + LEASE_MS
  {
    var t := After(s, Recover);
    forall h | h in s.holds
      ensures HeldRowOk(t.db, h) <==> !IsStale(s.db.items[h.item], s.now)
    {
      assert HeldRowOk(s.db, h);
    }
  }

  lemma ClaimKeepsOwnership(s: Cluster, worker: nat)
    requires OwnershipOk(s)
    ensures OwnershipOk(ClaimStep(s, worker))
  {
    var t, next := ClaimStep(s, worker), NextItem(s.db, s.now);
    if next.Some? {
      forall h | h in s.holds ensures h.item != next.value && HeldRowOk(t.db, h) {
        assert HeldRowOk(s.db, h);
      }
    }
  }

  lemma HolderKeepsOwnership(s: Cluster, step: Step)
    requires OwnershipOk(s) && (step.MarkRunning? || step.BeginAttempt? || step.Retry? || step.Finish?)
    ensures OwnershipOk(After(s, step))
  {
    var t := After(s, step);
    forall h | h in t.holds ensures HeldRowOk(t.db, h) {
      assert HeldRowOk(s.db, h);
    }
  }

  lemma StepKeepsOwnership(s: Cluster, step: Step)
    requires OwnershipOk(s) && (step.Recover? ==> Timely(s))
    ensures OwnershipOk(After(s, step))
  {
    if step.Recover? {
      RecoveryIsSafeIff(s);
    } else if step.Claim? {
      ClaimKeepsOwnership(s, step.worker);
    } else if step.MarkRunning? || step.BeginAttempt? || step.Retry? || step.Finish? {
      HolderKeepsOwnership(s, step);
    } else {
      hide ClaimStep, RecoverStep;
      var t := After(s, step);
      forall h | h in t.holds ensures HeldRowOk(t.db, h) {
        assert HeldRowOk(s.db, h);
      }
    }
  }

  /** If every live worker is done with an item within its lease, no item ever has two live owners, however the steps
      of however many workers interleave. */
  lemma {:induction false} ExclusiveOwnership(now: int, steps: seq<Step>)
    requires AlwaysTimely(Start(now), steps)
    ensures OwnershipOk(Run(Start(now), steps))
  {
    if steps != [] {
      var init, s := steps[..|steps| - 1], Start(now);
      forall k | 0 <= k <= |init| ensures Timely(Run(s, init[..k])) {
        assert init[..k] == steps[..k];
      }
      ExclusiveOwnership(now, init);
      assert Timely(Run(s, steps[..|steps| - 1]));
      StepKeepsOwnership(Run(s, init), steps[|steps| - 1]);
    }
  }

  /** Under exclusive ownership a step never touches a succeeded, failed or skipped item. */
  lemma OwnersLeaveSettledItemsAlone(s: Cluster, step: Step, i: nat)
    requires OwnershipOk(s) && i < |s.db.items| && IsSettledItem(s.db.items[i].status)
    ensures var t := After(s, step); i < |t.db.items| && t.db.items[i] == s.db.items[i]
  {
    match step
    case MarkRunning(h) => if h in s.holds { assert HeldRowOk(s.db, h); }
    case BeginAttempt(h, n) => if h in s.holds { assert HeldRowOk(s.db, h); }
    case Retry(h, at, c) => if h in s.holds { assert HeldRowOk(s.db, h); }
    case Finish(h, st, c) => if h in s.holds { assert HeldRowOk(s.db, h); }
    case _ =>
  }

  /** A timely run stays timely in every stretch of it. */
  lemma TimelyPrefix(s: Cluster, steps: seq<Step>, n: nat)
    requires AlwaysTimely(s, steps) && n <= |steps|
    ensures AlwaysTimely(s, steps[..n])
  {
    forall k | 0 <= k <= n ensures Timely(Run(s, steps[..n][..k])) {
      assert steps[..n][..k] == steps[..k];
    }
  }

  /** Over every timely run of any number of workers: once a row is succeeded, failed or skipped it never changes. */
  lemma {:induction false} SettledRowsStay(now: int, front: seq<Step>, rest: seq<Step>, i: nat)
    requires AlwaysTimely(Start(now), front + rest)
    requires i < |Run(Start(now), front).db.items| && IsSettledItem(Run(Start(now), front).db.items[i].status)
    ensures i < |Run(Start(now), front + rest).db.items|
    ensures Run(Start(now), front + rest).db.items[i] == Run(Start(now), front).db.items[i]
    decreases |rest|
  {
    hide After, Timely, OwnershipOk, AlwaysTimely, Run, IsSettledItem, Start;
    if rest == [] {
      assert front + rest == front;
    } else {
      var all, init := front + rest, rest[..|rest| - 1];
      assert all[..|all| - 1] == front + init && all[|all| - 1] == rest[|rest| - 1];
      TimelyPrefix(Start(now), all, |all| - 1);
      SettledRowsStay(now, front, init, i);
      ExclusiveOwnership(now, front + init);
      RunLast(Start(now), all);
      OwnersLeaveSettledItemsAlone(Run(Start(now), front + init), rest[|rest| - 1], i);
    }
  }

  lemma RunLast(s: Cluster, steps: seq<Step>)
    requires steps != []
    ensures Run(s, steps) == After(Run(s, steps[..|steps| - 1]), steps[|steps| - 1])
  {
  }

  // ---- Claim accounting, timely or not ----

  ghost predicate ClaimsAccounted(s: Cluster)
  {
    && |s.claims| == |s.retries| == |s.recoveries| == |s.db.items|
    && forall i {:trigger s.db.items[i]} :: 0 <= i < |s.db.items| ==>
         s.claims[i] + (if s.db.items[i].status.Queued? then 1 else 0) <= 1 + s.retries[i] + s.recoveries[i]
  }

  lemma StepKeepsAccount(s: Cluster, step: Step)
    requires ClaimsAccounted(s)
    ensures ClaimsAccounted(After(s, step))
  {
    var t := After(s, step);
    forall i | 0 <= i < |t.db.items|
      ensures |t.claims| == |t.retries| == |t.recoveries| == |t.db.items|
      ensures t.claims[i] + (if t.db.items[i].status.Queued? then 1 else 0) <= 1 + t.retries[i] + t.recoveries[i]
    {
      if i < |s.db.items| {
        var before := s.db.items[i];
        assert s.claims[i] + (if before.status.Queued? then 1 else 0) <= 1 + s.retries[i] + s.recoveries[i];
      }
    }
  }

  /** claims(item) <= 1 + retries(item) + recoveries(item), over every run. */
  lemma {:induction false} ClaimsAreAccounted(now: int, steps: seq<Step>)
    ensures ClaimsAccounted(Run(Start(now), steps))
  {
    if steps != [] {
      ClaimsAreAccounted(now, steps[..|steps| - 1]);
      StepKeepsAccount(Run(Start(now), steps[..|steps| - 1]), steps[|steps| - 1]);
    }
  }

  // ---- The lease assumption is needed ----

  /** With one eligible row, claiming it is all a claim does. */
  lemma OnlyRowIsClaimed(s: Cluster, worker: nat)
    requires |s.db.items| == 1 && Eligible(s.db, s.now, 0) && |s.claims| == 1
    ensures var t := After(s, Claim(worker));
            && t.holds == s.holds + {Hold(worker, 0, s.now)} && t.now == s.now && t.db.jobs == s.db.jobs
            && t.db.items == [s.db.items[0].(status := Claimed, claimedBy := Some("worker"),
                                             leaseExpiresAt := Some(s.now + LEASE_MS))]
            && |t.claims| == 1
  {
    assert NextItem(s.db, s.now) == Some(0);
  }

  /** A worker one millisecond late, and a process starting then: two owners, and the late one requeues an item the
      other has already sent successfully. */
  lemma LateWorkerLosesOwnership()
    ensures var draft := Draft(Recipient("1", ""), "hi");
            var slow, fast := Hold(0, 0, 0), Hold(1, 0, LEASE_MS + 1);
            var s1 := After(After(Start(0), Create([draft])), Claim(0));
            var s2 := After(After(After(s1, Wait(LEASE_MS + 1)), Recover), Claim(1));
            var s3 := After(s2, Finish(fast, Succeeded, None));
            var s4 := After(s3, Retry(slow, 0, TRANSIENT));
            && OwnershipOk(s1) && !Exclusive(s2) && slow in s2.holds && fast in s2.holds
            && |s3.db.items| == 1 && s3.db.items[0].status.Succeeded?
            && |s4.db.items| == 1 && s4.db.items[0].status.Queued?
  {
    var draft := Draft(Recipient("1", ""), "hi");
    var s0 := After(Start(0), Create([draft]));
    assert |s0.db.items| == 1 && Eligible(s0.db, 0, 0) && s0.holds == {} && s0.now == 0 && |s0.claims| == 1;
    OnlyRowIsClaimed(s0, 0);
    var s1 := After(s0, Claim(0));
    LateTail(s1);
  }

  lemma LateTail(s1: Cluster)
    requires |s1.db.items| == 1 && s1.db.items[0].status.Claimed? && s1.db.items[0].leaseExpiresAt == Some(LEASE_MS)
    requires s1.db.items[0].nextAttemptAt == 0 && s1.db.items[0].job == 0 && |s1.db.jobs| == 1
             && s1.db.jobs[0].status.QUEUED?
    requires s1.holds == {Hold(0, 0, 0)} && s1.now == 0 && |s1.claims| == 1
    ensures var slow, fast := Hold(0, 0, 0), Hold(1, 0, LEASE_MS + 1);
            var s2 := After(After(After(s1, Wait(LEASE_MS + 1)), Recover), Claim(1));
            var s3 := After(s2, Finish(fast, Succeeded, None));
            var s4 := After(s3, Retry(slow, 0, TRANSIENT));
            && OwnershipOk(s1) && !Exclusive(s2) && slow in s2.holds && fast in s2.holds
            && |s3.db.items| == 1 && s3.db.items[0].status.Succeeded?
            && |s4.db.items| == 1 && s4.db.items[0].status.Queued?
  {
    var late := After(After(s1, Wait(LEASE_MS + 1)), Recover);
    assert |late.db.items| == 1 && late.db.items[0].status.Queued? && Eligible(late.db, LEASE_MS + 1, 0);
    OnlyRowIsClaimed(late, 1);
    hide ClaimStep;
    var slow, fast := Hold(0, 0, 0), Hold(1, 0, LEASE_MS + 1);
    var s2 := After(late, Claim(1));
    assert s2.holds == {slow, fast} && slow != fast && slow.item == fast.item;
    assert !Exclusive(s2);
    var s3 := After(s2, Finish(fast, Succeeded, None));
    assert slow in s3.holds;
  }
}
