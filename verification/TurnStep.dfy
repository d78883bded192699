/** Starting an item keeps the invariant, at every cut point. */
module TurnStep {
  import opened Wrappers
  import opened CircuitBreaker
  import opened Retry
  import opened Sequences
  import opened Tables
  import opened JobService
  import opened Claiming
  import opened Worker
  import opened Engine
  import opened Invariant
  import opened Frames
  import opened OccurrenceKeys

  // ---- One more attempt row ----

  lemma InsertedRowCounts(attempts: seq<Attempt>, i: nat, n: nat, k: nat)
    ensures var more := attempts + [Attempt(i, n, None, None, None)];
            && Count(more, OfItem(k)) == Count(attempts, OfItem(k)) + (if k == i then 1 else 0)
            && (forall m: nat ::
                 Count(more, Numbered(k, m)) == Count(attempts, Numbered(k, m)) + (if k == i && m == n then 1 else 0))
            && (k != i ==> LastPosition(more, OfItem(k)) == LastPosition(attempts, OfItem(k)))
            && (k == i ==> LastPosition(more, OfItem(k)) == |attempts|)
  {
    var more := attempts + [Attempt(i, n, None, None, None)];
    assert more[..|more| - 1] == attempts;
  }

  lemma OtherItemsLog(attempts: seq<Attempt>, it: Item, k: nat, torn: nat, i: nat, n: nat)
    requires k != i && LogOkFor(attempts, it, k, torn)
    ensures LogOkFor(attempts + [Attempt(i, n, None, None, None)], it, k, torn)
  {
    InsertedRowCounts(attempts, i, n, k);
  }

  lemma OwnLogAfterInsert(attempts: seq<Attempt>, it: Item, i: nat, torn: nat)
    requires LogOkFor(attempts, it, i, torn) && !IsSettledItem(it.status)
    ensures var more := attempts + [Attempt(i, it.attemptCount + 1, None, None, None)];
            && LogOkFor(more, it, i, torn + 1)
            && LogOkFor(more, it.(attemptCount := it.attemptCount + 1), i, torn)
  {
    var n := it.attemptCount + 1;
    var more := attempts + [Attempt(i, n, None, None, None)];
    InsertedRowCounts(attempts, i, n, i);
    if torn == 0 {
      forall m: nat ensures Count(more, Numbered(i, m)) == if 1 <= m <= n then 1 else 0 {
        assert Count(attempts, Numbered(i, m)) == if 1 <= m <= it.attemptCount then 1 else 0;
      }
    }
  }

  // ---- The statements of a start ----

  lemma ClaimAndRunKeepSafe(db: Db, h: History, i: nat, who: string, now: int)
    requires Safe(db, h, now) && Eligible(db, now, i)
    ensures var trace := StartTrace(db, i, who, now);
            Safe(trace[0], h, now) && Safe(trace[1], h, now) && Safe(trace[2], h, now)
  {
    hide Safe;
    var trace := StartTrace(db, i, who, now);
    var it, j := db.items[i], db.items[i].job;
    ItemFacts(db, h, i, now);
    var claimed := it.(status := Claimed, claimedBy := Some(who), leaseExpiresAt := Some(now + LEASE_MS));
    SetItemKeepsSafe(db, h, i, claimed, h, now);
    var running := claimed.(status := Running);
    ItemFacts(trace[0], h, i, now);
    SetItemKeepsSafe(trace[0], h, i, running, h, now);
    StartJobKeepsSafe(trace[1], h, j, now);
  }

  lemma StartJobKeepsSafe(db: Db, h: History, j: nat, now: int)
    requires Safe(db, h, now) && j < |db.jobs|
    ensures Safe(StartJob(db, j), h, now)
  {
    hide Safe;
    if db.jobs[j].status.QUEUED? {
      JobFacts(db, h, j, now);
      SetJobKeepsSafe(db, h, j, db.jobs[j].(status := RUNNING), h, now);
    }
  }

  lemma InsertAttemptKeepsSafe(db: Db, h: History, i: nat, now: int)
    requires Safe(db, h, now) && i < |db.items| && db.items[i].status.Running?
    ensures Safe(InsertAttempt(db, i, db.items[i].attemptCount + 1), h.(torn := Inc(h.torn, i)), now)
  {
    var h' := h.(torn := Inc(h.torn, i));
    var db' := InsertAttempt(db, i, db.items[i].attemptCount + 1);
    forall k | 0 <= k < |db.items| ensures LogOkFor(db'.attempts, db.items[k], k, h'.torn[k]) {
      if k == i {
        OwnLogAfterInsert(db.attempts, db.items[i], i, h.torn[i]);
      } else {
        OtherItemsLog(db.attempts, db.items[k], k, h.torn[k], i, db.items[i].attemptCount + 1);
      }
    }
    OtherTablesUnchanged(db, h, db', h', now);
  }

  lemma OtherTablesUnchanged(db: Db, h: History, db': Db, h': History, now: int)
    requires Safe(db, h, now) && db' == db.(attempts := db'.attempts) && h' == h.(torn := h'.torn) && LogOk(db', h')
    ensures Safe(db', h', now)
  {
    forall j | 0 <= j < |db.jobs| ensures SourceOk(db', h', j, now) {
      assert SourceOk(db, h, j, now);
    }
    assert ItemsOk(db', h') && JobsOk(db', h');
  }

  lemma CountAttemptKeepsSafe(db: Db, h: History, i: nat, now: int, sent: bool)
    requires Safe(db, h, now) && i < |db.items| && db.items[i].status.Running?
    requires db.items[i].attemptCount <= MAX_ATTEMPTS - 1 + h.recoveries[i]
    ensures var n := db.items[i].attemptCount + 1;
            Safe(SetAttemptCount(InsertAttempt(db, i, n), i, n), if sent then h.(sends := Inc(h.sends, i)) else h, now)
  {
    hide Safe;
    var n := db.items[i].attemptCount + 1;
    ItemFacts(db, h, i, now);
    InsertAttemptKeepsSafe(db, h, i, now);
    var db1, torn := InsertAttempt(db, i, n), h.(torn := Inc(h.torn, i));
    OwnLogAfterInsert(db.attempts, db.items[i], i, h.torn[i]);
    var h' := if sent then h.(sends := Inc(h.sends, i)) else h;
    SetItemKeepsSafe(db1, torn, i, db.items[i].(attemptCount := n), h', now);
  }

  lemma StartTraceSafe(db: Db, h: History, i: nat, who: string, now: int, cut: nat)
    requires Safe(db, h, now) && Eligible(db, now, i) && 1 <= cut <= 6
    ensures Safe(StartTrace(db, i, who, now)[if cut == 6 then 4 else cut - 1], HistoryInTurn(h, i, cut), now)
  {
    hide Safe;
    var trace := StartTrace(db, i, who, now);
    ItemFacts(db, h, i, now);
    ClaimAndRunKeepSafe(db, h, i, who, now);
    var d3 := trace[2];
    assert d3.items[i].attemptCount == db.items[i].attemptCount && d3.items[i].status.Running?;
    if cut == 4 {
      InsertAttemptKeepsSafe(d3, h, i, now);
    } else if cut >= 5 {
      CountAttemptKeepsSafe(d3, h, i, now, cut == 6);
    }
  }

  // ---- Memory and crash-free facts after a full turn ----

  /** The rows a full start of item `i` leaves behind. */
  ghost predicate Started(db: Db, d: Db, i: nat, n: nat)
  {
    && i < |db.items| && |d.items| == |db.items| && |d.jobs| == |db.jobs| && d.schedules == db.schedules
    && SameIdentity(db.items[i], d.items[i]) && d.items[i].status.Running? && d.items[i].attemptCount == n
    && (forall k :: 0 <= k < |db.items| && k != i ==> d.items[k] == db.items[k])
    && (forall j :: 0 <= j < |db.jobs| ==>
          d.jobs[j] == db.jobs[j] || (db.jobs[j].status.QUEUED? && d.jobs[j] == db.jobs[j].(status := RUNNING)))
    && d.attempts == db.attempts + [Attempt(i, n, None, None, None)]
  }

  lemma StartEffect(db: Db, i: nat, who: string, now: int)
    requires Eligible(db, now, i)
    ensures Started(db, StartTrace(db, i, who, now)[4], i, db.items[i].attemptCount + 1)
  {
  }

  lemma OthersStayInFlight(db: Db, d: Db, i: nat, n: nat, k: nat, m: nat)
    requires Started(db, d, i, n) && k != i && InFlightOk(db, k, m)
    ensures InFlightOk(d, k, m)
  {
    InsertedRowCounts(db.attempts, i, n, k);
  }

  lemma StartedIsInFlight(db: Db, d: Db, i: nat, n: nat)
    requires Started(db, d, i, n)
    ensures InFlightOk(d, i, n)
  {
    InsertedRowCounts(db.attempts, i, n, i);
  }

  lemma OneMoreKey(m: map<nat, nat>, i: nat, n: nat)
    requires i !in m
    ensures |m[i := n]| == |m| + 1
  {
    assert m[i := n].Keys == m.Keys + {i};
    assert |m.Keys| == |m| && |m[i := n].Keys| == |m[i := n]|;
  }

  lemma StartKeepsMemory(db: Db, d: Db, i: nat, n: nat, p: Proc, q: Proc, limit: nat)
    requires Started(db, d, i, n) && db.items[i].status.Queued? && MemoryOk(db, p, limit)
    requires p.active < limit && ProbeMarksHalfOpen(q.breaker)
    requires q.active == p.active + 1 && q.inFlight == p.inFlight[i := n]
    ensures MemoryOk(d, q, limit)
  {
    QueuedIsNotInFlight(db, p, limit, i);
    hide InFlightOk, Started;
    OneMoreKey(p.inFlight, i, n);
    forall k | k in q.inFlight ensures InFlightOk(d, k, q.inFlight[k]) {
      if k == i {
        StartedIsInFlight(db, d, i, n);
      } else {
        assert k in p.inFlight;
        OthersStayInFlight(db, d, i, n, k, p.inFlight[k]);
      }
    }
  }

  lemma QueuedIsNotInFlight(db: Db, p: Proc, limit: nat, i: nat)
    requires MemoryOk(db, p, limit) && i < |db.items| && db.items[i].status.Queued?
    ensures i !in p.inFlight
  {
    assert i in p.inFlight ==> InFlightOk(db, i, p.inFlight[i]);
  }

  lemma TurnKeepsMemory(db: Db, p: Proc, limit: nat, who: string, now: int)
    requires MemoryOk(db, p, limit)
    ensures var (d, q, _) := Turn(db, p, limit, who, now); MemoryOk(d, q, limit)
  {
    hide StartTrace, InFlightOk, Started;
    var (d, q, claimed) := Turn(db, p, limit, who, now);
    if claimed.Some? {
      StartEffect(db, claimed.value, who, now);
      StartKeepsMemory(db, d, claimed.value, db.items[claimed.value].attemptCount + 1, p, q, limit);
    }
  }

  lemma StartKeepsCleanJob(db: Db, d: Db, i: nat, n: nat, j: nat)
    requires Started(db, d, i, n) && db.items[i].status.Queued? && j < |db.jobs| && CleanJob(db.jobs[j], db.items, j)
    ensures CleanJob(d.jobs[j], d.items, j)
  {
    CountCongruent(db.items, d.items, InStatus(j, Succeeded));
    CountCongruent(db.items, d.items, InStatus(j, Failed));
    CountCongruent(db.items, d.items, InStatus(j, Skipped));
    CountCongruent(db.items, d.items, OpenIn(j));
  }

  lemma StartKeepsClean(db: Db, d: Db, i: nat, n: nat, h: History, h': History, p: Proc, q: Proc)
    requires Started(db, d, i, n) && db.items[i].status.Queued? && Clean(db, h, p) && KeysUnique(db.jobs)
    requires q.inFlight.Keys == p.inFlight.Keys + {i} && h'.torn == h.torn
    ensures Clean(d, h', q)
  {
    forall j | 0 <= j < |d.jobs| ensures CleanJob(d.jobs[j], d.items, j) {
      StartKeepsCleanJob(db, d, i, n, j);
    }
    hide CleanJob, CleanSchedule;
    forall k | 0 <= k < |d.items| ensures CleanItem(d.items[k], k, h'.torn[k], q) {
      assert CleanItem(db.items[k], k, h.torn[k], p);
    }
    SameKeysSameSchedules(db.jobs, d.jobs, db.schedules);
  }

  lemma CleanReadsInFlightOnly(db: Db, h: History, p: Proc, q: Proc)
    requires Clean(db, h, p) && q.inFlight == p.inFlight
    ensures Clean(db, h, q)
  {
    hide CleanJob, CleanSchedule;
    forall i | 0 <= i < |db.items| ensures CleanItem(db.items[i], i, h.torn[i], q) {
      assert CleanItem(db.items[i], i, h.torn[i], p);
    }
  }

  lemma CleanFromPieces(d: Db, h: History, p: Proc, jobs: seq<Job>, items: seq<Item>)
    requires d.jobs == jobs && d.items == items && |h.torn| == |items|
    requires forall j {:trigger jobs[j]} :: 0 <= j < |jobs| ==> CleanJob(jobs[j], items, j)
    requires forall i {:trigger items[i]} :: 0 <= i < |items| ==> CleanItem(items[i], i, h.torn[i], p)
    requires forall id {:trigger d.schedules[id]} :: id in d.schedules ==> CleanSchedule(jobs, id, d.schedules[id])
    ensures Clean(d, h, p)
  {
    hide CleanJob, CleanItem, CleanSchedule;
  }

  lemma TurnKeepsClean(db: Db, h: History, p: Proc, limit: nat, who: string, now: int)
    requires KeysUnique(db.jobs) && Clean(db, h, p)
    ensures var (d, q, claimed) := Turn(db, p, limit, who, now);
            Clean(d, if claimed.Some? then HistoryInTurn(h, claimed.value, 6) else h, q)
  {
    hide StartTrace, Started, Clean, KeysUnique;
    var (d, q, claimed) := Turn(db, p, limit, who, now);
    if claimed.Some? {
      var i := claimed.value;
      StartEffect(db, i, who, now);
      assert q.inFlight.Keys == p.inFlight.Keys + {i};
      StartKeepsClean(db, d, i, db.items[i].attemptCount + 1, h, HistoryInTurn(h, i, 6), p, q);
    } else {
      CleanReadsInFlightOnly(db, h, p, q);
    }
  }

  /** Rewriting job rows without touching keys or verdicts keeps the crash-free reading of every schedule. */
  lemma SameKeysSameSchedules(jobs: seq<Job>, jobs': seq<Job>, schedules: map<string, Schedule>)
    requires |jobs'| == |jobs| && KeysUnique(jobs)
    requires forall j :: 0 <= j < |jobs| ==>
               jobs'[j].key == jobs[j].key && IsVerdict(jobs'[j].status) == IsVerdict(jobs[j].status)
    ensures forall id :: id in schedules && CleanSchedule(jobs, id, schedules[id]) ==>
            CleanSchedule(jobs', id, schedules[id])
  {
    forall id | id in schedules && CleanSchedule(jobs, id, schedules[id])
        ensures CleanSchedule(jobs', id, schedules[id]) {
      var key := OccurrenceKey(id, schedules[id].nextRunAt);
      var a, b := FindByKey(jobs, key), FindByKey(jobs', key);
      assert a.Some? ==> jobs'[a.value].key == Some(key);
      assert b.Some? ==> jobs[b.value].key == Some(key);
    }
  }

  lemma TurnClaimsEligible(db: Db, p: Proc, limit: nat, who: string, now: int)
    ensures var (d, q, claimed) := Turn(db, p, limit, who, now);
            && (claimed.Some? ==> Eligible(db, now, claimed.value) && d == StartTrace(db, claimed.value, who, now)[4])
            && (claimed.None? ==> d == db)
  {
    hide StartTrace, CanAttempt;
  }

  lemma TurnKeepsInv(s: State)
    requires Inv(s) && s.proc.Some?
    ensures Inv(ApplyTurn(s))
  {
    assert KeysUnique(s.db.jobs);
    hide Safe, MemoryOk, Clean, StartTrace, CanAttempt, NextItem, FirstEligible;
    if !s.proc.value.draining && !s.disabled {
      TurnClaimsEligible(s.db, s.proc.value, s.limit, WORKER, s.now);
      var claimed := Turn(s.db, s.proc.value, s.limit, WORKER, s.now).2;
      if claimed.Some? {
        StartTraceSafe(s.db, s.h, claimed.value, WORKER, s.now, 6);
      }
      TurnKeepsMemory(s.db, s.proc.value, s.limit, WORKER, s.now);
      if s.h.crashes == 0 {
        TurnKeepsClean(s.db, s.h, s.proc.value, s.limit, WORKER, s.now);
      }
    }
  }

  /** A crash owes nothing but the tables. */
  lemma CrashKeepsInv(s: State, db: Db, h: History)
    requires Safe(db, h, s.now)
    ensures Inv(Crashed(s, db, h))
  {
    var h' := h.(crashes := h.crashes + 1);
    forall j | 0 <= j < |db.jobs| ensures SourceOk(db, h', j, s.now) {
      assert SourceOk(db, h, j, s.now);
    }
  }

  lemma CrashInTurnKeepsInv(s: State, cut: nat)
    requires Inv(s) && s.proc.Some? && NextStart(s).Some? && 1 <= cut <= 5
    ensures NextStart(s).value < |s.db.items|
    ensures var i := NextStart(s).value;
            Inv(Crashed(s, StartTrace(s.db, i, WORKER, s.now)[cut - 1], HistoryInTurn(s.h, i, cut)))
  {
    hide Safe;
    var i := NextStart(s).value;
    StartTraceSafe(s.db, s.h, i, WORKER, s.now, cut);
    CrashKeepsInv(s, StartTrace(s.db, i, WORKER, s.now)[cut - 1], HistoryInTurn(s.h, i, cut));
  }
}
