/** Each kind of table write keeps the invariant, given what it owes locally. */
module Frames {
  import opened Wrappers
  import opened Sequences
  import opened Tables
  import opened JobService
  import opened Engine
  import opened Invariant
  import Sched = Scheduler

  ghost predicate SameIdentity(a: Item, b: Item)
  {
    a.job == b.job && a.position == b.position && a.to == b.to && a.message == b.message
  }

  /** The write keeps every row's identity and every settled row's status. */
  ghost predicate Rewrites(items: seq<Item>, items': seq<Item>)
  {
    && |items'| == |items|
    && forall i {:trigger items'[i]} {:trigger items[i]} :: 0 <= i < |items| ==>
         SameIdentity(items[i], items'[i]) && (IsSettledItem(items[i].status) ==> items'[i].status == items[i].status)
  }

  lemma CountsAfterRewrite(items: seq<Item>, items': seq<Item>, j: nat)
    requires Rewrites(items, items')
    ensures Count(items', OfJob(j)) == Count(items, OfJob(j)) && ItemRows(items', j) == ItemRows(items, j)
    ensures Count(items, InStatus(j, Succeeded)) <= Count(items', InStatus(j, Succeeded))
    ensures Count(items, InStatus(j, Failed)) <= Count(items', InStatus(j, Failed))
    ensures Count(items, InStatus(j, Skipped)) <= Count(items', InStatus(j, Skipped))
  {
    CountCongruent(items, items', OfJob(j));
    PositionsCongruent(items, items', OfJob(j));
    CountMonotone(items, items', InStatus(j, Succeeded));
    CountMonotone(items, items', InStatus(j, Failed));
    CountMonotone(items, items', InStatus(j, Skipped));
  }

  lemma JobOkAfterRewrite(job: Job, items: seq<Item>, items': seq<Item>, j: nat, settles: nat)
    requires Rewrites(items, items') && JobOk(job, items, j, settles)
    requires IsVerdict(job.status) ==> forall i :: 0 <= i < |items| && items[i].job == j ==>
             IsSettledItem(items[i].status)
    ensures JobOk(job, items', j, settles)
  {
    CountsAfterRewrite(items, items', j);
    if IsVerdict(job.status) {
      CountCongruent(items, items', InStatus(j, Succeeded));
    }
  }

  lemma RowsMatchAfterRewrite(items: seq<Item>, items': seq<Item>, j: nat, s: Schedule)
    requires Rewrites(items, items') && RowsMatch(items, j, s)
    ensures RowsMatch(items', j, s)
  {
    PositionsCongruent(items, items', OfJob(j));
  }

  ghost predicate SameJobHistory(h: History, h': History)
  {
    h'.settles == h.settles && h'.occurrence == h.occurrence && h'.first == h.first
  }

  /** Writing item rows. */
  lemma RewriteKeepsSafe(db: Db, h: History, items': seq<Item>, h': History, now: int)
    requires Safe(db, h, now) && Rewrites(db.items, items') && SameJobHistory(h, h')
    requires ItemsOk(db.(items := items'), h')
    requires forall i {:trigger items'[i]} :: 0 <= i < |items'| ==> LogOkFor(db.attempts, items'[i], i, h'.torn[i])
    ensures Safe(db.(items := items'), h', now)
  {
    var db' := db.(items := items');
    forall j | 0 <= j < |db.jobs| ensures JobOk(db'.jobs[j], items', j, h'.settles[j]) {
      forall i | 0 <= i < |db.items| && db.items[i].job == j && IsVerdict(db.jobs[j].status)
          ensures IsSettledItem(db.items[i].status) {
      }
      JobOkAfterRewrite(db.jobs[j], db.items, items', j, h.settles[j]);
    }
    forall j | 0 <= j < |db.jobs| ensures SourceOk(db', h', j, now) {
      assert SourceOk(db, h, j, now);
      if db.jobs[j].source.Some? && db.jobs[j].source.value in db.schedules {
        RowsMatchAfterRewrite(db.items, items', j, db.schedules[db.jobs[j].source.value]);
      }
    }
  }

  /** Writing one item row. */
  lemma SetItemKeepsSafe(db: Db, h: History, i: nat, it: Item, h': History, now: int)
    requires Safe(db, h, now) && i < |db.items| && SameJobHistory(h, h')
    requires |h'.sends| == |h'.recoveries| == |h'.torn| == |db.items|
    requires forall k :: 0 <= k < |db.items| && k != i ==>
               h'.sends[k] == h.sends[k] && h'.recoveries[k] == h.recoveries[k] && h'.torn[k] == h.torn[k]
    requires SameIdentity(db.items[i], it) && (IsSettledItem(db.items[i].status) ==> it.status == db.items[i].status)
    requires ItemOk(it, db.jobs[it.job].status, h'.sends[i], h'.recoveries[i])
    requires LogOkFor(db.attempts, it, i, h'.torn[i])
    ensures Safe(SetItem(db, i, it), h', now)
  {
    var items' := db.items[i := it];
    forall k | 0 <= k < |items'|
      ensures LogOkFor(db.attempts, items'[k], k, h'.torn[k])
      ensures items'[k].job < |db.jobs| && ItemOk(items'[k], db.jobs[items'[k].job].status, h'.sends[k],
                                                  h'.recoveries[k])
    {
      if k != i {
        assert items'[k] == db.items[k];
      }
    }
    RewriteKeepsSafe(db, h, items', h', now);
  }

  /** Writing one job row. */
  lemma SetJobKeepsSafe(db: Db, h: History, j: nat, job: Job, h': History, now: int)
    requires Safe(db, h, now) && j < |db.jobs|
    requires h' == h.(settles := h'.settles) && |h'.settles| == |h.settles|
    requires forall k :: 0 <= k < |db.jobs| && k != j ==> h'.settles[k] == h.settles[k]
    requires job.key == db.jobs[j].key && job.source == db.jobs[j].source
    requires IsTerminalJob(db.jobs[j].status) ==> IsTerminalJob(job.status)
    requires JobOk(job, db.items, j, h'.settles[j])
    requires forall i :: 0 <= i < |db.items| && db.items[i].job == j ==>
               ItemOk(db.items[i], job.status, h.sends[i], h.recoveries[i])
    ensures Safe(SetJob(db, j, job), h', now)
  {
    var db' := SetJob(db, j, job);
    forall k | 0 <= k < |db'.jobs| ensures JobOk(db'.jobs[k], db.items, k, h'.settles[k]) && SourceOk(db', h', k, now) {
      assert SourceOk(db, h, k, now);
      assert k != j ==> db'.jobs[k] == db.jobs[k];
    }
    assert KeysUnique(db'.jobs) by {
      assert forall k :: 0 <= k < |db.jobs| ==> db'.jobs[k].key == db.jobs[k].key;
    }
  }

  /** Writing one schedule row. */
  lemma SetScheduleKeepsSafe(db: Db, h: History, id: string, s: Schedule, h': History, now: int)
    requires Safe(db, h, now)
    requires h' == h.(first := h'.first) && id in h'.first && forall k :: k in h.first ==>
               k in h'.first && h'.first[k] == h.first[k]
    requires ScheduleOk(s, h'.first[id])
    requires forall j :: 0 <= j < |db.jobs| && db.jobs[j].source == Some(id) ==>
               LiveJobOk(db.jobs[j], db.items, j, s, h'.first[id], h.occurrence[j].value)
    ensures Safe(Sched.PutSchedule(db, id, s), h', now)
  {
    var db' := Sched.PutSchedule(db, id, s);
    forall j | 0 <= j < |db.jobs| ensures SourceOk(db', h', j, now) {
      assert SourceOk(db, h, j, now);
    }
    forall k | k in db'.schedules ensures k in h'.first && ScheduleOk(db'.schedules[k], h'.first[k]) {
      if k != id {
        assert db'.schedules[k] == db.schedules[k];
      }
    }
  }

  // ---- What the invariant says about one row ----

  lemma ItemFacts(db: Db, h: History, i: nat, now: int)
    requires Safe(db, h, now) && i < |db.items|
    ensures |h.sends| == |h.recoveries| == |h.torn| == |db.items|
    ensures db.items[i].job < |db.jobs|
    ensures ItemOk(db.items[i], db.jobs[db.items[i].job].status, h.sends[i], h.recoveries[i])
    ensures LogOkFor(db.attempts, db.items[i], i, h.torn[i])
  {
  }

  lemma JobFacts(db: Db, h: History, j: nat, now: int)
    requires Safe(db, h, now) && j < |db.jobs|
    ensures |h.settles| == |h.occurrence| == |db.jobs|
    ensures JobOk(db.jobs[j], db.items, j, h.settles[j]) && SourceOk(db, h, j, now)
    ensures |h.sends| == |h.recoveries| == |h.torn| == |db.items|
    ensures forall i :: 0 <= i < |db.items| && db.items[i].job == j ==>
              ItemOk(db.items[i], db.jobs[j].status, h.sends[i], h.recoveries[i])
  {
  }

  lemma ScheduleIsKnown(s: State, id: string)
    requires Inv(s) && id in s.db.schedules
    ensures id in s.h.first
  {
    var _ := s.db.schedules[id];
  }
}
