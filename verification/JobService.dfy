/** Durable job state transitions (lib/jobs/jobService.js). Every function below is one SQL statement (or one
    transaction) as a function of the tables; every method is the source's procedure made of them. */
module JobService {
  import opened Wrappers
  import opened ErrorClassifier
  import opened Sequences
  import opened Tables

  /** What a caller supplies for one item. */
  datatype Draft = Draft(to: Recipient, message: string)

  datatype CreateError = UniqueViolation

  // ---- Statements ----

  function FindByKey(jobs: seq<Job>, key: string): (r: Option<nat>)
    ensures r.Some? ==> r.value < |jobs| && jobs[r.value].key == Some(key)
    ensures r.None? ==> forall j :: 0 <= j < |jobs| ==> jobs[j].key != Some(key)
  {
    if jobs == [] then None
    else if jobs[|jobs| - 1].key == Some(key) then Some(|jobs| - 1)
    else FindByKey(jobs[..|jobs| - 1], key)
  }

  function NewItem(job: nat, position: nat, d: Draft, now: int): Item
  {
    Item(job, position, d.to, d.message, Queued, 0, now, None, None, None, None)
  }

  function NewJob(total: nat, key: Option<string>, source: Option<string>): Job
  {
    Job(QUEUED, total, 0, 0, 0, 0, key, source, None)
  }

  /** The insert transaction: the job and all its items, or nothing. */
  function InsertJob(db: Db, key: Option<string>, source: Option<string>, drafts: seq<Draft>, now: int): Db
  {
    var j := |db.jobs|;
    db.(jobs := db.jobs + [NewJob(|drafts|, key, source)],
        items := db.items + seq(|drafts|, k requires 0 <= k < |drafts| => NewItem(j, k, drafts[k], now)))
  }

  /** An empty key is not looked up but is still subject to the unique index. */
  function CreateJob(db: Db, key: Option<string>, source: Option<string>, drafts: seq<Draft>, now: int)
    : (Db, Result<(nat, bool), CreateError>)
  {
    var existing := if key.Some? then FindByKey(db.jobs, key.value) else None;
    if existing.Some? then
      (db, if key.value != "" then Success((existing.value, false)) else Failure(UniqueViolation))
    else (InsertJob(db, key, source, drafts, now), Success((|db.jobs|, true)))
  }

  function SetItem(db: Db, i: nat, it: Item): Db
  {
    if i < |db.items| then db.(items := db.items[i := it]) else db
  }

  function SetJob(db: Db, j: nat, job: Job): Db
  {
    if j < |db.jobs| then db.(jobs := db.jobs[j := job]) else db
  }

  function SetRunning(db: Db, i: nat): Db
  {
    if i < |db.items| then SetItem(db, i, db.items[i].(status := Running)) else db
  }

  function StartJob(db: Db, j: nat): Db
  {
    if j < |db.jobs| && db.jobs[j].status.QUEUED? then SetJob(db, j, db.jobs[j].(status := RUNNING)) else db
  }

  function InsertAttempt(db: Db, i: nat, number: nat): Db
  {
    db.(attempts := db.attempts + [Attempt(i, number, None, None, None)])
  }

  function SetAttemptCount(db: Db, i: nat, number: nat): Db
  {
    if i < |db.items| then SetItem(db, i, db.items[i].(attemptCount := number)) else db
  }

  function Finished(a: Attempt, i: nat, number: nat, r: SendResult): Attempt
  {
    if a.item == i && a.number == number then
      a.(outcome := Some(RecordedStatus(r)), category := CategoryOf(r), message := DetailOf(r))
    else a
  }

  function FinishAttempt(db: Db, i: nat, number: nat, r: SendResult): Db
  {
    db.(attempts := seq(|db.attempts|, k requires 0 <= k < |db.attempts| => Finished(db.attempts[k], i, number, r)))
  }

  function Released(it: Item): Item
  {
    it.(claimedBy := None, leaseExpiresAt := None)
  }

  function Requeue(db: Db, i: nat, at: int, category: Category, detail: Option<string>): Db
  {
    if i < |db.items| then
      SetItem(db, i, Released(db.items[i]).(status := Queued, nextAttemptAt := at,
                                            lastCategory := Some(category), lastDetail := detail))
    else db
  }

  function SetTerminal(db: Db, i: nat, st: ItemStatus, category: Option<Category>, detail: Option<string>): Db
  {
    if i < |db.items| then
      SetItem(db, i, Released(db.items[i]).(status := st, lastCategory := category, lastDetail := detail))
    else db
  }

  function Bumped(job: Job, st: ItemStatus): Job
  {
    match st
    case Succeeded => job.(succeeded := job.succeeded + 1)
    case Failed => job.(failed := job.failed + 1)
    case Skipped => job.(skipped := job.skipped + 1)
    case Cancelled => job.(cancelled := job.cancelled + 1)
    case _ => job
  }

  function BumpCounter(db: Db, j: nat, st: ItemStatus): Db
  {
    if j < |db.jobs| then SetJob(db, j, Bumped(db.jobs[j], st)) else db
  }

  function TerminalCount(items: seq<Item>, j: nat): nat
  {
    Count(items, InStatus(j, Succeeded)) + Count(items, InStatus(j, Failed))
    + Count(items, InStatus(j, Skipped)) + Count(items, InStatus(j, Cancelled))
  }

  function VerdictFor(succeeded: nat, total: nat): JobStatus
  {
    if succeeded == total then COMPLETED else if succeeded > 0 then PARTIALLY_COMPLETED else FAILED
  }

  /** The job is not terminal yet and none of its items is outstanding. */
  predicate Settles(db: Db, j: nat)
  {
    && j < |db.jobs| && !IsTerminalJob(db.jobs[j].status)
    && TerminalCount(db.items, j) >= db.jobs[j].total
  }

  function Settle(db: Db, j: nat, now: int): Db
  {
    if Settles(db, j) then
      var verdict := VerdictFor(Count(db.items, InStatus(j, Succeeded)), db.jobs[j].total);
      SetJob(db, j, db.jobs[j].(status := verdict, completedAt := Some(now)))
    else db
  }

  function CancelRow(db: Db, j: nat, now: int): Db
  {
    if j < |db.jobs| && !IsTerminalJob(db.jobs[j].status) then
      SetJob(db, j, db.jobs[j].(status := CANCELLED, completedAt := Some(now)))
    else db
  }

  function CancelledItem(it: Item, j: nat): Item
  {
    if it.job == j && !IsTerminalItem(it.status) then Released(it).(status := Cancelled) else it
  }

  function CancelItems(db: Db, j: nat): Db
  {
    db.(items := seq(|db.items|, k requires 0 <= k < |db.items| => CancelledItem(db.items[k], j)))
  }

  /** The two statements of a cancel that finds a live job; a dead job is left alone. */
  function CancelTrace(db: Db, j: nat, now: int): (trace: seq<Db>)
    ensures |trace| == 2
  {
    var d1 := CancelRow(db, j, now);
    [d1, if d1 != db then CancelItems(d1, j) else d1]
  }

  function PauseJob(db: Db, j: nat): Db
  {
    if j < |db.jobs| && (db.jobs[j].status.QUEUED? || db.jobs[j].status.RUNNING?) then
      SetJob(db, j, db.jobs[j].(status := PAUSED))
    else db
  }

  function ResumeJob(db: Db, j: nat): Db
  {
    if j < |db.jobs| && db.jobs[j].status.PAUSED? then SetJob(db, j, db.jobs[j].(status := QUEUED)) else db
  }

  /** SELECT * FROM job_items WHERE job_id = j ORDER BY seq, as row positions; see RowsComeBySeq. */
  function ItemRows(items: seq<Item>, j: nat): seq<nat>
  {
    Positions(items, OfJob(j))
  }

  // ---- Procedures ----

  method CreateJobRows(db: Database, key: Option<string>, source: Option<string>, drafts: seq<Draft>, now: int)
    returns (r: Result<(nat, bool), CreateError>)
    modifies db
    ensures (db.Tables(), r) == CreateJob(old(db.Tables()), key, source, drafts, now)
  {
    if key.Some? && key.value != "" {
      var existing := FindByKey(db.jobs, key.value);
      if existing.Some? { return Success((existing.value, false)); }
    }
    if key.Some? && FindByKey(db.jobs, key.value).Some? { return Failure(UniqueViolation); }
    var id := |db.jobs|;
    db.jobs := db.jobs + [NewJob(|drafts|, key, source)];
    for k := 0 to |drafts|
      invariant db.jobs == old(db.jobs) + [NewJob(|drafts|, key, source)]
      invariant db.attempts == old(db.attempts) && db.schedules == old(db.schedules)
      invariant db.items == old(db.items) + InsertJob(old(db.Tables()), key, source, drafts,
                                                      now).items[|old(db.items)|..][..k]
    {
      db.items := db.items + [NewItem(id, k, drafts[k], now)];
    }
    ghost var all := InsertJob(old(db.Tables()), key, source, drafts, now).items;
    assert all[|old(db.items)|..][..|drafts|] == all[|old(db.items)|..];
    return Success((id, true));
  }

  method MarkItemRunning(db: Database, i: nat)
    modifies db
    ensures i >= |old(db.items)| ==> db.Tables() == old(db.Tables())
    ensures i < |old(db.items)| ==> db.Tables() == StartJob(SetRunning(old(db.Tables()), i), old(db.items[i].job))
  {
    if i >= |db.items| { return; }
    var j := db.items[i].job;
    db.items := db.items[i := db.items[i].(status := Running)];
    if j < |db.jobs| && db.jobs[j].status == QUEUED {
      db.jobs := db.jobs[j := db.jobs[j].(status := RUNNING)];
    }
  }

  method RecordAttemptStart(db: Database, i: nat, number: nat)
    modifies db
    ensures db.Tables() == SetAttemptCount(InsertAttempt(old(db.Tables()), i, number), i, number)
  {
    db.attempts := db.attempts + [Attempt(i, number, None, None, None)];
    if i < |db.items| {
      db.items := db.items[i := db.items[i].(attemptCount := number)];
    }
  }

  method RecordAttemptFinish(db: Database, i: nat, number: nat, r: SendResult)
    modifies db
    ensures db.Tables() == FinishAttempt(old(db.Tables()), i, number, r)
  {
    db.attempts := seq(|db.attempts|, k requires 0 <= k < |db.attempts| reads db => Finished(db.attempts[k], i,
          number, r));
  }

  method ScheduleRetry(db: Database, i: nat, at: int, category: Category, detail: Option<string>)
    modifies db
    ensures db.Tables() == Requeue(old(db.Tables()), i, at, category, detail)
  {
    if i < |db.items| {
      db.items := db.items[i := Released(db.items[i]).(status := Queued, nextAttemptAt := at,
                                                       lastCategory := Some(category), lastDetail := detail)];
    }
  }

  method MarkItemTerminal(db: Database, i: nat, st: ItemStatus, category: Option<Category>, detail: Option<string>)
    modifies db
    ensures i >= |old(db.items)| ==> db.Tables() == old(db.Tables())
    ensures i < |old(db.items)| ==>
              db.Tables() == BumpCounter(SetTerminal(old(db.Tables()), i, st, category, detail), old(db.items[i].job),
                                         st)
  {
    if i >= |db.items| { return; }
    var j := db.items[i].job;
    db.items := db.items[i := Released(db.items[i]).(status := st, lastCategory := category, lastDetail := detail)];
    if j < |db.jobs| {
      db.jobs := db.jobs[j := Bumped(db.jobs[j], st)];
    }
  }

  /** Reports whether the job just became terminal. */
  method CheckJobCompletion(db: Database, j: nat, now: int) returns (settled: bool)
    modifies db
    ensures settled <==> Settles(old(db.Tables()), j)
    ensures db.Tables() == Settle(old(db.Tables()), j, now)
  {
    if j >= |db.jobs| || IsTerminalJob(db.jobs[j].status) { return false; }
    var total, terminal := db.jobs[j].total, TerminalCount(db.items, j);
    if terminal < total { return false; }
    var succeeded := Count(db.items, InStatus(j, Succeeded));
    var final := if succeeded == total then COMPLETED else if succeeded > 0 then PARTIALLY_COMPLETED else FAILED;
    db.jobs := db.jobs[j := db.jobs[j].(status := final, completedAt := Some(now))];
    return true;
  }

  method Cancel(db: Database, j: nat, now: int)
    modifies db
    ensures db.Tables() == CancelTrace(old(db.Tables()), j, now)[1]
  {
    if j < |db.jobs| && !IsTerminalJob(db.jobs[j].status) {
      db.jobs := db.jobs[j := db.jobs[j].(status := CANCELLED, completedAt := Some(now))];
      db.items := seq(|db.items|, k requires 0 <= k < |db.items| reads db => CancelledItem(db.items[k], j));
    }
  }

  method Pause(db: Database, j: nat)
    modifies db
    ensures db.Tables() == PauseJob(old(db.Tables()), j)
  {
    if j < |db.jobs| && (db.jobs[j].status == QUEUED || db.jobs[j].status == RUNNING) {
      db.jobs := db.jobs[j := db.jobs[j].(status := PAUSED)];
    }
  }

  method Resume(db: Database, j: nat)
    modifies db
    ensures db.Tables() == ResumeJob(old(db.Tables()), j)
  {
    if j < |db.jobs| && db.jobs[j].status == PAUSED {
      db.jobs := db.jobs[j := db.jobs[j].(status := QUEUED)];
    }
  }

  // ---- Counting ----

  /** Rows of a job are its terminal rows and its open rows. */
  lemma {:induction false} RowsAreTerminalOrOpen(items: seq<Item>, j: nat)
    ensures TerminalCount(items, j) + Count(items, OpenIn(j)) == Count(items, OfJob(j))
  {
    if items != [] {
      RowsAreTerminalOrOpen(items[..|items| - 1], j);
    }
  }

  lemma {:induction false} NoOpenRow(items: seq<Item>, j: nat)
    ensures Count(items, OpenIn(j)) == 0 <==> forall k :: 0 <= k < |items| && items[k].job == j ==>
            IsTerminalItem(items[k].status)
  {
    if items != [] {
      var init := items[..|items| - 1];
      NoOpenRow(init, j);
      assert forall k :: 0 <= k < |init| ==> init[k] == items[k];
    }
  }

  /** The completion query's count test means: every row of the job is terminal. */
  lemma CompletionMeansAllTerminal(db: Db, j: nat)
    requires j < |db.jobs| && Count(db.items, OfJob(j)) == db.jobs[j].total
    ensures Settles(db, j) <==>
              !IsTerminalJob(db.jobs[j].status)
              && forall k :: 0 <= k < |db.items| && db.items[k].job == j ==> IsTerminalItem(db.items[k].status)
  {
    RowsAreTerminalOrOpen(db.items, j);
    NoOpenRow(db.items, j);
  }

  // ---- What a creation answers ----

  /** The answer names the job just inserted, complete with its rows, or the one that carries the key already. */
  lemma CreationAnswers(db: Db, key: Option<string>, source: Option<string>, drafts: seq<Draft>, now: int)
    ensures var (d, r) := CreateJob(db, key, source, drafts, now);
            && (r.Failure? ==> d == db && key == Some("") && exists j :: 0 <= j < |db.jobs| && db.jobs[j].key == key)
            && (r.Success? ==>
                  var (id, created) := r.value;
                  && (!created ==> d == db && key.Some? && key != Some("") && id < |db.jobs| && db.jobs[id].key == key)
                  && (created ==>
                        && id >= |db.jobs| && id < |d.jobs| == |db.jobs| + 1 && db.jobs <= d.jobs
                        && (key.Some? ==> forall j :: 0 <= j < |db.jobs| ==> db.jobs[j].key != key)
                        && d.jobs[id] == Job(QUEUED, |drafts|, 0, 0, 0, 0, key, source, None)
                        && |d.items| == |db.items| + |drafts| && db.items <= d.items
                        && d.attempts == db.attempts && d.schedules == db.schedules
                        && forall k :: 0 <= k < |drafts| ==>
                             d.items[|db.items| + k] ==
                             Item(id, k, drafts[k].to, drafts[k].message, Queued, 0, now, None, None, None, None)))
  {
  }

  datatype Request = Request(key: Option<string>, source: Option<string>, drafts: seq<Draft>, now: int)

  /** The tables after any calls, one behind the other. */
  function AfterCalls(db: Db, calls: seq<Request>): Db
  {
    if calls == [] then db
    else
      var last := calls[|calls| - 1];
      CreateJob(AfterCalls(db, calls[..|calls| - 1]), last.key, last.source, last.drafts, last.now).0
  }

  lemma FindAfterAppend(jobs: seq<Job>, job: Job, key: string)
    ensures FindByKey(jobs + [job], key) == if job.key == Some(key) then Some(|jobs|) else FindByKey(jobs, key)
  {
    assert (jobs + [job])[..|jobs|] == jobs;
  }

  lemma {:induction false} KeyKeepsItsJob(db: Db, calls: seq<Request>, key: string)
    requires FindByKey(db.jobs, key).Some?
    ensures FindByKey(AfterCalls(db, calls).jobs, key) == FindByKey(db.jobs, key)
  {
    if calls != [] {
      var before, last := AfterCalls(db, calls[..|calls| - 1]), calls[|calls| - 1];
      KeyKeepsItsJob(db, calls[..|calls| - 1], key);
      FindAfterAppend(before.jobs, NewJob(|last.drafts|, last.key, last.source), key);
    }
  }

  /** Two calls with one non-empty key answer the same job, whatever calls lie between; only the first can have
      created it, and has exactly if the key was new. */
  lemma SameKeySameAnswer(db: Db, key: string, first: Request, between: seq<Request>, second: Request)
    requires key != "" && first.key == second.key == Some(key)
    ensures var (d1, r1) := CreateJob(db, first.key, first.source, first.drafts, first.now);
            var (_, r2) := CreateJob(AfterCalls(d1, between), second.key, second.source, second.drafts, second.now);
            && r1.Success? && r2.Success? && r1.value.0 == r2.value.0 && !r2.value.1
            && (r1.value.1 <==> forall j :: 0 <= j < |db.jobs| ==> db.jobs[j].key != Some(key))
  {
    var (d1, r1) := CreateJob(db, first.key, first.source, first.drafts, first.now);
    FindAfterAppend(db.jobs, NewJob(|first.drafts|, first.key, first.source), key);
    KeyKeepsItsJob(d1, between, key);
  }
}
