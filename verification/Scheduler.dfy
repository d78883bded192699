/** Schedules fire through the job engine (scheduler/index.js). */
module Scheduler {
  import opened Wrappers
  import opened ErrorClassifier
  import opened OccurrenceKeys
  import opened Tables
  import opened JobService

  function UnitMs(u: RepeatUnit): int
  {
    match u
    case Minutes => 60 * 1000
    case Hours => 60 * 60 * 1000
    case Days => 24 * 60 * 60 * 1000
    case Weeks => 7 * 24 * 60 * 60 * 1000
  }

  function StepMs(r: Repeat): (ms: int)
    ensures ms > 0
  {
    UnitMs(r.everyUnit) * r.everyValue
  }

  // ---- Creating and removing ----

  datatype ScheduleError = InvalidRunAt | NoValidRecipients

  /** A repeat as requested; `everyUnit` is None when the string names no known unit. */
  datatype RepeatRequest = RepeatRequest(everyValue: int, everyUnit: Option<RepeatUnit>, endAt: Option<int>)

  function DigitsOf(s: string): string
  {
    if s == "" then "" else (if '0' <= s[0] <= '9' then [s[0]] else "") + DigitsOf(s[1..])
  }

  function NormalizeRecipients(rs: seq<Recipient>): (out: seq<Recipient>)
    ensures forall r :: r in out ==> r.number != ""
  {
    if rs == [] then []
    else
      var number := DigitsOf(rs[0].number);
      (if number == "" then [] else [Recipient(number, rs[0].name)]) + NormalizeRecipients(rs[1..])
  }

  /** A falsy everyValue means no repeat; a negative one is raised to 1; an unknown unit means minutes. */
  function NormalizeRepeat(request: Option<RepeatRequest>): Option<Repeat>
  {
    if request.None? || request.value.everyValue == 0 then None
    else
      var q := request.value;
      var value := if q.everyValue < 1 then 1 else q.everyValue;
      var unit := match q.everyUnit case Some(u) => u case None => Minutes;
      Some(Repeat(value, unit, q.endAt))
  }

  /** `runAt` is None when the date does not parse. */
  function NewSchedule(recipients: seq<Recipient>, message: string, runAt: Option<int>, repeat: Option<RepeatRequest>)
    : (r: Result<Schedule, ScheduleError>)
  {
    var normalized := NormalizeRecipients(recipients);
    if runAt.None? then Failure(InvalidRunAt)
    else if normalized == [] then Failure(NoValidRecipients)
    else Success(Schedule(normalized, message, NormalizeRepeat(repeat), Scheduled, runAt.value, None, None))
  }

  // ---- What is stored ----

  predicate IsDigit(c: char) { '0' <= c <= '9' }

  predicate HasDigit(s: string) { exists k :: 0 <= k < |s| && IsDigit(s[k]) }

  lemma {:induction false} DigitsConcat(s: string, t: string)
    ensures DigitsOf(s + t) == DigitsOf(s) + DigitsOf(t)
  {
    if s == "" {
      assert s + t == t;
    } else {
      assert (s + t)[1..] == s[1..] + t;
      DigitsConcat(s[1..], t);
    }
  }

  lemma {:induction false} OnlyDigits(s: string)
    ensures forall k :: 0 <= k < |DigitsOf(s)| ==> IsDigit(DigitsOf(s)[k])
  {
    if s != "" {
      OnlyDigits(s[1..]);
    }
  }

  lemma {:induction false} AllDigits(s: string)
    requires forall k :: 0 <= k < |s| ==> IsDigit(s[k])
    ensures DigitsOf(s) == s
  {
    if s != "" {
      AllDigits(s[1..]);
      assert s == [s[0]] + s[1..];
    }
  }

  lemma {:induction false} NoDigits(s: string)
    ensures HasDigit(s) <==> DigitsOf(s) != ""
  {
    if s != "" {
      NoDigits(s[1..]);
      assert HasDigit(s[1..]) ==> HasDigit(s) by {
        if k :| 0 <= k < |s[1..]| && IsDigit(s[1..][k]) {
          assert IsDigit(s[k + 1]);
        }
      }
      assert HasDigit(s) ==> IsDigit(s[0]) || HasDigit(s[1..]) by {
        if k :| 0 <= k < |s| && IsDigit(s[k]) && k > 0 {
          assert IsDigit(s[1..][k - 1]);
        }
      }
    }
  }

  /** Only digits are kept, every digit is, and in order. */
  lemma DigitsAreKept(s: string, t: string)
    ensures forall k :: 0 <= k < |DigitsOf(s)| ==> IsDigit(DigitsOf(s)[k])
    ensures DigitsOf(s + t) == DigitsOf(s) + DigitsOf(t)
    ensures (forall k :: 0 <= k < |s| ==> IsDigit(s[k])) ==> DigitsOf(s) == s
    ensures !HasDigit(s) <==> DigitsOf(s) == ""
  {
    hide DigitsOf, HasDigit, IsDigit;
    OnlyDigits(s);
    DigitsConcat(s, t);
    NoDigits(s);
    if forall k :: 0 <= k < |s| ==> IsDigit(s[k]) {
      AllDigits(s);
    }
  }

  lemma FirstRecipient(rs: seq<Recipient>)
    requires rs != []
    ensures NormalizeRecipients(rs) ==
              (if HasDigit(rs[0].number) then [Recipient(DigitsOf(rs[0].number), rs[0].name)] else [])
              + NormalizeRecipients(rs[1..])
  {
    DigitsAreKept(rs[0].number, "");
  }

  /** A recipient is kept, with its name and the digits of its number, unless there are none. */
  lemma OneRecipient(r: Recipient)
    ensures NormalizeRecipients([r]) == if HasDigit(r.number) then [Recipient(DigitsOf(r.number), r.name)] else []
  {
    FirstRecipient([r]);
    assert [r][1..] == [] && NormalizeRecipients([]) == [];
  }

  /** Several are kept in order. */
  lemma {:induction false} RecipientsAreKept(a: seq<Recipient>, b: seq<Recipient>)
    ensures NormalizeRecipients(a + b) == NormalizeRecipients(a) + NormalizeRecipients(b)
  {
    hide HasDigit, DigitsOf;
    if a == [] {
      assert a + b == b;
    } else {
      assert (a + b)[1..] == a[1..] + b;
      RecipientsAreKept(a[1..], b);
    }
  }

  lemma {:induction false} NoneIsKept(a: seq<Recipient>)
    ensures NormalizeRecipients(a) == [] <==> forall k :: 0 <= k < |a| ==> !HasDigit(a[k].number)
  {
    hide HasDigit, DigitsOf;
    if a != [] {
      FirstRecipient(a);
      NoneIsKept(a[1..]);
      assert forall k :: 0 <= k < |a[1..]| ==> a[1..][k] == a[k + 1];
      assert forall k :: 1 <= k < |a| ==> a[k] == a[1..][k - 1];
    }
  }

  /** What a creation stores and when it refuses: the message, the run time and the repeat as requested, a value below
      one raised to one, an unknown unit read as minutes, a zero value as no repeat at all. */
  lemma CreationStores(recipients: seq<Recipient>, message: string, runAt: Option<int>, repeat: Option<RepeatRequest>)
    ensures var r := NewSchedule(recipients, message, runAt, repeat);
            && (r == Failure(InvalidRunAt) <==> runAt == None)
            && (r == Failure(NoValidRecipients) <==>
                  runAt != None && forall k :: 0 <= k < |recipients| ==> !HasDigit(recipients[k].number))
            && (r.Success? ==>
                  var row := r.value;
                  && row.recipients == NormalizeRecipients(recipients) && row.message == message
                  && Some(row.nextRunAt) == runAt && row.status == Scheduled
                  && row.lastRunAt == None && row.lastResult == None
                  && (repeat == None ==> row.repeat == None)
                  && (repeat != None ==>
                        var q := repeat.value;
                        && (q.everyValue == 0 ==> row.repeat == None)
                        && (q.everyValue != 0 ==>
                              && row.repeat.Some? && row.repeat.value.endAt == q.endAt
                              && row.repeat.value.everyValue == (if q.everyValue > 0 then q.everyValue else 1)
                              && (q.everyUnit == None ==> row.repeat.value.everyUnit == Minutes)
                              && (q.everyUnit != None ==> Some(row.repeat.value.everyUnit) == q.everyUnit))))
  {
    NoneIsKept(recipients);
  }

  function PutSchedule(db: Db, id: string, s: Schedule): Db
  {
    db.(schedules := db.schedules[id := s])
  }

  function DeleteSchedule(db: Db, id: string): Db
  {
    db.(schedules := db.schedules - {id})
  }

  // ---- Firing ----

  predicate IsDue(s: Schedule, now: int)
  {
    s.status.Scheduled? && s.nextRunAt <= now
  }

  function Drafts(s: Schedule): seq<Draft>
  {
    seq(|s.recipients|, k requires 0 <= k < |s.recipients| => Draft(s.recipients[k], s.message))
  }

  function CreateOccurrence(db: Db, id: string, s: Schedule, now: int): Db
  {
    CreateJob(db, Some(OccurrenceKey(id, s.nextRunAt)), Some(id), Drafts(s), now).0
  }

  function MarkSending(db: Db, id: string): Db
  {
    if id in db.schedules && db.schedules[id].status.Scheduled? then
      PutSchedule(db, id, db.schedules[id].(status := Sending))
    else db
  }

  /** The statements of one fire: the create transaction, then the guarded status update. */
  function FireTrace(db: Db, id: string, s: Schedule, now: int): (trace: seq<Db>)
    ensures |trace| == 2
  {
    var d1 := CreateOccurrence(db, id, s, now);
    [d1, MarkSending(d1, id)]
  }

  // ---- Settling ----

  function LineStatusOf(it: Item): LineStatus
  {
    if it.status.Succeeded? then LineSent
    else if it.status.Skipped? then LineSkipped
    else if it.lastCategory == Some(PERMANENT) then LineNotOnWhatsapp
    else LineError
  }

  function LineOf(it: Item): ReportLine
  {
    ReportLine(it.to, LineStatusOf(it), it.lastDetail)
  }

  function ResultsOf(items: seq<Item>, j: nat): seq<ReportLine>
  {
    var rows := ItemRows(items, j);
    seq(|rows|, k requires 0 <= k < |rows| => assert rows[k] in rows; LineOf(items[rows[k]]))
  }

  /** First point of the grid start, start+step, ... behind `start` that lies in the future. */
  function NextRun(start: int, step: int, now: int): (next: int)
    requires step > 0
  {
    var k := (now - start) / step + 1;
    start + step * (if k < 1 then 1 else k)
  }

  function Settled(s: Schedule, report: Report, now: int): Schedule
  {
    var done := s.(lastRunAt := Some(now), lastResult := Some(report));
    if s.repeat.None? then done.(status := Done)
    else
      var next := NextRun(s.nextRunAt, StepMs(s.repeat.value), now);
      var endAt := s.repeat.value.endAt;
      // An end of 0 is falsy and does not end anything.
      if endAt.Some? && endAt.value != 0 && next > endAt.value then done.(status := Done)
      else done.(status := Scheduled, nextRunAt := next)
  }

  function RanAt(job: Job, now: int): int
  {
    if job.completedAt.Some? && job.completedAt.value != 0 then job.completedAt.value else now
  }

  function OnSettled(db: Db, j: nat, now: int): Db
  {
    if j < |db.jobs| && db.jobs[j].source.Some? && db.jobs[j].source.value in db.schedules then
      var id := db.jobs[j].source.value;
      var report := Report(RanAt(db.jobs[j], now), ResultsOf(db.items, j));
      PutSchedule(db, id, Settled(db.schedules[id], report, now))
    else db
  }

  // ---- Catch-up arithmetic ----

  /** NextRun is the least point of the schedule's grid that is both behind `start` and in the future. */
  lemma NextRunIsLeastFuturePoint(start: int, step: int, now: int)
    requires step > 0
    ensures var next := NextRun(start, step, now);
            && next > start && next > now && (next - start) % step == 0
            && forall k: int :: k >= 1 && start + step * k > now ==> next <= start + step * k
  {
    var q := (now - start) / step;
    var k0 := if q + 1 < 1 then 1 else q + 1;
    assert now - start == step * q + (now - start) % step;
    MulMonotone(step, q + 1, k0);
    assert step * (q + 1) == step * q + step;
    MulMonotone(step, 1, k0);
    ModOfMultiple(step, k0);
    forall k: int | k >= 1 && start + step * k > now ensures start + step * k0 <= start + step * k {
      if k0 > 1 {
        GapBounds(step, k, q);
        MulMonotone(step, k0, k);
      } else {
        MulMonotone(step, 1, k);
      }
    }
  }

  lemma MulMonotone(step: int, a: int, b: int)
    requires step > 0 && a <= b
    ensures step * a <= step * b
  {
    assert step * (b - a) >= 0;
    assert step * (b - a) == step * b - step * a;
  }

  lemma GapBounds(step: int, k: int, q: int)
    requires step > 0 && step * k > step * q
    ensures k >= q + 1
  {
    if k <= q {
      MulMonotone(step, k, q);
    }
  }

  lemma {:induction false} ModOfMultiple(step: int, k: int)
    requires step > 0
    ensures (step * k) % step == 0
  {
    assert (step * k) / step == k by {
      var q, r := (step * k) / step, (step * k) % step;
      assert step * (k - q) == r;
      if k > q { MulMonotone(step, 1, k - q); }
      if k < q { MulMonotone(step, k - q, -1); }
    }
  }

  lemma FirstFuturePointIsNextRun(start: int, step: int, now: int, k: int)
    requires step > 0 && k >= 1 && start + step * k > now
    requires k > 1 ==> start + step * (k - 1) <= now
    ensures NextRun(start, step, now) == start + step * k
  {
    var q := (now - start) / step;
    assert now - start == step * q + (now - start) % step;
    if k > q + 1 {
      assert step * (q + 1) == step * q + step;
      if k > 1 {
        MulMonotone(step, q + 1, k - 1);
      }
    } else if k < q + 1 {
      MulMonotone(step, k, q);
    }
  }

  /** The do-while of onJobSettled. `clock(i)` is the i-th reading of Date.now(); it may advance while the loop
      runs as long as it stays below some horizon. */
  method StepPast(start: int, step: int, clock: nat -> int, ghost horizon: int) returns (next: int, turns: nat)
    requires step > 0
    requires forall i :: clock(i) <= horizon
    ensures turns >= 1 && next == start + step * turns
    ensures next > clock(turns - 1)
    ensures forall i: nat :: i < turns - 1 ==> start + step * (i + 1) <= clock(i)
    ensures (forall i :: clock(i) == clock(0)) ==> next == NextRun(start, step, clock(0))
  {
    next, turns := start + step, 1;
    while next <= clock(turns - 1)
      invariant turns >= 1 && next == start + step * turns
      invariant forall i: nat :: i < turns - 1 ==> start + step * (i + 1) <= clock(i)
      decreases horizon - next
    {
      next, turns := next + step, turns + 1;
    }
    if forall i :: clock(i) == clock(0) {
      assert turns > 1 ==> clock(turns - 2) == clock(0);
      FirstFuturePointIsNextRun(start, step, clock(0), turns);
    }
  }

  // ---- Procedures ----

  class Scheduler {
    const db: Database

    constructor (db: Database)
      ensures this.db == db
    {
      this.db := db;
    }

    /** `id` is the fresh UUID. */
    method Create(id: string, recipients: seq<Recipient>, message: string, runAt: Option<int>,
                  repeat: Option<RepeatRequest>)
      returns (r: Result<Schedule, ScheduleError>)
      modifies db
      ensures r == NewSchedule(recipients, message, runAt, repeat)
      ensures r.Failure? ==> db.Tables() == old(db.Tables())
      ensures r.Success? ==> db.Tables() == PutSchedule(old(db.Tables()), id, r.value)
    {
      if runAt.None? { return Failure(InvalidRunAt); }
      var normalized := NormalizeRecipients(recipients);
      if normalized == [] { return Failure(NoValidRecipients); }
      var s := Schedule(normalized, message, NormalizeRepeat(repeat), Scheduled, runAt.value, None, None);
      db.schedules := db.schedules[id := s];
      return Success(s);
    }

    method Remove(id: string) returns (removed: bool)
      modifies db
      ensures removed <==> id in old(db.schedules)
      ensures db.Tables() == DeleteSchedule(old(db.Tables()), id)
    {
      removed := id in db.schedules;
      db.schedules := db.schedules - {id};
    }

    method FireDue(id: string, row: Schedule, now: int)
      modifies db
      ensures db.Tables() == FireTrace(old(db.Tables()), id, row, now)[1]
    {
      var _ := CreateJobRows(db, Some(OccurrenceKey(id, row.nextRunAt)), Some(id), Drafts(row), now);
      if id in db.schedules && db.schedules[id].status == Scheduled {
        db.schedules := db.schedules[id := db.schedules[id].(status := Sending)];
      }
    }

    /** Fires every due schedule once; the query fixes no order, so `fired` reports the one taken. */
    method RunTickIfReady(ready: bool, now: int) returns (fired: seq<string>)
      modifies db
      ensures !ready ==> fired == [] && db.Tables() == old(db.Tables())
      ensures ready ==> forall id :: id in fired <==> id in old(db.schedules) && IsDue(old(db.schedules[id]), now)
      ensures forall i, k :: 0 <= i < k < |fired| ==> fired[i] != fired[k]
      ensures db.Tables() == FireAll(old(db.Tables()), fired, now)
      ensures forall id :: id in old(db.schedules) <==> id in db.schedules
      ensures forall id :: id in db.schedules ==>
                db.schedules[id] == if id in fired then old(db.schedules[id]).(status := Sending)
                    else old(db.schedules[id])
    {
      fired := [];
      if !ready { return; }
      ghost var before := db.Tables();
      var due := map id | id in db.schedules && IsDue(db.schedules[id], now) :: db.schedules[id];
      var left := due.Keys;
      while left != {}
        invariant left <= due.Keys
        invariant forall id :: id in fired <==> id in due && id !in left
        invariant forall i, k :: 0 <= i < k < |fired| ==> fired[i] != fired[k]
        invariant db.Tables() == FireAll(before, fired, now)
        decreases left
      {
        hide FireTrace, FireAll, IsDue;
        var id :| id in left;
        FireDue(id, due[id], now);
        FireAllThenOne(before, fired, id, now);
        fired, left := fired + [id], left - {id};
      }
      FireAllMarks(before, fired, now);
    }

    /** The worker's onJobSettled callback; the clock reads `now` throughout. */
    method OnJobSettled(j: nat, now: int)
      modifies db
      ensures db.Tables() == OnSettled(old(db.Tables()), j, now)
    {
      if j >= |db.jobs| || db.jobs[j].source.None? { return; }
      var id := db.jobs[j].source.value;
      if id !in db.schedules { return; }
      var row := db.schedules[id];
      var report := Report(RanAt(db.jobs[j], now), ResultsOf(db.items, j));
      if row.repeat.Some? {
        var step, endAt := StepMs(row.repeat.value), row.repeat.value.endAt;
        var next, _ := StepPast(row.nextRunAt, step, (i: nat) => now, now);
        if endAt.Some? && endAt.value != 0 && next > endAt.value {
          db.schedules := db.schedules[id := row.(status := Done, lastRunAt := Some(now), lastResult := Some(report))];
        } else {
          db.schedules := db.schedules[id := row.(status := Scheduled, nextRunAt := next, lastRunAt := Some(now),
                                                  lastResult := Some(report))];
        }
      } else {
        db.schedules := db.schedules[id := row.(status := Done, lastRunAt := Some(now), lastResult := Some(report))];
      }
    }
  }

  /** Firing schedules that wait, each once, marks exactly those. */
  lemma {:induction false} FireAllMarks(db: Db, ids: seq<string>, now: int)
    requires forall id :: id in ids ==> id in db.schedules && db.schedules[id].status.Scheduled?
    requires forall i, k :: 0 <= i < k < |ids| ==> ids[i] != ids[k]
    ensures var d := FireAll(db, ids, now);
            && d.schedules.Keys == db.schedules.Keys
            && forall id :: id in d.schedules ==>
                 d.schedules[id] == if id in ids then db.schedules[id].(status := Sending) else db.schedules[id]
  {
    if ids != [] {
      var n := |ids| - 1;
      var init, last := ids[..n], ids[n];
      assert last in ids && forall id :: id in ids <==> id in init || id == last;
      assert last !in init by {
        assert forall k :: 0 <= k < n ==> init[k] == ids[k];
      }
      FireAllMarks(db, init, now);
      FireTouchesOneRow(FireAll(db, init, now), last, db.schedules[last], now);
    }
  }

  lemma FireAllThenOne(db: Db, fired: seq<string>, id: string, now: int)
    ensures FireAll(db, fired + [id], now) ==
              if id in db.schedules then FireTrace(FireAll(db, fired, now), id, db.schedules[id], now)[1]
                  else FireAll(db, fired, now)
  {
    assert (fired + [id])[..|fired|] == fired;
  }

  lemma FireTouchesOneRow(db: Db, id: string, s: Schedule, now: int)
    ensures FireTrace(db, id, s, now)[1].schedules ==
              if id in db.schedules && db.schedules[id].status.Scheduled? then
                db.schedules[id := db.schedules[id].(status := Sending)]
              else db.schedules
  {
  }

  /** Fires in the given order, each against the row as selected at the start of the tick. */
  function FireAll(db: Db, ids: seq<string>, now: int): Db
  {
    if ids == [] then db
    else
      var last := ids[|ids| - 1];
      var d := FireAll(db, ids[..|ids| - 1], now);
      if last in db.schedules then FireTrace(d, last, db.schedules[last], now)[1] else d
  }
}
