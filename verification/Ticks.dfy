/** A tick of the worker, and one of the scheduler, is a run of the engine's finer steps. */
module Ticks {
  import opened Wrappers
  import opened CircuitBreaker
  import opened Claiming
  import opened Worker
  import opened Engine
  import Sched = Scheduler

  function TurnActions(n: nat): seq<Action> { seq(n, _ => WorkerTurn) }

  /** What JobWorker.Tick does is one WorkerTurn for every item it claims and one more to find it is over. */
  lemma {:induction false} WorkerTickIsTurns(s: State)
    requires s.proc.Some?
    ensures var (db, p, claimed) := AfterTick(s.db, s.proc.value, s.limit, s.disabled, WORKER, s.now);
            var t := Run(s, TurnActions(|claimed| + 1));
            t.db == db && t.proc == Some(p)
    decreases |AfterTick(s.db, s.proc.value, s.limit, s.disabled, WORKER, s.now).2|
  {
    var t := Apply(s, WorkerTurn);
    var claimed := AfterTick(s.db, s.proc.value, s.limit, s.disabled, WORKER, s.now).2;
    OneTurn(s);
    RunOne(s, WorkerTurn);
    hide Turn, Turns, Apply;
    if claimed == [] {
      assert TurnActions(1) == [WorkerTurn];
    } else {
      WorkerTickIsTurns(t);
      assert TurnActions(|claimed| + 1) == [WorkerTurn] + TurnActions(|claimed|);
      RunConcat(s, [WorkerTurn], TurnActions(|claimed|));
    }
  }

  lemma OneTurn(s: State)
    requires s.proc.Some?
    ensures var t, (db, p, claimed) := Apply(s, WorkerTurn),
            AfterTick(s.db, s.proc.value, s.limit, s.disabled, WORKER, s.now);
            && t.proc.Some? && t.limit == s.limit && t.disabled == s.disabled && t.now == s.now
            && (claimed == [] ==> t.db == db && t.proc.value == p)
            && (claimed != [] ==>
                  var (db', p', more) := AfterTick(t.db, t.proc.value, t.limit, t.disabled, WORKER, t.now);
                  db' == db && p' == p && |claimed| == |more| + 1)
  {
    hide StartTrace, CanAttempt, NextItem;
  }

  function FireActions(ids: seq<string>): seq<Action> { seq(|ids|, k requires 0 <= k < |ids| => Fire(ids[k])) }

  /** What Scheduler.RunTickIfReady does is one Fire for every due schedule. */
  lemma {:induction false} SchedulerTickIsFires(s: State, ids: seq<string>)
    requires s.proc.Some? && forall id :: id in ids ==> CanFire(s, id)
    requires forall i, k :: 0 <= i < k < |ids| ==> ids[i] != ids[k]
    ensures var t := Run(s, FireActions(ids));
            && t.db == Sched.FireAll(s.db, ids, s.now) && t.proc == s.proc && t.now == s.now
            && t.db.schedules.Keys == s.db.schedules.Keys
            && forall id :: id in s.db.schedules && id !in ids ==> t.db.schedules[id] == s.db.schedules[id]
  {
    hide Sched.FireTrace, Apply;
    if ids != [] {
      var init, last := ids[..|ids| - 1], ids[|ids| - 1];
      assert FireActions(ids) == FireActions(init) + [Fire(last)];
      assert forall id :: id in ids <==> id in init || id == last;
      assert last !in init by {
        assert forall k :: 0 <= k < |init| ==> init[k] == ids[k];
      }
      assert CanFire(s, last);
      SchedulerTickIsFires(s, init);
      RunConcat(s, FireActions(init), [Fire(last)]);
      RunOne(Run(s, FireActions(init)), Fire(last));
      OneFire(Run(s, FireActions(init)), last);
    }
  }

  lemma OneFire(s: State, id: string)
    requires s.proc.Some? && CanFire(s, id)
    ensures var t := Apply(s, Fire(id));
            && t.db == Sched.FireTrace(s.db, id, s.db.schedules[id], s.now)[1] && t.proc == s.proc && t.now == s.now
            && t.db.schedules.Keys == s.db.schedules.Keys
            && forall k :: k in s.db.schedules && k != id ==> t.db.schedules[k] == s.db.schedules[k]
  {
    Sched.FireTouchesOneRow(s.db, id, s.db.schedules[id], s.now);
    hide Sched.FireTrace;
  }
}
