/** The breaker of a process as a function of what the process did, and how rarely it lets anything through. */
module Admission {
  import opened ErrorClassifier
  import opened CircuitBreaker
  import opened JobService
  import opened Claiming
  import opened Worker
  import opened Engine
  import opened Invariant
  import opened Evolution
  import opened Progress
  import opened Ledgers
  import Sched = Scheduler

  /** What an action asks or tells the breaker. */
  function Told(s: State, a: Action): seq<Event>
  {
    if s.proc.None? then []
    else if a.WorkerTurn? then
      if s.proc.value.draining || s.disabled || s.proc.value.active >= s.limit then [] else [Ask(s.now)]
    else if a.Finish? && CanFinish(s, a.item) then
      match CategoryOf(a.result) case None => [Succeed(s.now)] case Some(c) => [Fail(c, s.now)]
    else []
  }

  /** What the present process has asked and told its breaker. */
  function BreakerTrace(s: State, actions: seq<Action>): seq<Event>
  {
    if actions == [] then []
    else
      var init := actions[..|actions| - 1];
      if Run(s, actions).proc.None? then []
      else BreakerTrace(s, init) + Told(Run(s, init), actions[|actions| - 1])
  }

  lemma ActionTellsBreaker(s: State, a: Action)
    ensures var t := Apply(s, a);
            && t.limit == s.limit && t.now >= s.now
            && (s.proc.Some? && t.proc.Some? ==> t.proc.value.breaker == Replay(s.proc.value.breaker, Told(s, a)))
            && (s.proc.None? && t.proc.Some? ==> t.proc.value == NewProc())
  {
    hide FinishCut, FinishHistory, CancelTrace, PauseJob, ResumeJob, CreateJob, FireCut, Sched.NewSchedule, StartTrace,
         CanAttempt, RecordSuccess, RecordFailure, NextItem;
    if Told(s, a) != [] {
      assert Told(s, a)[..0] == [];
    }
  }

  lemma {:induction false} ReplayConcat(b: Breaker, e: seq<Event>, f: seq<Event>)
    ensures Replay(b, e + f) == Replay(Replay(b, e), f)
  {
    if f == [] {
      assert e + f == e;
    } else {
      assert (e + f)[..|e + f| - 1] == e + f[..|f| - 1];
      ReplayConcat(b, e, f[..|f| - 1]);
    }
  }

  /** The breaker of a live process is the replay of its own trace. */
  lemma {:induction false} BreakerIsItsTrace(limit: nat, start: int, actions: seq<Action>)
    ensures var s := Run(Init(limit, start), actions);
            s.proc.Some? ==>
              s.proc.value.breaker ==
                Replay(NewBreaker(DEFAULT_THRESHOLD, DEFAULT_COOLDOWN_MS), BreakerTrace(Init(limit, start), actions))
  {
    hide Apply, Told, Replay, NewBreaker;
    if actions == [] {
      ReplayNothing();
    } else {
      var init, a := actions[..|actions| - 1], actions[|actions| - 1];
      BreakerIsItsTrace(limit, start, init);
      var s := Run(Init(limit, start), init);
      ActionTellsBreaker(s, a);
      ReplayConcat(NewBreaker(DEFAULT_THRESHOLD, DEFAULT_COOLDOWN_MS), BreakerTrace(Init(limit, start), init),
                   Told(s, a));
      if s.proc.None? {
        NothingToldWhileDown(s, a);
        TraceEmptyWhileDown(Init(limit, start), init);
        ReplayNothing();
      }
    }
  }

  lemma ReplayNothing()
    ensures forall b :: Replay(b, []) == b
  {
  }

  lemma NothingToldWhileDown(s: State, a: Action)
    requires s.proc.None?
    ensures Told(s, a) == []
  {
  }

  lemma TraceEmptyWhileDown(s: State, actions: seq<Action>)
    requires Run(s, actions).proc.None?
    ensures BreakerTrace(s, actions) == []
  {
  }

  // ---- Sends while tripped ----

  /** A turn that sends although the breaker was not CLOSED. */
  predicate SendsTripped(s: State, a: Action)
  {
    s.proc.Some? && a.WorkerTurn? && !s.proc.value.breaker.state.CLOSED? && NextStart(s).Some?
  }

  function TrippedSend(): (State, Action) -> int
  {
    (s, a) => if SendsTripped(s, a) then 1 else 0
  }

  predicate Succeeds(s: State, a: Action)
  {
    a.Finish? && CanFinish(s, a.item) && CategoryOf(a.result).None?
  }

  /** What a stretch of a run without a crash tells the breaker. */
  function StretchTold(s: State, actions: seq<Action>): seq<Event>
  {
    if actions == [] then []
    else
      var init := actions[..|actions| - 1];
      StretchTold(s, init) + Told(Run(s, init), actions[|actions| - 1])
  }

  /** Behind the events so far, a tripped grant is one more. */
  lemma {:induction false} GrantsConcat(b: Breaker, e: seq<Event>, f: seq<Event>)
    ensures TrippedGrants(b, e + f) == TrippedGrants(b, e) + TrippedGrants(Replay(b, e), f)
    decreases |e|
  {
    hide CanAttempt, RecordSuccess, RecordFailure;
    if e == [] {
      assert e + f == f;
      ReplayNothing();
    } else {
      assert (e + f)[1..] == e[1..] + f;
      GrantsConcat(After(b, e[0]), e[1..], f);
      assert e == [e[0]] + e[1..];
      ReplayConcat(b, [e[0]], e[1..]);
      assert [e[0]][..0] == [];
    }
  }

  lemma {:induction false} ClockConcat(start: int, e: seq<Event>, f: seq<Event>, mid: int)
    requires ClockFrom(start, e) && (forall x :: x in e ==> x.at <= mid) && ClockFrom(mid, f) && start <= mid
    ensures ClockFrom(start, e + f)
    decreases |e|
  {
    if e == [] {
      assert e + f == f;
    } else {
      assert e[0] in e;
      assert (e + f)[1..] == e[1..] + f;
      ClockConcat(e[0].at, e[1..], f, mid);
    }
  }

  lemma ToldNow(s: State, a: Action)
    ensures ClockFrom(s.now, Told(s, a)) && forall x :: x in Told(s, a) ==> x.at == s.now
    ensures !Succeeds(s, a) ==> NoSuccess(Told(s, a))
  {
    assert forall x: Event :: [x][1..] == [];
  }

  /** A tripped send is a tripped grant. */
  lemma SendIsGrant(s: State, a: Action)
    requires s.proc.Some?
    ensures (if SendsTripped(s, a) then 1 else 0) <= |TrippedGrants(s.proc.value.breaker, Told(s, a))|
  {
    hide StartTrace, NextItem;
    if SendsTripped(s, a) {
      assert [Ask(s.now)][1..] == [];
    }
  }

  /** The facts about a stretch that its events carry. */
  lemma {:induction false} StretchFacts(s: State, actions: seq<Action>)
    requires s.proc.Some? && CrashFree(actions)
    requires forall k :: 0 <= k < |actions| ==> !Succeeds(Run(s, actions[..k]), actions[k])
    ensures var t, told := Run(s, actions), StretchTold(s, actions);
            && t.proc.Some? && s.now <= t.now && t.proc.value.breaker == Replay(s.proc.value.breaker, told)
            && ClockFrom(s.now, told) && NoSuccess(told) && (forall x :: x in told ==> x.at <= t.now)
            && Along(s, actions, TrippedSend()) <= |TrippedGrants(s.proc.value.breaker, told)|
  {
    hide Apply, Told, TrippedGrants, Replay, ClockFrom, SendsTripped, Succeeds;
    if actions == [] {
      NothingTold(s);
    } else {
      var n := |actions| - 1;
      var init, a := actions[..n], actions[n];
      forall k | 0 <= k < n ensures init[..k] == actions[..k] && init[k] == actions[k] {
      }
      assert a in actions && forall b :: b in init ==> b in actions;
      StretchFacts(s, init);
      var u, told := Run(s, init), StretchTold(s, init);
      NoCrashNoDeath(u, a);
      ActionTellsBreaker(u, a);
      ToldNow(u, a);
      SendIsGrant(u, a);
      ReplayConcat(s.proc.value.breaker, told, Told(u, a));
      GrantsConcat(s.proc.value.breaker, told, Told(u, a));
      ClockConcat(s.now, told, Told(u, a), u.now);
    }
  }

  lemma NothingTold(s: State)
    requires s.proc.Some?
    ensures Replay(s.proc.value.breaker, []) == s.proc.value.breaker && ClockFrom(s.now, [])
  {
  }

  lemma NoCrashNoDeath(s: State, a: Action)
    requires s.proc.Some? && !IsCrash(a)
    ensures Apply(s, a).proc.Some?
  {
    hide FinishCut, FinishHistory, CancelTrace, PauseJob, ResumeJob, CreateJob, FireCut, Sched.NewSchedule,
         StartTrace, Turn;
  }

  lemma {:induction false} OpenedInThePast(b: Breaker, events: seq<Event>, until: int)
    requires (b.state.OPEN? ==> b.openedAt <= until) && forall e :: e in events ==> e.at <= until
    ensures var c := Replay(b, events);
            c.cooldownMs == b.cooldownMs && (c.state.OPEN? ==> c.openedAt <= until)
  {
    if events != [] {
      var init, last := events[..|events| - 1], events[|events| - 1];
      assert last in events;
      OpenedInThePast(b, init, until);
    }
  }

  lemma {:induction false} TraceIsPast(s: State, actions: seq<Action>)
    ensures forall e :: e in BreakerTrace(s, actions) ==> e.at <= Run(s, actions).now
  {
    hide Apply, Told;
    if actions != [] {
      var init, a := actions[..|actions| - 1], actions[|actions| - 1];
      TraceIsPast(s, init);
      ActionTellsBreaker(Run(s, init), a);
      ToldNow(Run(s, init), a);
    }
  }

  /** In any stretch of any run without a crash or a success, a breaker that is not CLOSED lets at most
      L / cooldown + 1 sends through, L being the length of the stretch. */
  lemma TrippedSendsAreRare(limit: nat, start: int, before: seq<Action>, actions: seq<Action>)
    requires Run(Init(limit, start), before).proc.Some? && CrashFree(actions)
    requires forall k :: 0 <= k < |actions| ==> !Succeeds(Run(Run(Init(limit, start), before), actions[..k]),
                                                          actions[k])
    ensures var s := Run(Init(limit, start), before);
            Along(s, actions, TrippedSend()) <= (Run(s, actions).now - s.now) / 30000 + 1
  {
    hide Apply, Run, Told, TrippedGrants, ClockFrom, Succeeds, BreakerTrace, StretchTold, Along, Init, Inv;
    var s, fresh_ := Run(Init(limit, start), before), NewBreaker(DEFAULT_THRESHOLD, DEFAULT_COOLDOWN_MS);
    var b := s.proc.value.breaker;
    BreakerIsItsTrace(limit, start, before);
    TraceIsPast(Init(limit, start), before);
    OpenedInThePast(fresh_, BreakerTrace(Init(limit, start), before), s.now);
    ReachableStatesAreInv(limit, start, before);
    MarkedProbe(s);
    StretchFacts(s, actions);
    AdmissionRate(b, s.now, Run(s, actions).now, StretchTold(s, actions));
  }

  lemma MarkedProbe(s: State)
    requires Inv(s) && s.proc.Some?
    ensures ProbeMarksHalfOpen(s.proc.value.breaker)
  {
  }
}
