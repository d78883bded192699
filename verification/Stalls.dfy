/** The stalled worker over runs: the only two ways in, and the runs that never get there. */
module Stalls {
  import opened Wrappers
  import opened ErrorClassifier
  import opened CircuitBreaker
  import opened Retry
  import opened JobService
  import opened Claiming
  import opened Worker
  import opened Engine
  import opened Invariant
  import opened FinishMemory
  import opened Evolution
  import Sched = Scheduler

  ghost predicate Stalled(s: State)
  {
    s.proc.Some? && IsStalled(s.proc.value)
  }

  /** The next turn spends the probe of a breaker that has cooled down. */
  ghost predicate SpendsProbe(s: State)
  {
    && s.proc.Some? && !s.proc.value.draining && !s.disabled && s.proc.value.active < s.limit
    && s.proc.value.breaker.state.OPEN? && Admits(s.proc.value.breaker, s.now)
  }

  /** A turn spends the probe with nothing in flight and nothing to send. */
  ghost predicate WastesProbe(s: State, a: Action)
  {
    a.WorkerTurn? && SpendsProbe(s) && s.proc.value.inFlight.Keys == {} && !exists i: nat :: Eligible(s.db, s.now, i)
  }

  /** The last item in flight under a HALF_OPEN breaker fails in a category the breaker ignores. */
  ghost predicate LosesProbe(s: State, a: Action)
  {
    && a.Finish? && CanFinish(s, a.item) && s.proc.value.inFlight.Keys == {a.item}
    && s.proc.value.breaker.state.HALF_OPEN?
    && CategoryOf(a.result).Some? && CategoryOf(a.result) != Some(TRANSIENT)
  }

  /** Whatever the state and the action: a process becomes stalled in exactly these two ways. */
  lemma BecomesStalledIff(s: State, a: Action)
    requires Inv(s)
    ensures !Stalled(s) && Stalled(Apply(s, a)) <==> WastesProbe(s, a) || LosesProbe(s, a)
  {
    hide Inv, Apply, IsStalled, Admits;
    ProbeIsMarked(s);
    if s.proc.None? {
      StartsClosed(s, a);
    } else if a.WorkerTurn? {
      TurnStallsIff(s);
    } else if a.Finish? {
      FinishActionStallsIff(s, a);
    } else {
      OthersKeepMemory(s, a);
    }
  }

  lemma ProbeIsMarked(s: State)
    requires Inv(s)
    ensures s.proc.Some? ==> ProbeMarksHalfOpen(s.proc.value.breaker)
  {
  }

  lemma StartsClosed(s: State, a: Action)
    requires s.proc.None?
    ensures !Stalled(Apply(s, a))
  {
  }

  lemma TurnStallsIff(s: State)
    requires s.proc.Some? && ProbeMarksHalfOpen(s.proc.value.breaker)
    ensures !Stalled(s) && Stalled(Apply(s, WorkerTurn)) <==> WastesProbe(s, WorkerTurn)
  {
    hide StartTrace;
    if exists i: nat :: Eligible(s.db, s.now, i) {
      var i: nat :| Eligible(s.db, s.now, i);
      assert NextItem(s.db, s.now).Some?;
    }
    if NextStart(s).Some? {
      assert NextStart(s).value in Apply(s, WorkerTurn).proc.value.inFlight.Keys;
    }
  }

  lemma FinishActionStallsIff(s: State, a: Action)
    requires s.proc.Some? && ProbeMarksHalfOpen(s.proc.value.breaker) && a.Finish?
    ensures !Stalled(s) && Stalled(Apply(s, a)) <==> LosesProbe(s, a)
  {
    hide FinishCut, FinishHistory, ProcAfterFinish, IsStalled;
    if CanFinish(s, a.item) {
      FinishStallsIff(s.proc.value, a.item, a.result, s.now);
      InFlightIsNotStalled(s, a.item);
    }
  }

  lemma InFlightIsNotStalled(s: State, i: nat)
    requires CanFinish(s, i)
    ensures !Stalled(s)
  {
    assert i in s.proc.value.inFlight.Keys;
  }

  lemma OthersKeepMemory(s: State, a: Action)
    requires s.proc.Some? && !a.WorkerTurn? && !a.Finish?
    ensures var t := Apply(s, a);
            t.proc.Some? ==>
                 t.proc.value.inFlight == s.proc.value.inFlight && t.proc.value.breaker == s.proc.value.breaker
    ensures Stalled(Apply(s, a)) ==> Stalled(s)
  {
    hide FinishCut, FinishHistory, CancelTrace, PauseJob, ResumeJob, CreateJob, FireCut, Sched.NewSchedule,
         StartTrace, NextStart;
  }

  /** The action reports nothing the breaker ignores, and spends no probe without an item to send. */
  ghost predicate KeepsProbeUseful(s: State, a: Action)
  {
    && (a.Finish? && CanFinish(s, a.item) ==> CategoryOf(a.result).None? || CategoryOf(a.result) == Some(TRANSIENT))
    && (a.WorkerTurn? && SpendsProbe(s) ==> exists i: nat :: Eligible(s.db, s.now, i))
  }

  /** If every grant ends in success or a TRANSIENT failure and no probe is spent on an empty queue, no run ever
      stalls, crashes and restarts included. */
  lemma {:induction false} UsefulProbesNeverStall(s: State, actions: seq<Action>)
    requires Inv(s) && !Stalled(s)
    requires forall k :: 0 <= k < |actions| ==> KeepsProbeUseful(Run(s, actions[..k]), actions[k])
    ensures forall k :: 0 <= k <= |actions| ==> !Stalled(Run(s, actions[..k]))
  {
    hide Inv, Apply, Stalled, KeepsProbeUseful, Run;
    if actions == [] {
      RunNothing(s);
      assert actions[..0] == [];
    } else {
      var n := |actions| - 1;
      var init := actions[..n];
      forall k | 0 <= k <= n ensures init[..k] == actions[..k] {
      }
      UsefulProbesNeverStall(s, init);
      RunKeepsInv(s, init);
      assert init[..n] == init && actions[..n + 1] == actions;
      UsefulStep(Run(s, init), actions[n]);
      RunLast(s, actions);
    }
  }

  lemma RunNothing(s: State)
    ensures Run(s, []) == s
  {
  }

  lemma RunLast(s: State, actions: seq<Action>)
    requires actions != []
    ensures Run(s, actions) == Apply(Run(s, actions[..|actions| - 1]), actions[|actions| - 1])
  {
  }

  lemma UsefulStep(s: State, a: Action)
    requires Inv(s) && !Stalled(s) && KeepsProbeUseful(s, a)
    ensures !Stalled(Apply(s, a))
  {
    hide Inv, Apply, Stalled, SpendsProbe;
    BecomesStalledIff(s, a);
  }

  /** One probe, then resume: a success closes the breaker, and unless draining the next tick claims the front of the
      queue as far as the permits go; a TRANSIENT failure opens it for another cooldown. */
  lemma OneProbeThenResume(s: State, i: nat, r: SendResult, draw: Draw)
    requires Inv(s) && CanFinish(s, i) && s.proc.value.breaker.state.HALF_OPEN?
    ensures var t := Apply(s, Finish(i, r, draw));
            && t.proc.Some? && t.proc.value.active < t.limit
            && (CategoryOf(r).None? ==>
                  && t.proc.value.breaker.state.CLOSED?
                  && (!t.proc.value.draining ==>
                        var claimed := AfterTick(t.db, t.proc.value, t.limit, false, WORKER, t.now).2;
                        && IsFront(t.db, t.now, claimed)
                        && |claimed| == Smaller(t.limit - t.proc.value.active, |EligibleSet(t.db, t.now)|)))
            && (CategoryOf(r) == Some(TRANSIENT) ==>
                  t.proc.value.breaker.state.OPEN? && t.proc.value.breaker.openedAt == t.now)
  {
    hide Inv, Apply, AfterTick, FinishCut, FinishHistory, Eligible, IsFront, EligibleSet, Smaller;
    var t := Apply(s, Finish(i, r, draw));
    PermitsLeft(s, i, r, draw);
    if CategoryOf(r).None? && !t.proc.value.draining {
      ClosedTickClaimsTheFront(t.db, t.proc.value, t.limit, WORKER, t.now);
    }
  }

  lemma PermitsLeft(s: State, i: nat, r: SendResult, draw: Draw)
    requires Inv(s) && CanFinish(s, i)
    ensures var t := Apply(s, Finish(i, r, draw));
            && t.proc == Some(ProcAfterFinish(s.proc.value, i, r, s.now)) && t.limit == s.limit && t.now == s.now
            && t.proc.value.active < t.limit
  {
    hide FinishCut, FinishHistory, Inv, BreakerAfter;
    PermitCount(s);
    OneKeyLess(s.proc.value.inFlight, i);
  }

  lemma PermitCount(s: State)
    requires Inv(s) && s.proc.Some?
    ensures s.proc.value.active == |s.proc.value.inFlight| <= s.limit
  {
  }
}
