/** createJob called by any number of processes at once: the unlocked lookup, the insert transaction statement by
    statement, and the fallback after a UNIQUE violation interleave freely. Readers see committed rows only; one
    writer at a time holds the lock that BEGIN IMMEDIATE takes. */
module Creation {
  import opened Wrappers
  import opened Sequences
  import opened Tables
  import opened JobService
  import Invariant
  import OtherSteps

  datatype Phase =
    | Called
    | NotFound
    | InTransaction
    | Rejected
    | Returned(job: nat, created: bool)
    | Threw
    | Gone

  datatype Caller = Caller(key: Option<string>, drafts: seq<Draft>, at: int, phase: Phase)

  /** The open transaction: its owner, its view of the tables, and how many items it has inserted. */
  datatype Transaction = Transaction(owner: nat, jobs: seq<Job>, items: seq<Item>, jobInserted: bool, inserted: nat)

  /** `creator` remembers which caller committed each job. */
  datatype World = World(jobs: seq<Job>, items: seq<Item>, tx: Option<Transaction>, callers: seq<Caller>,
                         creator: seq<nat>)

  datatype Step =
    | Call(key: Option<string>, drafts: seq<Draft>, at: int)
    | LookUp(caller: nat)
    | Begin(caller: nat)
    | InsertJobRow(caller: nat)
    | InsertItemRow(caller: nat)
    | Commit(caller: nat)
    | OtherError(caller: nat)
    | FallBack(caller: nat)
    | Die(caller: nat)

  const EMPTY := World([], [], None, [], [])

  function In(w: World, c: nat, phase: Phase): World
  {
    if c < |w.callers| then w.(callers := w.callers[c := w.callers[c].(phase := phase)]) else w
  }

  predicate Owns(w: World, c: nat)
  {
    w.tx.Some? && w.tx.value.owner == c && c < |w.callers| && w.callers[c].phase.InTransaction?
  }

  predicate Is(w: World, c: nat, phase: Phase)
  {
    c < |w.callers| && w.callers[c].phase == phase
  }

  /** Keys the source looks up: neither null nor empty. */
  predicate Keyed(key: Option<string>)
  {
    key.Some? && key.value != ""
  }

  function Found(w: World, key: Option<string>): Option<nat>
  {
    if key.Some? then FindByKey(w.jobs, key.value) else None
  }

  function DoLookUp(w: World, c: nat): World
    requires c < |w.callers|
  {
    var key := w.callers[c].key;
    if Keyed(key) && Found(w, key).Some? then In(w, c, Returned(Found(w, key).value, false)) else In(w, c, NotFound)
  }

  function DoInsertJob(w: World, c: nat): World
    requires Owns(w, c)
  {
    var caller, tx := w.callers[c], w.tx.value;
    if caller.key.Some? && FindByKey(tx.jobs, caller.key.value).Some? then
      In(w, c, if Keyed(caller.key) then Rejected else Threw).(tx := None)
    else
      w.(tx := Some(tx.(jobs := tx.jobs + [NewJob(|caller.drafts|, caller.key, None)], jobInserted := true)))
  }

  function DoInsertItem(w: World, c: nat): World
    requires Owns(w, c)
  {
    var caller, tx := w.callers[c], w.tx.value;
    if tx.jobInserted && tx.inserted < |caller.drafts| then
      w.(tx := Some(tx.(items := tx.items + [NewItem(|w.jobs|, tx.inserted, caller.drafts[tx.inserted], caller.at)],
                        inserted := tx.inserted + 1)))
    else w
  }

  function DoCommit(w: World, c: nat): World
    requires Owns(w, c)
  {
    var tx := w.tx.value;
    if tx.jobInserted && tx.inserted == |w.callers[c].drafts| then
      In(w, c, Returned(|w.jobs|, true)).(jobs := tx.jobs, items := tx.items, tx := None, creator := w.creator + [c])
    else w
  }

  function DoFallBack(w: World, c: nat): World
    requires c < |w.callers|
  {
    var found := Found(w, w.callers[c].key);
    In(w, c, if found.Some? then Returned(found.value, false) else Threw)
  }

  function After(w: World, step: Step): World
  {
    match step
    case Call(key, drafts, at) => w.(callers := w.callers + [Caller(key, drafts, at, Called)])
    case LookUp(c) => if Is(w, c, Called) then DoLookUp(w, c) else w
    case Begin(c) =>
      if Is(w, c, NotFound) && w.tx.None? then
        In(w, c, InTransaction).(tx := Some(Transaction(c, w.jobs, w.items, false, 0)))
      else w
    case InsertJobRow(c) => if Owns(w, c) && !w.tx.value.jobInserted then DoInsertJob(w, c) else w
    case InsertItemRow(c) => if Owns(w, c) then DoInsertItem(w, c) else w
    case Commit(c) => if Owns(w, c) then DoCommit(w, c) else w
    case OtherError(c) => if Owns(w, c) then In(w, c, Threw).(tx := None) else w
    case FallBack(c) => if Is(w, c, Rejected) then DoFallBack(w, c) else w
    case Die(c) => if Owns(w, c) then In(w, c, Gone).(tx := None) else In(w, c, Gone)
  }

  function Run(w: World, steps: seq<Step>): World
  {
    if steps == [] then w else After(Run(w, steps[..|steps| - 1]), steps[|steps| - 1])
  }

  // ---- Invariant ----

  ghost predicate CallerOk(w: World, c: nat)
    requires c < |w.callers| && |w.creator| == |w.jobs|
  {
    match w.callers[c].phase
    case Returned(j, created) =>
      && j < |w.jobs| && w.jobs[j].key == w.callers[c].key
      && (created <==> w.creator[j] == c) && (!created ==> Keyed(w.callers[c].key))
    case Rejected => Keyed(w.callers[c].key) && Found(w, w.callers[c].key).Some?
    case InTransaction => w.tx.Some? && w.tx.value.owner == c
    case _ => true
  }

  ghost predicate JobRowOk(w: World, j: nat)
    requires j < |w.jobs| && |w.creator| == |w.jobs|
  {
    w.creator[j] < |w.callers|
    && var caller := w.callers[w.creator[j]];
       && (caller.phase == Returned(j, true) || caller.phase.Gone?)
       && w.jobs[j] == NewJob(|caller.drafts|, caller.key, None)
  }

  /** The committed items: every job's items in one block, complete. */
  function ItemsOfJobs(callers: seq<Caller>, creator: seq<nat>): seq<Item>
    requires forall j :: 0 <= j < |creator| ==> creator[j] < |callers|
  {
    if creator == [] then []
    else
      var j := |creator| - 1;
      ItemsOfJobs(callers, creator[..j]) + OtherSteps.NewItems(j, callers[creator[j]].drafts, callers[creator[j]].at)
  }

  ghost predicate TransactionOk(w: World)
  {
    w.tx.Some? ==>
      var tx := w.tx.value;
      && tx.owner < |w.callers| && w.callers[tx.owner].phase.InTransaction?
      && var caller := w.callers[tx.owner];
         && tx.inserted <= |caller.drafts|
         && (tx.jobInserted ==>
               && tx.jobs == w.jobs + [NewJob(|caller.drafts|, caller.key, None)]
               && (caller.key.Some? ==> FindByKey(w.jobs, caller.key.value).None?)
               && tx.items == w.items + OtherSteps.NewItems(|w.jobs|, caller.drafts, caller.at)[..tx.inserted])
         && (!tx.jobInserted ==> tx.jobs == w.jobs && tx.items == w.items && tx.inserted == 0)
  }

  ghost predicate WorldOk(w: World)
  {
    && |w.creator| == |w.jobs| && Invariant.KeysUnique(w.jobs)
    && (forall j :: 0 <= j < |w.creator| ==> w.creator[j] < |w.callers|)
    && (forall j :: 0 <= j < |w.jobs| ==> JobRowOk(w, j))
    && (forall c :: 0 <= c < |w.callers| ==> CallerOk(w, c))
    && w.items == ItemsOfJobs(w.callers, w.creator)
    && TransactionOk(w)
  }

  lemma {:induction false} ItemsIgnorePhases(a: seq<Caller>, b: seq<Caller>, creator: seq<nat>)
    requires |a| <= |b| && forall c :: 0 <= c < |a| ==> b[c].drafts == a[c].drafts && b[c].at == a[c].at
    requires forall j :: 0 <= j < |creator| ==> creator[j] < |a|
    ensures ItemsOfJobs(a, creator) == ItemsOfJobs(b, creator)
  {
    if creator != [] {
      ItemsIgnorePhases(a, b, creator[..|creator| - 1]);
    }
  }

  /** A phase change that leaves the tables alone. */
  lemma PhaseChangeKeepsOk(w: World, c: nat, phase: Phase, tx: Option<Transaction>)
    requires WorldOk(w) && c < |w.callers|
    requires forall j :: 0 <= j < |w.jobs| && w.creator[j] == c ==> phase == Returned(j, true) || phase.Gone?
    requires var w' := In(w, c, phase).(tx := tx);
             && CallerOk(w', c) && TransactionOk(w')
             && (tx == w.tx || (w.tx.Some? && w.tx.value.owner == c && tx.None?) || w.tx.None?)
    ensures WorldOk(In(w, c, phase).(tx := tx))
  {
    var w' := In(w, c, phase).(tx := tx);
    ItemsIgnorePhases(w.callers, w'.callers, w.creator);
    forall k | 0 <= k < |w'.callers| ensures CallerOk(w', k) {
      assert CallerOk(w, k);
    }
    forall j | 0 <= j < |w'.jobs| ensures JobRowOk(w', j) {
      assert JobRowOk(w, j);
    }
  }

  lemma CallKeepsOk(w: World, caller: Caller)
    requires WorldOk(w) && caller.phase.Called?
    ensures WorldOk(w.(callers := w.callers + [caller]))
  {
    var w' := w.(callers := w.callers + [caller]);
    ItemsIgnorePhases(w.callers, w'.callers, w.creator);
    forall k | 0 <= k < |w'.callers| ensures CallerOk(w', k) {
      if k < |w.callers| {
        assert CallerOk(w, k);
      }
    }
    forall j | 0 <= j < |w'.jobs| ensures JobRowOk(w', j) {
      assert JobRowOk(w, j);
    }
  }

  lemma TransactionStepKeepsOk(w: World, tx: Transaction)
    requires WorldOk(w) && w.tx.Some? && tx.owner == w.tx.value.owner && TransactionOk(w.(tx := Some(tx)))
    ensures WorldOk(w.(tx := Some(tx)))
  {
    var w' := w.(tx := Some(tx));
    forall k | 0 <= k < |w'.callers| ensures CallerOk(w', k) {
      assert CallerOk(w, k);
    }
    forall j | 0 <= j < |w'.jobs| ensures JobRowOk(w', j) {
      assert JobRowOk(w, j);
    }
  }

  lemma OwnerCreatedNothing(w: World, c: nat)
    requires WorldOk(w) && c < |w.callers| && !w.callers[c].phase.Returned? && !w.callers[c].phase.Gone?
    ensures forall j :: 0 <= j < |w.jobs| ==> w.creator[j] != c
  {
    forall j | 0 <= j < |w.jobs| ensures w.creator[j] != c {
      assert JobRowOk(w, j);
    }
  }

  lemma InsertItemKeepsOk(w: World, c: nat)
    requires WorldOk(w) && Owns(w, c)
    ensures WorldOk(DoInsertItem(w, c))
  {
    var caller, tx := w.callers[c], w.tx.value;
    if tx.jobInserted && tx.inserted < |caller.drafts| {
      var all := OtherSteps.NewItems(|w.jobs|, caller.drafts, caller.at);
      assert all[..tx.inserted + 1] == all[..tx.inserted] + [all[tx.inserted]];
      var more := DoInsertItem(w, c).tx.value;
      assert more.items == w.items + all[..more.inserted];
      TransactionStepKeepsOk(w, more);
    }
  }

  lemma CommitKeepsRows(w: World, c: nat, j: nat)
    requires WorldOk(w) && Owns(w, c) && w.tx.value.jobInserted && w.tx.value.inserted == |w.callers[c].drafts|
    ensures var w' := DoCommit(w, c);
            |w'.creator| == |w'.jobs| == |w.jobs| + 1 && (j < |w'.jobs| ==> JobRowOk(w', j))
  {
    OwnerCreatedNothing(w, c);
    if j < |w.jobs| {
      assert JobRowOk(w, j);
    }
  }

  lemma CommitKeepsCallers(w: World, c: nat, k: nat)
    requires WorldOk(w) && Owns(w, c) && w.tx.value.jobInserted && w.tx.value.inserted == |w.callers[c].drafts|
    requires k < |w.callers|
    ensures var w' := DoCommit(w, c);
            |w'.callers| == |w.callers| && |w'.creator| == |w'.jobs| && CallerOk(w', k)
  {
    assert CallerOk(w, k);
    OwnerCreatedNothing(w, c);
    if w.callers[k].phase.Rejected? {
      assert FindByKey(w.jobs, w.callers[k].key.value).Some?;
    }
  }

  lemma CommitKeepsItems(w: World, c: nat)
    requires WorldOk(w) && Owns(w, c) && w.tx.value.jobInserted && w.tx.value.inserted == |w.callers[c].drafts|
    ensures var w' := DoCommit(w, c);
            (forall j :: 0 <= j < |w'.creator| ==> w'.creator[j] < |w'.callers|)
            && w'.items == ItemsOfJobs(w'.callers, w'.creator)
  {
    var caller, w' := w.callers[c], DoCommit(w, c);
    var all := OtherSteps.NewItems(|w.jobs|, caller.drafts, caller.at);
    assert all[..|caller.drafts|] == all;
    ItemsIgnorePhases(w.callers, w'.callers, w.creator);
    assert w'.creator[..|w.creator|] == w.creator;
  }

  lemma CommitKeepsOk(w: World, c: nat)
    requires WorldOk(w) && Owns(w, c)
    ensures WorldOk(DoCommit(w, c))
  {
    var tx, w' := w.tx.value, DoCommit(w, c);
    if tx.jobInserted && tx.inserted == |w.callers[c].drafts| {
      CommitKeepsItems(w, c);
      hide JobRowOk, CallerOk, ItemsOfJobs;
      CommitKeepsRows(w, c, 0);
      forall j | 0 <= j < |w'.jobs| ensures JobRowOk(w', j) {
        CommitKeepsRows(w, c, j);
      }
      forall k | 0 <= k < |w'.callers| ensures CallerOk(w', k) {
        CommitKeepsCallers(w, c, k);
      }
    }
  }

  lemma LookUpKeepsOk(w: World, c: nat)
    requires WorldOk(w) && Is(w, c, Called)
    ensures WorldOk(DoLookUp(w, c))
  {
    OwnerCreatedNothing(w, c);
    PhaseChangeKeepsOk(w, c, DoLookUp(w, c).callers[c].phase, w.tx);
  }

  lemma BeginKeepsOk(w: World, c: nat)
    requires WorldOk(w) && Is(w, c, NotFound) && w.tx.None?
    ensures WorldOk(After(w, Begin(c)))
  {
    OwnerCreatedNothing(w, c);
    PhaseChangeKeepsOk(w, c, InTransaction, After(w, Begin(c)).tx);
  }

  lemma InsertJobKeepsOk(w: World, c: nat)
    requires WorldOk(w) && Owns(w, c) && !w.tx.value.jobInserted
    ensures WorldOk(DoInsertJob(w, c))
  {
    var key := w.callers[c].key;
    OwnerCreatedNothing(w, c);
    if key.Some? && FindByKey(w.jobs, key.value).Some? {
      PhaseChangeKeepsOk(w, c, if Keyed(key) then Rejected else Threw, None);
    } else {
      TransactionStepKeepsOk(w, DoInsertJob(w, c).tx.value);
    }
  }

  lemma OtherErrorKeepsOk(w: World, c: nat)
    requires WorldOk(w) && Owns(w, c)
    ensures WorldOk(In(w, c, Threw).(tx := None))
  {
    OwnerCreatedNothing(w, c);
    PhaseChangeKeepsOk(w, c, Threw, None);
  }

  lemma FallBackKeepsOk(w: World, c: nat)
    requires WorldOk(w) && Is(w, c, Rejected)
    ensures WorldOk(DoFallBack(w, c))
  {
    assert CallerOk(w, c);
    OwnerCreatedNothing(w, c);
    PhaseChangeKeepsOk(w, c, DoFallBack(w, c).callers[c].phase, w.tx);
  }

  lemma DieKeepsOk(w: World, c: nat)
    requires WorldOk(w)
    ensures WorldOk(After(w, Die(c)))
  {
    if c < |w.callers| {
      PhaseChangeKeepsOk(w, c, Gone, if Owns(w, c) then None else w.tx);
    }
  }

  lemma StepKeepsOk(w: World, step: Step)
    requires WorldOk(w)
    ensures WorldOk(After(w, step))
  {
    hide WorldOk, DoLookUp, DoInsertJob, DoInsertItem, DoCommit, DoFallBack, In;
    match step
    case Call(key, drafts, at) => CallKeepsOk(w, Caller(key, drafts, at, Called));
    case LookUp(c) => if Is(w, c, Called) { LookUpKeepsOk(w, c); }
    case Begin(c) => if Is(w, c, NotFound) && w.tx.None? { BeginKeepsOk(w, c); }
    case InsertJobRow(c) => if Owns(w, c) && !w.tx.value.jobInserted { InsertJobKeepsOk(w, c); }
    case InsertItemRow(c) => if Owns(w, c) { InsertItemKeepsOk(w, c); }
    case Commit(c) => if Owns(w, c) { CommitKeepsOk(w, c); }
    case OtherError(c) => if Owns(w, c) { OtherErrorKeepsOk(w, c); }
    case FallBack(c) => if Is(w, c, Rejected) { FallBackKeepsOk(w, c); }
    case Die(c) => DieKeepsOk(w, c);
  }

  lemma {:induction false} RunsAreOk(steps: seq<Step>)
    ensures WorldOk(Run(EMPTY, steps))
  {
    hide WorldOk, After;
    if steps == [] {
      EmptyIsOk();
    } else {
      RunsAreOk(steps[..|steps| - 1]);
      StepKeepsOk(Run(EMPTY, steps[..|steps| - 1]), steps[|steps| - 1]);
    }
  }

  lemma EmptyIsOk()
    ensures WorldOk(EMPTY)
  {
  }

  // ---- Idempotent creation ----

  /** All calls with one key that return get the same job; at most one of them is told it created it; and that one is
      the caller that committed the job, unless it died between its commit and its return. */
  lemma SameKeySameJob(steps: seq<Step>, a: nat, b: nat)
    requires var w := Run(EMPTY, steps);
             && a < |w.callers| && b < |w.callers| && w.callers[a].key.Some? && w.callers[a].key == w.callers[b].key
             && w.callers[a].phase.Returned? && w.callers[b].phase.Returned?
    ensures var w := Run(EMPTY, steps);
            var pa, pb := w.callers[a].phase, w.callers[b].phase;
            && pa.job == pb.job && (pa.created && pb.created ==> a == b)
            && pa.job < |w.creator| && var maker := w.creator[pa.job];
               maker < |w.callers| && (w.callers[maker].phase == Returned(pa.job, true) || w.callers[maker].phase.Gone?)
  {
    RunsAreOk(steps);
    var w := Run(EMPTY, steps);
    assert CallerOk(w, a) && CallerOk(w, b);
    var ja, jb := w.callers[a].phase.job, w.callers[b].phase.job;
    assert w.jobs[ja].key == w.jobs[jb].key;
    assert JobRowOk(w, ja);
  }

  /** The fallback lookup after a UNIQUE violation always finds the winner's job. */
  lemma FallBackNeverThrows(steps: seq<Step>, c: nat)
    requires Is(Run(EMPTY, steps), c, Rejected)
    ensures var w := After(Run(EMPTY, steps), FallBack(c));
            w.callers[c].phase.Returned? && !w.callers[c].phase.created
  {
    RunsAreOk(steps);
    assert CallerOk(Run(EMPTY, steps), c);
  }

  lemma {:induction false} BlocksAreComplete(callers: seq<Caller>, creator: seq<nat>, j: nat)
    requires forall i :: 0 <= i < |creator| ==> creator[i] < |callers|
    requires j < |creator|
    ensures Count(ItemsOfJobs(callers, creator), OfJob(j)) == |callers[creator[j]].drafts|
    ensures OtherSteps.ItemsBelow(ItemsOfJobs(callers, creator), |creator|)
  {
    var n := |creator| - 1;
    var items, drafts, at := ItemsOfJobs(callers, creator[..n]), callers[creator[n]].drafts, callers[creator[n]].at;
    if j < n {
      BlocksAreComplete(callers, creator[..n], j);
      OtherSteps.OldJobCounts(items, n, drafts, at, j);
    } else {
      ItemsStayBelow(callers, creator[..n]);
      OtherSteps.NewJobCounts(items, n, drafts, at);
    }
    ItemsStayBelow(callers, creator);
  }

  lemma {:induction false} ItemsStayBelow(callers: seq<Caller>, creator: seq<nat>)
    requires forall i :: 0 <= i < |creator| ==> creator[i] < |callers|
    ensures OtherSteps.ItemsBelow(ItemsOfJobs(callers, creator), |creator|)
  {
    if creator != [] {
      ItemsStayBelow(callers, creator[..|creator| - 1]);
    }
  }

  /** No reachable state shows a job with only some of its items, whoever died wherever. */
  lemma JobsAreNeverPartial(steps: seq<Step>, j: nat)
    requires j < |Run(EMPTY, steps).jobs|
    ensures var w := Run(EMPTY, steps);
            && Count(w.items, OfJob(j)) == w.jobs[j].total
            && j < |w.creator| && w.creator[j] < |w.callers| && w.jobs[j].total == |w.callers[w.creator[j]].drafts|
  {
    RunsAreOk(steps);
    var w := Run(EMPTY, steps);
    assert JobRowOk(w, j);
    forall i | 0 <= i < |w.creator| ensures w.creator[i] < |w.callers| {
      assert JobRowOk(w, i);
    }
    BlocksAreComplete(w.callers, w.creator, j);
  }

  // ---- A caller alone ----

  /** What one caller does from its lookup on; a step that does not apply changes nothing. */
  function AloneSteps(c: nat, n: nat): seq<Step>
  {
    [LookUp(c), Begin(c), InsertJobRow(c)] + Inserts(c, n) + [Commit(c), FallBack(c)]
  }

  function Inserts(c: nat, n: nat): seq<Step>
  {
    seq(n, _ => InsertItemRow(c))
  }

  lemma {:induction false} RunConcat(w: World, a: seq<Step>, b: seq<Step>)
    ensures Run(w, a + b) == Run(Run(w, a), b)
  {
    hide After;
    if b == [] {
      assert a + b == a;
    } else {
      assert (a + b)[..|a + b| - 1] == a + b[..|b| - 1];
      RunConcat(w, a, b[..|b| - 1]);
    }
  }

  lemma RunStep(w: World, a: Step)
    ensures Run(w, [a]) == After(w, a)
  {
    hide After;
    assert [a][..0] == [];
  }

  lemma RunAlone(w: World, c: nat, n: nat)
    ensures Run(w, AloneSteps(c, n)) ==
              After(After(Run(After(After(After(w, LookUp(c)), Begin(c)), InsertJobRow(c)), Inserts(c, n)),
                          Commit(c)), FallBack(c))
  {
    hide After;
    var w1, w2, w3 := After(w, LookUp(c)), After(After(w, LookUp(c)), Begin(c)),
        After(After(After(w, LookUp(c)), Begin(c)), InsertJobRow(c));
    var front: seq<Step> := [LookUp(c)] + [Begin(c)] + [InsertJobRow(c)];
    RunStep(w, LookUp(c));
    RunConcat(w, [LookUp(c)], [Begin(c)]);
    RunStep(w1, Begin(c));
    RunConcat(w, [LookUp(c)] + [Begin(c)], [InsertJobRow(c)]);
    RunStep(w2, InsertJobRow(c));
    RunConcat(w, front, Inserts(c, n));
    var w4 := Run(w3, Inserts(c, n));
    RunConcat(w, front + Inserts(c, n), [Commit(c)]);
    RunStep(w4, Commit(c));
    RunConcat(w, front + Inserts(c, n) + [Commit(c)], [FallBack(c)]);
    RunStep(After(w4, Commit(c)), FallBack(c));
    assert AloneSteps(c, n) == front + Inserts(c, n) + [Commit(c)] + [FallBack(c)];
  }

  lemma {:induction false} InsertsIdle(w: World, c: nat, n: nat)
    requires !Owns(w, c)
    ensures Run(w, Inserts(c, n)) == w
  {
    if n > 0 {
      InsertsIdle(w, c, n - 1);
      assert Inserts(c, n)[..n - 1] == Inserts(c, n - 1);
    }
  }

  lemma {:induction false} InsertsAll(w: World, c: nat, n: nat)
    requires Owns(w, c) && w.tx.value.jobInserted && w.tx.value.inserted == 0 && n <= |w.callers[c].drafts|
    ensures var caller := w.callers[c];
            Run(w, Inserts(c, n)) ==
              w.(tx := Some(w.tx.value.(inserted := n,
                   items := w.tx.value.items + OtherSteps.NewItems(|w.jobs|, caller.drafts, caller.at)[..n])))
  {
    var caller := w.callers[c];
    var all := OtherSteps.NewItems(|w.jobs|, caller.drafts, caller.at);
    if n == 0 {
      assert Inserts(c, 0) == [];
      assert w.tx.value.items + all[..0] == w.tx.value.items;
    } else {
      InsertsAll(w, c, n - 1);
      assert Inserts(c, n)[..n - 1] == Inserts(c, n - 1);
      assert all[..n] == all[..n - 1] + [all[n - 1]];
      OneInsert(Run(w, Inserts(c, n - 1)), c, w.tx.value.items, n);
    }
  }

  lemma OneInsert(w: World, c: nat, base: seq<Item>, n: nat)
    requires Owns(w, c) && w.tx.value.jobInserted && 1 <= n <= |w.callers[c].drafts| && w.tx.value.inserted == n - 1
    requires var caller := w.callers[c];
             w.tx.value.items == base + OtherSteps.NewItems(|w.jobs|, caller.drafts, caller.at)[..n - 1]
    ensures var caller := w.callers[c];
            After(w, InsertItemRow(c)) ==
              w.(tx := Some(w.tx.value.(inserted := n,
                   items := base + OtherSteps.NewItems(|w.jobs|, caller.drafts, caller.at)[..n])))
  {
    var caller := w.callers[c];
    var all := OtherSteps.NewItems(|w.jobs|, caller.drafts, caller.at);
    assert base + all[..n] == base + all[..n - 1] + [all[n - 1]];
  }

  /** After its steps the lone caller `c` has left the tables, and answers, as the one transaction does. */
  ghost predicate AnswersAlike(w: World, u: World, c: nat, key: Option<string>, drafts: seq<Draft>, at: int)
  {
    var (d, r) := CreateJob(Db(w.jobs, w.items, [], map[]), key, None, drafts, at);
    && u.tx.None? && u.jobs == d.jobs && u.items == d.items && c < |u.callers|
    && u.callers[c].phase == if r.Success? then Returned(r.value.0, r.value.1) else Threw
  }

  lemma AloneFinds(w: World, w0: World, c: nat, key: Option<string>, drafts: seq<Draft>, at: int)
    requires w.tx.None? && c == |w.callers| && w0 == w.(callers := w.callers + [Caller(key, drafts, at, Called)])
    requires Found(w, key).Some?
    ensures AnswersAlike(w, Run(w0, AloneSteps(c, |drafts|)), c, key, drafts, at)
  {
    RunAlone(w0, c, |drafts|);
    InsertsIdle(After(After(After(w0, LookUp(c)), Begin(c)), InsertJobRow(c)), c, |drafts|);
    hide Run, AloneSteps, FindByKey;
  }

  lemma AloneInserts(w: World, w0: World, c: nat, key: Option<string>, drafts: seq<Draft>, at: int)
    requires w.tx.None? && c == |w.callers| && w0 == w.(callers := w.callers + [Caller(key, drafts, at, Called)])
    requires Found(w, key).None?
    ensures AnswersAlike(w, Run(w0, AloneSteps(c, |drafts|)), c, key, drafts, at)
  {
    RunAlone(w0, c, |drafts|);
    InsertsAll(After(After(After(w0, LookUp(c)), Begin(c)), InsertJobRow(c)), c, |drafts|);
    var all := OtherSteps.NewItems(|w.jobs|, drafts, at);
    assert all[..|drafts|] == all;
    hide Run, AloneSteps, FindByKey;
  }

  /** A caller that nobody interrupts leaves the tables as the one transaction does, and answers the same. */
  lemma AloneIsCreateJob(w: World, key: Option<string>, drafts: seq<Draft>, at: int)
    requires w.tx.None?
    ensures AnswersAlike(w, Run(After(w, Call(key, drafts, at)), AloneSteps(|w.callers|, |drafts|)), |w.callers|,
                         key, drafts, at)
  {
    var w0 := w.(callers := w.callers + [Caller(key, drafts, at, Called)]);
    assert After(w, Call(key, drafts, at)) == w0;
    hide After, AnswersAlike, Run, AloneSteps;
    if Found(w, key).Some? {
      AloneFinds(w, w0, |w.callers|, key, drafts, at);
    } else {
      AloneInserts(w, w0, |w.callers|, key, drafts, at);
    }
  }

  /** A known key is answered by the lookup alone, without a transaction. */
  lemma KnownKeyAnswersAtOnce(w: World, c: nat)
    requires Is(w, c, Called) && w.callers[c].key.Some? && w.callers[c].key != Some("")
    requires exists j :: 0 <= j < |w.jobs| && w.jobs[j].key == w.callers[c].key
    ensures var u := After(w, LookUp(c));
            && u.jobs == w.jobs && u.items == w.items && u.tx == w.tx && u.callers[c].phase.Returned?
            && !u.callers[c].phase.created && u.callers[c].phase.job < |w.jobs|
            && w.jobs[u.callers[c].phase.job].key == w.callers[c].key
  {
  }

  /** Dying, or failing otherwise, inside the transaction takes back every row of it and frees the lock. */
  lemma DyingRollsBack(w: World, c: nat, step: Step)
    requires Owns(w, c) && (step == Die(c) || step == OtherError(c))
    ensures var u := After(w, step);
            && u.tx.None? && u.jobs == w.jobs && u.items == w.items
            && u.callers[c].phase == if step == Die(c) then Gone else Threw
  {
  }
}
