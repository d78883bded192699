# A verified model of the durable job engine

The repository sends batches of WhatsApp messages. A batch is a *job* with one *item* per recipient, stored in SQLite. A
worker claims items under a 60 second lease, sends them through a circuit breaker and a bounded number of permits,
retries with backoff, and makes them succeeded, failed or skipped; the last item to finish gives the job its verdict.
A scheduler turns each due occurrence of a schedule into a job under the key `schedule:<id>:<next_run_at>` and moves
the schedule on when that job settles. This project models that engine and the `{ColumnName}` template scanner, and
proves what holds in every reachable state, over every run, with crashes between any two autocommitted statements.

`dafny verify dfyconfig.toml` checks everything.

## How the model is built

* `Tables` holds the rows. Every SQL statement (or transaction) is a function of the tables (`JobService`, `Claiming`,
  `Scheduler`); every procedure of the source is a method over the class `Tables.Database` whose contract equates the
  new tables with those functions. `Backpressure.Semaphore`, `CircuitBreaker.CircuitBreaker`, `Scheduler.Scheduler` and
  `Worker.JobWorker` are classes with the source's fields.
* `Engine` is one process as a total transition function `Apply(state, action)`. The send is the only `await`, so an
  item has two atomic segments; `StartTrace` and `FinishTrace` list the tables after each of their statements, and a
  crash action cuts a segment behind any of them. `Run` applies a sequence of actions: a theorem about `Run` for all
  sequences is a theorem about all interleavings, all crashes and restarts, all transport outcomes, all jitter.
  `Ticks` shows that the ticks of the two classes are runs of these actions.
* `History` in the state counts what no table records: sends, recoveries, settlements reported, crashes.
* `Invariant.Inv` is the inductive invariant; `Frames`, `TurnStep`, `FinishStep`, `FinishMemory`, `OtherSteps` and
  `Evolution` prove that every action keeps it; `Theorems`, `ScheduleLife` and `Progress` draw the consequences.
* `Effects` says for each action what it does to the tables, the whole of it, in terms of the rows alone and at every
  crash cut point; `Promises` draws what that means over runs.
* `Ledgers` and `Admission` add up, along a run, what no table records: bumps lost to crashes, time spent waiting, what
  the breaker was asked and told, sends while tripped. `Liveness` shows what can still be done from any state.
* `Stalls`, `Orphans` and `StuckSchedules` treat the states the engine does not leave on its own: for each, how
  long it lasts, and for every action of every state exactly which ones lead into it. `Witnesses` and `Tightness` give runs
  from the start into them.
* `Ownership` drops the single-process assumption: any number of workers over one database. `Creation` runs any number
  of interleaved `createJob` calls, statement by statement.

## Where the code and its documentation differ

The model follows the code; each difference is a theorem.

* docs/RECOVERY.md:9 says `max_attempts` bounds an item across crash and restart cycles. The column is never read and a
  recovery does not count as an attempt: the bound is `MAX_ATTEMPTS` plus the number of recoveries
  (`Theorems.SendsAreBounded`), and every value of it is attained (`Tightness.SendBoundIsAttained`).
* Recovery runs only at startup and only for expired leases. A restart within the lease strands the items that were in
  flight until the next restart or a cancel (`Progress.RestartStrandsIff`, `Progress.StrandedUntilRestart`).
* `_tick` asks the breaker before it knows there is an item, and only TRANSIENT failures count. A HALF_OPEN breaker with
  nothing in flight never admits anything again (`Progress.StalledUntilRestart`). `Stalls.BecomesStalledIff` names the
  only two ways in, `Stalls.UsefulProbesNeverStall` the runs that never get there, `Witnesses.StallIsReachable` a run
  without a crash that does.
* Completion is checked only behind a finish. A crash between making the last item terminal and that check orphans the
  job: it has no verdict and never gets one (`Orphans.OrphanedForever`, `Orphans.OrphanNeverSettles`). To a job that has
  items nothing else does this (`Orphans.BecomesOrphanedIff`), and every other unfinished job can still get its verdict,
  whatever crashes lie behind (`Liveness.VerdictStaysPossibleIff`). `Witnesses.OrphanIsReachable` gives a run.
* A schedule can stay `sending` for good: exactly when the job of its occurrence is terminal or orphaned
  (`StuckSchedules.SentForGoodForever`, `StuckSchedules.MovesOnIff`). It gets there in exactly four ways
  (`StuckSchedules.BecomesSentForGoodIff`): its job is cancelled while it is sending; a crash falls between its job's
  verdict and its own update; a crash orphans its job; or it is fired although the job of its occurrence is already
  terminal or orphaned, a crash having kept the row `scheduled` behind the job's creation. `Witnesses.StuckByCancel`,
  `Witnesses.StuckByCrash`, `Witnesses.SentForGoodByOrphan` and `Witnesses.StuckByLateFire` give a run for each.
* A counter falls behind its items for good by each crash between an item's status update and the counter's, and by
  nothing else (`Ledgers.CountersAndLosses`, `Ledgers.CounterIsExactIff`).
* docs/RECOVERY.md:23 says a late tick steps `next_run_at` forward and then fires. The code fires the overdue occurrence,
  whose row keeps its `next_run_at` (`Scheduler.Scheduler.RunTickIfReady`), and steps past the clock when its job settles
  (`ScheduleLife.ActionAdvancesRun`).
* `cancelJob` never bumps the `cancelled` counter; it is 0 in every reachable state (`Theorems.CountersAndVerdict`).

## Model

The theorems come first; the rows of the procedures, each proved against the functions those theorems are about, follow
them.

| member | source | states |
|---|---|---|
| Retry.ExpDelayTable | lib/jobs/retry.js:8 | the delay before jitter doubles from one second for attempts 1 to 6 and is the cap from attempt 7 on |
| Retry.BackoffBounds | lib/jobs/retry.js:7-11 | for every attempt and every draw in [0,1): exp(n) <= delay <= min(60000, 1.2 exp(n)) |
| Retry.BackoffGrowsToTheCap | lib/jobs/retry.js:7-11 | any possible delay of attempt n is below any of attempt n+1 iff n <= 6; the delay is exactly the cap iff n >= 7 |
| Retry.BackoffIsNearest | lib/jobs/retry.js:7-11 | the delay is the whole number of milliseconds nearest to exp(n) * (1 + draw / 5) under the cap, halves rounded up |
| Retry.TotalBackoffBound | lib/jobs/retry.js:7-11 | for any draws the delays after attempts 1, 2, ... below the limit add up to at most 18 s, and to at least 15 s if all four are taken |
| Ledgers.BackoffIsBounded | lib/jobs/worker.js:96-105 | in every run no item is put to wait for more than 18 s in all, recovered or not |
| Promises.RetryWaits | lib/jobs/claiming.js:19-26 | after attempt n goes to a retry at time t no attempt of the item starts before t + exp(n), over any run, crashes and restarts included |
| ErrorClassifier.ClassificationIsConsistent | lib/jobs/errorClassifier.js:14-36 | recorded status and category determine each other as far as the report needs, thrown exceptions included; retryable iff neither not_on_whatsapp nor skipped |
| ErrorClassifier.ClassificationTable | lib/jobs/errorClassifier.js:14-36 | category, recorded status and message of every outcome: not ready is TRANSIENT, any other exception UNKNOWN, and so on |
| CircuitBreaker.BreakerRefinesHistory | lib/jobs/circuitBreaker.js:16-51 | for every call sequence and clock: CLOSED iff fewer than threshold TRANSIENT failures since the last success; probe flag iff HALF_OPEN |
| CircuitBreaker.OtherCategoriesAreErased | lib/jobs/circuitBreaker.js:35-37 | deleting all failures of other categories from a history changes nothing |
| CircuitBreaker.CooldownFromLastFailure | lib/jobs/circuitBreaker.js:16-51 | an open breaker grants exactly from the last TRANSIENT failure plus the cooldown on, late results included |
| Promises.ClosedIffFewFailures | lib/jobs/circuitBreaker.js:36-51 | over any run the breaker of a live process is CLOSED iff fewer than five of its sends failed with an error or a transport not ready since the last one that got through |
| CircuitBreaker.GrantsAreLate | lib/jobs/circuitBreaker.js:16-51 | without a success, a tripped breaker grants nothing before its cooldown and grants are a cooldown apart |
| CircuitBreaker.AdmissionRate | lib/jobs/circuitBreaker.js:16-51 | without a success, an interval of length L sees at most L / cooldown + 1 grants of a tripped breaker, late results included |
| Admission.BreakerIsItsTrace | lib/jobs/worker.js:49-96 | the breaker of a live process is the replay of what that process asked and told it |
| Admission.TrippedSendsAreRare | lib/jobs/worker.js:49-66 | in any stretch of any run without a crash or a success, a breaker that is not CLOSED lets at most L / cooldown + 1 sends through |
| Spreadsheet.MatchIsNextBrace | lib/spreadsheet.js:31 | the expression matches at a `{` iff some `}` follows with a non-empty brace-free key in between |
| Spreadsheet.TokenizeIsLossless | lib/spreadsheet.js:31 | the pieces of any template write the template back and are canonical |
| Spreadsheet.TokenizeIsUnique | lib/spreadsheet.js:31 | a canonical piece list is exactly what the scan finds in the text it writes |
| Spreadsheet.OutputIsConcatenatedImages | lib/spreadsheet.js:29-36 | the output is the concatenation of the images of the template's own pieces, so inserted values are never scanned |
| Spreadsheet.ImageIsLeastColumn | lib/spreadsheet.js:32-34 | a placeholder becomes the cell of the first column whose folded header equals its folded key, null read as empty, and stays as written without one |
| Spreadsheet.UnresolvableTemplateIsUnchanged | lib/spreadsheet.js:25-28 | a template none of whose placeholders names a column comes back unchanged |
| Spreadsheet.SecondPassIsHarmlessIff | lib/spreadsheet.js:29-36 | a second pass changes nothing over every sheet whose cells, as far as the template names them, are brace-free, iff no literal `{` of the template is closed by the next literal brace around a placeholder |
| Spreadsheet.SecondPassIsHarmless | lib/spreadsheet.js:29-36 | for one such template and sheet, resolving the output again gives the output |
| Spreadsheet.PlainTextHasNoSandwich | lib/spreadsheet.js:29-36 | a template whose literal text holds no brace meets that condition |
| Spreadsheet.SandwichIsHarmful | lib/spreadsheet.js:29-36 | any other template has a sheet of brace-free cells on which the second pass changes the output |
| Spreadsheet.ResolvingTwiceDiffers | lib/spreadsheet.js:29-36 | the condition on the template cannot be dropped: `{{x}}` builds a placeholder |
| Spreadsheet.BracesInCellsAreHarmful | lib/spreadsheet.js:29-36 | nor the one on the cells: `{x}` with the cell `{y}` |
| OccurrenceKeys.KeyIsInjective | scheduler/index.js:134 | the printed key determines schedule id and occurrence, whatever characters the id holds |
| OccurrenceKeys.KeyIsSpelledOut | scheduler/index.js:134 | the key is `schedule:`, the id, a colon and the decimal of the time without leading zeros |
| JobService.CompletionMeansAllTerminal | lib/jobs/jobService.js:147-151 | the count test holds iff every item row of the live job is terminal |
| JobService.CreationAnswers | lib/jobs/jobService.js:52-92 | a created answer names a new job with the given key, source and rows in order, queued and due at once; any other names the job that carries the key, and nothing is written |
| JobService.SameKeySameAnswer | lib/jobs/jobService.js:53-56 | two calls with one non-empty key answer the same job whatever calls lie between; only the first can create it, and does iff the key was new |
| Scheduler.NextRunIsLeastFuturePoint | scheduler/index.js:181-184 | under a frozen clock that is the least point start + k * step, k >= 1, in the future |
| Scheduler.DigitsAreKept | scheduler/index.js:75 | a stored number holds only digits, all of the given ones, in order |
| Scheduler.OneRecipient | scheduler/index.js:75-77 | a recipient is kept with its name and digits iff its number has a digit |
| Scheduler.RecipientsAreKept | scheduler/index.js:75-77 | lists are normalised recipient by recipient, in order |
| Scheduler.CreationStores | scheduler/index.js:58-107 | which requests are refused and how; what the stored row holds for each kind of repeat |
| Worker.ClosedTickClaimsTheFront | lib/jobs/worker.js:45-68 | with the breaker CLOSED, a tick claims exactly the first min(free permits, eligible) items in (next_attempt_at, rowid) order over all live jobs |
| Worker.TrippedTickClaimsAtMostOne | lib/jobs/worker.js:49-58 | a tick that finds a tripped breaker claims at most one item, the first eligible one |
| Worker.TickClaimsIff | lib/jobs/worker.js:45-68 | a tick claims something iff it is not draining or disabled, has a permit, the breaker admits, and an item is eligible |
| Worker.StalledTickDoesNothing | lib/jobs/worker.js:49-54 | with HALF_OPEN and nothing in flight no tick ever does anything |
| Worker.IdleButNotStalledTicksClaim | lib/jobs/worker.js:45-68 | from every other idle state a late enough tick with a permit and an eligible item claims |
| Worker.TickStallsIff | lib/jobs/worker.js:49-59 | a tick enters the stalled state iff it spends a cooled-down breaker's probe with nothing eligible and nothing in flight |
| Worker.FinishStallsIff | lib/jobs/worker.js:92-96 | a finish enters it iff it is the last in flight under HALF_OPEN and fails in a category the breaker ignores |
| Stalls.BecomesStalledIff | lib/jobs/worker.js:45-96 | over all actions of all states, those are the only two ways into the stalled state |
| Stalls.UsefulProbesNeverStall | lib/jobs/worker.js:49-96 | a run whose finishes are successes or TRANSIENT failures and whose probes find an eligible item is never stalled, crashes included |
| Stalls.OneProbeThenResume | lib/jobs/worker.js:92-96 | a probe's success closes the breaker and the next tick claims the front of the queue up to the free permits; a TRANSIENT failure opens it for another cooldown |
| Ticks.WorkerTickIsTurns | lib/jobs/worker.js:45-68 | a tick of the worker is a run of the engine's turns |
| Ticks.SchedulerTickIsFires | scheduler/index.js:120-131 | a tick of the scheduler is a run of the engine's fires |
| Evolution.ReachableStatesAreInv | lib/jobs/worker.js:45-109 | every state of every run, crashes at every statement included, satisfies the invariant |
| Evolution.ApplyKeepsInv | lib/jobs/worker.js:45-109 | every single action keeps it |
| Evolution.RunsOnlyMoveForward | lib/jobs/jobService.js:94-192 | over any run terminal jobs keep their status, succeeded, failed and skipped items never change, no row is lost, no attempt count drops |
| Effects.TurnStartsIff | lib/jobs/worker.js:45-59 | a turn starts an item iff the process may send, has a permit, the breaker lets it, and an item is queued, due and of a job neither paused nor finished |
| Effects.TurnWrites | lib/jobs/worker.js:55-80 | it starts the one that has waited longest, and writes exactly its row, its job and its attempt; at every cut point what is written so far |
| Effects.FinishWritesAttempts | lib/jobs/worker.js:90 | a finish writes outcome, category and message to the attempt in flight only |
| Effects.FinishWritesItem | lib/jobs/worker.js:92-105 | the item succeeds, is skipped, fails, or is queued again with the backoff while fewer than five attempts are used; it loses its lease; no other item changes; nothing before the second statement |
| Effects.FinishWritesJob | lib/jobs/worker.js:92-108 | the matching counter goes up with the third statement; with the fourth a live job whose items are all terminal is completed, partially completed or failed as all, some or none succeeded; no other job changes |
| Effects.FinishWritesSchedule | scheduler/index.js:157-205 | with the last statement the schedule of a job that got its verdict is scheduled for its least future point, or done without repeat or behind its end; no other changes |
| Effects.FinishFrees | lib/jobs/worker.js:60-66 | the permit and the in-flight entry are given back |
| Effects.CancelWrites | lib/jobs/jobService.js:166-178 | exactly the live job and its open items are cancelled and freed; a crash may leave the items |
| Effects.PauseWrites | lib/jobs/jobService.js:180-192 | pausing and resuming change exactly the one status |
| Effects.RestartWrites | lib/jobs/claiming.js:55-64 | exactly the claimed and running items past their lease are queued again, count and time kept; the process comes up idle with the default breaker |
| Effects.EnqueueWrites | lib/jobs/jobService.js:52-92 | an enqueue inserts a job with its items or, under a known key, nothing |
| Effects.FireWrites | scheduler/index.js:120-154 | a schedule can fire iff it is scheduled and due; firing inserts its occurrence's job, one item per recipient, unless it exists, and marks the row; a crash may leave the row |
| Effects.OwnerWrites | scheduler/index.js:85-113 | creating adds one row, removing takes one away, nothing else |
| Promises.OnlyReadyItemsStart | lib/jobs/claiming.js:19-26 | no attempt starts before its time or for a paused or finished job |
| Promises.PausedJobIsQuiet | lib/jobs/jobService.js:180-185 | after a pause no item of the job starts in any continuation without a resume |
| Promises.ResumedItemsAreReady | lib/jobs/jobService.js:187-192 | a resume makes its due items ready, so the next turn of a process that may send starts one |
| Promises.RemovedForGood | scheduler/index.js:109-113 | a removed schedule has no row in any later state, and no later action makes a job for it |
| Theorems.SendsAreBounded | lib/jobs/worker.js:70-105 | sends of an item <= its attempt count <= MAX_ATTEMPTS + its recoveries |
| Theorems.JobSendsAreBounded | lib/jobs/worker.js:70-105 | a job of n items makes at most 5n sends plus one per recovery of its items |
| Theorems.AttemptLog | lib/jobs/jobService.js:107-117 | attempt rows of an item are exactly 1..attempt_count iff no crash tore a row from its count; failed means PERMANENT or attempts used up |
| Theorems.CountersAndVerdict | lib/jobs/jobService.js:127-164 | item rows number total and lie in seq order; counters never exceed, and crash-free equal, the items in each status; the verdict is COMPLETED, PARTIALLY_COMPLETED, FAILED exactly as all, some, none succeeded |
| Ledgers.CountersAndLosses | lib/jobs/jobService.js:127-140 | in every run each counter of a job plus the bumps that crashes cost it equals the items in that status |
| Ledgers.CounterIsExactIff | lib/jobs/jobService.js:127-140 | a counter is exact iff no crash of the run fell between a status update of that job and status and its counter update |
| Ledgers.ActionGap | lib/jobs/jobService.js:94-192 | a single action moves the distance between a counter and its items by exactly the bump it loses |
| Theorems.SettledAtMostOnce | lib/jobs/jobService.js:143-164 | a job is reported at most once, and has been iff it has a verdict; crash-free, a non-empty job not cancelled has been reported iff all its items are terminal |
| Theorems.SettlementComesFromAFinish | lib/jobs/worker.js:107-108 | only the finish of one of the job's own items reports it |
| Theorems.PermitBalance | lib/jobs/backpressure.js:8-16 | permits taken equal items in flight and lie within the limit, so release never saturates; in-flight items are running or cancelled |
| Theorems.OneJobPerOccurrence | scheduler/index.js:133-148 | each (schedule, occurrence) has at most one job, even if a crash separates creation from the status update |
| Theorems.LiveJobIsTheCurrentOne | scheduler/index.js:133-205 | a live schedule has at most one unfinished job and that job's key names its current next_run_at |
| Theorems.OccurrencesKeepPhase | scheduler/index.js:178-197 | all occurrences lie on first + k * step, none fires early, and every one after the first is within the end date |
| Theorems.OccurrencesAreFew | scheduler/index.js:178-197 | by time T a repeating schedule had at most floor((T - first) / step) + 1 jobs |
| Theorems.CrashFreeSchedules | scheduler/index.js:133-205 | crash-free, a schedule is scheduled, sending or done exactly as its current occurrence has no job, a job without verdict, or a job with one |
| Theorems.SettlementReportsOutcomes | scheduler/index.js:157-175 | whenever an occurrence settles, even if the process dies right behind it, the report has one line per recipient in order, each with the status and the message the transport last reported for that recipient's item |
| Theorems.RowsComeBySeq | lib/jobs/jobService.js:23 | the rows a job is read back with are all its rows, in seq order |
| ScheduleLife.ActionMovesRow | scheduler/index.js:109-205 | an action leaves a schedule row alone, marks it sending by its own fire, or settles it as its live job gets its verdict; only create and remove add or delete one |
| ScheduleLife.NextRunNeverMovesBack | scheduler/index.js:181-196 | over any run next_run_at never decreases |
| ScheduleLife.ActionAdvancesRun | scheduler/index.js:181-196 | a single action leaves next_run_at or moves it strictly forward past the clock |
| StuckSchedules.StuckForever | scheduler/index.js:123 | a sending schedule whose job is terminal is never touched again until it is deleted |
| StuckSchedules.SentForGoodForever | scheduler/index.js:123-209 | a sending schedule whose current job is terminal or orphaned is never touched again until it is deleted |
| StuckSchedules.BecomesSentForGoodIff | scheduler/index.js:133-209 | over all actions of all states it gets there iff its job is cancelled in time, a crash falls between verdict and update, a crash orphans its job, or it is fired for a job already terminal or orphaned |
| StuckSchedules.MovesOnIff | scheduler/index.js:133-209 | in every reachable state of a worker with permits, a sending schedule can still stop sending without being deleted iff it is not in that state |
| StuckSchedules.SenderCanMoveOn | scheduler/index.js:157-205 | and then a restart, a resume, turns and finishes suffice |
| StuckSchedules.SendersAlwaysHaveJobs | scheduler/index.js:137-151 | a sending schedule's current occurrence always has a job |
| StuckSchedules.BecomesStuckIff | scheduler/index.js:133-209 | the part of it where the job is terminal: cancelled while sending, cut behind the verdict, or fired too late |
| StuckSchedules.CancelSticks | lib/jobs/jobService.js:166-178 | the cancel does so, complete or cut short |
| StuckSchedules.CrashAfterVerdictSticks | lib/jobs/worker.js:107-108 | the crash does so |
| StuckSchedules.LateFireSticks | scheduler/index.js:150-151 | the late fire does so |
| StuckSchedules.CrashFreeStuckMeansCancelled | scheduler/index.js:157-205 | crash-free, a sending schedule is stuck iff its job was cancelled |
| Progress.WorkIsBounded | lib/jobs/worker.js:70-109 | claims and finishes of any run number at most 10 per item plus 2 per recovery |
| Progress.StalledUntilRestart | lib/jobs/worker.js:49-59 | a stalled worker sends nothing again, whatever is enqueued, fired, paused or waited for, until it goes down |
| Progress.StrandedUntilRestart | lib/jobs/claiming.js:55-64 | a stranded item does not change, and its job gets no verdict, until the process goes down again or the job is cancelled |
| Progress.RestartStrandsIff | lib/jobs/worker.js:34-38 | a restart strands exactly the claimed or running items whose lease has not expired |
| Liveness.LiveJobHasWork | lib/jobs/claiming.js:19-26 | crash-free, a live job that has items has one in flight or a queued one that is eligible from its next attempt time on |
| Liveness.EveryLiveJobCanSettle | lib/jobs/worker.js:45-109 | from every crash-free state that can send, some continuation of waits, turns and deliveries gives every live job that has items its verdict |
| Liveness.OpenJobsCanSettle | lib/jobs/worker.js:45-109 | with crashes behind, the same for every live job not orphaned, once each claimed or running item is in flight |
| Liveness.OpenJobCanSettle | lib/jobs/worker.js:34-109 | from any state with permits, some continuation gives any job its verdict that is neither terminal nor orphaned |
| Liveness.VerdictStaysPossibleIff | lib/jobs/jobService.js:143-164 | with permits, an unfinished job can still get a verdict iff it is not orphaned, in any state |
| Orphans.OrphanedForever | lib/jobs/worker.js:107-108 | a live job without outstanding items never gets a verdict, crashes and restarts included, unless cancelled |
| Orphans.OrphanNeverSettles | lib/jobs/worker.js:107-108 | cancelled or not, it never carries a verdict over any run |
| Orphans.StepKeepsOpen | lib/jobs/worker.js:90-108 | no action but a crash inside a finish orphans a job |
| Orphans.BecomesOrphanedIff | lib/jobs/worker.js:90-108 | over all actions of all states, a job that has items becomes orphaned iff a crash falls between making its last outstanding item terminal and the completion check |
| Orphans.CrashInFinishOrphansIff | lib/jobs/worker.js:90-108 | of the cut points of a finish exactly those two orphan the job, and only with the last outstanding item |
| Orphans.CrashFreeRunsOrphanNone | lib/jobs/worker.js:107-108 | crash-free, no job with items is ever orphaned |
| Orphans.RowEnds | lib/jobs/jobService.js:94-178 | an open item becomes terminal only by its own finish or by a cancel that makes its job CANCELLED |
| Witnesses.StrandIsReachable | lib/jobs/worker.js:34-38 | four actions that strand an item |
| Witnesses.StallIsReachable | lib/jobs/worker.js:45-68 | a crash-free run with default settings that ends stalled with an item due |
| Witnesses.OrphanIsReachable | lib/jobs/jobService.js:131-139 | four actions that orphan a job |
| Witnesses.StuckByCancel | lib/jobs/jobService.js:166-178 | three actions that leave a schedule stuck without a crash |
| Witnesses.StuckByCrash | lib/jobs/worker.js:107-108 | a run into a stuck schedule whose job is completed |
| Witnesses.SentForGoodByOrphan | lib/jobs/worker.js:94-107 | a run into a schedule that sends for good although no job of it is terminal |
| Witnesses.StuckByLateFire | scheduler/index.js:140-151 | a run into a stuck schedule that was not stuck when its job was cancelled |
| Tightness.SendBoundIsAttained | lib/jobs/claiming.js:55-64 | for every r some run recovers one item r times and sends it MAX_ATTEMPTS + r times |
| Ownership.ExclusiveOwnership | lib/jobs/claiming.js:11-64 | if every live worker is done with an item within its lease, no interleaving of any number of workers, deaths and recoveries gives an item two live owners |
| Ownership.RecoveryIsSafeIff | lib/jobs/claiming.js:55-64 | a recovery keeps ownership exclusive iff no live worker's leased row has outlived its lease |
| Ownership.OwnersLeaveSettledItemsAlone | lib/jobs/jobService.js:94-140 | under exclusive ownership no step touches a succeeded, failed or skipped item, though no statement checks the owner |
| Ownership.SettledRowsStay | lib/jobs/jobService.js:94-140 | over every timely run of any number of workers, a succeeded, failed or skipped item never changes again |
| Ownership.ClaimsAreAccounted | lib/jobs/claiming.js:11-64 | claims of an item <= 1 + retries + recoveries, timely workers or not |
| Ownership.LateWorkerLosesOwnership | lib/jobs/jobService.js:119-125 | one millisecond past the lease suffices for two owners and for requeuing an item already sent |
| Ownership.HolderWrites | lib/jobs/jobService.js:94-140 | each step of a worker writes the row of its hold, whoever the row says it belongs to |
| Ownership.ClusterWrites | lib/jobs/claiming.js:11-64 | a claim leases one queued row for a minute, a recovery counts for the rows it queues, a death ends the holds of the dead |
| Creation.SameKeySameJob | lib/jobs/jobService.js:52-92 | under any interleaving all calls with one key that return get the same job, at most one is told it created it, and that job's maker was told so or died |
| Creation.FallBackNeverThrows | lib/jobs/jobService.js:83-86 | the lookup after a UNIQUE violation always finds the winner's job |
| Creation.JobsAreNeverPartial | lib/jobs/jobService.js:61-76 | no reachable state shows a job with only some of its items, whoever died wherever |
| Creation.AloneIsCreateJob | lib/jobs/jobService.js:52-92 | a caller that nobody interrupts leaves the tables, and answers, as the one transaction of the engine does |
| Creation.KnownKeyAnswersAtOnce | lib/jobs/jobService.js:53-56 | a known key is answered by the lookup alone, without a transaction |
| Creation.DyingRollsBack | lib/jobs/jobService.js:77-88 | dying or failing inside the transaction takes back every row of it and frees the lock |
| Backpressure.Semaphore.TryAcquire | lib/jobs/backpressure.js:8-12 | grants iff a permit is free, and then takes exactly one |
| Backpressure.Semaphore.Release | lib/jobs/backpressure.js:14-16 | returns one permit, never below zero |
| CircuitBreaker.CircuitBreaker.TryAttempt | lib/jobs/circuitBreaker.js:16-27 | the whole new breaker and the answer, as the transition whose history properties follow |
| CircuitBreaker.CircuitBreaker.Succeeded | lib/jobs/circuitBreaker.js:29-33 | the whole new breaker after a success |
| CircuitBreaker.CircuitBreaker.Failed | lib/jobs/circuitBreaker.js:36-51 | the whole new breaker after a failure of any category |
| JobService.CreateJobRows | lib/jobs/jobService.js:52-92 | an existing non-empty key returns its job and inserts nothing, an existing empty key fails on the index, otherwise one job with all its items at the end of the tables |
| JobService.MarkItemRunning | lib/jobs/jobService.js:94-105 | the item runs, its job starts iff it was QUEUED, nothing else changes |
| JobService.RecordAttemptStart | lib/jobs/jobService.js:107-111 | one attempt row appended, then the item's count set to its number |
| JobService.RecordAttemptFinish | lib/jobs/jobService.js:113-117 | outcome and category written to exactly the rows of that item and number |
| JobService.ScheduleRetry | lib/jobs/jobService.js:119-125 | the item is queued for the given time with its lease dropped, whoever holds it |
| JobService.MarkItemTerminal | lib/jobs/jobService.js:127-140 | the item gets its final status with its lease dropped and its job's matching counter goes up by one |
| JobService.CheckJobCompletion | lib/jobs/jobService.js:143-164 | reports iff the job was live and its terminal items reach its total, and then writes the verdict; otherwise changes nothing |
| JobService.Cancel | lib/jobs/jobService.js:166-178 | a live job and all its open items become cancelled; a terminal job is left alone |
| JobService.Pause | lib/jobs/jobService.js:180-185 | QUEUED or RUNNING becomes PAUSED, nothing else changes |
| JobService.Resume | lib/jobs/jobService.js:187-192 | PAUSED becomes QUEUED, nothing else changes |
| Claiming.FirstEligible | lib/jobs/claiming.js:19-26 | the claim query finds the least eligible row in (next_attempt_at, rowid) order, and none iff none is eligible |
| Claiming.ClaimNextItem | lib/jobs/claiming.js:11-52 | claims exactly that row under a 60 s lease; the guarded update never misses |
| Claiming.RecoverStaleClaims | lib/jobs/claiming.js:55-64 | exactly the claimed and running items with an expired lease are queued again; returns their number |
| Scheduler.Scheduler.Create | scheduler/index.js:58-107 | rejects an unparsable date before an empty recipient list; otherwise stores the normalised schedule |
| Scheduler.Scheduler.Remove | scheduler/index.js:109-113 | deletes the row and reports whether there was one |
| Scheduler.Scheduler.FireDue | scheduler/index.js:133-154 | creates the occurrence's job unless it exists, then marks a still scheduled row as sending |
| Scheduler.Scheduler.RunTickIfReady | scheduler/index.js:120-131 | when ready, every due schedule is fired exactly once and is then sending, every other row is untouched; when not ready nothing happens |
| Scheduler.StepPast | scheduler/index.js:181-184 | the do-while ends with start + step * turns, the first such point past the clock read at that turn, even while the clock advances |
| Scheduler.Scheduler.OnJobSettled | scheduler/index.js:157-209 | the schedule of a settled job gets its report and either its next occurrence or status done; other jobs change nothing |
| Worker.JobWorker.constructor | lib/jobs/worker.js:21-31 | starts idle, not draining, with all permits free and a CLOSED breaker |
| Worker.JobWorker.RecoverOnStartup | lib/jobs/worker.js:34-38 | runs the recovery of expired leases and returns how many rows it found |
| Worker.JobWorker.TakeTurn | lib/jobs/worker.js:49-66 | one turn of the claim loop: permit, breaker, claim, start; the permit is returned whenever nothing was claimed |
| Worker.JobWorker.Tick | lib/jobs/worker.js:45-68 | the claim loop terminates and does exactly the turns of the specification |
| Worker.JobWorker.RouteOutcome | lib/jobs/worker.js:77-105 | record, tell the breaker, then succeed, retry with backoff, skip or fail the item |
| Worker.JobWorker.FinishItem | lib/jobs/worker.js:60-109 | the whole second segment up to the schedule update, and the permit and in-flight entry given back |
| Worker.JobWorker.Drain | lib/jobs/worker.js:112-113 | sets the flag that stops later ticks |

## Left out

- lib/spreadsheet.js `pickField`, `neutralizeFormula`, sheet limits and number normalisation: single-branch helpers.
- The contents of trim and lower-casing in `resolveTemplate`: the header folding is an arbitrary function, so the results hold for any.
- transports, WhatsApp sessions and timers: a send is an arbitrary outcome; readiness is an input of the scheduler tick.
- SQLite internals, JSON and UUID generation: statements are atomic, transactions all or nothing, schedule ids fresh; rows are identified by rowid.
- Exceptions out of database statements (disk full, lock timeouts): a statement either happens or the process dies.
- Columns no modelled code reads back: `max_attempts`, `type`, `created_by`, `metadata`, `delay_seconds`, `claimed_at`, `started_at`, `updated_at`, and the `job_events` table.
- The kill switch's durable row and audit trail: a boolean read at each turn. A tick reads it once; `Ticks.WorkerTickIsTurns` covers the tick.
- Worker.JobWorker.Drain: does not model the wait for in-flight items in `drainAndStop`, which only watches the clock; draining itself is in every theorem.
- Worker.JobWorker.FinishItem: gives the permit back in the same step as the completion check, although two microtasks lie between; nothing but another finish can run there.
- Scheduler.Scheduler.OnJobSettled: reads one frozen clock; the loop under an advancing clock is `Scheduler.StepPast`.
- Scheduler.Scheduler.Create: takes a repeat value that is an integer, so a fractional or non-numeric one from the request is not modelled; `delay_seconds` is not stored, since nothing reads it back into a send.
- Retry.BackoffBounds: takes jitter and rounding over the reals, not over doubles.
- Engine actions other than the scheduler's create jobs only under keys that do not begin with `schedule:`; no other caller of `createJob` exists in the repository.
- Settlement reports with several worker processes over one database: `checkJobCompletion` reads and writes in separate statements, so two processes could both report; `Theorems.SettledAtMostOnce` is about one process.
- lib/idempotency.js, routes, authentication, rate limits, validation, migration and the user interface: no part of the protocol.
