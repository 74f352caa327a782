# Verified model of the trading backend's hard parts

This project models the parts of the backend whose correctness no single branch shows,
and proves what they are for:

- **The dynamic-signal pipeline** (`pipeline_*.dfy`). Workers claim jobs under a lease,
  resolve them and commit in one fenced transaction; policy edits bump a revision and
  withdraw what older revisions produced; launch windows put a rejected job back; live
  processes claim signals by compare-and-set. `PipelineTables` gives every statement as a
  function on the rows, `PipelineProtocol` interleaves any number of workers, windows,
  edits and live processes, `PipelineSafety` proves what holds in every reachable state,
  `PipelineOrigins` whom a signal is for, `PipelineTiming` and `PipelineWindows` when claims,
  retries and windows end, `PipelineEdits` exactly which rows an edit or a claim changes, and
  `PipelineDatabase` writes the same statements as methods that update tables in place.
- **The weighted rate scheduler** (`scheduler_*.dfy`, `scheduler.dfy`). A token bucket with
  a priority and deadline queue, cooldown, decaying rate, wake-up timer and leases that can
  be given back. Weights are thousandths and time is milliseconds, so refills are exact.
- **The usage ledger** (`usage_ledger.dfy`). Reservations and settlements with clamped
  totals; the clamps are proved never to act.
- **The buy and close sagas** (`saga_runtime.dfy`, `buy_sagas.dfy`, `close_*.dfy`).
  Every outside call may throw anything. A run leaves a record of its calls and their outcomes.
  The buying methods are proved to leave only records of a stated form; for a close the model is
  a function of the list of outcomes, and the methods are proved to follow it to the last call.
  The lemmas say what every such record guarantees about the rate lease, the wallet lane and the
  strategies.
- **Resolution** (`resolution.dfy`) and the **candidate index** (`candidate_index.dfy`).
- **Exact text and numbers**: decimal strings (`decimal_units.dfy`) and the environment file
  (`env_*.dfy`).
- **The live engine gate** (`engine_state.dfy`) and the **live execution queue**
  (`live_queue.dfy`).

Where the source updates state in place the model is a class or a method, proved against a
specification function; the theorems are lemmas about those functions.

## What the code does that its readers may not expect

Each of these is proved, with the exact condition.

- A configured rate below five makes the token bucket faster after a 429, and the window
  bound then fails (`SchedulerRuns.WindowBoundExactly`).
- A reservation attempt for a signal whose reservation was already released is answered like
  a fresh one, and nothing is reserved (`UsageTheorems.AnswerIsBacked`,
  `UsageTheorems.ReleasedAnswerIsUnbacked`).
- Releasing the event that counted a token, while another event of that token stands, makes
  the day's new-token count too small (`UsageTheorems.SettleStaysExact`,
  `UsageTheorems.ReleaseCanUndercount`).
- A buy or close that fails after its order was recorded cannot be marked uncertain, so its lane
  is neither freed nor quarantined by the cleanup (`BuySagas.UncertainWriteIsQuarantined`,
  `BuySagas.RecordedOrderKeepsItsLane`, `CloseTheorems.OpenWriteIsQuarantined`).
- When a strategy cancel is uncertain and the quarantine it asks for throws, the close saga
  frees the lane over the open cancel (`CloseTheorems.OpenCancelCanLoseItsLane`), unless the
  error carries a cancellation's code, and it does so in no other way
  (`CloseTheorems.OpenCancelLosesLaneExactly`).
- Restoring the saved intent after a restart reads the intent once and then looks up to sixteen
  times, a second apart, without reading it again. An operator's stop between two looks is
  undone by the next look that finds everything ready (`EngineModel.StopDuringRestoreIsUndone`);
  a stop holds until a direct arm exactly when no such restore is under way
  (`EngineModel.QuietHoldsExactly`).
- A line the update pattern does not match, after one it does, keeps its old value after a
  merge (`EnvSettings.MergeLawExactly`, `EnvSettings.TheLawCanFail`); a file that ends in a
  lone carriage return gets other newlines from a second merge
  (`EnvIdempotence.MergeIsIdempotentExactly`, `EnvIdempotence.SecondMergeCanDiffer`).
- A queue stopped with signals in it does not serve them when it is reopened, until another
  signal is accepted, and a second stop then waits for ever
  (`LiveQueueModel.PumpStaysAtWork`, `LiveQueueModel.StrandedWaiterWaits`).
- A worker fences its commit with the worker that its context row names, not with itself. One whose
  claim ran out before it loaded the row, and whose renewal before the commit throws, which is only
  logged, commits under the claim of the worker that took the job over
  (`PipelineTiming.OvertakenWorkerCommits`); no other foreign write of a claimed job is possible
  (`PipelineTiming.ForeignWritesExactly`), and the job still commits once
  (`PipelineSafety.LifecycleBound`).
- A launch window lives for thirty seconds and is claimed for two minutes, so a window whose worker
  is lost is never taken over; only the sweep ends it (`PipelineWindows.WindowsAreNeverTakenOver`).
- The launch window's mode-change cancel names a worker that no job row names, so it never
  changes a job (`PipelineSafety.WindowCancelChangesNothing`).

## Model

| member | source | states |
|---|---|---|
| PipelineSafety.RevisionFence | backend/domains/dynamic-signal/policy-service.js:284-334 | in every reachable state each signal that may still be executed and each active target carries its policy's current revision and hash, each active row its revision, and no key has two active rows |
| PipelineInvariants.CascadeKeeps | backend/domains/dynamic-signal/policy-service.js:338-378 | bumping a revision and withdrawing everything outside the kept one restores the fence, the unique indexes and the signal-job link |
| PipelineInvariants.EditKeeps | backend/domains/dynamic-signal/policy-service.js:242-336 | any edit, changed, unchanged, first or refused, keeps every table invariant and only evolves rows forward |
| PipelineInvariants.CommitKeeps | backend/domains/dynamic-signal/event-worker.js:126-146 | a committed transaction keeps the fence, the indexes and "a signal exactly when resolved", though it was computed from an older read |
| PipelineInvariants.MaterializeKeeps | backend/domains/dynamic-signal/dynamic-target-service.js:7-86 | target and whitelist upserts re-checked under the policy lock keep the target and whitelist fences and the partial unique index |
| PipelineSafety.SignalExactlyWhenResolved | backend/domains/dynamic-signal/dynamic-target-service.js:88-111 | a paper or live job has a signal if and only if it is resolved, and then exactly one |
| PipelineSafety.CommitIsAllOrNothing | backend/domains/dynamic-signal/event-worker.js:123-146 | a transaction that fails leaves every row as it was; one that commits closes a live, unexpired claim exactly once |
| PipelineSafety.ClosedJobTakesNoCommit | backend/domains/dynamic-signal/resolution-store.js:66-79 | no worker, whatever it read before, commits to a job that is not being processed |
| PipelineSafety.LifecycleBound | backend/domains/dynamic-signal/event-queue.js:52-129 | a job commits at most twice, resolves at most once, is put back at most once, and its attempts are its claims, at most four plus the expired-lease reclaims |
| PipelineSafety.Absorbing | backend/jobs/dynamic-launch-window.js:126-141 | resolved, failed and cancelled jobs, resolved windows and signals past recorded stay so in every later state, and revisions never fall |
| PipelineSafety.AtMostOneExecution | backend/domains/trade/live-execution-queue.js:205-303 | over every interleaving each signal is handed to execution at most once, only for a resolved live job, and no job twice |
| PipelineSafety.WindowCancelChangesNothing | backend/jobs/dynamic-launch-window.js:96-98 | the cancel that names the window worker changes no row in any reachable state |
| PipelineSafety.StaleJobClaimed | backend/domains/dynamic-signal/event-queue.js:24-50 | a job of a superseded revision can still be enqueued late and claimed; the fence holds all the same |
| PipelineSafety.RunKeeps | backend/domains/dynamic-signal/event-worker.js:29-179 | every run of workers, windows, edits and live processes keeps all invariants |
| PipelineSafety.ReachableOk | backend/domains/dynamic-signal/event-worker.js:29-179 | every state reachable from empty tables satisfies them |
| PipelineSafety.StepMoves | backend/domains/dynamic-signal/event-queue.js:52-129 | every step moves job rows only along the allowed transitions, whoever takes it |
| PipelineOrigins.SignalNamesItsCandidate | backend/domains/dynamic-signal/dynamic-target-service.js:34-111 | in every reachable state a signal, its whitelist row and its policy name the chain and address that the signal's own job resolved to, and so does every target for the job that made it |
| PipelineOrigins.CommitWritesSelected | backend/domains/dynamic-signal/dynamic-target-service.js:7-111 | a committed resolution of a paper or live job is one the policy allows as it stands, and leaves target, active whitelist row and signal under the policy, the chain and the address of the resolved candidate; the row is not ready and keeps its activation version |
| PipelineOrigins.CommitWritesNoOther | backend/domains/dynamic-signal/event-worker.js:126-146 | a commit changes no target, whitelist row or signal but those of its own candidate and job |
| PipelineOrigins.CommitAttempt | backend/domains/dynamic-signal/resolution-store.js:8-47 | the attempt row takes the result and keeps the revision and hash it was first made for; no other attempt changes |
| PipelineOrigins.CommitClosesExactly | backend/domains/dynamic-signal/resolution-store.js:66-79 | a commit closes a running claim under its result's own code, asks for a launch window exactly for a miss with window terms that has none, and touches no other job or window |
| PipelineTiming.ClaimLastsAMinute | backend/domains/dynamic-signal/event-queue.js:52-69 | over every run, nobody takes a job over in the minute after a claim |
| PipelineTiming.RenewalLastsAMinute | backend/domains/dynamic-signal/event-queue.js:88-98 | a renewal by the claiming worker makes it a minute from then |
| PipelineTiming.FailureWaits | backend/domains/dynamic-signal/event-queue.js:100-116 | a failed attempt puts the job back exactly while it was claimed fewer than three times, and then nobody claims it for fifteen seconds, over every run |
| PipelineTiming.FailsExactly | backend/domains/dynamic-signal/event-queue.js:100-116 | in every reachable state a failing worker writes its error, and the retry or the failure, to the job it still has and to nothing else |
| PipelineTiming.ChecksExactly | backend/domains/dynamic-signal/event-worker.js:57-75 | a worker gives a loaded job up for a changed policy, then for a mode that is no longer the policy's or no longer allowed by its flags, fails it for an event no longer allowed, and otherwise goes on; it gives up only a row that still names it |
| PipelineTiming.NoJobIsStuck | backend/domains/dynamic-signal/event-queue.js:52-69 | in every reachable state a pending or processing job can be claimed once a minute has passed without a renewal |
| PipelineTiming.ForeignWritesExactly | backend/domains/dynamic-signal/resolution-store.js:66-79 | while a lease runs, another worker's step changes the job in one case only: its commit, with a context it loaded when the present holder already had the job |
| PipelineTiming.OvertakenWorkerCommits | backend/domains/dynamic-signal/event-worker.js:42-57 | a reachable state in which that happens |
| PipelineTiming.RenewalFindsOut | backend/domains/dynamic-signal/event-worker.js:116-121 | it does not happen when the renewal before the commit reaches the row |
| PipelineWindows.WindowsAreNeverTakenOver | backend/jobs/dynamic-launch-window.js:62-76 | in every reachable state a window that can be claimed is pending: a claimed one expires before its lease does, so the claim of expired leases never acts |
| PipelineWindows.TakesExactly | backend/jobs/dynamic-launch-window.js:57-76 | in every reachable state a window is taken exactly when it is pending, due, not over, and its job still rejected |
| PipelineWindows.RequeuesExactly | backend/jobs/dynamic-launch-window.js:133-141 | a rejected job goes back exactly when its window was resolved by this worker |
| PipelineWindows.WindowLivesHalfAMinute | backend/db/migrations/029_p20_runtime_dynamic_signal_pipeline.sql:66-84 | over every run a window can be claimed only in the half minute after the commit that asked for it |
| PipelineWindows.NothingFoundWaits | backend/jobs/dynamic-launch-window.js:144-149 | a look that found nothing is followed by none for two seconds, over every run |
| PipelineWindows.FailedLookWaits | backend/jobs/dynamic-launch-window.js:151-160 | a look that failed is followed by none for five seconds, and after the third by none at all |
| PipelineWindows.SweepEndsExactly | backend/jobs/dynamic-launch-window.js:79-84 | the sweep expires exactly the unfinished windows whose time is over |
| PipelineEdits.EnqueuesExactly | backend/domains/dynamic-signal/event-queue.js:17-50 | one job is made exactly when the policy row is enabled, allows the event, its mode's own flag and both general ones are on, and its revision has no job for the activity; it starts pending in the row's mode and no other job changes |
| PipelineEdits.OneJobEach | backend/domains/dynamic-signal/event-queue.js:39-47 | in every reachable state no revision of a policy has two jobs for one activity |
| PipelineEdits.EditsExactly | backend/domains/dynamic-signal/policy-service.js:242-336 | an edit without live limits or without a change does nothing; any other takes the next revision and withdraws every row of the policy that could still act, launch windows included, and no row of another policy |
| PipelineEdits.RemovesExactly | backend/domains/dynamic-signal/policy-service.js:338-378 | a removal pauses the policy under the next revision and withdraws the same rows, but no launch window |
| PipelineEdits.ClaimsExactly | backend/domains/trade/live-execution-queue.js:229-259 | a live process takes a signal exactly when it is recorded, live, and its whitelist row is active, ready and at the version waited for; nothing else changes |
| PipelineEdits.ClaimsAreCleared | backend/domains/trade/live-execution-queue.js:229-259 | in every reachable state a signal it takes is of a resolved live job, under the policy as it is now, and its whitelist row is the one active row for the candidate that the job resolved to |
| PipelineEdits.RejectsExactly | backend/domains/trade/live-execution-queue.js:260-303 | a process whose call was refused rejects its signal while it is still pending and leaves it otherwise |
| PipelineEdits.WithdrawsExactly | backend/domains/whitelist/activation-outbox.js:111-117 | expiry, a shut gate and a failed activation withdraw a signal while it is recorded and never later |
| PipelineEdits.ReadyByActivationOnly | backend/domains/dynamic-signal/dynamic-target-service.js:60-83 | a whitelist row becomes ready only by the activation of its own version while it is active, whatever step is taken |
| PipelineDatabase.Database.EnqueueForActivity | backend/domains/dynamic-signal/event-queue.js:24-50 | inserts one job for each selectable policy row without one for its revision, and returns the new ids in order |
| PipelineDatabase.Database.ClaimNext | backend/domains/dynamic-signal/event-queue.js:52-69 | takes some claimable row under a new lease and counts the attempt, or proves there is none |
| PipelineDatabase.Database.Renew | backend/domains/dynamic-signal/event-queue.js:88-98 | extends exactly a held lease of the named worker and reports whether it did |
| PipelineDatabase.Database.Fail | backend/domains/dynamic-signal/event-queue.js:100-116 | puts the job back below the attempt cap and fails it at the cap, only for the worker that holds it |
| PipelineDatabase.Database.Cancel | backend/domains/dynamic-signal/event-queue.js:118-129 | cancels open or rejected jobs of the named worker and nothing else |
| PipelineDatabase.Database.PersistResult | backend/domains/dynamic-signal/resolution-store.js:8-81 | upserts the attempt and closes the job exactly when the lease fence holds |
| PipelineDatabase.Database.MaterializeTarget | backend/domains/dynamic-signal/dynamic-target-service.js:7-86 | writes target and active whitelist row under the policy, the chain and the address of the selected candidate exactly when the policy is unchanged and budgets the chain, otherwise nothing |
| PipelineDatabase.Database.InsertSignal | backend/domains/dynamic-signal/dynamic-target-service.js:88-111 | inserts the attempt's one signal and does nothing when it has one |
| PipelineDatabase.Database.CommitResult | backend/domains/dynamic-signal/event-worker.js:123-146 | runs the statements in order and rolls every row back when one refuses; a materialised commit leaves target, whitelist row and signal under the selected candidate's chain and address |
| PipelineDatabase.Database.Upsert | backend/domains/dynamic-signal/policy-service.js:242-336 | refuses live policies without limits, keeps an unchanged policy, and otherwise bumps and withdraws |
| PipelineDatabase.Database.Remove | backend/domains/dynamic-signal/policy-service.js:338-378 | pauses the policy under a new revision and withdraws everything of it |
| PipelineDatabase.Database.Requeue | backend/jobs/dynamic-launch-window.js:133-141 | puts a rejected job back exactly when its window is resolved by this worker |
| PipelineDatabase.Database.ClaimSignal | backend/domains/trade/live-execution-queue.js:229-259 | moves a claimable recorded signal to pending and reports whether it did |
| PipelineDatabase.DynamicSignalWorker.Begin | backend/domains/dynamic-signal/event-worker.js:29-43 | starts a run only when none is active, by the claim step of the protocol |
| PipelineDatabase.DynamicSignalWorker.TryCommitResult | backend/domains/dynamic-signal/event-worker.js:123-146 | is the protocol's commit step on the worker's own object |
| PipelineDatabase.DynamicSignalWorker.Advance | backend/domains/dynamic-signal/event-worker.js:44-178 | loading, checking, resolving, renewing also late, committing, failing and ending are each the protocol's step on the worker's own object |
| PipelineDatabase.DynamicLaunchWindowWorker.Advance | backend/jobs/dynamic-launch-window.js:57-164 | each stretch of the window worker between two awaits is the protocol's window step |
| SchedulerTheorems.DrainServesInOrder | backend/lib/gmgn-rate-scheduler.js:131-168 | a drain rejects what expired, grants a front of the strict order (priority, deadline, arrival) until one does not fit, grants nothing while cooling, and arms a future timer for whoever is left |
| SchedulerTheorems.SortOrders | backend/lib/gmgn-rate-scheduler.js:143-147 | sorting by the comparison gives an ordered permutation, and requests with distinct sequence numbers are strictly ordered |
| SchedulerTheorems.DrainSettles | backend/lib/gmgn-rate-scheduler.js:134-161 | what a drain newly settles is exactly the expired ones and the served front, and the rest stays pending |
| SchedulerRuns.ApplyKeeps | backend/lib/gmgn-rate-scheduler.js:122-237 | every operation keeps: each accepted request is queued or settled and not both, leases account for their weight, active leases are the open ones, and a waiting request has an armed timer |
| SchedulerRuns.RunKeeps | backend/lib/gmgn-rate-scheduler.js:122-237 | over every run that invariant holds and no settled request settles again |
| SchedulerRuns.DrainLeases | backend/lib/gmgn-rate-scheduler.js:55-88 | leases are those of the granted requests, and total is consumed plus remaining plus released for each |
| SchedulerRuns.GrantsAreFair | backend/lib/gmgn-rate-scheduler.js:131-161 | whatever an operation grants was waiting, is before its deadline, precedes everyone left waiting, and is granted outside the cooldown |
| SchedulerRuns.PotentialGrowsAtRate | backend/lib/gmgn-rate-scheduler.js:113-120 | weight out plus tokens grows by at most rate times time, through decay, capped refills and returned leases |
| SchedulerRuns.WindowBound | backend/lib/gmgn-rate-scheduler.js:113-168 | from any instant, weight granted less weight returned is at most the tokens then plus rate times time, at most capacity plus rate times time |
| SchedulerRuns.DecayExactly | backend/lib/gmgn-rate-scheduler.js:234-234 | a 429 leaves four fifths of the rate, rounded down, but at least five, so it does not raise the rate if and only if the rate is at least five |
| SchedulerRuns.SlowRatesBreakTheBound | backend/lib/gmgn-rate-scheduler.js:225-237 | for each rate from one to four, a concrete run grants more than the bound |
| SchedulerRuns.WindowBoundExactly | backend/lib/gmgn-rate-scheduler.js:113-237 | the bound holds for all runs from the start if and only if the configured rate is at least five |
| SchedulerRuns.TimerWakesHead | backend/lib/gmgn-rate-scheduler.js:163-166 | whatever operations other than a 429 came since a drain outside the cooldown, or since the start, the armed timer when it fires grants the head of the queue if it is still in time |
| SchedulerRuns.StaysTimely | backend/lib/gmgn-rate-scheduler.js:122-166 | over every run from the start the timer of a waiting request is never due inside the cooldown |
| SchedulerRuns.DueTimerEndsCooldown | backend/lib/gmgn-rate-scheduler.js:149-166 | after 429s too, a due timer drains outside the cooldown, and the next one it arms is late enough for the head to fit |
| SchedulerRuns.DrainArms | backend/lib/gmgn-rate-scheduler.js:149-166 | outside the cooldown the timer is the head's computed delay, and in the cooldown it is not before the cooldown's end |
| SchedulerRuns.RateLimitPauses | backend/lib/gmgn-rate-scheduler.js:225-237 | after a 429 the pause ends no earlier than before; without a reset time not before a minute and the asked minimum, with one not before that time |
| SchedulerRuns.PausedRunGrantsNothing | backend/lib/gmgn-rate-scheduler.js:149-152 | inside a pause nothing is granted, over every clock-ordered run |
| SchedulerRuns.MinuteAfterRateLimit | backend/lib/gmgn-rate-scheduler.js:225-237 | after a 429 without a reset time nothing is granted for a minute, whatever is asked, released, observed or fired in it |
| SchedulerExact.GrantsInOrder | backend/lib/gmgn-rate-scheduler.js:134-161 | a grant is outside the cooldown, before its deadline, and of lower priority number, earlier deadline or earlier arrival than everyone left waiting |
| SchedulerExact.ExpiresExactly | backend/lib/gmgn-rate-scheduler.js:134-140 | a drain rejects exactly the requests whose deadline is not later than now |
| SchedulerExact.TokensBalance | backend/lib/gmgn-rate-scheduler.js:65-120 | for every operation, tokens left plus weight granted is the tokens before, filled up at the rate, plus what a release gave back, at most the capacity |
| SchedulerExact.ConsumeSpends | backend/lib/gmgn-rate-scheduler.js:65-78 | a lease pays for exactly what it still holds, stays active while something is left, and no other lease changes |
| SchedulerExact.TimerIsTight | backend/lib/gmgn-rate-scheduler.js:149-166 | outside the cooldown the timer is the first millisecond at which the head fits; inside it is the end of the cooldown plus the jitter |
| SchedulerObject.WeightedRateScheduler.Drain | backend/lib/gmgn-rate-scheduler.js:131-168 | the filter, sort and grant loops compute the model's drain |
| SchedulerObject.WeightedRateScheduler.RejectExpired | backend/lib/gmgn-rate-scheduler.js:134-140 | keeps exactly the requests still in time, in order, and rejects the others |
| SchedulerObject.WeightedRateScheduler.GrantFitting | backend/lib/gmgn-rate-scheduler.js:154-161 | the loop grants until the head does not fit |
| SchedulerObject.WeightedRateScheduler.Acquire | backend/lib/gmgn-rate-scheduler.js:170-189 | refuses an invalid weight without effect, otherwise queues and drains, keeping the invariant |
| SchedulerObject.WeightedRateScheduler.Consume | backend/lib/gmgn-rate-scheduler.js:65-78 | spends from an open lease exactly what it covers and closes it when nothing is left |
| SchedulerObject.WeightedRateScheduler.Release | backend/lib/gmgn-rate-scheduler.js:80-87 | closes an open lease, returns its weight up to the capacity and drains; a second call returns nothing |
| SchedulerObject.WeightedRateScheduler.Observe429 | backend/lib/gmgn-rate-scheduler.js:225-237 | extends the cooldown to a given reset as it is, or by at least a minute and the asked minimum, never shortens it, decays the rate and drains |
| SchedulerObject.WeightedRateScheduler.FireTimer | backend/lib/gmgn-rate-scheduler.js:122-129 | the timer's callback is a drain, keeping the invariant |
| UsageTheorems.RunKeeps | backend/domains/dynamic-signal/dynamic-authorization.js:77-138 | over every run each day's reserved, spent, new-token and signal totals are the sums over its events, signals have one event, and a token has at most one counting event that is not released |
| UsageTheorems.ClampsNeverAct | backend/domains/dynamic-signal/dynamic-authorization.js:126-135 | neither subtraction of a settlement goes below zero |
| UsageTheorems.ReserveOnce | backend/domains/dynamic-signal/dynamic-authorization.js:93-98 | a signal that has an event reserves nothing again, whatever happened since |
| UsageTheorems.SettleOnce | backend/domains/dynamic-signal/dynamic-authorization.js:115-123 | a settled signal settles nothing again, whatever happened since |
| UsageTheorems.ReservationFitsBudget | backend/domains/dynamic-signal/dynamic-authorization.js:63-72 | a new reservation leaves spent plus reserved within the daily budget, and a new token within the token limit |
| UsageTheorems.RunCapped | backend/domains/dynamic-signal/dynamic-authorization.js:36-138 | over a whole run of transactions that each see one snapshot, spent plus reserved exceeds the budget by no more than the commits' own actual amounts exceeded the reserved ones, and new tokens stay within the limit |
| UsageTheorems.AuthorizedExactly | backend/domains/dynamic-signal/dynamic-authorization.js:5-75 | the conditions of an authorization written out: policy, target, event, age of the source, positions, buys, daily budget with what is spent and reserved, and new tokens, which a token that stands does not need |
| UsageTheorems.ReservationBooks | backend/domains/dynamic-signal/dynamic-authorization.js:85-111 | a new reservation adds the amount per trade to the day's reserved amount, one signal, and one token unless the token stands, and changes no other day |
| UsageTheorems.CommitSpends | backend/domains/dynamic-signal/dynamic-authorization.js:115-138 | a commit of a reserved event adds the actual amount, or the reserved one when there is none, to its day's spending, takes the reserved one off, and changes nothing else |
| UsageTheorems.ReleaseGivesBack | backend/domains/dynamic-signal/dynamic-authorization.js:115-138 | a release spends nothing and gives back the reserved amount and the token it counted |
| UsageTheorems.RunSpends | backend/domains/dynamic-signal/dynamic-authorization.js:115-138 | over every run a day's spending grows by exactly what its commits were told they cost |
| UsageTheorems.AnswerIsBacked | backend/domains/dynamic-signal/dynamic-authorization.js:93-98 | a live reservation stands behind an authorized answer if and only if the signal had no event or its event was still reserved |
| UsageTheorems.ReleasedAnswerIsUnbacked | backend/domains/dynamic-signal/dynamic-authorization.js:93-98 | from the empty ledger, a signal that reserved and was released is authorized again and nothing is reserved for it |
| UsageTheorems.ExactCountIsTokens | backend/domains/dynamic-signal/dynamic-authorization.js:88-92 | while every token of the day has its counting event, the counter is the number of distinct tokens |
| UsageTheorems.SettleStaysExact | backend/domains/dynamic-signal/dynamic-authorization.js:126-135 | a settlement ends that if and only if it releases the counting event of a token that another event still stands for |
| UsageTheorems.ReleaseCanUndercount | backend/domains/dynamic-signal/dynamic-authorization.js:126-135 | from the empty ledger, two reservations of one token and the release of the first leave a counter of zero for a token that still stands |
| UsageTheorems.ReserveStaysExact | backend/domains/dynamic-signal/dynamic-authorization.js:85-97 | a reservation never ends it |
| UsageLedger.Evaluate | backend/domains/dynamic-signal/dynamic-authorization.js:5-75 | reports every blocker that applies and no other, in the order of the checks, and none exactly when the signal is authorized |
| UsageLedger.NoBlockerMeansAuthorized | backend/domains/dynamic-signal/dynamic-authorization.js:5-75 | no blocker applies if and only if everything an authorization needs holds |
| UsageLedger.ExpiresExactly | backend/domains/dynamic-signal/dynamic-authorization.js:38-45 | the age check fails exactly when the best time is missing, lies ahead, or is older than the maximum |
| UsageLedger.Ledger.Reserve | backend/domains/dynamic-signal/dynamic-authorization.js:77-113 | fails exactly when unauthorized, books the amount per trade once per signal on the signal's day, and keeps conservation |
| UsageLedger.Ledger.Settle | backend/domains/dynamic-signal/dynamic-authorization.js:115-138 | settles the signal's reserved event on the event's own day, spending the actual or reserved amount on a commit and nothing on a release, or does nothing, and keeps conservation |
| SagaRuntime.RejectionNeedsAnAnswer | backend/domains/trade/gmgn-write-error-classifier.js:21-40 | after the write started, rejected means exactly that the provider answered definitively and did not limit the rate; before it nothing is uncertain |
| SagaRuntime.Execution.Do | backend/lib/gmgn-rate-scheduler.js:65-88 | records one call that may throw; the lease decides what it covers and a recorded order cannot be marked uncertain |
| BuySagas.AutomaticIsWellFormed | backend/domains/trade/execution-service.js:561-652 | the automatic saga's calls have quote, attempt, lane, one swap and its order in this order |
| BuySagas.ManualIsWellFormed | backend/domains/trade/execution-service.js:444-511 | the same of the operator's saga |
| BuySagas.RetryIsWellFormed | backend/domains/trade/execution-service.js:698-788 | the same of the retry saga |
| BuySagas.QuoteAndSwapAreCovered | backend/domains/trade/execution-service.js:497-497 | the reservation of seven refuses neither the quote of two nor the swap of five |
| BuySagas.LeaseAlwaysCloses | backend/domains/trade/execution-service.js:519-520 | whichever call throws, and also when the intent exists or the run succeeds, a reserved lease ends closed |
| BuySagas.OnlyFailuresCleanUp | backend/domains/trade/execution-service.js:510-518 | a run that does not fail never touches the lane in cleanup, and sent a swap exactly when it completed |
| BuySagas.FreedLaneMeansNoOpenWrite | backend/domains/trade/execution-service.js:529-532 | the cleanup frees the lane exactly for an error that is not uncertain, and then no swap was sent or the provider answered or limited the rate |
| BuySagas.UncertainWriteIsQuarantined | backend/domains/trade/execution-service.js:522-528 | an uncertain write never frees the lane and is quarantined exactly when the marking and the quarantine did not throw, and never after the order was recorded |
| BuySagas.RecordedOrderKeepsItsLane | backend/domains/trade/execution-service.js:503-528 | a concrete record in which settling the lane throws after the order was recorded: the swap is out, the error is uncertain, and the lane is neither freed nor quarantined |
| BuySagas.AutomaticSwapIsChecked | backend/domains/trade/execution-service.js:561-640 | a swap of the live worker leaves only behind the evidence, the quote, the target, policy and risk checks, the attempt and the submission, each passed and in this order |
| BuySagas.ManualSwapIsChecked | backend/domains/trade/execution-service.js:444-497 | the same of the operator's swap, with the comparison of the prepared snapshot |
| BuySagas.RetrySwapIsChecked | backend/domains/trade/execution-service.js:698-775 | the same of a retried swap, with the comparison of its principal with the intent's |
| BuySagas.AutomaticSwapCompletes | backend/domains/trade/execution-service.js:640-661 | a completed run goes on from the swap with the order, its record and timing, the lane and the reconciliation |
| BuySagas.TryAndCatch | backend/domains/trade/execution-service.js:444-534 | the try and catch blocks leave only records of the stated form and throw the cleanup's own error when it throws |
| BuySagas.Execute | backend/domains/trade/execution-service.js:424-535 | the operator's saga leaves only such records, and reserves only after mode, readiness and both token checks |
| BuySagas.ExecuteAutomatic | backend/domains/trade/execution-service.js:537-677 | the automatic saga leaves only such records, and reserves only after the gate let it pass, at once or after one refresh of a stale answer |
| BuySagas.RetryIntent | backend/domains/trade/execution-service.js:679-809 | the retry saga leaves only such records, reserves only after mode, configuration, retry and readiness checks, and never merges |
| CloseSagas.WaitForStrategyCancellation | backend/domains/trade/close-service.js:130-164 | polls at most once per delay, succeeds only on a cancellation that went through and was then verified without a close transaction, and otherwise throws one of its three codes |
| CloseSagas.LoadStrategyState | backend/domains/trade/close-service.js:166-186 | every stored active or unsafe group gets a state, in order, and each state was seen |
| CloseSagas.BuildClosePrepared | backend/domains/trade/close-service.js:188-302 | a prepared close has each relevant group out of the way or listed for cancelling, and spent two of the lease; a failure leaves no attempt |
| CloseSagas.CancelStrategies | backend/domains/trade/close-service.js:316-373 | succeeds only when every strategy was cancelled by a call that went through and then verified; a failure goes to the catch block with its own error |
| CloseSagas.Sell | backend/domains/trade/close-service.js:446-454 | the record grows by exactly the selling calls in order, each once, up to the one that threw |
| CloseSagas.CatchClose | backend/domains/trade/close-service.js:462-482 | gives the lease back, then frees or quarantines by the error's classification and code, and throws its own error when one of those calls throws |
| CloseSagas.Close | backend/domains/trade/close-service.js:375-602 | both close sagas end where the model's function of the outcomes ends, whose writes hold the lane (`CloseTheorems.WritesUnderTheLane`), and return success or the error that its ending names |
| CloseTheorems.EveryOutcomeIsTaken | backend/domains/trade/close-service.js:375-602 | every outcome of the awaited call continues the record, except a refusal by a lease that covers it and a mark on a recorded order |
| CloseTheorems.NoSellBeforeCancellation | backend/domains/trade/close-service.js:316-373 | before a sell request every stored active or unsafe group was seen terminal and unsold, or its cancel call went through and was then verified |
| CloseTheorems.OneSell | backend/domains/trade/close-service.js:445-461 | no run makes two sell requests, and a sold one made exactly one, that went through and was then parsed, recorded and settled |
| CloseTheorems.WritesUnderTheLane | backend/domains/trade/close-service.js:320-349 | in every record each sell and each cancel has an acquired lane before it and no call in between that gives the lane back |
| CloseTheorems.SellIsPrepared | backend/domains/trade/close-service.js:380-450 | before a sell request every call of the operator's or the worker's close up to it has succeeded, in order and once |
| CloseTheorems.SoldInFull | backend/domains/trade/close-service.js:380-461 | a sold close made every one of its calls, in order and once |
| CloseTheorems.LeaseAlwaysCloses | backend/domains/trade/close-service.js:462-464 | whatever happens a reserved lease ends closed, and it refuses neither the quote of two nor the sell of five |
| CloseTheorems.FlagsFollow | backend/domains/trade/close-service.js:387-445 | the catch block's attempt and submission flags hold exactly when the record says so |
| CloseTheorems.CauseFollows | backend/domains/trade/close-service.js:337-364 | the error the catch block sees is the one thrown by the call that failed, the refusal of an unsafe strategy, or the code a cancellation ended with |
| CloseTheorems.FreedExactly | backend/domains/trade/close-service.js:465-480 | the cleanup frees the lane exactly when an attempt exists, the error is not an uncertain one of a started submission, and it carries no cancellation code |
| CloseTheorems.FreedLaneAfterSell | backend/domains/trade/close-service.js:465-480 | after a sell request the error is the sell's own, and the lane is freed only if the provider answered it definitively or limited the rate |
| CloseTheorems.OpenCancelLosesLaneExactly | backend/domains/trade/close-service.js:336-349 | the lane is freed over an open cancel if and only if the cancel was not definitively rejected and its quarantine threw an error without a cancellation code |
| CloseTheorems.OpenCancelCanLoseItsLane | backend/domains/trade/close-service.js:342-349 | the outcomes of one close, from its first call, that end so |
| CloseTheorems.OpenWriteIsQuarantined | backend/domains/trade/close-service.js:465-473 | an uncertain error of a started submission, or an open cancel whose quarantine was not lost, is never freed, is marked, and is quarantined exactly when the marking and the quarantine do not throw, never after the order was recorded |
| CloseTheorems.LeavingError | backend/domains/trade/close-service.js:462-482 | the error that leaves the saga is the cleanup's own when its last call threw, the cause otherwise |
| CloseCancellations.LookDecides | backend/domains/trade/close-service.js:102-164 | in every record a look at a cancelled strategy decides: cancelled without a sale goes on, triggered or sold fails the close, and anything else is asked again until the eighth look, which fails it as uncertain or unverified |
| CloseCancellations.FailedLookDecides | backend/domains/trade/close-service.js:138-163 | a look that throws is one of the eight, unless its error says that the strategy triggered |
| CloseCancellations.DeadlineDecides | backend/domains/trade/close-service.js:138-163 | only a close with a deadline gives up early, with the code of its last look |
| CloseCancellations.AtMostEightPolls | backend/domains/trade/close-service.js:17-17 | no cancel is looked at more than eight times |
| CloseCancellations.SightingsAreAnswers | backend/domains/trade/close-service.js:166-186 | a strategy's state is the provider's answer just before it, or unknown for one without an order |
| CloseCancellations.MergesAreTheOperators | backend/domains/trade/close-service.js:395-410 | an intent already there ends an operator's close only, before any attempt |
| ResolutionTheorems.DominantExactly | backend/domains/dynamic-signal/resolution-policy.js:142-174 | the two sorted rankings pick a candidate if and only if all audiences are known and it leads every other eligible one by the ratio in market cap and liquidity |
| ResolutionTheorems.DominanceIsUnique | backend/domains/dynamic-signal/resolution-policy.js:166-173 | at most one candidate dominates |
| ResolutionTheorems.OrderIndependent | backend/domains/dynamic-signal/resolution-policy.js:188-274 | for distinct keys, status, pick, failure code, confidence and reason are the same for every order of the candidates |
| ResolutionTheorems.PickIsClean | backend/domains/dynamic-signal/resolution-policy.js:199-274 | resolved exactly with a pick and exactly without a failure code, and nothing rejects the pick |
| ResolutionTheorems.PickedExactly | backend/domains/dynamic-signal/resolution-policy.js:199-274 | for distinct keys, with confidence and reason: the only survivor the author named by address; failing one, the only survivor on a named platform; failing that, the only survivor; failing that, the dominant one |
| ResolutionTheorems.UndecidedExactly | backend/domains/dynamic-signal/resolution-policy.js:199-274 | not found exactly for no candidates, rejected exactly when nobody survives, ambiguous exactly when somebody survives and none of the four applies |
| ResolutionTheorems.FailureExactly | backend/domains/dynamic-signal/resolution-policy.js:176-186 | a rejection carries the code of the first group of checks that rejected anybody |
| ResolutionTheorems.SurvivesExactly | backend/domains/dynamic-signal/resolution-policy.js:83-140 | a candidate survives exactly when its chain, provider answers, liquidity, text and platform are all present and right |
| ResolutionTheorems.NamedByAuthor | backend/domains/dynamic-signal/resolution-policy.js:42-68 | named by address exactly when it came so or a term of the author is its address, and by a link when it came so or the first such term is one |
| ResolutionTheorems.PlatformsExactly | backend/domains/dynamic-signal/resolution-policy.js:36-45 | the platforms named are the known ones and the candidates' own that the text contains |
| CandidateEvaluation.EvaluateCandidate | backend/domains/dynamic-signal/resolution-policy.js:83-140 | the pushed rejection, support and anchor codes are exactly those that apply |
| CandidateEvaluation.TermMatches | backend/domains/dynamic-signal/resolution-policy.js:53-68 | the pushed support codes are exactly those some term gives |
| VerificationPool.MapConcurrentIsMap | backend/domains/dynamic-signal/ca-resolver.js:55-70 | under every schedule each index is taken once and in order, at most the limit is in flight, and a finished pool holds the plain map |
| VerificationPool.ResolutionIsDeterministic | backend/domains/dynamic-signal/ca-resolver.js:153-187 | for a provider that answers each candidate the same at any time, neither the order of the candidates nor the interleaving of their verification changes the decision |
| CandidateIndexModel.IndexKeysAreInjective | backend/domains/dynamic-signal/candidate-index.js:130-135 | two index keys are equal only for the same kind and value |
| CandidateIndexModel.SuffixIsAddress | backend/domains/dynamic-signal/candidate-index.js:170-171 | on candidate keys the suffix test is equality of addresses |
| CandidateIndexObject.GatherIsOnePerKey | backend/domains/dynamic-signal/candidate-index.js:115-125 | there is one merged candidate for each chain and address that came, with every handle any of its records listed |
| CandidateIndexObject.NewestRecordWins | backend/domains/dynamic-signal/candidate-index.js:85-100 | the merged details are those of one record, and no record is newer |
| CandidateIndexObject.GatherKeepsLists | backend/domains/dynamic-signal/candidate-index.js:85-100 | a merged candidate has every post and source of its records and the first family among them |
| CandidateIndexObject.CandidateIndex.Replace | backend/domains/dynamic-signal/candidate-index.js:115-128 | afterwards the index lists exactly what the given candidates provide |
| CandidateIndexObject.CandidateIndex.IndexCandidate | backend/domains/dynamic-signal/candidate-index.js:137-146 | adds exactly the entries of one candidate and none for an empty value |
| CandidateIndexObject.CandidateIndex.KeysFor | backend/domains/dynamic-signal/candidate-index.js:168-183 | finds exactly the candidates the term matches by the direct definition |
| CandidateIndexObject.CandidateIndex.LookupTerms | backend/domains/dynamic-signal/candidate-index.js:159-194 | returns exactly what a scan would: the fresh candidates of allowed chains that some term matches |
| DecimalUnits.DecimalToRawIsExact | backend/lib/decimal-units.js:11-27 | a well-formed amount is accepted if and only if it is worth a whole number of raw units, and the answer is that number without a redundant zero |
| DecimalUnits.RefusedExactly | backend/lib/decimal-units.js:1-43 | which precisions, amounts and raw texts the two conversions refuse, and as what |
| DecimalUnits.CanonicalIsUnique | backend/lib/decimal-units.js:26-26 | one number has one canonical raw form |
| DecimalUnits.RawToDecimalTruncates | backend/lib/decimal-units.js:29-43 | the text is canonical, has at most the allowed fraction digits, and is below the amount by less than one unit of the last digit |
| DecimalUnits.RawRoundTrip | backend/lib/decimal-units.js:11-43 | raw to decimal and back is the identity on canonical raw amounts |
| DecimalUnits.DecimalRoundTrip | backend/lib/decimal-units.js:11-43 | decimal to raw and back is the identity on canonical decimals within the precision |
| EnvLines.MatchBuilt | backend/domains/system/env-settings.js:224-224 | the pattern matches exactly what is built from spaces, an identifier, spaces, an equals sign and a one-line rest, and gives the parts back |
| EnvLines.BuiltAssigns | backend/domains/system/env-settings.js:104-108 | reading a line built that way gives its key and its trimmed rest |
| EnvLines.AssignsExactly | backend/domains/system/env-settings.js:100-111 | a line assigns exactly when, trimmed, it is no comment and has an equals sign behind something; key and value are the trimmed parts around the first one |
| EnvLines.PlainLineMatches | backend/domains/system/env-settings.js:224-224 | a line that assigns an identifier and holds no stray terminator matches the pattern |
| EnvSettings.RewriteMatched | backend/domains/system/env-settings.js:223-229 | a rewritten line assigns the new value and rewriting it again changes nothing |
| EnvSettings.MergedKey | backend/domains/system/env-settings.js:219-235 | after a merge a key is read back as the overlay says, except an updated key whose last assigning line is past the pattern, which keeps its old value |
| EnvSettings.MergeLawExactly | backend/domains/system/env-settings.js:219-235 | parsing the merged file gives the old assignments overlaid with the updates if and only if no updated key is stuck at another value |
| EnvSettings.PlainFilesObeyTheLaw | backend/domains/system/env-settings.js:100-111 | the law holds for every file without stray terminators, with repeated keys, comments, blank lines and either newline |
| EnvSettings.TheLawCanFail | backend/domains/system/env-settings.js:224-225 | a concrete file for which it fails |
| EnvIdempotence.MergeIsIdempotentExactly | backend/domains/system/env-settings.js:219-235 | merging again gives the identical text if and only if the file has a carriage-return newline, does not end in a lone carriage return, or is one line merged with nothing |
| EnvIdempotence.SecondMergeCanDiffer | backend/domains/system/env-settings.js:220-221 | a concrete file and update whose second merge gives another text |
| EnvIdempotence.MergeTwice | backend/domains/system/env-settings.js:230-234 | lines that lose no carriage return come out of a second merge as they went in |
| EnvFile.ReadEnv | backend/domains/system/env-settings.js:100-111 | the loop reads what the specification parses |
| EnvFile.MergeEnvContent | backend/domains/system/env-settings.js:219-235 | the loops build what the specification merges |
| EngineModel.LifeKeeps | backend/lib/engine-state.js:70-268 | over whole lives with restarts, refused writes and restores cut at their looks, armed means wanted and running under the last direct arm's fingerprint |
| EngineModel.QuietHoldsExactly | backend/lib/engine-state.js:121-154 | once neither memory nor row wants the gate open, only a direct arm opens it, if and only if no restore of a record with a fingerprint is under way |
| EngineModel.StopDuringRestoreIsUndone | backend/lib/engine-state.js:209-257 | a life from the first start in which an operator's stop falls between two looks of a restore, and the next look opens the gate |
| EngineModel.AutomaticArmIsTheOperators | backend/lib/engine-state.js:187-206 | an arm without an operator has a fingerprint, and it is the one the operator armed last |
| EngineModel.RestartKeepsIntent | backend/lib/engine-state.js:46-68 | a restart keeps the saved intent and its fingerprint, as recovering or stopped, and never the open gate |
| EngineModel.WhatALookDoes | backend/lib/engine-state.js:217-267 | in a reachable state a look waits for another exactly for a retryable snapshot with looks left, opens only for a ready one of the same fingerprint, clears the intent only for a ready one of another, and pauses only at its last look |
| EngineObject.EngineState.Init | backend/lib/engine-state.js:46-68 | loads the saved intent as recovering or stopped, never armed, once |
| EngineObject.EngineState.ArmDirectly | backend/lib/engine-state.js:70-119 | opens the gate under the given fingerprint or changes nothing |
| EngineObject.EngineState.Stop | backend/lib/engine-state.js:121-136 | leaves nothing wanting the gate open, or, when the write fails, everything as it was |
| EngineObject.EngineState.SetFaulted | backend/lib/engine-state.js:138-154 | shuts the gate and keeps or clears the intent as asked |
| EngineObject.EngineState.PauseTransient | backend/lib/engine-state.js:156-174 | pauses only a wanted gate that is not stopped |
| EngineObject.EngineState.RecoverTransient | backend/lib/engine-state.js:176-207 | reopens only from the pause, for a ready snapshot with the same fingerprint, and for another one clears the intent; it says which it was |
| EngineObject.EngineState.LookOnce | backend/lib/engine-state.js:217-267 | one look goes on only for a retryable snapshot with looks left, and opens the gate only for a ready one with the fingerprint the record has by then |
| EngineObject.EngineState.RestoreDesiredState | backend/lib/engine-state.js:209-268 | whatever the operator and the monitor do between its looks, it looks at most the allowed number of times, does nothing without a saved intent, and what it opens is open under the operator's fingerprint |
| LiveQueueModel.RunKeeps | backend/domains/trade/live-execution-queue.js:170-327 | over every run served, in-flight and waiting signals are the accepted ones in order, without duplicates, and the id set is exactly queued and in flight |
| LiveQueueModel.PumpStaysAtWork | backend/domains/trade/live-execution-queue.js:305-327 | every step keeps an open queue with signals being served, except reopening one that a stop left signals in |
| LiveQueueModel.AcceptanceRestarts | backend/domains/trade/live-execution-queue.js:170-186 | the next accepted signal starts the pump again, on whoever waited longest |
| LiveQueueModel.StrandedWaiterWaits | backend/domains/trade/live-execution-queue.js:329-348 | on a stopped queue with leftovers a wait for idleness never ends while it stays stopped |
| LiveQueueModel.OffersAreTaken | backend/domains/trade/live-execution-queue.js:170-186 | of the offers exactly the live ones with an id neither queued nor running are taken, each once, behind whoever waits |
| LiveQueueModel.StopStartsNothing | backend/domains/trade/live-execution-queue.js:329-348 | over every run after a stop nothing is accepted or started until the queue is reopened, and only what runs is finished |
| LiveQueueModel.WaitersAreCounted | backend/domains/trade/live-execution-queue.js:329-348 | a stop or a wait joins the waiters unless nothing runs and nothing waits |
| LiveQueueObject.LiveExecutionQueue.Enqueue | backend/domains/trade/live-execution-queue.js:170-186 | accepts exactly the live signals not yet queued or in flight, counts them, and starts the pump |
| LiveQueueObject.LiveExecutionQueue.Finish | backend/domains/trade/live-execution-queue.js:309-326 | frees the id of the settled signal and takes the next |

## Left out

Of the pipeline:

- Row order and skipped locks: any claimable row may be the one claimed. The candidate rows of an attempt, paper sessions and evaluations, the account switch, the activation outbox and notifications are not modelled.
- The normalised policy is an input of an edit, and its context hash is taken as injective, so a hash is the configuration itself. One policy per account is keyed by that account.
- Unique indexes are taken as given. Launch windows and attempts are keyed by their job.
- An enqueueing select may have read any earlier version of a policy, which covers more interleavings than one database does.
- The older whitelist matcher writes an approved status without a guard (`backend/domains/signal/signal-matcher.js` is not part of this model); the fence is about the pipeline's own writers.
- Progress of the launch windows: resolving a window and putting its job back are separate statements, and only safety is proved.

Of the scheduler:

- Rates are whole numbers, weights are thousandths, and the comparison's floating-point slack is dropped. Leases are keyed by the request they were granted for. The one-second histories, the status report and the test reset are not modelled.
- SchedulerRuns.WindowBoundExactly: asks for a capacity of at least five thousandths, which every real weight exceeds.

Of the ledger:

- Amounts are whole hundred-millionths, and column overflow is not modelled. `charged` in an event records what a commit added, which the source keeps only in the day's total.
- The position and attempt counts that the evaluation reads are inputs.
- UsageTheorems.RunCapped: takes the token check and the insert of a reservation on one snapshot. The source reads them in two statements and a settlement takes no policy lock, so a release of a token's last event that does not count, in between, makes the insert count the token again, above the limit.

Of the sagas:

- The contents of quotes, risk reports, snapshots and orders; a step is a call that succeeds or throws. Calls awaited together are made one after another.
- The four-unit evidence lease of the automatic saga is not part of the record.
- What other attempts do to the lane, and the lane's own lease takeover: `backend/domains/trade/wallet-write-lane.js` is not part of this model. A lane event here is a call of this attempt.
- The position status that a rejected close falls back to.
- CloseSagas.Close: one method stands for both close entry points, which differ in the snapshot check and in whether an existing intent is possible.
- The clock of a close: with a deadline, any poll may come too late.

Of resolution and the index:

- Text normalisers, the instruction-text pattern and platform names arrive in normal form. Codes are sets, so the order in which one candidate's codes are listed is not modelled.
- VerificationPool.ResolutionIsDeterministic: takes a candidate's verification as a function of the candidate. A provider that answers differently from one moment to the next is outside it.
- A missing fetch time is read as the start of the year 2000 in UTC; the source's date parser reads it in the process's own time zone.
- The early returns of the resolver, its candidate limit, and which provider failure is reported first, which does depend on the interleaving.
- Coverage counts of a lookup and the order of its results. The suffix scan over keys is modelled, its cost is not.

Of text, engine and queue:

- `minRaw`, `addRaw` and `subtractRaw`, which are integer operations on strings, and decimals that are not integers.
- Validation of setting values beyond "identifier keys and trimmed one-line values", and writing the file.
- Arming, stopping, faulting, pausing and recovering are one step each; two of them that overlap inside their awaits are not modelled. A restore is cut at its looks, and one runs at a time. One process writes the row.
- Database scans, notifications and timers of the live queue; what they offer is an input.
