# Verification of the judging control plane

This project models the control plane of the judging server in Dafny 4.11 and proves what its protocols keep. The
control plane is a set of lease-fenced, crash-tolerant protocols over one SQL database and one object store. Its
guarantees are invariants over every interleaving of workers, sweepers and stopped processes; no single branch of the
program states them. `dafny verify dfyconfig.toml` checks everything.

## How it is modelled

* **Tables and transactions.** A table is a map, and a transaction is one function from the tables to the tables; one that
  returns an error is the identity. The repositories are classes whose methods update the tables in place, statement by
  statement, and are proved to be those functions.
* **Runs.** A run is a list of freely chosen steps. Steps of the job worker carry arbitrary clock readings: ledger, fence
  and announcements need no ordered clock. Submission, retention and bundle publication use one nondecreasing database
  clock. The policy theorems fix one valid policy for a tenant, which may be switched off and on.
* **Objects.** Writing, copying and deleting an object are split into issuing and landing. What was issued may land
  later than its process believes, also after the process is gone; a write lands before the deadline of its context.
* **Answers.** The files named `...Answers`, `JobClaims`, `Deliveries`, `JudgingVerdicts` and `Outputs` say of every
  transaction when it succeeds and what it writes, in terms of the rows alone and without the functions that decide it.
* **Fresh values.** Random identifiers and tokens are fresh; hashes are collision-free where a statement says so.
* **History.** `deferredDay` of a job, `retired` of the tables, `doomed` of the object stores and the counters of the
  task registry are read by no transaction; they record what happened before.

| files | what |
|---|---|
| `JobModel`, `JobInvariants`, `JobSteps`, `JobRuns`, `JobTheorems`, `JobLimits`, `JobClaims`, `JobAnswers`, `JobDueTimes`, `JobRepository` | leased jobs, the daily ledger, tenant limits |
| `Events`, `Outbox`, `Deliveries`, `Webhooks` | announcing the end of a job and delivering it |
| `Sources`, `SourceInvariants`, `SourceSteps`, `SourceCoverage`, `SourceCoordination`, `SourceTheorems`, `SourceRetention`, `SourceAnswers`, `SourceRepository` | submission, sweeper, retention, idempotency |
| `Bundles`, `BundleInvariants`, `BundleTheorems`, `BundleAnswers`, `BundleRepository` | publication of bundles |
| `Results`, `Paths`, `Manifests`, `Checkers`, `Outputs`, `Judging`, `JudgingResults`, `JudgingVerdicts` | the judging pipeline and its validators |
| `TaskRegistry`, `TaskKeys`, `TaskAnswers`, `TokenBucket` | task deduplication, request quotas |
| `Options`, `Sums`, `Text` | foundations |

## What holds only under a condition

* *Every stored source object is referenced or reserved* holds if and only if the submit timeout is at most the 25-minute
  admission lease or at most the sweeper's minimum age (`SourceCoverage.StoredObjectsAreKnown`). The sweeper admits any
  positive age up to a week and the server timeouts up to 30 minutes. The program itself leaves the age at its default of
  one hour (`cmd/external_runtime.go:303`), so there the condition always holds
  (`SourceCoverage.DefaultSweeperLosesNothing`).
* *The pipeline never produces a result its own validator rejects* holds except under OI when the first failure the
  sandbox's answer reports is a compile error of a case (`JudgingResults.ResultIsDurable`). The callback validator refuses
  that result only if some case was accepted (`JudgingResults.ResultIsPublishable`). `JudgingResults.RefusedRun` is a run
  that both refuse.
* *Every settlement the webhook worker builds is valid* needs a base delay of at least 2 ns; 1 ns is an accepted
  configuration, and then a retry without any wait is refused (`Webhooks.BuildSettlement`, `Webhooks.LastRetryIsValid`).
* *Retry-After in seconds is honoured up to the maximum* holds if and only if the number of seconds fits a duration; from
  9223372037 on the code waits only for its own backoff (`Webhooks.DelaySecondsAreCapped`).
* *A retry is at most fifteen minutes away* needs the delay itself to be bounded: the settlement validator lets an
  oversized delay through when an absolute time is also given (`Outbox.SettlementOutcome`).
* *Eviction removes the least recently used completed task* holds unless, and only unless, the entry under the empty key is
  finished and older than every other finished one: the code uses the empty key to say "none"
  (`TaskRegistry.Table.EvictOldestCompleted`, `TaskKeys.EmptyKeyFillsTheTable`). The program's only caller never uses that
  key (`TaskKeys.DeduplicationKey`).
* *A failed attempt waits for the delay it was given* unless the delay ends exactly at the midnight of the attempt's day:
  the settlement takes the job for one that the ledger had put off, and makes it due at once (`JobAnswers.FailureAnswer`,
  `JobDueTimes.RetryDelayIsKept`).
* *The quota of an interval* needs one limit, a clock that does not step back and a key that goes only after its expiry
  (`TokenBucket.WindowBound`). A change of limit keeps the quota if and only if the new period is at most twice the old one:
  the key lives for two periods of the limit that wrote it (`TokenBucket.LimitChangeBound`, with
  `TokenBucket.SlowerRefillAdmitsTwice`). In general the clock's forward moves count, each at the rate of its time, and a
  whole capacity for every call that finds the key gone (`TokenBucket.AnyClockBound`).
* *A live bundle row has its staged object* needs the row to have been uploaded since migration 002
  (`BundleTheorems.StagedObjectIsThere`).

## Model

| member | source | states |
|---|---|---|
| JobModel.MaximumExecutionMillis | internal/external/mysql_job_worker.go:22-39 | the reservation for a manifest is a positive 64-bit number, or there is none |
| JobModel.ParsedLimitsHaveReservation | internal/external/mysql_job_worker.go:22-39 | for every parsed manifest the reservation is exactly (time limit + checker time limit) times the cases: no guard against overflow ever fires |
| JobModel.Charge | internal/external/mysql_job_worker.go:894-949 | a charge never exceeds the reservation |
| Results.CappedCaseExecutionMillis | internal/external/mysql_job_worker.go:937-949 | the loop returns the sum of the case times capped at the reservation, for every list |
| JobInvariants.LedgerCoversAttempt | internal/external/mysql_job_worker.go:894-923 | the guard `reserved_millis >= ?` of a settlement holds for every running attempt |
| JobInvariants.EventIsInserted | internal/external/mysql_webhook_event.go:14-87 | a terminal job without an event gets one inserted, and the tables stay consistent: the insertion never fails a transaction |
| JobSteps.ExpireSucceeds | internal/external/mysql_job_worker.go:550-567 | expiring the attempt of a running job never fails and leaves the job without a running attempt |
| JobSteps.ExpireUnfolds | internal/external/mysql_job_worker.go:550-567 | an expiry gives the whole reservation back and charges nothing |
| JobSteps.HeartbeatExtends | internal/external/mysql_job_worker.go:569-614 | a successful heartbeat moves the lease end of job and attempt together, and nothing else |
| JobSteps.SettleCommits | internal/external/mysql_job_worker.go:636-705 | a settlement by the owner of the fence always commits, with exactly the charge, closed attempt, job row, woken jobs and announcement it should have |
| JobSteps.ClaimKeepsInv | internal/external/mysql_job_worker.go:188-509 | every claim transaction (grant, deferral, refusal, recovery, failure) keeps the invariant of the tables |
| JobSteps.CompleteKeepsInv | internal/external/mysql_job_worker.go:636-705 | completion keeps the invariant; with fence, valid result and tenant it always succeeds |
| JobSteps.FailKeepsInv | internal/external/mysql_job_worker.go:707-794 | the same for reports of infrastructure failures |
| JobSteps.CancelKeepsInv | internal/external/mysql_job_repository.go:746-809 | cancellation keeps the invariant and is never unavailable |
| JobSteps.RetireBalances | internal/external/source_retention.go:302-359 | deleting a job with its attempts keeps every ledger balance |
| JobSteps.StepKeepsInv | internal/external/mysql_job_worker.go:188-949 | every step of submission, claiming, working, cancelling, delivering, retention and provisioning keeps the invariant |
| JobSteps.RunKeepsInv | internal/external/mysql_job_worker.go:188-949 | so does every run, for any interleaving, clock readings and policy changes |
| JobRuns.StepAdvances | internal/external/mysql_job_worker.go:465-858 | in every step: identity and cancellation are kept, attempt numbers only grow, terminal rows and settled attempts are frozen, a job ends exactly when its event appears |
| JobRuns.OtherStepsKeepJobs | internal/external/mysql_job_worker.go:188-794 | jobs appear by submission and disappear by retention only |
| JobRuns.ForeignTenantIsRejected | internal/external/mysql_job_worker.go:894-907 | a claim naming another tenant than the job's can settle nothing |
| JobTheorems.RunningMeansOneAttempt | internal/external/mysql_job_worker.go:465-509 | a job is RUNNING if and only if it has a RUNNING attempt, and any such attempt has the job's attempt number, worker, token and lease |
| JobTheorems.LedgerIsTheSumOfAttempts | internal/external/mysql_job_worker.go:860-931 | in every reachable state reserved is the sum over the running attempts of the day and consumed the sum of all charges of the day, deleted jobs included; no reservation exceeds its row |
| JobTheorems.RunIsLater | internal/external/mysql_job_worker.go:188-949 | over every run identifiers are not reused and rows only advance |
| JobTheorems.TerminalJobsAreFinal | internal/external/mysql_job_worker.go:636-794 | a terminal job row never changes again |
| JobTheorems.SettledAttemptsAreFinal | internal/external/mysql_job_worker.go:844-858 | a settled attempt never changes again: it is charged once |
| JobTheorems.GrantSupersedes | internal/external/mysql_job_worker.go:465-509 | a grant counts attempts up by exactly one, owns the fence and supersedes every earlier claim of the job |
| JobTheorems.SupersededForever | internal/external/mysql_job_worker.go:569-705 | after any further run, no heartbeat, completion or failure report of a superseded claim changes any table |
| JobTheorems.CompletionEffect | internal/external/mysql_job_worker.go:636-705 | completing with the fence: status, result, charge, the one ledger row it moves, the closed attempt, the woken jobs |
| JobTheorems.FailureEffect | internal/external/mysql_job_worker.go:707-794 | reporting a failure with the fence: requeued if and only if not permanent, not cancelled and tries are left; charged everything or nothing |
| JobTheorems.CompletionRefused | internal/external/mysql_job_worker.go:636-668 | every other completion changes nothing and is not done |
| JobTheorems.FailureRefused | internal/external/mysql_job_worker.go:707-737 | every other failure report changes nothing and is not done |
| JobTheorems.CompletionSupersedes | internal/external/mysql_job_worker.go:636-705 | a completed claim is superseded |
| JobTheorems.FailureSupersedes | internal/external/mysql_job_worker.go:707-794 | a failed claim is superseded |
| JobTheorems.NoSecondEvent | internal/external/mysql_webhook_event.go:14-87 | a terminal or deleted job gets no further event in any run |
| JobTheorems.ExactlyOneEvent | internal/external/mysql_webhook_event.go:14-87 | in any run a live job with a callback gets exactly one event if it ends and none if it does not; a job without a callback never gets one |
| JobTheorems.EventsTellTheTruth | internal/external/webhook_event.go:31-75 | an event in the outbox names its job's tenant, terminal status, result and failure code |
| Events.EncodedEventDeterminesJob | internal/external/webhook_event.go:31-75 | the encoder accepts terminal states only, and the body determines the state it was made from |
| JobTheorems.CancellationIsFinal | internal/external/mysql_job_repository.go:777-788 | a recorded cancellation is never cleared: the job never succeeds, is never queued again, keeps and announces no result |
| JobTheorems.PlaceholderIsValid | internal/worker/runner.go:124-132 | the placeholder that a cancelled run submits passes the result validator |
| JobTheorems.PlaceholderIsNeverPersisted | internal/worker/runner.go:124-132 | whatever runs after the worker saw the cancellation, the placeholder is stale, or the job ends CANCELLED without a result and pays its whole reservation |
| JobClaims.GrantedIf | internal/external/mysql_job_worker.go:188-509 | a claim is granted if and only if the job is QUEUED and due and its tenant has a place, or it lost its worker, was not cancelled and has a try left; the tenant is active with a valid policy, the limits are within the ceilings, the attempt number is below its maximum, and reserved plus consumed plus cost fits the day, with the expired reservation given back |
| JobClaims.NotDueIsLeftAlone | internal/external/mysql_job_worker.go:287-302 | a job that is neither due nor without its worker, and everything else, is left as it was |
| JobClaims.GrantEffect | internal/external/mysql_job_worker.go:465-510 | a grant leases job and attempt until now plus the duration and books exactly the cost to the day of the claim, after giving an expired reservation back |
| JobClaims.UnrecoverableEnds | internal/external/mysql_job_worker.go:326-389 | a running job without its worker ends with TENANT_DISABLED, CANCELLED or LEASE_EXPIRED, in that order of tests, is announced and gives its reservation back |
| JobClaims.UnaffordableIsPutOff | internal/external/mysql_job_worker.go:390-464 | a job that does not fit today waits for midnight, one that fits no day fails; nothing is booked |
| JobAnswers.HeartbeatAnswer | internal/external/mysql_job_worker.go:569-614 | a heartbeat succeeds if and only if the worker holds an unexpired lease; it moves both ends and nothing else |
| JobAnswers.CompletionAnswer | internal/external/mysql_job_worker.go:636-705 | a completion is taken if and only if the result is valid and the worker holds the lease; the row is SUCCEEDED with the result or CANCELLED without, the charge is the measured time capped or the whole reservation, and the end is announced |
| JobAnswers.FailureAnswer | internal/external/mysql_job_worker.go:707-794 | a failure report is taken if and only if it is valid and the worker holds the lease; cancelled, requeued at now plus the delay (or at once if that is the midnight of the attempt's day), or failed with its code |
| JobAnswers.CancelAnswer | internal/external/mysql_job_repository.go:746-809 | a cancellation of a live job is accepted and recorded: a queued job is CANCELLED and announced, a running one keeps its lease, an earlier time is kept; nothing else changes |
| JobAnswers.AcceptedCancelHolds | internal/external/mysql_job_repository.go:746-809 | after an accepted cancellation, in every run, the job never succeeds, keeps and announces no result, and the worker is told to stop |
| JobAnswers.AnnouncementAnswer | internal/external/mysql_webhook_event.go:14-87 | the event of an ended job says what its row says, is due at once and expires after the configured window |
| JobDueTimes.NotStartedBeforeDue | internal/external/mysql_job_worker.go:287-302 | in every run a queued job that nobody claims at or after its due time stays as it is or is cancelled, unless it is due at midnight |
| JobDueTimes.RetryDelayIsKept | internal/external/mysql_job_worker.go:743-760 | after a failure that is tried again the job is not running before the delay is over, in any run |
| JobLimits.SettledKeepsLimits | internal/external/mysql_job_worker.go:894-931 | a settlement lowers its day and wakes everyone who waited for that day |
| JobLimits.ReserveKeepsLimits | internal/external/mysql_job_worker.go:860-892 | granting, deferring or refusing keeps every limit of the policy |
| JobLimits.StepKeepsLimits | internal/external/mysql_job_worker.go:188-931 | every step that leaves the policy alone keeps its limits |
| JobLimits.PolicyIsKept | internal/external/mysql_job_worker.go:374-509 | under one valid policy, in every reachable state: attempts within the tries (strictly while queued), running jobs, queued plus running jobs, and every day's reserved plus consumed time are within their limits |
| JobLimits.DeferredJobsDoNotFit | internal/external/mysql_job_worker.go:446-460 | no lost wake-up: a job put off to the end of a day would still be refused by that day's ledger |
| JobRepository.Repository.constructor | internal/external/mysql_job_repository.go:57-95 | the empty tables satisfy the invariant |
| JobRepository.Repository.Release | internal/external/mysql_job_worker.go:894-931 | writes what the release transaction specifies, or nothing |
| JobRepository.Repository.Expire | internal/external/mysql_job_worker.go:550-567 | writes what the expiry specifies, or nothing |
| JobRepository.Repository.Finish | internal/external/mysql_job_worker.go:844-858 | closes the attempt under its fence, or nothing |
| JobRepository.Repository.Reserve | internal/external/mysql_job_worker.go:860-892 | decides as specified and writes the ledger only if the job is allowed or deferred |
| JobRepository.Repository.InsertEvent | internal/external/mysql_webhook_event.go:14-87 | inserts the event, finds the same one, or fails without a write |
| JobRepository.Repository.Recover | internal/external/mysql_job_worker.go:327-419 | takes an expired job over as specified |
| JobRepository.Repository.ClaimJob | internal/external/mysql_job_worker.go:188-509 | is the claim transaction, rolled back on every error |
| JobRepository.Repository.ClaimNext | internal/external/mysql_job_worker.go:150-178 | makes at most 32 transactions; the tables are those of a run of them; a returned claim owns the fence |
| JobRepository.Repository.Heartbeat | internal/external/mysql_job_worker.go:569-614 | is the heartbeat transaction: both rows or none |
| JobRepository.Repository.Complete | internal/external/mysql_job_worker.go:636-705 | is the completion transaction |
| JobRepository.Repository.FailInfrastructure | internal/external/mysql_job_worker.go:707-794 | is the failure transaction, and reports its disposition |
| JobRepository.Repository.Cancel | internal/external/mysql_job_repository.go:746-809 | is the cancellation transaction |
| Results.ValidateCases | internal/external/job_state.go:145-184 | one pass with running sums and a set of names accepts exactly the valid, distinct cases and returns their sums |
| Results.ValidateDurableJobResult | internal/external/job_state.go:145-202 | accepts exactly the results that satisfy the persistence invariant |
| Outbox.StepKeepsRowsOk | internal/external/mysql_webhook_outbox.go:103-367 | every claim, settlement and sweep keeps: a lease exactly while delivering, attempts within the budget, retries before the expiry |
| Outbox.RunKeepsRowsOk | internal/external/mysql_webhook_outbox.go:103-367 | the same over every run; delivered and dead rows and all bodies are frozen |
| Outbox.SupersededClaimIsPowerless | internal/external/mysql_webhook_outbox.go:233-308 | after any run, a settlement of a superseded lease changes nothing |
| Outbox.ClaimBudget | internal/external/mysql_webhook_outbox.go:103-231 | no run leases an event more often than it has attempts left |
| Outbox.SettlementOutcome | internal/external/mysql_webhook_outbox.go:233-308 | delivered if and only if reported so; a retry is in the future and before the expiry, and within fifteen minutes if and only if its delay is |
| Outbox.OversizedDelayIsAccepted | internal/external/mysql_webhook_outbox.go:373-385 | a settlement with an absolute time and an oversized delay is accepted |
| Deliveries.ClaimAnswer | internal/external/mysql_webhook_outbox.go:103-231 | an event is leased if and only if it is due and deliverable, for one more attempt and the whole duration; a due event that is not deliverable is DEAD with the reason; everything else is left alone |
| Deliveries.SettlementAnswer | internal/external/mysql_webhook_outbox.go:233-308 | a settlement is taken if and only if it is valid, has a retry time if it retries, and comes from the holder of the lease; the row is DELIVERED, DEAD, or PENDING at exactly the time asked for, with its codes |
| Deliveries.RetryIsNotEarly | internal/external/mysql_webhook_outbox.go:280-300 | after a settled retry the event waits for exactly the time asked for, in every run without a claim from that time on |
| Deliveries.NotLeasedBefore | internal/external/mysql_webhook_outbox.go:132-135 | a claim before that time leases nothing |
| Deliveries.SweepAnswer | internal/external/mysql_webhook_outbox.go:310-367 | the sweep removes exactly the rows of its batch that ended at least the retention ago |
| Outbox.OutboxRepository.ClaimOne | internal/external/mysql_webhook_outbox.go:103-231 | is the claim transaction, says whether it buried a row, and keeps the row invariant |
| Outbox.OutboxRepository.ClaimNext | internal/external/mysql_webhook_outbox.go:82-101 | at most 64 transactions; the rows are those of a run of them; all but the last buried a row; a returned claim owns its lease |
| Outbox.OutboxRepository.Settle | internal/external/mysql_webhook_outbox.go:233-308 | is the settlement of the specification |
| Outbox.OutboxRepository.SweepTerminal | internal/external/mysql_webhook_outbox.go:310-367 | removes up to a batch of rows that are over and old enough; none is left if the batch was not full |
| Webhooks.ParseUint | internal/external/webhook.go:157 | accepts exactly the decimal numbers below 2^64 and returns their value |
| Webhooks.ParseRetryAfter | internal/external/webhook.go:152-180 | the parser computes the delay the header asks for: seconds or a date, never above the maximum, nothing overflows |
| Webhooks.DelaySecondsAreCapped | internal/external/webhook.go:157-166 | delay-seconds as in section 10.2.3 of RFC 9110, capped at the maximum, if and only if the number fits a duration; else no delay at all |
| Webhooks.LongDelayIsDropped | internal/external/webhook.go:158-161 | every larger number is dropped |
| Webhooks.SmallestLongDelay | internal/external/webhook.go:158-161 | the smallest of them is 9223372037 |
| Webhooks.DoublingDelay | internal/external/webhook_worker.go:351-363 | the doubling loop computes exactly min(base * 2^(attempt - 1), maximum) |
| Webhooks.Backoff | internal/external/webhook_worker.go:351-386 | the wait is the larger of the jittered backoff and the capped Retry-After, at least half the backoff and at most the maximum; no sum overflows |
| Webhooks.ClassificationAgrees | internal/external/webhook.go:75-146 | responses are delivered, retryable or permanent by the lines the settlement validator draws |
| Webhooks.BuildSettlement | internal/external/webhook_worker.go:236-306 | what the worker reports for every outcome and how long it waits; the settlement is valid if and only if it is not a retry with base delay 1 ns at the last attempt, or before the delay doubles with nothing asked for |
| Webhooks.LastRetryIsValid | internal/external/webhook_worker.go:293-306 | the settlement of a failed last attempt is valid if and only if the base delay is at least 2 ns |
| Webhooks.WorkerSettlementIsTaken | internal/external/mysql_webhook_outbox.go:233-308 | a valid settlement without an absolute time is always taken from the owner of the lease |
| SourceSteps.ReleaseKeepsInv | internal/external/mysql_job_repository.go:164-205 | giving reservations back keeps the invariant of submission, sweeper and retention |
| SourceSteps.CommitKeepsInv | internal/external/mysql_job_repository.go:242-425 | the submission transaction keeps it |
| SourceSteps.SweepClaimKeepsInv | internal/external/source_reservation.go:78-118 | taking over a reservation keeps it |
| SourceSteps.SweptKeyIsUnreferenced | internal/external/source_reservation.go:44-49 | the sweeper's reference check never finds a reference |
| SourceSteps.SourceHasOneJob | internal/external/source_retention.go:392-405 | a source has one job, so the third blocker of retention never counts |
| SourceSteps.RetentionFinalizeKeepsInv | internal/external/source_retention.go:302-359 | deleting the job and its source row keeps it |
| SourceSteps.WorldStepKeepsInv | internal/external/mysql_job_repository.go:97-427 | every step keeps it, also writes and deletes that land after their process stopped |
| SourceSteps.WorldRunKeepsInv | internal/external/mysql_job_repository.go:97-427 | so does every run |
| SourceTheorems.LiveJobsHaveTheirSource | internal/external/source_retention.go:168-233 | in every reachable state the source object of every QUEUED or RUNNING job is stored and no delete was issued for it |
| SourceCoverage.RunCovers | internal/external/source_reservation.go:26-118 | if the sweeper waits long enough, every stored object stays covered by a row or a reservation, in every run |
| SourceCoverage.QuickSweeperLeavesOrphan | internal/external/source_reservation.go:78-92 | for every configuration in which it does not, a run that leaves a stored object nothing knows |
| SourceCoverage.StoredObjectsAreKnown | internal/external/source_reservation.go:26-118 | stored objects are referenced or reserved in all runs if and only if the submit timeout is at most the admission lease or at most the sweep age |
| SourceCoverage.DefaultSweeperLosesNothing | internal/external/source_reservation_worker.go:41-60 | with the age the program leaves at its default, no run loses a stored object, whatever submit timeout the configuration admits |
| SourceTheorems.RunKeepsRecord | internal/external/source_retention.go:39-96 | an idempotency record stays as it is until it expires, in every run |
| SourceTheorems.ReplayReturnsTheJob | internal/external/mysql_job_repository.go:460-489 | until then a retry gets the original job, a different request conflicts, and no transaction accepts a second job |
| SourceTheorems.AcceptanceIsRecorded | internal/external/mysql_job_repository.go:282-425 | an accepted submission adds exactly one queued job and the record that replays it, and only if there was no live record |
| SourceTheorems.SweptSubmissionCannotCommit | internal/external/mysql_job_repository.go:435-449 | once a sweeper has claimed the reservation, after any further run the submission cannot commit, and no source row and no job ever names its source |
| SourceTheorems.StaleRetentionIsPowerless | internal/external/source_retention.go:266-359 | a retention worker whose token was replaced, whose row is gone or whose lease ran out changes nothing, now or after any further run |
| SourceAnswers.ReplayAnswer | internal/external/mysql_job_repository.go:460-489 | the lookup replays or conflicts exactly while the record lasts |
| SourceAnswers.SubmitAnswer | internal/external/mysql_job_repository.go:275-427 | a submission is accepted if and only if it holds both reservations, tenant, bundle and callback are usable, queue and source fit and there is no live record; it then makes exactly its four writes, else none |
| SourceAnswers.RecordedAnswer | internal/external/mysql_job_repository.go:292-314 | under a live record the same request gets its job, any other a conflict |
| SourceAnswers.SweepClaimAnswer | internal/external/source_reservation.go:78-117 | the sweeper takes a reservation if and only if its lease ran out and it is old enough |
| SourceRetention.RunKeepsMarks | internal/external/source_retention.go:168-263 | in every run only the source of a job whose retention period is over is marked |
| SourceRetention.KeptForRetention | internal/external/source_retention.go:168-263 | in every reachable state a job whose retention period is not over has its source row, unmarked, and its object, and no delete of it is under way |
| SourceRetention.DeletedWhenOver | internal/external/source_retention.go:302-361 | no step of any run deletes a job or its source row before the period is over, while its event exists or while a live record names it; both go together |
| SourceRetention.RetentionClaimAnswer | internal/external/source_retention.go:168-263 | a job is taken if and only if its period is over, its event is gone, no live record names it and its source is free; mark, token and lease are then written |
| SourceRetention.FinalizeAnswer | internal/external/source_retention.go:302-361 | job, attempts and source row are removed if and only if the worker still holds the source and nothing new needs the job |
| SourceRetention.FailedDeleteAnswer | internal/external/source_retention.go:266-300 | a failed delete of the holder ends its lease and frees the source after the delay |
| SourceRetention.RipeIsRemoved | internal/external/source_retention.go:98-361 | an undisturbed worker removes a job that may be taken, with its source row and object |
| SourceCoordination.RunKeepsExclusive | internal/external/mysql_job_repository.go:565-606 | in every run a live coordinated request keeps its lease, and nobody records its key since it looked again |
| SourceCoordination.OthersCannotCommit | internal/external/mysql_job_repository.go:565-606 | while it does, no other submission of the same tenant and key can commit |
| SourceCoordination.RecheckedIsFresh | internal/external/mysql_job_repository.go:210-218 | so no later lookup finds a replay or a conflict |
| SourceCoordination.ReplayBranchIsDead | internal/external/mysql_job_repository.go:232-237 | the branch that finds a replay after the object store reported an existing key is never taken |
| SourceCoordination.OneHolderPerKey | internal/external/mysql_job_repository.go:97-427 | in every reachable state: one live holder per tenant and key, that branch dead, no replay and no conflict in the transaction of a live request |
| SourceRepository.Repository.TryAcquireReservation | internal/external/mysql_job_repository.go:608-635 | inserts a row or takes an expired one over, as specified |
| SourceRepository.Repository.LockReservations | internal/external/mysql_job_repository.go:435-449 | succeeds exactly if both rows are held under an unexpired lease |
| SourceRepository.Repository.SubmitTransaction | internal/external/mysql_job_repository.go:254-425 | is the submission transaction |
| SourceRepository.Repository.SweepReservations | internal/external/source_reservation.go:26-76 | removes due reservations with their unreferenced objects and nothing else; none is due if it ends early without a failure |
| SourceRepository.SweepableIsClaimed | internal/external/source_reservation.go:89-92 | the rows of that sweep are those the concurrent sweeper claims |
| SourceRepository.Repository.RetentionBlockers | internal/external/source_retention.go:392-405 | finds exactly the events, live records and other jobs that still need the source |
| SourceRepository.Repository.ClaimRetention | internal/external/source_retention.go:168-233 | claims exactly the retainable jobs, with a fresh token |
| SourceRepository.Repository.LockRetention | internal/external/source_retention.go:363-390 | locks exactly under the retention fence |
| SourceRepository.Repository.FinalizeRetention | internal/external/source_retention.go:302-359 | is the final transaction of retention |
| SourceRepository.Repository.ExpireIdempotencyBatch | internal/external/source_retention.go:39-96 | removes up to a batch of expired records; none is left if the batch was not full |
| BundleInvariants.CommitKeepsInv | internal/external/bundle_repository.go:74-207 | committing an upload (new row, replay, revival) keeps the invariant of bundle publication |
| BundleInvariants.PromotionStepKeepsInv | internal/external/bundle_service.go:317-352 | claim, copy, verification, completion, failure and discard keep it |
| BundleInvariants.CollectionStepKeepsInv | internal/external/bundle_staging_gc.go:93-143 | listing, checking twice and discarding keep it |
| BundleInvariants.SweepAbandonsMigratedRows | internal/external/bundle_repository.go:374-391 | the sweep abandons exactly the old rows of its batch that migration 002 left PENDING without a staging key, and changes no other row |
| BundleInvariants.OneRowPerStagingKey | internal/external/object_store.go:50-74 | a staging key is referred to by the row of its own upload only |
| BundleInvariants.RunKeepsInv | internal/external/bundle_reconciler.go:23-62 | every run of uploads, publications, reconciliations and collections keeps it |
| BundleTheorems.StagedObjectIsThere | internal/external/bundle_staging_gc.go:93-143 | from any migrated database: while a row is PENDING or PUBLISHING its staged object is stored with the row's digest and no discard was issued for it; only migrated rows that nobody uploaded again have none |
| BundleTheorems.ReadyIsStored | internal/external/object_store.go:76-108 | READY implies a staging key, and the final object stored with the row's digest and size |
| BundleTheorems.OnlyStrandedRowsAreRevived | internal/external/bundle_repository.go:209-227 | a commit changes only rows that are ABANDONED or were never staged; READY rows are neither, so revival never demotes one |
| BundleTheorems.StagedRowsAreNeverSwept | internal/external/bundle_repository.go:374-391 | once a row has been staged, the sweep leaves it alone in every run |
| BundleTheorems.RunAdvances | internal/external/bundle_repository.go:229-372 | over every run rows keep digest, size and creation, tokens are not reused, and READY rows are frozen |
| BundleTheorems.ReadyIsFinal | internal/external/bundle_repository.go:305-332 | a READY row stays exactly as it is |
| BundleTheorems.ReplacedTokenIsPowerless | internal/external/bundle_repository.go:305-372 | a promotion whose token was replaced can neither complete nor fail the row, now or after any run |
| BundleTheorems.CollectedIsNeverReferenced | internal/external/bundle_staging_gc.go:127-136 | once the collector discards a key, no row refers to it in any run: its last check never fires |
| BundleAnswers.CommitAnswer | internal/external/bundle_repository.go:74-227 | an upload is refused, conflicts with a live record of other content, or leaves exactly one row for its content (new, restarted or as it was) and a live record |
| BundleAnswers.RunKeepsRecord | internal/external/bundle_repository.go:106-134 | until it expires a record and its bundle stay, in every run |
| BundleAnswers.RepeatedUploadAnswer | internal/external/bundle_repository.go:106-140 | until then a repeated upload is answered with the bundle and other content conflicts, in every run |
| BundleAnswers.ClaimAnswer | internal/external/bundle_repository.go:229-303 | a publication is claimed if and only if its row is staged, not abandoned, and due or without its publisher; token, lease and attempt are then written |
| BundleAnswers.CompleteAnswer | internal/external/bundle_repository.go:305-332 | a verified promotion makes its row READY if and only if the row is PUBLISHING under its token |
| BundleAnswers.FailAnswer | internal/external/bundle_repository.go:334-372 | a failed one is tried again at the given time, or abandoned after the last attempt, under the same fence |
| BundleAnswers.NotPublishedEarly | internal/external/bundle_repository.go:229-303 | a row that waits for a later attempt stays as it is until then, in every run |
| BundleAnswers.PublicationSucceeds | internal/external/bundle_service.go:317-352 | an undisturbed promoter makes a due row with its staged object READY and stores the final object |
| BundleAnswers.GarbageIsCollected | internal/external/bundle_staging_gc.go:93-143 | an undisturbed collector removes a staged object if and only if it is old and no live row refers to it, and nothing else |
| BundleRepository.Repository.CommitUpload | internal/external/bundle_repository.go:74-207 | is the upload transaction |
| BundleRepository.Repository.ClaimPublication | internal/external/bundle_repository.go:229-279 | is the publication claim; a returned token holds the row |
| BundleRepository.Repository.CompletePublication | internal/external/bundle_repository.go:305-332 | makes the row READY exactly under the fence |
| BundleRepository.Repository.FailPublication | internal/external/bundle_repository.go:334-372 | makes it PENDING or, at the last attempt, ABANDONED exactly under the fence |
| BundleRepository.Repository.IsStagingReferenced | internal/external/bundle_staging_reference.go:11-23 | true exactly if a live row refers to the key |
| BundleRepository.Collector.SweepOnce | internal/external/bundle_staging_gc.go:93-143 | discards exactly the old unreferenced keys of the page, counts them and moves the cursor |
| Manifests.ValidateCases | internal/bundle/manifest.go:119-165 | the case loop accepts exactly the cases with valid distinct identifiers and files and weights within the total |
| Manifests.Validate | internal/bundle/manifest.go:85-176 | accepts exactly the valid manifests |
| Paths.ValidateArtifactPath | internal/bundle/manifest.go:178-187 | accepts exactly the short relative paths whose components are plain names, and ".." |
| Paths.CleanPaths | internal/bundle/manifest.go:182-185 | the test on the cleaned path is that test on the components |
| Paths.OnlyParentIsNotPlain | internal/bundle/manifest.go:178-187 | ".." is the only accepted name with a component that is not a plain name |
| Manifests.SpecialNeedsVersion2 | internal/bundle/manifest.go:93-123 | no valid version 1 manifest has a special checker |
| Manifests.ManifestHasReservation | internal/external/mysql_job_worker.go:22-39 | every validated manifest has a reservation, and which |
| Judging.KnownIsMapped | internal/service/bundle_pipeline.go:140-151 | the statuses taken for known are exactly those not mapped to SYSTEM_ERROR |
| Judging.ValidateBatchEvents | internal/service/bundle_batch_pipeline.go:330-368 | accepts exactly a lone compile error or an in-order case stream that stops where the request says |
| Judging.Aggregate | internal/service/bundle_batch_pipeline.go:370-413 | one case result per event; the first failure gives verdict and exit code, metrics are maxima, the compile message appears exactly with a compile error |
| Judging.VerdictIsSome | internal/service/bundle_batch_pipeline.go:393-396 | the verdict is ACCEPTED exactly if every case is, else that of a case |
| Judging.Recompute | internal/service/bundle_batch_pipeline.go:612-628 | verdict and metrics are those of the cases, which stay |
| Judging.ApplySpecialJudge | internal/service/bundle_batch_pipeline.go:436-533 | succeeds exactly if nothing was accepted or the checker ran cleanly for all that was; then the accepted cases, and no others, get its verdict, time and memory |
| Judging.ApplyScoring | internal/service/bundle_batch_pipeline.go:630-655 | case scores, score, total, status and exit code under OI; nothing otherwise |
| JudgingResults.ExecuteCanonical | internal/service/bundle_batch_pipeline.go:164-260 | a result comes out exactly if manifest, answer and checker answer are well formed, and its cases are those of the answer, rejudged where the special judge applies |
| JudgingResults.NeverSystemError | internal/service/bundle_batch_pipeline.go:248-251 | an aggregated result is never a system error |
| JudgingResults.AcceptedWeightIsPart | internal/service/bundle_batch_pipeline.go:630-655 | accepted weights make up the whole exactly if everything is accepted |
| JudgingResults.AcceptedMeansEveryCase | internal/service/bundle_batch_pipeline.go:370-413 | ACCEPTED if and only if every case of the manifest was run and accepted |
| JudgingResults.ScoreIsAcceptedWeight | internal/service/bundle_batch_pipeline.go:630-655 | the OI score is the weight of the accepted cases, the total that of all |
| JudgingResults.CompileErrorEventFirst | internal/service/bundle_batch_pipeline.go:370-413 | the first failure of an answer is a compile error of a case exactly if an event reports one after events judged ACCEPTED |
| JudgingResults.JudgedCompileError | internal/service/bundle_batch_pipeline.go:436-533 | the special judge cannot make a compile error the first failure, nor hide one |
| JudgingResults.ResultIsDurable | internal/worker/runner.go:273-307 | for every manifest and every answer: the durable validator accepts what comes out if and only if it is not OI with a compile error of a case as the first failure of the answer |
| JudgingResults.NoCompileErrorEventIsDurable | internal/worker/runner.go:273-307 | in particular whenever no case event reports a compile error |
| JudgingResults.FinalIsConvertible | internal/worker/runner.go:273-307 | every result of the pipeline passes the checks of the conversion itself |
| JudgingResults.DurableResult | internal/worker/runner.go:273-307 | converts exactly the convertible results whose durable form validates, to that form |
| JudgingResults.ResultIsPublishable | internal/callback/client.go:147-192 | for every manifest and every answer: the callback validator refuses exactly that case, and only if some case was accepted |
| JudgingResults.DurableImpliesCallback | internal/callback/client.go:147-192 | what the durable validator accepts, the callback validator accepts |
| JudgingResults.JudgeDurably | internal/worker/runner.go:102-122 | judging and converting yields a valid durable result exactly if the answers are well formed and that case does not occur |
| JudgingResults.BrokenStreamIsJudged | internal/service/bundle_batch_pipeline.go:330-368 | for every OI manifest and every k, the answer of k accepted cases and then compile errors is taken |
| JudgingResults.BrokenStreamIsRefused | internal/worker/runner.go:301-305 | what comes of it is always refused for the job table, and for the callback exactly if k > 0 |
| JudgingResults.RefusedRun | internal/callback/client.go:147-192 | a concrete run: ACCEPTED, then a compile error; the pipeline judges it and both validators refuse the result |
| JudgingVerdicts.CasesAreCompared | internal/service/bundle_batch_pipeline.go:386-404 | without a special judge a case is ACCEPTED if the sandbox accepted it and its output agrees with the expected one, WRONG_ANSWER if it does not agree, else it has the verdict of the sandbox's status; metrics are those of its run, within their limits |
| JudgingVerdicts.AcceptedMeansMatched | internal/service/bundle_batch_pipeline.go:370-413 | the result is ACCEPTED if and only if every expected output is matched |
| JudgingVerdicts.CasesAreRejudged | internal/service/bundle_batch_pipeline.go:508-532 | with a special judge that is asked, the k-th accepted run is ACCEPTED or WRONG_ANSWER as the k-th verdict says, with both times added and the larger memory; other cases keep the sandbox's verdict |
| JudgingVerdicts.CompileErrorIsFinal | internal/service/bundle_batch_pipeline.go:249-260 | if the first failure is a compile error the special judge is not asked: that is the result, and every case keeps the sandbox's verdict |
| JudgingVerdicts.AcceptedMeansApproved | internal/service/bundle_batch_pipeline.go:436-533 | the result is ACCEPTED if and only if every case ran accepted and every verdict is true |
| JudgingVerdicts.FirstFailureDecides | internal/service/bundle_batch_pipeline.go:612-656 | the first case that is not ACCEPTED gives the verdict; under OI any failure but a compile error is a wrong answer |
| JudgingVerdicts.ResultMetrics | internal/service/bundle_batch_pipeline.go:612-628 | time and memory are the largest of the cases |
| JudgingVerdicts.ExitCodeOfFirstFailure | internal/service/bundle_batch_pipeline.go:394-412 | the exit code is that of the first run that is not judged ACCEPTED |
| Text.TruncateUtf16 | internal/callback/text.go:20-39 | the longest prefix of whole code points within the limit |
| Text.Utf8Injective | internal/service/bundle_batch_pipeline.go:319-328 | different texts have different bytes |
| Checkers.FieldsAreTokens | internal/service/bundle_batch_pipeline.go:319-328 | tokens are non-empty and without white space |
| Checkers.FieldsOfJoined | internal/service/bundle_batch_pipeline.go:319-328 | splitting joined tokens gives them back |
| Checkers.BigEndianRoundTrip | internal/service/bundle_batch_pipeline.go:319-328 | the length prefix can be read back |
| Checkers.EntryPrefixFree | internal/service/bundle_batch_pipeline.go:319-328 | an entry can be read off the front of any frame in one way only |
| Checkers.FrameInjective | internal/service/bundle_batch_pipeline.go:319-328 | the length-prefixed framing is injective on token lists |
| Checkers.ConcatenationIsAmbiguous | internal/service/bundle_batch_pipeline.go:319-328 | plain concatenation of the bytes would not be |
| Checkers.TokenBytes | internal/service/bundle_batch_pipeline.go:319-328 | the loop feeds the hasher exactly the frame of the tokens |
| Checkers.DigestsDecideTokens | internal/service/bundle_batch_pipeline.go:415-420 | with a collision-free hash: equal digests if and only if equal token lists |
| Checkers.CheckDecidesOutputs | internal/service/bundle_batch_pipeline.go:415-420 | with a collision-free hash, the retained check decides for every checker what the outputs themselves would |
| Checkers.TokensMatch | internal/service/bundle_pipeline.go:153-167 | the comparison loop decides equality of the token lists |
| Checkers.NormalizeExactOutput | internal/service/bundle_pipeline.go:169-176 | the loop computes the normal form |
| Checkers.NormalizeIsNormal | internal/service/bundle_pipeline.go:169-176 | a normal form has no CR and no white space at either end of a line or of the text |
| Checkers.NormalFormIsKept | internal/service/bundle_pipeline.go:169-176 | a text in normal form is left alone |
| Checkers.NormalizeIsIdempotent | internal/service/bundle_pipeline.go:169-176 | normalizing twice is normalizing once, and the texts left alone are exactly the normal forms |
| Outputs.TokenMatch | internal/service/bundle_pipeline.go:153-166 | under the token checker outputs match if and only if they consist of the same tokens, separated by white space |
| Outputs.FieldsAreTheTokens | internal/service/bundle_pipeline.go:155 | the only tokens a text consists of are those the splitter returns |
| Outputs.ExactMatch | internal/service/bundle_pipeline.go:166-176 | under the exact checker outputs match if and only if their content lines agree: white space around lines, the kind of line break and blank lines at both ends do not count |
| Outputs.TrimTakesSpace | internal/service/bundle_pipeline.go:172-175 | trimming takes white space off both ends and nothing else |
| TaskRegistry.RunKeepsInv | internal/service/task_registry.go:40-162 | every interleaving of the locked sections keeps the invariant |
| TaskRegistry.OneProcessPerKey | internal/service/task_registry.go:81-105 | at most one active process per key; never more entries than the capacity |
| TaskRegistry.OneResultPerEntry | internal/service/task_registry.go:40-77 | execution succeeds at most once per entry and all its publications carry the same result |
| TaskRegistry.HolderKeepsEntry | internal/service/task_registry.go:107-135 | an active process still finds its own entry in the table: the pointer comparisons never fail |
| TaskRegistry.UnfinishedStays | internal/service/task_registry.go:137-162 | an unfinished entry is never pruned or evicted; only its own failed execution removes it |
| TaskRegistry.CompletedIsNotRerun | internal/service/task_registry.go:81-92 | a completed entry never gets another process, and a claim that finds it is done |
| TaskAnswers.RememberedAnswer | internal/service/task_registry.go:81-96 | a claim for a remembered task is told that it is done, or to wait, or takes it over: to publish its result if there is one, else to execute it |
| TaskAnswers.UnknownAnswer | internal/service/task_registry.go:97-105 | a claim for any other task executes it under a new entry, or the table is full |
| TaskAnswers.ExecutionAnswer | internal/service/task_registry.go:107-113 | a success is remembered in the process's own entry only |
| TaskAnswers.ExecutionFailureAnswer | internal/service/task_registry.go:115-123 | a failure forgets the process's own entry only |
| TaskAnswers.PublicationAnswer | internal/service/task_registry.go:125-135 | the end of a publication frees its entry, complete or not as it went, and dates it |
| TaskAnswers.RememberedForTtl | internal/service/task_registry.go:137-143 | a completed task stays completed for its whole time to live, in every run that does not evict it |
| TaskAnswers.DuplicateIsDone | internal/service/task_registry.go:81-105 | so a duplicate within that time is told that its work is done |
| TaskRegistry.Table.constructor | internal/service/task_registry.go:30-38 | the defaults for capacity and time to live |
| TaskRegistry.Table.PruneCompleted | internal/service/task_registry.go:137-143 | removes exactly the finished entries past their time |
| TaskRegistry.Table.EvictOldestCompleted | internal/service/task_registry.go:145-162 | under pressure it evicts a finished entry used longest ago, or none if none is finished, except exactly when the entry under the empty key is finished and was used before every other finished one |
| TaskRegistry.Table.ClaimEntry | internal/service/task_registry.go:81-105 | is the claim of the specification, with the scan's victim |
| TaskRegistry.Table.AdmitEntry | internal/service/task_registry.go:97-104 | makes room and inserts, or reports a full table |
| TaskRegistry.Table.RememberEntry | internal/service/task_registry.go:107-113 | stores the result in the entry of the process, and in no other |
| TaskRegistry.Table.FinishExecutionFailure | internal/service/task_registry.go:115-123 | removes the entry of the process, and no other |
| TaskRegistry.Table.FinishPublication | internal/service/task_registry.go:125-135 | ends the publication of the process's own entry |
| TaskKeys.EmptyKeyFillsTheTable | internal/service/task_registry.go:145-162 | the exception exists: with capacity 1, after a task under the empty key every other task is turned away although a finished entry could go |
| TaskKeys.NoEmptyKey | internal/service/judge_service.go:46-48 | without claims for the empty key there is never an entry under it, in any run, so eviction is always right |
| TaskKeys.DeduplicationKey | pkg/model/event.go:15-17 | the key of the only caller is never empty |
| TaskKeys.DeduplicationKeysDiffer | pkg/model/event.go:15-17 | different event, submission or attempt means a different key, whatever the event identifier contains |
| TokenBucket.Bucket.Eval | internal/external/redis_quota.go:131-153 | is the script of the specification, from nothing when the key is gone; its answer is always within the bounds the caller checks, and the key always lives for two periods |
| TokenBucket.AnyClockBound | internal/external/redis_quota.go:131-153 | whatever clock, limits and keys do from call to call, the cost admitted is at most the capacity at the first call plus what came back in between: each forward move up to a period, and the whole capacity where the key was gone |
| TokenBucket.TimelyBound | internal/external/redis_quota.go:131-153 | when keys go only after the expiry that was set and no period more than doubles from call to call, the forward moves alone bound the cost admitted |
| TokenBucket.WindowBound | internal/external/redis_quota.go:131-153 | with one limit, a nondecreasing clock and keys that go only after their expiry, at most the capacity plus the refill of the interval is admitted |
| TokenBucket.LimitChangeBound | internal/external/redis_quota.go:150 | the quota survives a change of limit, in every run over it, if and only if the new period is at most twice the old one |
| TokenBucket.LongerPeriodBreaksThePromise | internal/external/redis_quota.go:150 | for every other pair of limits: take everything, wait for the expiry, take everything again |
| TokenBucket.SlowerRefillAdmitsTwice | internal/external/redis_quota.go:150 | from 60 in a second to 60 in a minute: 120 are admitted within two seconds, where 62 are promised |
| TokenBucket.LostKeyBreaksTheBound | internal/external/redis_quota.go:136-150 | a key dropped while the clock was ahead is refilled at once; only the bound that counts the lost key holds, and it is reached |
| TokenBucket.BackwardClockBreaksTheBound | internal/external/redis_quota.go:136-149 | with a clock that steps back the interval bound fails and the bound over forward moves is reached |
| TokenBucket.RetryIsExact | internal/external/redis_quota.go:141-148 | a refused caller that returns alone is admitted if and only if it waited the stated time, which is between 1 and the period |
| TokenBucket.ExpiryIsUnobservable | internal/external/redis_quota.go:150 | across a change of limit the script answers the same with and without an expired key, for every written level and every later time, if and only if the new period is at most twice the old one |

## Left out

- JobRepository.Repository.ClaimNext: which job each transaction locks is an argument, so the order of selection and fairness between tenants are not stated.
- Outbox.OutboxRepository.ClaimNext: which due row each transaction locks, and the state of its destination, are arguments, so the order of delivery is not stated.
- SQL text, locking, isolation levels, deadlocks and their retries, migrations: each transaction is one atomic guarded step.
- Rounding of stored times to milliseconds, and the retry with a new identifier when a random event identifier collides.
- Encryption, HMAC, SHA-256 itself, API keys, authentication, audit rows and redaction.
- HTTP handlers, JSON and protobuf decoding, ZIP reading, request and payload byte limits: the models start from parsed manifests, events, policies and checker verdicts.
- Preflight checks of a submission and the admission quota call: they only refuse earlier.
- Tenant limits on retained bundles and marks for bundle deletion: no modelled code deletes a bundle row.
- The in-memory job object of `internal/external/job_state.go` (only its result validator is modelled), loading a claim's input, and the selection of the worker's outcome in `ExecuteClaim`.
- Sandbox selection and endpoint retries, the older one-case-at-a-time pipelines, the bundle disk cache, the transport cache, listing and pagination.
- HTTP-date parsing: whether and to which time a Retry-After value parses as a date is an argument of `ParseRetryAfter`.
- Scheduling of goroutines and timers: steps are chosen freely; a goroutine that panics inside the task registry is not modelled.
- TokenBucket.Bucket.Eval: works on exact reals, so the floating-point rounding and the decimal text of the stored tokens are not modelled.
- SourceRepository.Repository.SweepReservations: one sweep without concurrent writers; the concurrent protocol is in `Sources` and its invariant.
- BundleRepository.Collector.SweepOnce: one page without concurrent writers, so its reference reads agree; the concurrent collector is in `Bundles` and its invariant.
- Judging.Aggregate: the text of the diagnostic summary is bounded and not otherwise specified.
- Judging.Recompute: the same for its summary.
