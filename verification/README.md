# PipeForge control plane: a Dafny model

PipeForge runs data jobs through a control plane (Go) and workers (Python). The control plane keeps
jobs, attempts, leases, quotas, results, datasets and uploads in PostgreSQL, and talks to workers
through a message broker and to an object store. Each repository method is one transaction under row
locks, so it is modelled as one atomic step; a rollback changes nothing. Messages may arrive late,
twice, out of order or not at all.

`dafny verify dfyconfig.toml` checks the whole project.

## How the project is organised

**Job protocol.** `JobTables` holds the rows and tables. `JobSteps` gives every transaction of the job,
lease, result and dead-letter packages as a function on the tables, with exact counters and plain
inserts, and runs of arbitrary operations (`Op`, `Step`, `Run`). `JobInvariants` states what holds in
every reachable state and `JobPreservation` proves it step by step. `JobTime` proves what no later
operation undoes. `JobTheorems`, `JobBudget`, `JobGuarantees` and `WorkerHistory` draw the
consequences over whole runs. `JobEffects`, `JobEventEffects` and `JobSweepEffects` write out, row by row and for every
reachable state, when each operation commits, with which error it is refused and what it changes. `JobAcceptance`
says which worker events are accepted, `JobQueueLimit` when the queue limit holds, and `JobScenario` is a concrete
run for both. `ControlPlane` holds the repositories in their own imperative form,
statement by statement, with clamped counters, `ON CONFLICT` clauses and rows read before the loop that
uses them; each method is proved to do what its step says.

**Datasets and uploads.** `Datasets` (the catalog as values) and `DatasetRepository` (the transactions),
`UploadSessions` and `SessionRepository` (the guarded updates of a session), `UploadParts` (part
arithmetic and part checks), and `Multipart`: completers, reconcilers, aborters, sweepers and deletion
as tasks with program counters that interleave arbitrarily. `MultipartSafety`, `MultipartFencing`, `MultipartAborts`
and `MultipartProgress` prove its theorems; `MultipartOutcomes` says what each kind of task comes to when nobody
interferes, and `MultipartLeftovers` has two sessions that a sweep does not settle.

**The rest.** `RetryPolicy`, `WorkerRegistry`, `Outbox` and `OutboxRepository`, `FairScheduler`,
`CanonicalJson`, `TokenBucket`, `DistinctCounter` and `Outliers`.

Conventions: identifiers are numbers, zero being the nil UUID. Identifiers, tokens, clocks, random draws,
rows locked by others and the answers of the broker and the object store are parameters, so the theorems
hold whatever they are; a drawn identifier that is already in use violates a key and rolls back.
Floating-point quantities are real numbers.

## Findings

Properties the code does not have, each with an input that shows it and the exact condition under which
the property holds.

- A dead-letter replay never commits: it builds a `processing.job.requested` message with three of the
  eight fields its own validation demands. `ReplayNeverCommits` proves it for every state, and
  `ReplayBodyKeepsInv` proves that its table changes would have been sound.
- `queued_count` may exceed its limit of 100. The limit is checked on creation and operator retry, not on
  automatic retries. `LimitIsPassed` gives a run that ends with 101 under every valid configuration;
  `LimitIsPassedExactly` says that a step passes the limit if and only if it commits more automatic retries
  of the owner's jobs than there is room for; `QueueIsBounded` bounds the excess over every run by the
  automatic retries in it, so without any the limit holds.
- Result events are fenced by lease identity, not by lease expiry. `docs/adr/ADR-007-job-lease-model.md`
  (line 13) promises that results are accepted only for the current valid lease; the model follows the code.
  `ExpiredLeaseCompletesJob` gives an expired lease whose success is accepted; `AcceptedExactly` says for
  every kind of event when it is accepted, in terms of lease match and states; `DeadlinesDoNotMatter` says
  that deadlines have no influence; `AcceptedUntilFinished` says over runs that a result is accepted until a
  sweep, another result or a cancellation finishes the attempt. After that `StaleLeaseIsFenced` applies.
- A session that ends `ABORTED` may have an available version, or one still uploading: an abort marks the
  session whatever became of its attempt to fail the version. `AbortedMayBeAvailable` and
  `AbortedMayBeUploading` give runs from the start. `AbortedIsExact` says when: the version is available if and
  only if it was at the mark, and, unless the database did not answer the attempt to fail it, if and only if
  it was at that attempt; otherwise it has failed or is gone for good.
- An undisturbed sweep does not settle every session it claimed. `UndisturbedSweep` gives the outcome for every
  reachable state: a stored object as announced, of a live dataset, completes the session if and only if its version
  has neither failed nor gone; otherwise the session is only released, to be claimed again. Without an object
  the session expires if and only if its version is not available, which only a deleted dataset's can be; otherwise it
  stays claimed. `SweepMayOnlyRelease` and `SweepMayChangeNothing` give runs from the start to both exceptions.
- The modified z-score keeps its bound of half the sample exactly from a threshold of 0.6745 on; the
  configuration allows smaller ones, for which `SmallThresholdFlagsMore` gives an input.
- A distinct counter that started exact depends on more than the set of digests once it has passed its
  limit: adding a digest again while the sketch holds it shrinks the sketch by one. `RepetitionShows` gives
  an input at the smallest limit allowed, `SketchIsOneLarger` the exact condition, and `OnlyRepetitionMatters`
  says that nothing else matters.

## Assumptions of the upload model

An upload id assembles at most one object, whose content stays fixed until it is deleted. A version is
given up by its initiator only while no session refers to it. Version ids and operation tokens are never
drawn twice.

## Model

| member | source | states |
|---|---|---|
| `JobPreservation.StepKeepsInv` | go/internal/lease/repository.go:142-282 | every operation of every package keeps the joint invariant of all job tables |
| `JobPreservation.RunKeepsInv` | go/internal/result/repository_events.go:34-315 | the invariant holds after every run |
| `JobPreservation.ReplayNeverCommits` | go/internal/dlq/repository.go:154-161 | no replay ever commits, since its message lacks required fields |
| `JobPreservation.ReplayBodyKeepsInv` | go/internal/dlq/repository.go:119-144 | the table changes of a replay would keep the invariant if its message were accepted |
| `JobTheorems.AttemptsAgreeWithJob` | go/internal/lease/repository.go:197-282 | in every reachable state attempts are numbered 1..n without gaps, all but the last have failed or timed out, the last matches the job's state, n is at most the limit plus the dead-letter retries, and CREATED and FAILED_RETRYABLE never occur |
| `JobTheorems.SweptJobsAreDistinct` | go/internal/lease/repository.go:157-182 | no sweep batch contains a job twice |
| `JobTheorems.QuotasAreExact` | go/internal/job/repository_create.go:163-179 | for every owner and run, the counters equal the number of queued and of active jobs |
| `JobTheorems.HistoryIsAPath` | go/internal/job/models.go:162-214 | a job's history starts in the queue, is connected, takes only allowed transitions and ends in the current state |
| `JobTime.StepLater` | go/internal/job/models.go:162-214 | no operation undoes a final state: finished attempts are frozen, SUCCEEDED and CANCELLED are never left, CANCEL_REQUESTED leads only to CANCELLED, results, letters, inbox rows and keys never change, and progress never goes back |
| `JobTime.RunLater` | go/internal/result/repository_events.go:65-113 | the same over every run |
| `JobTheorems.FinalStatesStay` | go/internal/job/models.go:162-214 | over every run SUCCEEDED and CANCELLED are never left, CANCEL_REQUESTED leads only to CANCELLED, and histories only grow |
| `JobTheorems.FinishedAttemptsStay` | go/internal/result/repository_events.go:115-267 | an attempt leaves LEASED or RUNNING at most once: a finished one never changes again |
| `JobTheorems.StaleLeaseIsFenced` | go/internal/result/repository.go:125-133 | once an attempt timed out, failed or was cancelled, in every later state its lease cannot be renewed and no message naming it does more than stage an artifact of that attempt |
| `JobTheorems.RedeliveryIsInert` | go/internal/result/repository.go:48-56 | a message id that took effect changes nothing in any later state |
| `JobTheorems.ResultIsFinal` | go/internal/result/repository.go:144-165 | an attempt's result, once recorded, is its only one in every run |
| `JobTheorems.CanonicalMeansListed` | go/internal/result/repository_events.go:142-149 | in every reachable state an artifact is canonical exactly when its attempt succeeded and lists its key |
| `JobTheorems.PromotionIgnoresOrder` | go/internal/result/repository_events.go:283-315 | success then artifact and artifact then success lead to the same canonical artifacts and the same other tables |
| `JobBudget.WorkIsBounded` | go/internal/lease/repository.go:227-282 | a job's history has at most five entries per attempt it was allowed, each dead-letter retry allowing one attempt more |
| `JobBudget.MeasureDecreases` | go/internal/result/repository_events.go:175-233 | every step that changes a job's state lowers (attempts left, state rank), except an operator's revival of a dead letter |
| `JobBudget.StepPays` | go/internal/job/repository_commands.go:146-208 | whatever a job's history gains in a step, its measure loses |
| `JobBudget.IgnoredIsInert` | go/internal/result/repository_events.go:34-315 | an ignored event changes no table |
| `JobGuarantees.CommandsAgree` | go/internal/lease/repository_acquire.go:169-214 | all lease commands of a job over a run carry the same version, operations and source; attempts, numbers and leases correspond |
| `JobGuarantees.AvailableIsFrozen` | go/internal/dataset/repository_versions.go:134-155 | an available version keeps its whole row over every run |
| `JobGuarantees.NoUnforeseenErrors` | go/internal/lease/repository_acquire.go:70-72 | with a valid configuration no operation in a reachable state fails for a missing source size or retry delay |
| `JobGuarantees.CancelIsGranted` | go/internal/job/repository_commands.go:124-144 | a permitted cancellation commits exactly for queued, leased, running and already cancelled jobs, so the missing-lease branch is unreachable |
| `JobGuarantees.AcquireRespectsCapacity` | go/internal/lease/repository_acquire.go:77-96 | the attempt goes to an eligible, unlocked worker that afterwards holds no more than its maximum |
| `JobGuarantees.AcquiredLeaseLasts` | go/internal/lease/repository_acquire.go:84-96 | an acquired lease expires for the sweep exactly when the requested or configured time is over |
| `JobGuarantees.RenewedLeaseLasts` | go/internal/lease/repository.go:111-129 | so does a renewed one, whatever its previous deadline |
| `JobGuarantees.SweptRetryBacksOff` | go/internal/lease/repository.go:229-247 | after a sweep retried a job, no acquisition succeeds before the entry of the policy's list for that attempt is over |
| `JobGuarantees.FailedRetryBacksOff` | go/internal/result/repository_events.go:175-199 | nor after a retryable failure |
| `JobGuarantees.DefaultSweepBackOff` | go/internal/retry/policy.go:31-37 | under the default policy a job retried by a sweep as attempt 2, 3, 4, or 5 and later, is not leased for 10, 30, 120 or 600 seconds |
| `JobGuarantees.DefaultFailureBackOff` | go/internal/result/repository_events.go:175-199 | nor is one retried after a reported failure, whatever policy is configured |
| `JobGuarantees.NoEarlyLease` | go/internal/lease/repository_acquire.go:67-69 | as long as no acquisition comes at or after next_attempt_at, the job waits or is cancelled and no lease command is sent for it, over every run |
| `JobGuarantees.CreateIsIdempotent` | go/internal/job/repository_create.go:139-161 | after a keyed creation, in every later state the same request changes nothing and a different one is refused |
| `JobEffects.CreateOutcome` | go/internal/job/repository_create.go:19-179 | a creation commits exactly when valid, for a live dataset's available version of the owner, with fewer than 100 jobs of the owner in the queue and unused ids, or as a repetition; it adds one queued job, its first attempt, one history entry and one to the counter; each refusal has its error |
| `JobEffects.CancelOutcome` | go/internal/job/repository_commands.go:16-144 | a cancelled queued job is CANCELLED with its newest attempt, a result and one less in the queue; a held one is CANCEL_REQUESTED with one history entry while attempts and counters stay; one already cancelled does not change; each refusal has its error |
| `JobEffects.RetryOutcome` | go/internal/job/repository_commands.go:146-208 | an operator's retry is granted exactly for a failed job with attempts left or a dead-lettered one, with fewer than 100 jobs in the queue; the job is then queued with an attempt numbered one higher and counted |
| `JobEffects.RenewOutcome` | go/internal/lease/repository.go:79-134 | a renewal commits exactly for a valid request whose attempt is leased or running and has a deadline ahead; that deadline alone changes; past it the error is that the lease expired |
| `JobEffects.AcquireOutcome` | go/internal/lease/repository_acquire.go:39-214 | an acquisition commits exactly for a queued job that need not wait, with a free worker and an unused lease id; the newest attempt goes to the free worker that comes first, which is stamped, and one truthful command is sent |
| `JobEffects.CommandsTellTheTruth` | go/internal/lease/repository_acquire.go:169-214 | every command agrees field by field with its job, its attempt and its version's row: key, content type, format and size each from its own column |
| `JobSweepEffects.SweepOutcome` | go/internal/lease/repository.go:142-282 | a committed sweep settles every lease of its batch as its own rows call for, cancelled, queued again within the policy's delay, or dead-lettered, and changes no other job, attempt, result, letter or table |
| `JobSweepEffects.SweepCommitsExactly` | go/internal/lease/repository.go:142-195 | under a valid configuration a sweep commits exactly when its limit is within bounds and the ids it draws are unused and distinct |
| `JobEventEffects.DeliveryOutcome` | go/internal/result/repository_events.go:15-315 | what every kind of event does to the rows in every reachable state: a duplicate nothing, an event not accepted only an inbox row, an accepted one exactly the listed changes of job, attempt, counters, history, result, artifacts, letters or progress |
| `JobAcceptance.AcceptedExactly` | go/internal/result/repository_events.go:34-315 | every kind of event is ignored, changing nothing, if and only if its lease does not match or the states of job and attempt do not call for it |
| `JobAcceptance.DeadlinesDoNotMatter` | go/internal/result/repository.go:125-133 | changing only lease deadlines changes neither whether an event is accepted nor its status nor any row but the deadlines |
| `JobAcceptance.ExpiredLeaseCompletesJob` | go/internal/result/repository_events.go:115-151 | a reachable state in which a success under an expired, unswept lease is accepted and completes the job |
| `JobAcceptance.AcceptedUntilFinished` | go/internal/result/repository_events.go:115-151 | over every run in which no sweep claims the attempt, no result of its own arrives and its job is not cancelled, its success is accepted at any time |
| `JobQueueLimit.StepQueues` | go/internal/job/repository_create.go:163-179 | deliveries and sweeps raise an owner's counter by exactly their automatic retries, anything else leaves it within 100 or does not raise it |
| `JobQueueLimit.LimitIsPassedExactly` | go/internal/result/repository_events.go:200-200 | from a reachable state within the limit, a step passes 100 if and only if it commits more automatic retries of the owner's jobs than there is room for |
| `JobQueueLimit.QueueIsBounded` | go/internal/lease/repository.go:249-249 | over every run the counter exceeds 100 by at most the automatic retries; without any it never does |
| `JobQueueLimit.RetryPassesTheLimit` | go/internal/result/repository_events.go:175-209 | at exactly 100, an accepted retryable failure with attempts left commits 101 |
| `JobQueueLimit.LimitIsPassed` | go/internal/result/repository_events.go:200-200 | under every valid configuration there is a run that ends with 101 queued jobs of one owner |
| `WorkerHistory.ChosenWorkerIsAlive` | go/internal/workerregistry/repository.go:56-114 | over every run, the chosen worker's current incarnation sent a fresh READY or BUSY heartbeat, observed since it started, covering all required operations |
| `WorkerHistory.RotationIsFair` | go/internal/workerregistry/selector.go:15-63 | with growing assignment times no worker is chosen again while another is free and unassigned since |
| `WorkerRegistry.ChooseIsComplete` | go/internal/workerregistry/selector.go:24-62 | the choice fails only when every eligible worker is full, and otherwise names an eligible worker with room |
| `WorkerRegistry.ChoiceIsUnique` | go/internal/workerregistry/selector.go:26-40 | the order is total, so there is one right choice |
| `WorkerRegistry.Registry.SelectForLease` | go/internal/workerregistry/selector.go:15-63 | the loop terminates, returns that choice and stamps exactly the chosen worker |
| `WorkerRegistry.Registry.ApplyRegistration` | go/internal/workerregistry/repository.go:56-86 | a row changes only for a strictly later start; a new incarnation has no heartbeat and keeps the last assignment; no other row changes |
| `WorkerRegistry.Registry.ApplyHeartbeat` | go/internal/workerregistry/repository.go:88-114 | a row changes only for a heartbeat of its own instance, takes that heartbeat's contents, and its observation time never falls |
| `ControlPlane.ClampsNeverBite` | go/internal/job/repository_commands.go:210-218 | in a reachable state no counter update finds its row missing or at zero |
| `ControlPlane.UpdateIsTransfer` | go/internal/lease/repository_acquire.go:145-148 | so every clamped update is the exact transfer between the counters |
| `ControlPlane.HeldLeavesNothing` | go/internal/result/repository.go:144-165 | a held attempt has neither a result nor a dead letter, so neither insert collides |
| `ControlPlane.Repository.Create` | go/internal/job/repository_create.go:19-137 | the statements of a creation do what the step says, and what `CreateOutcome` writes out, with its errors, and keep the invariant |
| `ControlPlane.Repository.RequestCancel` | go/internal/job/repository_commands.go:16-144 | likewise for a cancellation, queued or held, which does what `CancelOutcome` writes out |
| `ControlPlane.Repository.RequestRetry` | go/internal/job/repository_commands.go:146-208 | likewise for an operator's retry and `RetryOutcome`, the counter being raised before the attempt limit is checked |
| `ControlPlane.Repository.Acquire` | go/internal/lease/repository_acquire.go:39-214 | likewise for an acquisition and `AcquireOutcome`; it calls the selection loop |
| `ControlPlane.Repository.Renew` | go/internal/lease/repository.go:79-134 | likewise for a renewal and `RenewOutcome`; its update by lease and worker hits one row |
| `ControlPlane.ExpireOne` | go/internal/lease/repository.go:197-282 | expiring one lease from columns read earlier does what the step does on the current tables, and counts its outcome |
| `ControlPlane.ExpireBatch` | go/internal/lease/repository.go:171-189 | the sweep's loop over rows read at the start equals expiring one lease after another on the tables as they then stand |
| `ControlPlane.Repository.SweepExpired` | go/internal/lease/repository.go:142-195 | a sweep commits that, or rolls back entirely, and reports it |
| `ControlPlane.ReportAddsUp` | go/internal/lease/repository.go:183-194 | every claimed lease is reported once, as cancelled, retried or dead-lettered |
| `ControlPlane.ApplyStarted` | go/internal/result/repository_events.go:34-63 | its separate updates of attempt and job equal the one step, the mixed case being unreachable |
| `ControlPlane.ApplyProgressed` | go/internal/result/repository_events.go:65-113 | within an attempt neither rows, percentage nor time of the stored snapshot ever fall; an applied event is the snapshot, an ignored one changes nothing, and no other job's snapshot changes |
| `ControlPlane.ApplySucceeded` | go/internal/result/repository_events.go:115-151 | success moves the job, records its result and promotes exactly the listed artifacts |
| `ControlPlane.ApplyFailed` | go/internal/result/repository_events.go:153-234 | a failure is retried, final or dead-lettered, as the step says |
| `ControlPlane.ApplyCancelled` | go/internal/result/repository_events.go:236-267 | only a requested cancellation of a held attempt is granted |
| `ControlPlane.ApplyArtifact` | go/internal/result/repository_events.go:283-315 | stored rows keep id and lease and can only become canonical, and only if listed; at most the named row is new; it fails only for an artifact id in use |
| `ControlPlane.Repository.Process` | go/internal/result/repository.go:38-84 | a delivery takes effect once, with its status in the inbox, or rolls back |
| `ControlPlane.Repository.Replay` | go/internal/dlq/repository.go:77-175 | a replay leaves the tables as they were, with the error of the first check that fails |
| `RetryPolicy.Validate` | go/internal/retry/policy.go:39-51 | accepts exactly policies within bounds whose delays are non-negative and never decrease |
| `RetryPolicy.DelayNeverErrs` | go/internal/retry/policy.go:67-87 | a retry within a job's limit always gets a delay |
| `RetryPolicy.DelayBounds` | go/internal/retry/policy.go:67-87 | a delay is given exactly for a valid policy and an attempt within its limit; it is at least what the policy's list says for that attempt, the last entry serving later ones, exceeds it by at most the jitter's share, and equals it without a draw |
| `RetryPolicy.EveryDelayOccurs` | go/internal/retry/policy.go:74-87 | conversely every delay within those bounds is given for some draw |
| `Datasets.TransactKeeps` | go/internal/dataset/repository_versions.go:97-275 | every catalog transaction keeps it consistent; available rows are frozen, deletion is final, and nothing of a deleted dataset becomes available |
| `DatasetRepository.Repository.ReserveVersion` | go/internal/dataset/repository_versions.go:15-65 | reserves an unused version id exactly for a live dataset, with its content type and format, and marks the dataset uploading |
| `DatasetRepository.Repository.FinalizeVersion` | go/internal/dataset/repository_versions.go:97-176 | makes a version available, with the measured size and checksum, exactly for a live dataset, for a session only with its current token, and for an uploading version or as a repetition |
| `DatasetRepository.Repository.AbortVersion` | go/internal/dataset/repository_versions.go:178-224 | succeeds exactly for a version of the dataset still uploading, removes that row and restores the dataset's state |
| `DatasetRepository.Repository.FailVersion` | go/internal/dataset/repository_versions.go:226-275 | succeeds exactly for a version uploading or failed, which has failed afterwards, and restores the dataset's state |
| `DatasetRepository.Repository.DeleteDataset` | go/internal/dataset/repository_datasets.go:97-130 | deletes once, and sends every session of the dataset still under way to cleanup, without its token and expired by now; no other session changes |
| `SessionRepository.Repository.BeginComplete` | go/internal/multipart/repository_sessions.go:58-105 | claims exactly the owner's open session that has not expired, or one whose grace period is over; an expired open one goes to cleanup |
| `SessionRepository.Repository.BeginAbort` | go/internal/multipart/repository_sessions.go:107-142 | succeeds exactly for the owner's session that is neither completed nor completing, and moves it to ABORTING if it was initiated or failed |
| `SessionRepository.Repository.BeginReconciliation` | go/internal/multipart/repository_sessions.go:144-172 | claims exactly a session being aborted |
| `SessionRepository.Repository.ResetCompletion` | go/internal/multipart/repository_sessions.go:174-183 | succeeds exactly for the current token, and otherwise changes nothing |
| `SessionRepository.Repository.MarkCompleted` | go/internal/multipart/repository_sessions.go:185-194 | completes exactly for the current token, and otherwise changes nothing |
| `SessionRepository.Repository.MarkAborted` | go/internal/multipart/repository_sessions.go:196-205 | succeeds exactly for an aborting or failed session, and otherwise changes nothing |
| `SessionRepository.Repository.MarkFailed` | go/internal/multipart/repository_sessions.go:207-216 | succeeds exactly for the current token, or for none on an aborting session, and otherwise changes nothing |
| `SessionRepository.Repository.ClaimExpired` | go/internal/multipart/repository_sessions.go:218-259 | the batch and nothing else is claimed, every claimed session loses its token, and the copies returned are the rows after the claim |
| `SessionRepository.Repository.MarkExpired` | go/internal/multipart/repository_sessions.go:261-270 | succeeds exactly for an aborting session, and otherwise changes nothing |
| `MultipartSafety.ActIsSafe` | go/internal/multipart/service_complete.go:20-174 | every step of every task keeps its session sound, undoes nothing and justifies its task's next step |
| `MultipartSafety.StepKeepsInv` | go/internal/multipart/service.go:268-354 | so does every action of the system |
| `MultipartSafety.RunKeepsInv` | go/internal/multipart/service_complete.go:20-174 | and every run |
| `MultipartSafety.AvailableHasItsObject` | go/internal/multipart/service_complete.go:81-174 | under every interleaving, an available version of a dataset that is not deleted has its object, of the recorded size and checksum |
| `MultipartSafety.CompletedIsAsAnnounced` | go/internal/multipart/service_complete.go:81-109 | a completed session's version is available with the announced size and, if given, checksum |
| `MultipartSafety.ExpiredIsGoneForGood` | go/internal/multipart/service.go:321-352 | an expired session's version failed or is gone, and stays so in every continuation |
| `MultipartSafety.NothingAppearsAfterDeletion` | go/internal/dataset/repository_versions.go:103-114 | nothing becomes available after its dataset was deleted |
| `MultipartFencing.OneHolder` | go/internal/multipart/repository_sessions.go:89-104 | at most one task holds a session's token at any time |
| `MultipartFencing.OnlyTheHolderSettles` | go/internal/multipart/repository_sessions.go:174-270 | a session under completion is changed only by the holder of its token, a takeover after the grace period, the cleanup's claim when expired and stale, or the deletion of its dataset; the unfenced marks pass it by |
| `MultipartFencing.StaleTokenIsFenced` | go/internal/multipart/repository_sessions.go:174-216 | a token a session lost never returns: its holder can neither change the session nor make the version available in any continuation |
| `MultipartFencing.TakeoverCutsOff` | go/internal/multipart/repository_sessions.go:73-104 | takeover, cleanup and deletion each take the token from the previous holder |
| `MultipartProgress.UndisturbedCompletionSucceeds` | go/internal/multipart/service_complete.go:20-109 | with a working store and no interference a completer ends with a completed session and an available version |
| `MultipartOutcomes.UndisturbedSweep` | go/internal/multipart/service.go:321-352 | in every reachable state an undisturbed sweep completes a session whose stored object is as announced, if dataset and version allow, fails one whose object is not and deletes that, and expires one without an object; the exceptions are exact |
| `MultipartOutcomes.UndisturbedCompletion` | go/internal/multipart/service_complete.go:20-109 | likewise a completer, even if the listing or the call that assembles the object fails: the object then found decides, and without one the session is released |
| `MultipartOutcomes.UndisturbedAbort` | go/internal/multipart/service.go:268-299 | an undisturbed abort ends with the session aborted, its upload discarded and a version still uploading failed |
| `MultipartOutcomes.FailureReleases` | go/internal/multipart/service_complete.go:160-165 | a call that fails later on makes the holder release the session and change nothing else |
| `MultipartOutcomes.SweepBeginsExactly` | go/internal/multipart/repository_sessions.go:218-259 | a sweep begins exactly on an expired session that is not being completed, or not since the grace period, and takes its token |
| `MultipartOutcomes.AbortBeginsExactly` | go/internal/multipart/repository_sessions.go:107-142 | an abort begins exactly on the owner's initiated, aborting or failed session |
| `MultipartOutcomes.CompletionBeginsExactly` | go/internal/multipart/repository_sessions.go:58-105 | a completion begins exactly on the owner's session that is open and not expired, or whose completer is stale |
| `MultipartLeftovers.SweepMayOnlyRelease` | go/internal/multipart/service_complete.go:145-150 | a run from the start to a sweep that only releases a session with the announced object of a live dataset, since an abort failed the version |
| `MultipartLeftovers.SweepMayChangeNothing` | go/internal/multipart/service.go:336-344 | a run from the start to a sweep that finds no object and an available version of a deleted dataset, and changes nothing |
| `MultipartAborts.AbortStepIsExact` | go/internal/dataset/repository_versions.go:246-251 | an abort's attempt to fail the version leaves it available if and only if it was; otherwise it has failed or was gone, unless the database did not answer |
| `MultipartAborts.AbortedIsExact` | go/internal/multipart/service.go:268-299 | every aborted session was marked by a task that had tried to fail its version; the version is available exactly if it was at the mark and, if the try was answered, exactly if it was at the try, and otherwise failed or gone for good |
| `MultipartAborts.AbortedMayBeAvailable` | go/internal/multipart/service.go:293-294 | a run from the start that ends with an aborted session whose version is available |
| `MultipartAborts.AbortedMayBeUploading` | go/internal/multipart/service.go:293-294 | and one whose version is still uploading |
| `UploadParts.PartsFit` | go/internal/multipart/service.go:57-103 | every accepted size gives between one and the maximum number of parts and a last part between one byte and a full part, within 64 bits |
| `UploadParts.NormalizeCompleteParts` | go/internal/multipart/service_complete.go:180-196 | succeeds exactly for parts 1 to n in order with usable tags |
| `UploadParts.VerifyRegisteredParts` | go/internal/multipart/service_complete.go:198-216 | succeeds exactly when the registered parts are the requested ones with the right sizes |
| `UploadParts.VerifyRemoteParts` | go/internal/multipart/service_complete.go:218-241 | succeeds exactly when the store lists as many parts, no number twice, and each requested one with its tag |
| `UploadParts.RegisteredSizesAddUp` | go/internal/multipart/service_complete.go:198-216 | registered sizes that pass add up to the announced size |
| `UploadParts.StoredPartsAreExactlyTheRequested` | go/internal/multipart/service_complete.go:218-236 | the store then holds the requested parts and no others |
| `UploadParts.AcceptedPartsHaveTheRightSize` | go/internal/multipart/service.go:435-456 | parts accepted on registration never fail the completion's size check |
| `Outbox.RetryDelay` | go/internal/outbox/publisher.go:96-111 | the loop yields base times two to the attempts before, capped at one hour; every value on the way is the base doubled so often and none exceeds the larger of base and hour; the result is within the hour exactly after the first attempt or for a base within it |
| `Outbox.MessagesAreConsistent` | go/internal/outbox/repository.go:55-146 | in every reachable state a token is set exactly in flight, pending means attempts left, poisoned means none, and published means a publish was confirmed |
| `Outbox.SettledIsFinal` | go/internal/outbox/repository.go:114-146 | published and poisoned messages never change and no row is lost |
| `Outbox.StaleDeliveryIsFenced` | go/internal/outbox/repository.go:114-146 | a delivery whose token was replaced cannot settle its message in any later state |
| `OutboxRepository.Store.Claim` | go/internal/outbox/repository.go:55-112 | exactly the batch is leased, each with its own token and one more attempt |
| `OutboxRepository.Store.MarkPublished` | go/internal/outbox/repository.go:114-127 | takes effect, and says so, exactly for the current token |
| `OutboxRepository.Store.MarkRetry` | go/internal/outbox/repository.go:129-146 | likewise, poisoning a message whose attempts are used up |
| `OutboxRepository.Store.Dispatch` | go/internal/outbox/publisher.go:57-94 | an undisturbed dispatch settles every message of its batch by its publish, touches no other, and its counters add up |
| `OutboxRepository.DispatchedIsOk` | go/internal/outbox/publisher.go:66-92 | a dispatched message is published exactly if confirmed and poisoned exactly when its attempts are used up |
| `OutboxRepository.ClaimedAgainExactly` | go/internal/outbox/repository.go:64-80 | a leased message can be claimed again exactly once its lease is over, one to be retried exactly once its doubled delay is, and a published or poisoned one never |
| `FairScheduler.FairSelect` | go/internal/scheduler/scheduler.go:50-98 | selects as many candidates as limit and supply allow, no owner more than one ahead of one that could still be served; by priority, then age, then id, the first is the best of all, each owner's picks are in order and none worse than what is left, and nobody served before an owner's first turn is worse than that owner's best |
| `FairScheduler.SelectionIsDistinct` | go/internal/scheduler/scheduler.go:70-87 | distinct candidates are selected at most once each |
| `FairScheduler.SortOrders` | go/internal/scheduler/scheduler.go:62-69 | the sort orders its input and keeps its elements |
| `CanonicalJson.CanonicalValue` | go/internal/job/validation.go:147-193 | whatever order the map yields its keys in, the writer produces the one canonical text |
| `CanonicalJson.PrintIsSelfDelimiting` | go/internal/job/validation.go:147-193 | a printed value ends where its own bytes say |
| `CanonicalJson.PrintIsInjective` | go/internal/job/validation.go:129-193 | two decoded values print the same exactly when they are equal, objects being unordered |
| `CanonicalJson.EqualFingerprintInputs` | go/internal/job/validation.go:106-127 | two requests are fingerprinted from the same bytes exactly when version, operations, priority and limit agree |
| `TokenBucket.Limiter.Allow` | go/internal/httpapi/auth-rate-limit.go:71-97 | a request changes its own client's bucket only; a newcomer starts full and costs exactly the expired clients and, if the map is full without them, one least recently seen client their place; the map never exceeds its limit |
| `TokenBucket.Limiter.RemoveExpired` | go/internal/httpapi/auth-rate-limit.go:99-105 | removes exactly the clients not seen for the entry lifetime |
| `TokenBucket.Limiter.RemoveOldest` | go/internal/httpapi/auth-rate-limit.go:107-119 | removes one client that nobody was seen before |
| `TokenBucket.ClientAddress` | go/internal/httpapi/auth-rate-limit.go:121-130 | the key is never empty, which the search for the oldest client relies on |
| `TokenBucket.AdmissionsAreBounded` | go/internal/httpapi/auth-rate-limit.go:71-97 | while a client stays in the map, the requests admitted are at most its tokens plus rate times elapsed time, over every run of all clients |
| `TokenBucket.AdmissionsAcrossEvictions` | go/internal/httpapi/auth-rate-limit.go:71-119 | with a clock that does not go back, the requests admitted are at most one burst per stay in the map plus rate times elapsed time |
| `TokenBucket.WaitIsEnough` | go/internal/httpapi/auth-rate-limit.go:96-96 | after the wait the bucket holds a token |
| `TokenBucket.RejectedClientGetsIn` | go/internal/httpapi/auth-rate-limit.go:59-119 | a rejected client that keeps quiet for its wait is then admitted, even if evicted meanwhile |
| `TokenBucket.RetryAfterIsLongEnough` | go/internal/httpapi/auth-rate-limit.go:63-63 | the header is never shorter than the wait |
| `DistinctCounter.DistinctCounter.AddDigest` | python/src/pipeforge_worker/profilers/bounded.py:44-55 | the digest joins the set seen; the flag is set exactly past the limit, or from the start; before, the counter holds that set, and after, its smallest elements |
| `DistinctCounter.DistinctCounter.CountDigests` | python/src/pipeforge_worker/profilers/bounded.py:57-69 | the count is the number of digests seen while exact or below the limit, and never less than the smaller of that and the limit |
| `DistinctCounter.ExactUntilTheLimit` | python/src/pipeforge_worker/profilers/bounded.py:44-69 | the count is exact and the flag unset exactly until the distinct digests exceed the limit; then the sketch is the smallest digests seen, limit or limit plus one of them |
| `DistinctCounter.OrderDoesNotMatter` | python/src/pipeforge_worker/profilers/bounded.py:52-69 | a counter approximate from the start depends on the set of digests only |
| `DistinctCounter.SketchIsOneLarger` | python/src/pipeforge_worker/profilers/bounded.py:47-55 | past the limit, a counter that started exact keeps one digest more than its limit if and only if none was added again while the sketch held it |
| `DistinctCounter.OnlyRepetitionMatters` | python/src/pipeforge_worker/profilers/bounded.py:44-69 | so its state depends on the set of digests and on that one bit only |
| `DistinctCounter.RepetitionShows` | python/src/pipeforge_worker/profilers/bounded.py:57-69 | at a limit of 128, two sequences of the same 129 digests with different counts |
| `DistinctCounter.CountIsAtLeast` | python/src/pipeforge_worker/profilers/bounded.py:57-69 | the count is never below the distinct digests seen, up to the limit |
| `Outliers.QuantileBetweenRanks` | python/src/pipeforge_worker/anomaly/detectors.py:63-71 | a quantile lies between the two ranks its position falls between |
| `Outliers.QuartileIsExact` | python/src/pipeforge_worker/anomaly/detectors.py:63-71 | quartiles and median in whole ranks of the sorted values, interpolated in quarters |
| `Outliers.DetectFlagsByValue` | python/src/pipeforge_worker/anomaly/detectors.py:18-60 | a detection lists exactly the indices whose value its method flags |
| `Outliers.DetectedExactly` | python/src/pipeforge_worker/anomaly/detectors.py:18-60 | a detection lists in order exactly the values outside the written-out fences, farther from the mean than threshold deviations, or farther from the median than the scaled deviation allows; it is refused exactly for too few values or none that differ |
| `Outliers.IqrFlagsFew` | python/src/pipeforge_worker/anomaly/detectors.py:25-35 | the interquartile method flags at most twice a quarter of the other values, rounded up |
| `Outliers.ZScoreFlagsFew` | python/src/pipeforge_worker/anomaly/detectors.py:36-48 | when the z-score flags any of n values it flags fewer than n over the threshold squared |
| `Outliers.ZScoreIgnoresSmallSamples` | python/src/pipeforge_worker/anomaly/detectors.py:36-48 | with at most threshold squared other values it flags none |
| `Outliers.ModifiedZScoreFlagsHalf` | python/src/pipeforge_worker/anomaly/detectors.py:49-60 | from a threshold of 0.6745 on, at most half the values are flagged |
| `Outliers.SmallThresholdFlagsMore` | python/src/pipeforge_worker/anomaly/detectors.py:49-60 | for every smaller threshold there is a sample of which more than half is flagged |

## Left out

- Handlers, routing, authentication, metrics, health checks, the command line, the web interface and the migrations: plumbing around the protocol.
- The broker, the object store and PostgreSQL themselves: messages arrive in any order and number, the store is a map, transactions are atomic. A commit whose outcome the client never learns is modelled only as a step that did or did not happen.
- Text and timestamps that no guard reads: reasons, error messages, truncation, `updated_at` of jobs, the trimmed progress history, audit events.
- Outbox rows written by the job transactions other than lease commands, and the dispatch of lease commands through the outbox: the two are modelled separately.
- Operation configurations in job requests: only the operation types are modelled, as the guards read them.
- Direct uploads, which put an object and finalise a version without a session: `Datasets` has their catalog steps, `Multipart` has not.
- The idempotent lookup of an upload's initiation and its authorisation checks: they would only add easy members.
- Readers, profilers other than the distinct counter, quality rules, reservoir sampling and frequency tables of the worker.
- ControlPlane.Repository.Create: does not model two creations with the same key racing between lookup and insert, since a transaction is one step; the unique key makes the loser roll back and read the winner's job.
- ControlPlane.Repository.SweepExpired: takes the rows its query returned as a parameter, any expired leases up to the limit, and does not model their order by expiry.
- SessionRepository.Repository.ClaimExpired: takes the rows its query returned as a parameter, and does not model their order.
- OutboxRepository.Store.Dispatch: states what happens without interference; interference between dispatchers is covered by the state machine in `Outbox`.
- MultipartSafety.StepKeepsInv: the sweeper's batch is modelled as one task per claimed session, which allows more interleavings than the loop does.
- CanonicalJson.CanonicalValue: characters are code points, and text is assumed to be valid Unicode, as decoded text is.
- Outliers.DetectFlagsByValue: numbers are real, so the rejection of infinite and undefined input is not modelled; the square root is a parameter constrained to be the root of the variance.
- TokenBucket.Limiter.Allow: tokens and rates are real numbers, without rounding.
