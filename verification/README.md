# Durable processing, verified

A Dafny model of the durable processing protocol of a data-preparation service: leased
background jobs, a transactional outbox, storage reservations with a collector, versioned
dataset heads with undo, receipts and retention. Every committed transaction, every
file-system action and every environment event is one step of `Protocol`; workers,
dispatchers, users and maintenance interleave freely, crash at any point, repeat calls and
act on stale tokens. The theorems are about every store such runs can reach.

Beside it stand five smaller parts with their own theorems: the chart cache, the paged
Parquet preview, the CSV reader of the browser, the two implementations of column dropping
and renaming, and the browser's undo coordinator composed with the server.

## Assumptions

- The database clock never goes backwards (`Tick` adds a non-negative amount).
- Attempt tokens, claim tokens, file names and row identifiers are never reused; they come
  from one counter. A task id may be reused once its job has been purged, except for an
  upload whose own request is still running.
- A committed transaction is one step: row locks and compare-and-set updates are guards of
  that step. A rolled-back transaction is no step.
- Between a commit and the file removals it decided, anything may happen: a path that some
  process has decided to unlink is `doomed`, and may be unlinked at any later time, any
  number of times.
- Dimensions, digests and profiles are functions of file content.

## Layout

- `prelude`, `job_service`, `task_protocol`: shared datatypes, the job row, and one task (job row
  plus publication intent) with its own theorems on fencing, lost wake-ups and termination.
- `tables`, `artifact_service`, `protocol`: the store and its steps.
- `invariants`: what every reachable store satisfies. `storage_proof`, `jobs_proof`,
  `records_proof`, `moves_proof`, `admission_proof`, `intake_proof`, `upkeep_proof`, `profile_proof`,
  `history_proof`, `publication_proof`: each kind of step keeps it. `forward_only`,
  `forward_proof`: what never goes back. `safety` puts them together.
- `projection_proof`, `task_theorems`, `lease_theorems`: the protocol refines the single-task machine,
  and the single-task theorems for whole runs. `storage_theorems`, `retention_theorems`, `history_theorems`,
  `receipt_theorems`: the others.
- `row_facts`, `outcomes`: what each transaction is for, told from the columns of the tables and
  not from the guards of the steps.
- `maintenance`, `services`: the services as methods that update tables in place, each
  proved to be a step or a sequence of steps of `Protocol`, and proved against the tables;
  `collection` and `delivery` say what a pass of the collector and of the dispatcher must do.
- `chart_cache`, `parquet_preview`, `csv_text`, `projection`, `undo_coordinator`: the smaller parts.

## Where the code does not meet the obvious claim

An imported dataset can lose its only file: if the upload request is told that its commit
failed although it succeeded, its error path unlinks the staged file, even after a worker
has imported it (`backend/app/api/v1/routes/datasets.py` lines 255-259).
`StorageTheorems.AnImportedHeadCanBeLost` gives such a run, and
`StorageTheorems.StagedHeadSurvivesIff` the exact condition: while the head is still the
staged file, it survives every run if and only if its upload request has ended without
that error. Heads written by transformations are never lost
(`StorageTheorems.OnlyAbortedUploadsLoseHeads`).

An unexpired lease can be taken from its worker by the same error path: it calls `fail` with no
attempt token (`backend/app/api/v1/routes/datasets.py` lines 132-138), which matches a job that a
worker has already leased. `LeaseTheorems.AnUnexpiredLeaseCanBeLost` gives such a run. That is the
only way (`LeaseTheorems.UnfencedFailuresComeFromUploads`), and `LeaseTheorems.LeaseSurvivesEveryRunIff`
is the exact condition: until its deadline a lease survives every run in which its holder is silent,
if and only if its job is not an import whose upload request is still running.

The comments on the collector call DELETING irreversible; in the code DELETED rows return to DELETING when
they are checked again. What holds, and is proved, is that neither ever becomes RESERVED or LIVE.

## Model

| member | source | states |
|---|---|---|
| JobService.StartIsAnswered | backend/app/services/job_service.py:253-319 | what `start` answers, from the row's columns: acquired, spent, leased, stopping, finished, or another attempt's |
| JobService.UnavailableDelayCoversLease | backend/app/services/job_service.py:282-319 | a worker is told to come back exactly when another attempt's lease is live, and the delay is a full lease or ends after the blocking deadline |
| TaskProtocol.ActKeepsSound | backend/app/services/job_service.py:188-587 | every guarded update keeps the row invariant: budget, lease and token fields fit the status, CANCELLED intents only on finished jobs, PUBLISHED has a time |
| TaskProtocol.StaleTokenIsPowerless | backend/app/services/job_service.py:189-470 | over any run that does not acquire it again, a token that is not the row's own changes nothing |
| TaskProtocol.AcquisitionLeases | backend/app/services/job_service.py:238-281 | an acquired attempt is counted and holds the job for the seconds it asked for, at least one |
| TaskProtocol.RenewalExtends | backend/app/services/job_service.py:189-219 | a renewal moves the deadline to the seconds asked for from now, at least one, and counts no attempt |
| TaskProtocol.LeaseIsTakenIff | backend/app/services/job_service.py:433-470 | before its deadline exactly one act takes a lease from a silent holder: a failure with no attempt token, of a job not being cancelled |
| TaskProtocol.UnexpiredLeaseIsKept | backend/app/services/job_service.py:253-272 | over a run with no unfenced failure, a lease survives until its deadline every call but its holder's, and no attempt is counted |
| TaskProtocol.TerminalIsAbsorbing | backend/app/services/job_service.py:23-25 | no run changes a finished job row |
| TaskProtocol.StaleClaimIsPowerless | backend/app/services/outbox_service.py:175-196 | an acknowledgement under a claim that is not the row's own never takes effect, over any run |
| TaskProtocol.OldGenerationIsPowerless | backend/app/services/outbox_service.py:31-48 | after a rearm no acknowledgement of an earlier generation takes effect, over any run |
| TaskProtocol.PublicationNeedsAClaim | backend/app/services/outbox_service.py:31-76 | a waiting publication becomes PUBLISHED only if a claim is taken from then on |
| TaskProtocol.WithdrawalIsFinal | backend/app/services/outbox_service.py:50-65 | a cancelled publication and its job never change again |
| TaskProtocol.ActChangesMeasure | backend/app/services/outbox_service.py:222-304 | each transition lowers a measure on remaining attempts, phase and publication; only a lost publication raises it, by at most two |
| TaskProtocol.TransitionsAreBounded | backend/app/services/outbox_service.py:272-303 | in every run transitions are bounded by the measure plus two per lost publication |
| TaskProtocol.JobMovesAreBounded | backend/app/services/job_service.py:253-289 | losses or not, a job makes boundedly many moves, and its counter is exactly the leases acquired, never above its budget |
| TaskProtocol.MaintenanceIsEnabled | backend/app/tasks/maintenance_tasks.py:66-86 | from a deadline computed from the row on, the next maintenance call fires and changes an unfinished task |
| TaskProtocol.MaintenanceWaitsForLease | backend/app/services/outbox_service.py:254-262 | recovery touches a leased job if and only if its deadline has passed |
| TaskProtocol.RestIsTerminal | backend/app/services/outbox_service.py:222-304 | a published task can rest forever if and only if its job is finished and its publication delivered or withdrawn |
| TaskRefinement.StepMovesRows | backend/app/services/job_service.py:189-587 | every step of the protocol moves job rows and intents only by acts of the single-task machine |
| TaskTheorems.RunProjects | backend/app/services/job_service.py:189-587 | over any run, a retained task's row is moved by its own acts alone, with clocked times and fresh tokens |
| TaskTheorems.ForeignTokenChangesNothing | backend/app/services/job_service.py:337-345 | a call with a token that is not the job's changes no table at all |
| TaskTheorems.StaleWorkersAreFenced | backend/app/services/job_service.py:189-470 | once a task is not held by an earlier token, no later call with it changes the store, also after the row is purged or its task id reused |
| LeaseTheorems.UnfencedFailuresComeFromUploads | backend/app/api/v1/routes/datasets.py:132-138 | a step fails a job with no token if and only if it is the error path of the upload request that reserved it |
| LeaseTheorems.StepTakesLeaseIff | backend/app/services/job_service.py:189-470 | one step takes an unexpired lease from a silent holder if and only if it is that error path |
| LeaseTheorems.UnexpiredLeaseIsExclusive | backend/app/services/job_service.py:253-272 | in every run of the whole protocol a lease is lost before its deadline only if its holder spoke or that error path ran; otherwise holder, deadline and attempt count stay |
| LeaseTheorems.HeartbeatsKeepTheJob | backend/app/services/job_service.py:189-219 | in every run a worker that renews before each deadline keeps its job, uncounted and unrecovered, unless it ends the attempt, is asked to stop, or its own upload is told it failed |
| LeaseTheorems.LeaseSurvivesEveryRunIff | backend/app/api/v1/routes/datasets.py:192-259 | the exact condition: the job is not an import whose upload request is still running |
| LeaseTheorems.AnUnexpiredLeaseCanBeLost | backend/app/api/v1/routes/datasets.py:132-138 | a concrete run that fails a job in the middle of its worker's lease |
| TaskTheorems.StaleAcknowledgementsAreFenced | backend/app/services/outbox_service.py:150-196 | a superseded dispatcher changes nothing in any later store, also after the row is purged |
| TaskTheorems.WaitingPublicationNeedsAFreshClaim | backend/app/services/outbox_service.py:114-196 | what is waiting now and published later was claimed in between, under a new claim |
| TaskTheorems.JobsComeToRest | backend/app/services/job_service.py:253-319 | in every run of the protocol a job makes boundedly many moves within its budget, and is final once finished |
| TaskTheorems.TransitionsUseUpTheMeasure | backend/app/services/outbox_service.py:272-303 | the measure argument for whole runs of the protocol |
| TaskTheorems.NoJobIsStuck | backend/app/tasks/maintenance_tasks.py:66-86 | from its deadline on, an enqueued unfinished job is moved by the scheduler's next call |
| TaskTheorems.FinishedJobsAreRetained | backend/app/tasks/retention_tasks.py:12-47 | in every run a finished job stays, unchanged, until its retention is over |
| TaskTheorems.RunsNeverDisagree | backend/app/tasks/dataset_tasks.py:725-909 | after every commit a retained transformation job and its record stand at the same outcome |
| TaskTheorems.EvaluationsNeverDisagree | backend/app/tasks/quality_tasks.py:62-107 | the same for quality evaluations, with evidence on success |
| TaskTheorems.CapacityIsRespected | backend/app/services/job_service.py:105-138 | no account ever has more unfinished jobs, of every kind, than its limit |
| TaskTheorems.ProfileDescribesHead | backend/app/tasks/dataset_tasks.py:429-491 | a stored profile and the stored dimensions always describe the current head's bytes |
| Safety.StepKeepsInv | backend/app/services/artifact_service.py:43-49 | every step keeps the inductive invariant and only goes forward |
| Safety.RunKeepsInv | backend/app/services/artifact_service.py:43-49 | so does every run |
| Safety.ReachableSatisfiesInv | backend/app/services/artifact_service.py:43-49 | every store reached from an empty one satisfies the invariant |
| StorageTheorems.HeadSurvivesEveryRun | backend/app/services/artifact_service.py:203-369 | no interleaving unlinks the head, or any available version, of an imported dataset whose upload was acknowledged |
| StorageTheorems.OnlyAbortedUploadsLoseHeads | backend/app/api/v1/routes/datasets.py:255-259 | an imported head's bytes are intact unless it is the staged file of an aborted upload |
| StorageTheorems.StagedHeadSurvivesIff | backend/app/api/v1/routes/datasets.py:208-259 | the exact condition for a head that is still the staged file |
| StorageTheorems.AnImportedHeadCanBeLost | backend/app/api/v1/routes/datasets.py:255-259 | a concrete run after which a ready dataset's only file is gone |
| StorageTheorems.UnwantedStaysUnwanted | backend/app/services/artifact_service.py:203-244 | a path that nothing references and no reservation protects is never referenced again |
| StorageTheorems.CondemnationIsFinal | backend/app/services/artifact_service.py:320-360 | DELETING and DELETED never become RESERVED or LIVE, and never publish |
| StorageTheorems.PublishedPathsWereNeverUnlinked | backend/app/services/artifact_service.py:102-141 | if a reservation is published, no unlink of its final, temporary or spill path was ever possible before |
| StorageTheorems.LiveAttemptsAreSpared | backend/app/services/artifact_service.py:297-306 | the output of an attempt with a live lease is never condemned |
| StorageTheorems.OneLiveArtifactPerTask | backend/app/services/artifact_service.py:102-141 | a task has at most one LIVE artifact, with the token of its SUCCESS row |
| RetentionTheorems.ExpiryKeepsNewer | backend/app/services/snapshot_service.py:147-148 | expiring a manifest outside the newest ones does not change which are the newest |
| RetentionTheorems.ExpiryIsSelective | backend/app/services/snapshot_service.py:143-157 | a successful expiry takes out exactly one manifest: not pinned, recent, a head, or of a busy dataset |
| RetentionTheorems.StepExpiresIff | backend/app/services/snapshot_service.py:143-157 | of all steps, only a manifest's own expiry, when every check under the locks allows it, takes the manifest out of use |
| RetentionTheorems.RetentionIsSafe | backend/app/services/snapshot_service.py:121-164 | in every run, with any steps between the candidates of any passes, a manifest that is recent, pinned, a head or of a busy dataset each time it is considered stays available and unchanged |
| RetentionTheorems.YoungStaysAvailable | backend/app/services/snapshot_service.py:129-139 | in every run a usable manifest stays usable until the retention period since its creation is over, and for good when retention is off |
| RetentionTheorems.ExpiryIsExact | backend/app/services/snapshot_service.py:129-152 | a manifest may expire exactly when it is older than the period, unpinned, no head, of an idle dataset, and `keepLast` newer ones are usable |
| RetentionTheorems.PassExpiresExactly | backend/app/services/snapshot_service.py:121-164 | a pass by itself expires exactly such candidates, and requests the deletion of their files |
| RetentionTheorems.NewManifestsAreDated | backend/app/models/dataset_snapshot.py:38-51 | whatever step records a manifest dates it with the present clock, usable and unpinned |
| RetentionTheorems.DatesStay | backend/app/models/dataset_snapshot.py:38-51 | no run changes that date |
| RetentionTheorems.EnoughVersionsStay | backend/app/services/snapshot_service.py:121-164 | in every run a dataset with `keepLast` usable versions never has fewer |
| RetentionTheorems.RetentionPassIsSafe | backend/app/services/snapshot_service.py:121-164 | a pass by itself, over any stale candidates, leaves what was protected when it began exactly as it was |
| RetentionTheorems.ExpiryIsPermanent | backend/app/models/dataset_snapshot.py:43-51 | EXPIRED is permanent, the manifest's identity is kept, and it is never a head again |
| HistoryTheorems.LogIsFaithful | backend/app/services/dataset_audit_service.py:56-141 | replaying the log over the imported path, gaplessly from version 1, gives exactly the current version and stored path |
| HistoryTheorems.LogOnlyGrows | backend/app/models/dataset_event.py:37-54 | the log is append-only and the version counts it, so no version is published twice |
| HistoryTheorems.CompletedFormOneChain | backend/app/services/dataset_service.py:1040-1050 | completed transformations form one chain from the staged file to the head, exactly the stack the log leaves |
| HistoryTheorems.PublishPushes | backend/app/services/dataset_service.py:915-957 | publication pushes its transformation and moves the head to its output |
| HistoryTheorems.UndoPops | backend/app/services/dataset_service.py:1037-1080 | a successful undo pops exactly the newest transformation not yet undone |
| HistoryTheorems.EqualStacksEqualHeads | backend/app/services/dataset_service.py:1067-1074 | equal stacks mean equal path, row count and column count, whatever happened between |
| HistoryTheorems.UndoRestores | backend/app/services/dataset_service.py:937-1074 | k publications then k undos restore path and dimensions while the version grows by 2k |
| HistoryTheorems.UndoTakesEffectOnce | backend/app/services/dataset_service.py:984-1083 | after an undo under a key, every later request with it finds the same receipt and changes nothing |
| HistoryTheorems.ReceiptsAreUnique | backend/app/models/dataset_event.py:43-46 | a log holds at most one undo for each actor and key |
| ReceiptTheorems.EventsDescribe | backend/app/services/dataset_audit_service.py:56-141 | in every reachable store each event and its stored receipt name the request, actor, revision, files and dimensions of what happened, under an identifier of their own |
| ReceiptTheorems.StepKeepsDescribed | backend/app/services/dataset_audit_service.py:56-141 | every step keeps that |
| ReceiptTheorems.FreshReceiptIsTheDataset | backend/app/services/dataset_audit_service.py:113-141 | a fresh undo answers with the version, path and dimensions of the dataset it leaves |
| ReceiptTheorems.ReplayedReceiptIsTheRevision | backend/app/services/dataset_audit_service.py:26-39 | a replay answers with the one undo of that revision, whatever happened since |
| HistoryProof.UndoCandidateIsTop | backend/app/services/dataset_service.py:1040-1050 | what undo selects under the locks is the top of the dataset's stack |
| PublicationProof.PublishKeepsInv | backend/app/services/dataset_service.py:915-964 | publication keeps the whole invariant |
| UndoProof.UndoKeepsInv | backend/app/services/dataset_service.py:967-1083 | undo keeps the whole invariant |
| UpkeepProof.ExpiryKeepsInputs | backend/app/services/snapshot_service.py:149-152 | the input of a pending transformation never expires |
| UpkeepProof.SweepTransformationFindsNothing | backend/app/tasks/maintenance_tasks.py:164-182 | in a reachable store a pending transformation always has its unfinished job, so the orphan sweep closes none |
| MovesProof.RecoverMoves | backend/app/tasks/dataset_tasks.py:95-189 | resolving an ambiguous final commit moves job and record together, or changes nothing |
| MovesProof.ReconcileMoves | backend/app/tasks/maintenance_tasks.py:27-75 | recovery moves a job and its record together, or changes nothing |
| MovesProof.CancelWaitingMoves | backend/app/api/v1/routes/datasets.py:427-461 | cancelling waiting work moves job, intent and record together |
| MovesProof.RequestStopMoves | backend/app/api/v1/routes/datasets.py:462-476 | asking for cancellation moves the row alone, also of a job requeued since the route's first transaction |
| MovesProof.FailReservationMoves | backend/app/api/v1/routes/datasets.py:132-138 | a reservation that fails before staging moves its row alone |
| IntakeProof.CompleteImportKeepsInv | backend/app/tasks/dataset_tasks.py:246-280 | import completion keeps the invariant: dimensions are the staged file's |
| ProfileProof.PublishProfileKeepsInv | backend/app/tasks/dataset_tasks.py:429-491 | storing a profile computed with no lock held keeps the invariant |
| Outcomes.ImportIsReserved | backend/app/services/job_service.py:143-166 | an import is reserved exactly when its id is new and the account has room; the new row waits, unheld, with its budget |
| Outcomes.ReservationFails | backend/app/api/v1/routes/datasets.py:132-138 | a failure before staging ends an active reservation, and nothing else |
| Outcomes.UploadIsStaged | backend/app/api/v1/routes/datasets.py:207-222 | staging attaches the file to a waiting reservation: first version, manifest, empty log, and a publication that is due |
| Outcomes.UploadIsAborted | backend/app/api/v1/routes/datasets.py:255-259 | a request told its commit failed ends its own active job and dooms the staged file |
| Outcomes.JobIsAdmitted | backend/app/api/v1/routes/datasets.py:304-365 | when a profile, preview, evaluation or report is admitted, and that its job waits, with three attempts for a preview and four otherwise, and its publication is due |
| Outcomes.TransformationIsAdmitted | backend/app/api/v1/routes/datasets.py:538-595 | when a transformation is admitted, and the record, job, publication and dataset status it leaves |
| Outcomes.AttemptStarts | backend/app/services/job_service.py:238-281 | an attempt starts exactly on a waiting or abandoned job with budget left, under a token nobody held |
| Outcomes.AttemptIsRenewed | backend/app/tasks/dataset_tasks.py:233-254 | a heartbeat, and beginning an import, hold the lease and report progress |
| Outcomes.ImportCompletes | backend/app/tasks/dataset_tasks.py:255-275 | an import ends with its dataset READY at the size of the staged file |
| Outcomes.WorkCompletes | backend/app/tasks/quality_tasks.py:62-107 | a preview or report ends its job alone, an evaluation ends with its evidence |
| Outcomes.ProfilingBegins | backend/app/tasks/dataset_tasks.py:429-465 | profiling captures the head it will read, or ends at once when the profile is there |
| Outcomes.ProfileIsStored | backend/app/tasks/dataset_tasks.py:466-491 | the profile is of the captured file and is stored exactly if that is still the head being profiled |
| Outcomes.AttemptIsRetried | backend/app/tasks/dataset_tasks.py:863-877 | a retry requeues job and publication, in its next generation and due now, and puts the record back |
| Outcomes.AttemptFails | backend/app/tasks/dataset_tasks.py:359-388 | a failed attempt ends its job and the record of each kind, and gives up its files |
| Outcomes.AttemptIsCancelled | backend/app/tasks/dataset_tasks.py:772-796 | a worker that obeys a cancellation ends its job and the record of each kind |
| Outcomes.JobIsRecovered | backend/app/services/outbox_service.py:254-303 | recovery requeues a lost job with its publication, or ends a hopeless one with its record |
| Outcomes.CancellationIsCompleted | backend/app/tasks/maintenance_tasks.py:76-86 | a requested cancellation without a live worker is completed with its record |
| Outcomes.WorkIsWithdrawn | backend/app/api/v1/routes/datasets.py:427-476 | waiting work is withdrawn with publication and record, an active job is asked to stop |
| Outcomes.FinalizationIsResolved | backend/app/tasks/dataset_tasks.py:95-189 | an attempt whose final commit is in doubt ends its job and record, unless it had ended |
| Outcomes.AttemptIsAbandoned | backend/app/services/artifact_service.py:181-202 | exactly the attempt's own unpublished paths are given to the collector |
| Outcomes.OutputIsReserved | backend/app/services/artifact_service.py:51-101 | an attempt reserves fresh paths under its own token for fifteen minutes |
| Outcomes.WriterActs | backend/app/services/dataset_service.py:925-964 | a writer touches its own scratch and final path alone |
| Outcomes.OutputIsPublished | backend/app/services/dataset_service.py:903-957 | when the final transaction succeeds, and the file, artifact, manifest, head, record and job it leaves |
| Outcomes.FinishedJobIsPurged | backend/app/tasks/retention_tasks.py:12-47 | a finished row is removed exactly when its retention is over |
| Outcomes.StorageIsMarked | backend/app/api/v1/routes/snapshots.py:26-40 | pins are set on usable manifests alone; a decided unlink removes its file; a mark ends a deletion |
| Outcomes.DatasetIsSwept | backend/app/tasks/maintenance_tasks.py:136-182 | a dataset left in passing by work that is gone is failed or READY again, and no other |
| Maintenance.TwoPhasesSettleEachJob | backend/app/tasks/maintenance_tasks.py:66-75 | moving all rows and then settling the failed jobs' records equals recovering the jobs one at a time |
| Services.Database.Start | backend/app/services/job_service.py:238-319 | acquisition by compare-and-set, what it writes, and its outcome for every other row |
| Services.Database.Retry | backend/app/services/job_service.py:400-430 | job and publication intent are requeued together, or neither |
| Services.Database.Fail | backend/app/services/job_service.py:433-470 | failure fenced by token and lease when the caller has a token |
| Services.Database.Renew | backend/app/services/job_service.py:189-219 | renewal and progress only by the holder of an unexpired lease, for the seconds asked for |
| Services.Database.CancelByWorker | backend/app/services/job_service.py:549-587 | cancellation by the worker that holds the attempt |
| Services.Database.ClaimDue | backend/app/services/outbox_service.py:113-143 | claiming a due publication is the claim step |
| Services.Database.Finalize | backend/app/services/outbox_service.py:155-196 | recording the broker's answer is the fenced acknowledgement step |
| Services.Database.Dispatch | backend/app/services/outbox_service.py:113-196 | a due publication the broker accepts is published now, one it refuses waits a second at least and the ceiling at most, any other is left alone |
| Delivery.BackoffDoubles | backend/app/services/outbox_service.py:167-173 | the ceiling doubles with each attempt up to the eighth and the configured limit |
| Services.Database.DispatchPending | backend/app/services/outbox_service.py:198-214 | every candidate examined is published, put off or left as its state and the broker's answer say; it counts the published and stops exactly at the first unpublished one whose row carries an error |
| Services.Database.CollectOne | backend/app/services/artifact_service.py:279-360 | a row nobody writes, uses or retains ends DELETED with its final, temporary and spill paths off the disk, or DELETING if a removal failed; a published one loses its scratch alone; any other nothing |
| Services.Database.Cleanup | backend/app/services/artifact_service.py:247-369 | that for every candidate of a pass; no other row changes and no other file goes |
| Collection.UnusedIsUnreferenced | backend/app/services/artifact_service.py:203-244 | the reachability test fails exactly for paths that no dataset, manifest, transformation or completed report has a use for |
| Collection.JudgedByRelease | backend/app/services/artifact_service.py:297-333 | what is condemned, and what loses its scratch alone |
| Services.Database.ExpireHistory | backend/app/services/snapshot_service.py:121-164 | a pass expires exactly the dispensable candidates, requests their deletion, counts them, and leaves every other manifest |
| Services.Database.ExpireOne | backend/app/services/snapshot_service.py:143-157 | one candidate expires exactly when it is old, unpinned, not recent, no head and of an idle dataset |
| Services.Database.RecoverRow | backend/app/services/outbox_service.py:254-303 | a lost job is requeued with its publication due now in its next generation, or fails when nothing can be published again; no other row changes |
| Services.Database.ReconcileTargetOf | backend/app/tasks/maintenance_tasks.py:27-63 | a finished job's record is brought to the same outcome |
| Services.Database.RecoverJobs | backend/app/tasks/maintenance_tasks.py:66-74 | the two-phase loop recovers each candidate as if alone |
| Services.Database.CancelExpired | backend/app/tasks/maintenance_tasks.py:81-85 | one requested cancellation without a live lease is completed with its publication and its record |
| Services.Database.ReconcileJobs | backend/app/tasks/maintenance_tasks.py:66-86 | recovery, then cancellation, as one sequence of single-job steps; it reports exactly the jobs it ended |
| Services.Database.RemoveExpiredJobs | backend/app/tasks/retention_tasks.py:12-47 | a purge pass is one purge step per candidate |
| Services.Database.FindReceipt | backend/app/services/dataset_audit_service.py:26-39 | the loop finds the stored receipt of a key |
| Services.Database.NewestCandidate | backend/app/services/dataset_service.py:1040-1050 | the loop finds the newest completed transformation of the head, if any |
| Services.Database.UndoLast | backend/app/services/dataset_service.py:967-1083 | a fresh undo restores the newest transformation's input and answers with the dataset as it then is; a used key is answered from its event; a refusal names the first check that failed and changes nothing |
| Services.Database.PublishOutput | backend/app/services/dataset_service.py:903-957 | the final transaction is the publication step, exactly when its checks hold |
| Services.Database.FailTransform | backend/app/tasks/dataset_tasks.py:64-78 | a failed attempt releases job, record, reservation and dataset together |
| Services.Database.RetryTransform | backend/app/tasks/dataset_tasks.py:863-877 | a retried attempt requeues job, intent, record and dataset together |
| Services.Database.WithdrawJob | backend/app/api/v1/routes/datasets.py:427-461 | the route's first transaction is the withdrawal step |
| Services.Database.CancelJobRoute | backend/app/api/v1/routes/datasets.py:413-477 | the route is the withdrawal step, or that and the request step; it refuses exactly jobs that are unknown or finished otherwise, and leaves every other one cancelled or asked to stop |
| Services.Database.ActiveCount | backend/app/services/job_service.py:105-118 | the loop counts exactly the account's unfinished jobs |
| Services.Database.TransformRoute | backend/app/api/v1/routes/datasets.py:538-595 | admission writes record, job and intent together, exactly when it may |
| ChartCaching.ChartCache.Get | backend/app/services/chart_cache.py:25-35 | a lookup returns a live entry and makes it most recent, or drops an expired one; budgets and byte count hold |
| ChartCaching.ChartCache.Put | backend/app/services/chart_cache.py:37-54 | an admitted result replaces its key, after sweeping and evicting; budgets and byte count hold |
| ChartCaching.EvictionIsMinimal | backend/app/services/chart_cache.py:48-52 | eviction removes the shortest prefix of the use order that makes room |
| ChartCaching.SweepKeepsExactlyUnexpired | backend/app/services/chart_cache.py:45-47 | the sweep keeps exactly the unexpired entries |
| ChartCaching.HitIsLatestUnexpiredPut | backend/app/services/chart_cache.py:25-54 | over any history a hit returns the latest admitted put of its key, which has not expired |
| ChartCaching.EvictionIsLeastRecentlyUsed | backend/app/services/chart_cache.py:33-52 | over any history entries stand in order of last use |
| ChartCaching.NewPutIsServedIff | backend/app/services/chart_cache.py:37-54 | which results are admitted and for how long: under a new key, exactly those within the byte budget, until the period is over |
| ChartCaching.PutIsServedIff | backend/app/services/chart_cache.py:25-59 | over any history, until it expires the last admitted put of a key is missing exactly when the cache was cleared since, or a later put found no room beside it and what was used after it |
| ChartCaching.MoreRecentIsServed | backend/app/services/chart_cache.py:33-52 | over any history, of two unexpired latest puts the one used later is served whenever the other is |
| ParquetPreview.Preview | backend/app/services/dataset_service.py:498-537 | for every split into groups and batches, empty ones included, the page is exactly its rows of the file |
| ParquetPreview.ReadGroup | backend/app/services/dataset_service.py:517-530 | the inner loop adds exactly the group's rows of the page and stops when it is full |
| ParquetPreview.PagesCoverTheFile | backend/app/services/dataset_service.py:498-537 | pages 1, 2, ... concatenate to the whole file |
| CsvText.ParseRecords | frontend/src/data-utils.ts:51-72 | the indexed loop computes the records of the character-by-character reading |
| CsvText.ReadingUndoesPrinting | frontend/src/data-utils.ts:51-72 | any records printed with all fields quoted are read back, for every mixture of LF, CRLF and CR and with or without a final one |
| CsvText.ReadFieldsAreTrimmed | frontend/src/data-utils.ts:51-72 | every record read has some text, and no field begins or ends with white space |
| CsvText.TrimStripsEnds | frontend/src/data-utils.ts:60-70 | trimming removes white space at the ends, all of it and nothing else |
| CsvText.PlainLineIsRead | frontend/src/data-utils.ts:51-72 | a line without quotes is read as the record of its trimmed fields, and skipped if none has text |
| CsvText.ParseCsvText | frontend/src/data-utils.ts:73-77 | a header and at most 100 rows, with missing and empty cells null and numeric ones coerced, or an error exactly when there is no data row |
| CsvText.CellsAreReadBack | frontend/src/data-utils.ts:74-76 | each cell is found under its column's name |
| Projection.ProjectionRefinesHandler | backend/app/services/operation_handlers.py:16-76 | on frames with distinct names the compiled projection builds the handler's frame, and both refuse for the same reason |
| Projection.ProjectionRefinesIff | backend/app/services/engines/contracts.py:52-67 | the two agree if and only if no column name repeats, or the parameters are invalid |
| Projection.DropIsRefusedIff | backend/app/services/operation_handlers.py:16-19 | a drop is refused for a bad or repeated name, a name that is no column, or nothing left, and otherwise carried out |
| Projection.DropKeepsTheOthers | backend/app/services/operation_handlers.py:16-19 | it keeps exactly the columns not named, in order, with their cells |
| Projection.RenameIsRefusedIff | backend/app/services/operation_handlers.py:22-28 | a renaming is refused for a bad name, one name for two, a source that is no column, or a repeated result |
| Projection.RenameKeepsPlaces | backend/app/services/operation_handlers.py:22-28 | it keeps every column in its place with its cells |
| Projection.RenamingIsReversible | backend/app/services/operation_handlers.py:22-28 | an accepted renaming is undone by its inverse, swaps and chains included |
| UndoCoordination.UndoCoordinator.Run | frontend/src/hooks/undo-intent.ts:20-50 | a click joins, resends, refreshes or starts an intention |
| UndoCoordination.UndoCoordinator.Settle | frontend/src/hooks/undo-intent.ts:34-45 | an uncertain answer keeps the intention, a definitive refusal drops it, a late answer is kept but not shown |
| UndoCoordination.UndoCoordinator.NeedsRecovery | frontend/src/hooks/undo-intent.ts:57-60 | recovery is offered exactly when every possible click would join, resend or refresh the intention there is, with its key and revision, and none could begin another |
| UndoCoordination.ClickPicksUp | frontend/src/hooks/undo-intent.ts:20-44 | what a click does at every stage of an intention |
| UndoCoordination.RefreshFinishes | frontend/src/hooks/undo-intent.ts:42-47 | a successful refresh finishes the undo, so that a click at another revision begins a new one; a failed one is repeated |
| UndoCoordination.AnswerDecides | frontend/src/hooks/undo-intent.ts:32-41 | acceptance goes on to the refresh, uncertainty resends the same request, refusal forgets it |
| UndoCoordination.ResetForgets | frontend/src/hooks/undo-intent.ts:52-55 | after a reset every click begins anew and late answers are not shown |
| UndoEndToEnd.HappeningKeepsOk | frontend/src/hooks/undo-intent.ts:16-61 | whatever is lost, repeated or delayed, every answer stays the stored receipt of the intention's own request |
| UndoEndToEnd.OneEffectPerIntention | backend/app/services/dataset_service.py:984-1083 | all answers to one intention are one receipt, of the one event that took its revision to the next, and say so |
| UndoEndToEnd.OneEffectPerRevision | frontend/src/hooks/undo-intent.ts:20-53 | two intentions for one revision never both take effect |
| UndoEndToEnd.ArisingIsOk | frontend/src/hooks/undo-intent.ts:16-61 | from a fresh coordinator before any reachable server, every course of events keeps that |
| UndoEndToEnd.ClicksReuseTheOpenIntention | frontend/src/hooks/undo-intent.ts:20-30 | until it is shown, refused or dropped by a reset, every click reuses the open intention's key and revision |

## Left out

- Report records and files, and dashboards: a report's job is modelled, and the collector sees completed reports as an arbitrary, changing set of referenced paths.
- Datasets staged before manifests existed: every staged file has a manifest here, and undo needs one.
- Import reservations without an outbox row: nothing recovers them while attempts remain, so `NoJobIsStuck` is about enqueued jobs.
- Stage texts, results, error messages, correlation ids, heartbeats, quotas, disk-space checks and path spellings.
- The age-based removal of unmanaged files, and the age test of the orphan sweep: the sweep may run at any time here.
- The broker's own retry counter: whether a failed attempt retries or fails is any choice the fences allow.
- The order in which one task function calls its transactions: any order is allowed, so a method of `Services.Database` stands for one transaction, or a few of one route or pass, and not for a whole task body.
- Services.Database.RecoverJobs: closes a failed evaluation while settling its record, where the code closes it with the row; both are in one transaction.
- Services.Database: the tables of datasets, storage and uploads are grouped in record-valued fields.
- Deadlock, lock waiting and the differences between database engines.
- JavaScript's `Number`, which is a parameter of the CSV reader, and the dataframe, SQL and rendering libraries.
- The other operation handlers, and the engines' own type checks on a projection.
