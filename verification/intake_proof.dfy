/** Staging, aborting and completing an import keep the invariant. */
module IntakeProof {
  import opened Prelude
  import opened JobService
  import opened TaskProtocol
  import opened Tables
  import opened ArtifactService
  import opened Protocol
  import opened Invariants
  import opened StorageProof
  import opened JobsProof
  import opened RecordsProof
  import opened MovesProof

  // ---------------------------------------------------------------- staging

  lemma StagingKeepsImports(rows: map<nat, Row>, datasets: map<nat, Dataset>, uploads: map<nat, Upload>, task: nat,
                            moved: Row,
                            d: nat, dataset: Dataset, path: Path)
    requires ImportsOk(rows, datasets, uploads) && d !in datasets
    requires moved.job.kind.Import? && moved.job.dataset == Some(d) && dataset.status.Queued? && !dataset.deleted
    ensures ImportsOk(rows[task := moved], datasets[d := dataset], uploads[d := Upload(path, task)])
  {
  }

  lemma StagingKeepsTargets(rows: map<nat, Row>, transformations: map<nat, Transformation>,
                            profilers: map<Token, Profiler>, datasets: map<nat, Dataset>,
                            evaluations: map<nat, Evaluation>, task: nat, moved: Row, d: nat, dataset: Dataset)
    requires TargetsOk(rows, transformations, profilers, datasets) && RunsAgree(rows, transformations)
        && EvaluationsAgree(rows, evaluations)
    requires d !in datasets && moved.job.kind.Import? && task in rows && rows[task].job.kind.Import?
    ensures TargetsOk(rows[task := moved], transformations, profilers, datasets[d := dataset])
    ensures RunsAgree(rows[task := moved], transformations) && EvaluationsAgree(rows[task := moved], evaluations)
  {
    hide Agree, EvaluationAgrees;
  }

  lemma StagingKeepsDescriptions(datasets: map<nat, Dataset>, snapshots: map<Path, Snapshot>, path: Path, d: nat,
                                 dataset: Dataset, manifest: Snapshot)
    requires DescriptionsOk(datasets, snapshots) && path !in snapshots && d !in datasets
    requires forall e | e in datasets :: datasets[e].storedPath in snapshots
    requires dataset.status.Queued? && dataset.profile.None?
    ensures DescriptionsOk(datasets[d := dataset], snapshots[path := manifest])
  {
  }

  lemma StagingKeepsHistory(datasets: map<nat, Dataset>, events: map<nat, seq<Event>>,
                            transformations: map<nat, Transformation>,
                            uploads: map<nat, Upload>, d: nat, dataset: Dataset, task: nat)
    requires HistoryOk(datasets, events, transformations, uploads) && d !in datasets
    requires forall x | x in transformations :: transformations[x].dataset in datasets
    requires dataset.version == 1
    ensures HistoryOk(datasets[d := dataset], events[d := []], transformations,
                      uploads[d := Upload(dataset.storedPath, task)])
  {
    NewHistory(d, dataset, transformations);
    hide HistoryOf;
  }

  lemma NewHistory(d: nat, dataset: Dataset, transformations: map<nat, Transformation>)
    requires forall x | x in transformations :: transformations[x].dataset != d
    requires dataset.version == 1
    ensures HistoryOf(d, dataset, [], transformations, dataset.storedPath)
  {
  }

  lemma StagingKeepsReceipts(events: map<nat, seq<Event>>, d: nat)
    requires ReceiptsOk(events)
    ensures ReceiptsOk(events[d := []])
  {
  }

  lemma StagingKeepsArtifacts(rows: map<nat, Row>, artifacts: map<Path, Artifact>, writers: map<Path, Writer>,
                              transformations: map<nat, Transformation>, now: Time, nextId: nat, task: nat, moved: Row)
    requires LiveOk(artifacts, writers, transformations, rows) && LeasesOk(rows, artifacts, now, nextId)
    requires moved.job.status.Pending?
    ensures LiveOk(artifacts, writers, transformations, rows[task := moved])
        && LeasesOk(rows[task := moved], artifacts, now, nextId + 3)
  {
  }

  /** Everything staging changes. */
  ghost predicate Staged(s: State, task: nat, moved: Row, dataset: Dataset, manifest: Snapshot, z: State) {
    var d, path := s.env.nextId, Output(s.env.nextId + 1);
    && d !in s.domain.datasets && path !in s.storage.snapshots
    && task in s.tasks.rows && s.tasks.rows[task].job.kind.Import? && s.tasks.rows[task].job.status.Pending?
    && moved.job == s.tasks.rows[task].job.(dataset := Some(d))
    && dataset.status.Queued? && dataset.profile.None? && dataset.version == 1 && !dataset.deleted && dataset.storedPath
        == path
    && z.env == s.env.(nextId := s.env.nextId + 3)
    && z.tasks.rows == s.tasks.rows[task := moved]
    && z.domain == s.domain.(datasets := s.domain.datasets[d := dataset], events := s.domain.events[d := []])
    && z.storage.snapshots == s.storage.snapshots[path := manifest]
    && z.storage.artifacts == s.storage.artifacts && z.storage.writers == s.storage.writers
    && z.intake.uploads == s.intake.uploads[d := Upload(path, task)] && z.intake.uploading == s.intake.uploading + {d}
  }

  lemma StageFacts(s: State, task: nat, content: Bytes)
    requires StorageOk(s) && StageUpload(s, task, content) != s
    ensures var d, z := s.env.nextId, StageUpload(s, task, content);
            && task in z.tasks.rows && d in z.domain.datasets && Output(d + 1) in z.storage.snapshots
            && Staged(s, task, z.tasks.rows[task], z.domain.datasets[d], z.storage.snapshots[Output(d + 1)], z)
  {
    hide FilesOk, VersionsUnique, ArtifactsOk, WritersOk, DoomedOk;
  }

  lemma StagedKeepsJobs(s: State, task: nat, moved: Row, dataset: Dataset, manifest: Snapshot, z: State)
    requires JobsOk(s) && Staged(s, task, moved, dataset, manifest, z)
    requires RowsOk(z.tasks.rows, z.env.nextId)
    ensures JobsOk(z)
  {
    hide RowsOk, ImportsOk, TargetsOk, RunsAgree, EvaluationsAgree, CapacityOk;
    StagingKeepsImports(s.tasks.rows, s.domain.datasets, s.intake.uploads, task, moved, s.env.nextId, dataset,
                        dataset.storedPath);
    StagingKeepsTargets(s.tasks.rows, s.domain.transformations, s.domain.profilers, s.domain.datasets,
                        s.domain.evaluations, task, moved, s.env.nextId, dataset);
    MoveKeepsCapacity(s.tasks.rows, s.env.settings.maxActiveJobs, task, moved);
  }

  lemma StagedKeepsRecords(s: State, task: nat, moved: Row, dataset: Dataset, manifest: Snapshot, z: State)
    requires RecordsOk(s) && Staged(s, task, moved, dataset, manifest, z)
    requires forall e | e in s.domain.datasets :: s.domain.datasets[e].storedPath in s.storage.snapshots
    requires forall x | x in s.domain.transformations :: s.domain.transformations[x].dataset in s.domain.datasets
    ensures RecordsOk(z)
  {
    hide TransformationsOk, TasksOk, DescriptionsOk, ProfilersOk, LiveOk, LeasesOk, HistoryOk, ReceiptsOk;
    var d := s.env.nextId;
    AddedManifestKeepsTransformations(s.domain.transformations, s.storage.snapshots, s.storage.writers, s.env.nextId,
                                      z.env.nextId, Output(d + 1), manifest);
    AddedManifestKeepsProfilers(s.domain.profilers, s.storage.snapshots, Output(d + 1), manifest);
    StagingKeepsDescriptions(s.domain.datasets, s.storage.snapshots, Output(d + 1), d, dataset, manifest);
    StagingKeepsHistory(s.domain.datasets, s.domain.events, s.domain.transformations, s.intake.uploads,
                        d, dataset, task);
    StagingKeepsReceipts(s.domain.events, d);
    StagingKeepsArtifacts(s.tasks.rows, s.storage.artifacts, s.storage.writers, s.domain.transformations, s.env.now,
                          s.env.nextId, task, moved);
  }

  lemma EnqueueKeepsRows(s: State, task: nat, content: Bytes)
    requires JobsOk(s) && StageUpload(s, task, content) != s
    ensures var z := StageUpload(s, task, content); RowsOk(z.tasks.rows, z.env.nextId)
  {
    hide RowsOk, ImportsOk, TargetsOk, RunsAgree, EvaluationsAgree, CapacityOk, Fires, Perform;
    MoveKeepsRows(s.tasks.rows, task, Enqueue(s.env.nextId, s.env.nextId + 2), s.env.now,
                  s.env.nextId, s.env.nextId + 3);
  }

  lemma StageKeepsInv(s: State, task: nat, content: Bytes)
    requires Inv(s)
    ensures Inv(StageUpload(s, task, content))
  {
    hide StorageOk, JobsOk, RecordsOk, StageUpload, Staged;
    StageUploadKeepsStorage(s, task, content);
    if StageUpload(s, task, content) != s {
      StageFacts(s, task, content);
      EnqueueKeepsRows(s, task, content);
      HeadsHaveManifests(s);
      var d, z := s.env.nextId, StageUpload(s, task, content);
      StagedKeepsJobs(s, task, z.tasks.rows[task], z.domain.datasets[d], z.storage.snapshots[Output(d + 1)], z);
      StagedKeepsRecords(s, task, z.tasks.rows[task], z.domain.datasets[d], z.storage.snapshots[Output(d + 1)], z);
    }
  }

  lemma HeadsHaveManifests(s: State)
    requires StorageOk(s) && JobsOk(s)
    ensures forall e | e in s.domain.datasets :: s.domain.datasets[e].storedPath in s.storage.snapshots
    ensures forall x | x in s.domain.transformations :: s.domain.transformations[x].dataset in s.domain.datasets
  {
    hide ManifestsOk, FilesOk, VersionsUnique, ArtifactsOk, WritersOk, DoomedOk, RowsOk, ImportsOk, RunsAgree,
      EvaluationsAgree, CapacityOk;
  }

  // ---------------------------------------------------------------- the upload request ends

  lemma AcknowledgeUploadKeepsInv(s: State, d: nat)
    requires Inv(s)
    ensures Inv(AcknowledgeUpload(s, d))
  {
    hide HeadsOk, ManifestsOk, FilesOk, VersionsUnique, ArtifactsOk, WritersOk, DoomedOk,
      RowsOk, ImportsOk, TargetsOk, RunsAgree, EvaluationsAgree, CapacityOk,
      TransformationsOk, TasksOk, DescriptionsOk, ProfilersOk, LiveOk, LeasesOk, HistoryOk, ReceiptsOk;
  }

  /** Failing the staged import moves its job; its dataset is left to the sweep. */
  lemma AbortMoves(s: State, d: nat)
    requires AbortUpload(s, d).tasks != s.tasks && d in s.intake.uploads
    requires Placed(s, s.intake.uploads[d].task)
    ensures Moved(s, s.intake.uploads[d].task, Fail(None), AbortUpload(s, d))
  {
    var task := s.intake.uploads[d].task;
    ActSets(s.tasks.rows[task], Fail(None), s.env.now);
    SteadyIsOwn(s, s.tasks.rows[task].job, Perform(s.tasks.rows[task], Fail(None), s.env.now).job, s.domain.datasets);
    hide Fires, Perform, OwnDataset, OwnImport, Steady, PlacedDatasets, PlacedImport;
  }

  lemma AbortFrame(s: State, d: nat)
    ensures var z := AbortUpload(s, d);
            && z.storage.artifacts == s.storage.artifacts && z.storage.snapshots == s.storage.snapshots
                && z.storage.writers == s.storage.writers
            && z.intake.uploads == s.intake.uploads && z.intake.uploading <= s.intake.uploading && z.env == s.env
                && z.domain == s.domain
            && (z.tasks != s.tasks ==> d in s.intake.uploads && s.intake.uploads[d].task in s.tasks.rows)
    ensures Rescheduled(s.storage.artifacts, s.storage.artifacts, s.storage.snapshots, s.env.nextId)
  {
    hide Fires, Perform;
  }

  lemma AbortUploadKeepsInv(s: State, d: nat)
    requires Inv(s)
    ensures Inv(AbortUpload(s, d))
  {
    hide StorageOk, AbortUpload, Moved, Placed, Rescheduled, JobsOk, RecordsOk;
    var z := AbortUpload(s, d);
    AbortFrame(s, d);
    UploadingIsStaged(s);
    AbortUploadKeepsStorage(s, d);
    if z.tasks != s.tasks {
      InvPlaces(s, s.intake.uploads[d].task);
      AbortMoves(s, d);
      MovedKeepsJobs(s, s.intake.uploads[d].task, Fail(None), z);
      MovedKeepsRecords(s, s.intake.uploads[d].task, Fail(None), z);
    } else {
      SameTablesKeepRest(s, z);
    }
  }

  lemma UploadingIsStaged(s: State)
    requires RecordsOk(s)
    ensures s.intake.uploading <= s.domain.datasets.Keys
  {
    hide TransformationsOk, TasksOk, DescriptionsOk, ProfilersOk, LiveOk, LeasesOk, HistoryOk, ReceiptsOk;
  }

  lemma SameTablesKeepRest(s: State, z: State)
    requires JobsOk(s) && RecordsOk(s)
    requires z.tasks == s.tasks && z.domain == s.domain && z.env == s.env
    requires z.storage.artifacts == s.storage.artifacts && z.storage.snapshots == s.storage.snapshots
        && z.storage.writers == s.storage.writers
    requires z.intake.uploads == s.intake.uploads && z.intake.uploading <= s.intake.uploading
    ensures JobsOk(z) && RecordsOk(z)
  {
    hide RowsOk, ImportsOk, TargetsOk, RunsAgree, EvaluationsAgree, CapacityOk,
      TransformationsOk, TasksOk, DescriptionsOk, ProfilersOk, LiveOk, LeasesOk, HistoryOk, ReceiptsOk;
  }

  // ---------------------------------------------------------------- completion

  /** The import of `d` succeeded: only that dataset changed, and it now carries its file's dimensions. */
  ghost predicate Imported(s: State, task: nat, d: nat, z: State) {
    && Placed(s, task) && task in z.tasks.rows
    && var job, after := s.tasks.rows[task].job, z.tasks.rows[task].job;
    && job.kind.Import? && job.dataset == Some(d) && d in s.domain.datasets && job.OccupiesCapacity()
    && SameIdentity(job, after) && after.status.Success?
    && z.tasks.rows == s.tasks.rows[task := z.tasks.rows[task]]
    && s.domain.datasets[d].storedPath in s.storage.snapshots
    && var seen := s.storage.snapshots[s.domain.datasets[d].storedPath].digest;
    && z == s.(tasks := z.tasks, domain := s.domain.(datasets := s.domain.datasets[d := s.domain.datasets[d].(
              status := Ready, rowCount := Some(seen.rows), columnCount := Some(seen.columns))]))
  }

  lemma CompleteImportFacts(s: State, task: nat, token: Token)
    requires CompleteImport(s, task, token) != s && Placed(s, task)
    ensures RowFires(s, task, Succeed(token)) && s.tasks.rows[task].job.dataset.Some?
    ensures Imported(s, task, s.tasks.rows[task].job.dataset.value, CompleteImport(s, task, token))
    ensures CompleteImport(s, task, token).tasks == OnRow(s, task, Succeed(token)).tasks
  {
    ActSets(s.tasks.rows[task], Succeed(token), s.env.now);
    hide Fires, Perform, Sound;
  }

  lemma ImportedKeepsJobs(s: State, task: nat, d: nat, z: State)
    requires JobsOk(s) && Imported(s, task, d, z) && RowsOk(z.tasks.rows, z.env.nextId)
    ensures JobsOk(z)
  {
    hide RowsOk, CapacityOk, Sound, Agree, EvaluationAgrees;
    var moved := z.tasks.rows[task];
    MoveKeepsCapacity(s.tasks.rows, s.env.settings.maxActiveJobs, task, moved);
  }

  lemma ImportedKeepsStorage(s: State, task: nat, d: nat, z: State)
    requires StorageOk(s) && Imported(s, task, d, z)
    ensures StorageOk(z)
  {
    hide HeadsOk, ManifestsOk, FilesOk, VersionsUnique, ArtifactsOk, WritersOk, DoomedOk, Sound;
    SameHeadsKeepsStorage(s, z.domain.datasets);
  }

  lemma ImportedFrame(s: State, task: nat, d: nat, z: State)
    requires Imported(s, task, d, z) && DescriptionsOk(s.domain.datasets, s.storage.snapshots)
    ensures d in s.domain.datasets && d in z.domain.datasets && task in s.tasks.rows && task in z.tasks.rows
        && Sound(s.tasks.rows[task])
    ensures z.domain.datasets.Keys == s.domain.datasets.Keys && z.domain.datasets
        == s.domain.datasets[d := z.domain.datasets[d]]
    ensures z.domain.datasets[d].version == s.domain.datasets[d].version && z.domain.datasets[d].storedPath
        == s.domain.datasets[d].storedPath
    ensures DescriptionsOk(z.domain.datasets, z.storage.snapshots)
    ensures z == s.(tasks := z.tasks, domain := s.domain.(datasets := z.domain.datasets))
    ensures z.tasks.rows == s.tasks.rows[task := z.tasks.rows[task]] && z.tasks.rows[task].job.transformation.None?
  {
    hide Sound, Agree, EvaluationAgrees;
  }

  lemma UnchangedIsRescheduled(s: State)
    ensures Rescheduled(s.storage.artifacts, s.storage.artifacts, s.storage.snapshots, s.env.nextId)
    ensures Restatused(s.domain.transformations, s.domain.transformations)
  {
  }

  lemma ImportedKeepsRecords(s: State, task: nat, act: Act, d: nat, z: State)
    requires RecordsOk(s) && Imported(s, task, d, z)
    requires RowFires(s, task, act) && !act.Start? && z.tasks == OnRow(s, task, act).tasks
    ensures RecordsOk(z)
  {
    hide Imported, TransformationsOk, TasksOk, DescriptionsOk, ProfilersOk, LiveOk, LeasesOk, HistoryOk,
      ReceiptsOk, Sound,
      Fires, Perform, Rescheduled, Restatused;
    var x, artifacts := s.domain.transformations, s.storage.artifacts;
    UnchangedIsRescheduled(s);
    ImportedFrame(s, task, d, z);
    RedatingKeepsHistory(s.domain.datasets, s.domain.events, x, s.intake.uploads, d, z.domain.datasets[d]);
    MoveKeepsLive(artifacts, artifacts, s.storage.snapshots, s.env.nextId, s.storage.writers, x, x, s.tasks.rows, task,
                  z.tasks.rows[task]);
    MoveKeepsLeases(artifacts, artifacts, s.storage.snapshots, s.tasks.rows, s.env.now, s.env.nextId, s.env.nextId,
                    task, act);
  }

  /** History reads only a dataset's version and stored path. */
  lemma RedatingKeepsHistory(datasets: map<nat, Dataset>, events: map<nat, seq<Event>>, x: map<nat, Transformation>,
                             uploads: map<nat, Upload>,
                             d: nat, dataset: Dataset)
    requires HistoryOk(datasets, events, x, uploads) && d in datasets
    requires dataset.version == datasets[d].version && dataset.storedPath == datasets[d].storedPath
    ensures HistoryOk(datasets[d := dataset], events, x, uploads)
  {
    hide LogOk, StackOk, Stack, Top;
  }

  lemma CompleteImportKeepsInv(s: State, task: nat, token: Token)
    requires Inv(s)
    ensures Inv(CompleteImport(s, task, token))
  {
    hide StorageOk, JobsOk, RecordsOk, CompleteImport, Imported, Placed;
    var z := CompleteImport(s, task, token);
    if z != s {
      ImportFires(s, task, token);
      InvPlaces(s, task);
      CompleteImportFacts(s, task, token);
      var d := s.tasks.rows[task].job.dataset.value;
      SucceedKeepsRows(s, task, Succeed(token), z);
      ImportedKeepsStorage(s, task, d, z);
      ImportedKeepsJobs(s, task, d, z);
      ImportedKeepsRecords(s, task, Succeed(token), d, z);
    }
  }

  lemma ImportFires(s: State, task: nat, token: Token)
    requires CompleteImport(s, task, token) != s
    ensures task in s.tasks.rows && CompleteImport(s, task, token).env == s.env
  {
    hide Fires, Perform;
  }

  lemma SucceedKeepsRows(s: State, task: nat, act: Act, z: State)
    requires JobsOk(s) && RowFires(s, task, act) && !act.Start? && !act.Claim?
    requires z.tasks == OnRow(s, task, act).tasks && z.env.nextId >= s.env.nextId
    ensures RowsOk(z.tasks.rows, z.env.nextId)
  {
    hide RowsOk, ImportsOk, TargetsOk, RunsAgree, EvaluationsAgree, CapacityOk, Fires, Perform;
    MoveKeepsRows(s.tasks.rows, task, act, s.env.now, s.env.nextId, z.env.nextId);
  }
}
