/** New jobs: reservations, admissions and staged uploads keep the invariant. */
module AdmissionProof {
  import opened Prelude
  import opened JobService
  import opened TaskProtocol
  import opened Tables
  import opened ArtifactService
  import opened Protocol
  import opened Invariants
  import opened StorageProof
  import opened JobsProof
  import opened RecordsProof
  import opened MovesProof

  /** A row that has just been admitted. */
  ghost predicate Fresh(row: Row) {
    && row.job.status.Pending? && Sound(row)
    && row.job.attemptToken.None?
    && (row.outbox.Some? ==> row.outbox.value.claimToken.None?)
    && (row.job.kind.Transform? <==> row.job.transformation.Some?)
    && (row.job.kind.Import? ==> row.job.dataset.None?)
  }

  lemma NewRowKeepsRows(rows: map<nat, Row>, task: nat, row: Row, nextId: nat, issued: nat)
    requires RowsOk(rows, nextId) && Fresh(row) && issued >= nextId
    ensures RowsOk(rows[task := row], issued)
  {
    hide Sound;
  }

  lemma NewRowKeepsCapacity(rows: map<nat, Row>, limit: nat, task: nat, row: Row)
    requires CapacityOk(rows, limit) && task !in rows
    requires |ActiveTasks(rows, row.job.owner)| < limit
    ensures CapacityOk(rows[task := row], limit)
  {
    var after := rows[task := row];
    forall owner: nat ensures |ActiveTasks(after, owner)| <= limit {
      assert |ActiveTasks(rows, owner)| <= limit;
      assert ActiveTasks(after, owner) <= ActiveTasks(rows, owner) + (if owner == row.job.owner then {task} else {});
      SubsetSize(ActiveTasks(after, owner), ActiveTasks(rows, owner) + (if owner == row.job.owner then {task} else {}));
    }
  }

  lemma NewRowKeepsTargets(rows: map<nat, Row>, transformations: map<nat, Transformation>,
                           profilers: map<Token, Profiler>,
                           a: map<nat, Dataset>, b: map<nat, Dataset>, uploads: map<nat, Upload>, task: nat, row: Row)
    requires TargetsOk(rows, transformations, profilers, a) && ImportsOk(rows, a, uploads)
    requires Fresh(row) && OwnDataset(row.job, a, b)
    requires !row.job.kind.Import? ==>
            row.job.dataset.Some? && row.job.dataset.value in a && a[row.job.dataset.value].Imported()
    ensures TargetsOk(rows[task := row], transformations, profilers, b)
    ensures ImportsOk(rows[task := row], b, uploads)
  {
    hide Sound;
  }

  lemma NewRowKeepsAgreement(rows: map<nat, Row>, transformations: map<nat, Transformation>,
                             evaluations: map<nat, Evaluation>,
                             after: map<nat, Evaluation>, task: nat, row: Row)
    requires RunsAgree(rows, transformations) && EvaluationsAgree(rows, evaluations)
    requires Fresh(row) && task !in rows && !row.job.kind.Transform?
    requires after == (if row.job.kind.Quality? then evaluations[task := Evaluation(EvaluationPending, None)]
                       else evaluations)
    ensures RunsAgree(rows[task := row], transformations)
    ensures EvaluationsAgree(rows[task := row], after)
  {
    hide Sound, Agree;
  }

  lemma NewRowKeepsArtifacts(rows: map<nat, Row>, artifacts: map<Path, Artifact>, writers: map<Path, Writer>,
                             transformations: map<nat, Transformation>, now: Time, nextId: nat, issued: nat,
                              task: nat, row: Row)
    requires LiveOk(artifacts, writers, transformations, rows) && LeasesOk(rows, artifacts, now, nextId)
    requires Fresh(row) && task !in rows && issued >= nextId
    ensures LiveOk(artifacts, writers, transformations, rows[task := row])
    ensures LeasesOk(rows[task := row], artifacts, now, issued)
  {
    hide Sound;
  }

  // ---------------------------------------------------------------- reservations, profiles, previews, evaluations

  /** One fresh row without a transformation, whose dataset may have changed status. */
  ghost predicate Registered(s: State, task: nat, row: Row, z: State) {
    && task !in s.tasks.rows && Fresh(row) && !row.job.kind.Transform? && HasCapacity(s, row.job.owner)
    && (!row.job.kind.Import? ==> row.job.dataset.Some? && PlacedTarget(s, row.job.dataset.value))
    && OwnDataset(row.job, s.domain.datasets, z.domain.datasets)
    && z.tasks.rows == s.tasks.rows[task := row]
    && z.domain == s.domain.(datasets := z.domain.datasets, evaluations := z.domain.evaluations)
    && z.domain.evaluations
        == (if row.job.kind.Quality? then s.domain.evaluations[task := Evaluation(EvaluationPending, None)]
                                else s.domain.evaluations)
    && z.storage == s.storage && z.intake == s.intake
    && z.env == s.env.(nextId := z.env.nextId) && z.env.nextId >= s.env.nextId
  }

  lemma RegisteredKeepsStorage(s: State, task: nat, row: Row, z: State)
    requires StorageOk(s) && Registered(s, task, row, z)
    ensures StorageOk(z)
  {
    assert Restated(s.domain.datasets, z.domain.datasets);
    RestatementKeepsHeads(s.domain.datasets, z.domain.datasets);
    hide HeadsOk, ManifestsOk, FilesOk, VersionsUnique, ArtifactsOk, WritersOk, DoomedOk, Fresh, SameHeads,
      OwnDataset, Restated, ActiveTasks;
    SameHeadsKeepsStorage(s, z.domain.datasets);
    IssuingKeepsStorage(s.(domain := s.domain.(datasets := z.domain.datasets)), z.env.nextId);
  }

  lemma RegisteredKeepsJobs(s: State, task: nat, row: Row, z: State)
    requires JobsOk(s) && Registered(s, task, row, z)
    ensures JobsOk(z)
  {
    hide RowsOk, ImportsOk, TargetsOk, RunsAgree, EvaluationsAgree, CapacityOk, Fresh, OwnDataset, ActiveTasks;
    NewRowKeepsRows(s.tasks.rows, task, row, s.env.nextId, z.env.nextId);
    NewRowKeepsCapacity(s.tasks.rows, s.env.settings.maxActiveJobs, task, row);
    NewRowKeepsTargets(s.tasks.rows, s.domain.transformations, s.domain.profilers, s.domain.datasets, z.domain.datasets,
                       s.intake.uploads, task, row);
    NewRowKeepsAgreement(s.tasks.rows, s.domain.transformations, s.domain.evaluations, z.domain.evaluations, task, row);
  }

  lemma RegisteredKeepsRecords(s: State, task: nat, row: Row, z: State)
    requires RecordsOk(s) && Registered(s, task, row, z)
    ensures RecordsOk(z)
  {
    assert Restated(s.domain.datasets, z.domain.datasets) && z.domain.datasets.Keys == s.domain.datasets.Keys;
    assert Restatused(s.domain.transformations, s.domain.transformations);
    hide TransformationsOk, TasksOk, DescriptionsOk, ProfilersOk, LiveOk, LeasesOk, HistoryOk, ReceiptsOk, Fresh,
      OwnDataset, Restated, Restatused, ActiveTasks;
    NewRowKeepsArtifacts(s.tasks.rows, s.storage.artifacts, s.storage.writers, s.domain.transformations, s.env.now,
                         s.env.nextId, z.env.nextId, task, row);
    RestatusKeepsTransformations(s.domain.transformations, s.domain.transformations, s.storage.snapshots,
                                 s.storage.writers, s.env.nextId, z.env.nextId);
    RestatementKeepsDescriptions(s.domain.datasets, z.domain.datasets, s.storage.snapshots);
    RestatusKeepsHistory(s.domain.datasets, z.domain.datasets, s.domain.events, s.domain.transformations,
                         s.domain.transformations, s.intake.uploads);
  }

  lemma RegisteredKeepsInv(s: State, task: nat, row: Row, z: State)
    requires Inv(s) && Registered(s, task, row, z)
    ensures Inv(z)
  {
    hide StorageOk, JobsOk, RecordsOk, Registered;
    RegisteredKeepsStorage(s, task, row, z);
    RegisteredKeepsJobs(s, task, row, z);
    RegisteredKeepsRecords(s, task, row, z);
  }

  lemma InvPlacesDatasets(s: State)
    requires Inv(s)
    ensures PlacedDatasets(s)
  {
    hide ManifestsOk, FilesOk, VersionsUnique, ArtifactsOk, WritersOk, DoomedOk, RowsOk, ImportsOk, RunsAgree,
      EvaluationsAgree, CapacityOk, RecordsOk;
  }

  lemma ReserveImportRegisters(s: State, task: nat, owner: nat)
    requires PlacedDatasets(s)
    ensures var z := ReserveImport(s, task, owner);
            z == s || Registered(s, task, z.tasks.rows[task], z)
  {
    hide ActiveTasks;
  }

  lemma AdmitJobRegisters(s: State, task: nat, d: nat, kind: Kind)
    requires PlacedDatasets(s)
    ensures var z := AdmitJob(s, task, d, kind);
            z == s || (task in z.tasks.rows && Registered(s, task, z.tasks.rows[task], z))
  {
    hide ActiveTasks, ProfileActive;
  }

  lemma ReserveImportKeepsInv(s: State, task: nat, owner: nat)
    requires Inv(s)
    ensures Inv(ReserveImport(s, task, owner))
  {
    InvPlacesDatasets(s);
    ReserveImportRegisters(s, task, owner);
    hide Inv, Registered, ReserveImport;
    var z := ReserveImport(s, task, owner);
    if z != s { RegisteredKeepsInv(s, task, z.tasks.rows[task], z); }
  }

  lemma AdmitJobKeepsInv(s: State, task: nat, d: nat, kind: Kind)
    requires Inv(s)
    ensures Inv(AdmitJob(s, task, d, kind))
  {
    InvPlacesDatasets(s);
    AdmitJobRegisters(s, task, d, kind);
    hide Inv, Registered, AdmitJob;
    var z := AdmitJob(s, task, d, kind);
    if z != s { RegisteredKeepsInv(s, task, z.tasks.rows[task], z); }
  }

  // ---------------------------------------------------------------- transformations

  lemma NewRunKeepsTransformations(a: map<nat, Transformation>, snapshots: map<Path, Snapshot>,
                                   writers: map<Path, Writer>, nextId: nat, issued: nat,
                                   x: nat, record: Transformation)
    requires TransformationsOk(a, snapshots, writers, nextId) && TasksOk(a, writers)
    requires nextId <= x < issued && record.status.Admitted? && record.outputPath.Prepared?
        && Issued(record.outputPath, issued)
    requires record.inputPath in snapshots && snapshots[record.inputPath].dataset == record.dataset
    requires snapshots[record.inputPath].availability.Available?
    requires !TaskUsed(a, record.task)
    ensures TransformationsOk(a[x := record], snapshots, writers, issued) && TasksOk(a[x := record], writers)
  {
    hide OutputOk;
  }

  lemma NewRunKeepsRuns(rows: map<nat, Row>, a: map<nat, Transformation>, evaluations: map<nat, Evaluation>, task: nat,
                        row: Row, x: nat, record: Transformation)
    requires RunsAgree(rows, a) && EvaluationsAgree(rows, evaluations) && task !in rows && x !in a
    requires Fresh(row) && row.job.kind.Transform? && row.job.transformation == Some(x)
        && row.job.dataset == Some(record.dataset)
    requires row.job.owner == record.user && record.task == task && record.status.Admitted?
    ensures RunsAgree(rows[task := row], a[x := record]) && EvaluationsAgree(rows[task := row], evaluations)
  {
    hide Sound;
  }

  lemma NewRunKeepsTargets(rows: map<nat, Row>, a: map<nat, Transformation>, profilers: map<Token, Profiler>,
                           datasets: map<nat, Dataset>,
                           x: nat, record: Transformation)
    requires TargetsOk(rows, a, profilers, datasets)
    requires record.dataset in datasets && datasets[record.dataset].Imported()
    ensures TargetsOk(rows, a[x := record], profilers, datasets)
  {
  }

  lemma NewRunKeepsLive(artifacts: map<Path, Artifact>, writers: map<Path, Writer>, a: map<nat, Transformation>,
                        rows: map<nat, Row>, x: nat, record: Transformation)
    requires LiveOk(artifacts, writers, a, rows) && x !in a
    ensures LiveOk(artifacts, writers, a[x := record], rows)
  {
  }

  lemma NewRunKeepsHistory(datasets: map<nat, Dataset>, events: map<nat, seq<Event>>, a: map<nat, Transformation>,
                           uploads: map<nat, Upload>,
                           x: nat, record: Transformation)
    requires HistoryOk(datasets, events, a, uploads) && x !in a && record.status.Admitted?
    ensures HistoryOk(datasets, events, a[x := record], uploads)
  {
    forall d | d in datasets ensures HistoryOf(d, datasets[d], events[d], a[x := record], uploads[d].path) {
      NewRunKeepsStack(Stack(events[d]), d, a, uploads[d].path, x, record);
      hide Stack, Top, StackOk, LogOk;
    }
    hide HistoryOf;
  }

  lemma NewRunKeepsStack(stack: seq<nat>, d: nat, a: map<nat, Transformation>, staged: Path, x: nat,
                         record: Transformation)
    requires StackOk(stack, d, a, staged) && x !in a && record.status.Admitted?
    ensures StackOk(stack, d, a[x := record], staged)
    ensures Top(stack, a[x := record], staged) == Top(stack, a, staged)
  {
  }

  /** One fresh transformation job, its record, and a dataset moved to TRANSFORMING. */
  ghost predicate RunRegistered(s: State, task: nat, row: Row, x: nat, record: Transformation, z: State) {
    && task !in s.tasks.rows && Fresh(row) && row.job.kind.Transform? && HasCapacity(s, row.job.owner)
    && x == s.env.nextId && z.env == s.env.(nextId := s.env.nextId + 3)
    && PlacedTarget(s, record.dataset) && record.inputPath == s.domain.datasets[record.dataset].storedPath
    && record.outputPath == Prepared(s.env.nextId + 2) && record.status.Admitted?
    && !TaskUsed(s.domain.transformations, task)
    && row.job.transformation == Some(x) && row.job.dataset == Some(record.dataset) && row.job.owner == record.user
        && record.task == task
    && OwnDataset(row.job, s.domain.datasets, z.domain.datasets)
    && z.tasks.rows == s.tasks.rows[task := row]
    && z.domain == s.domain.(datasets := z.domain.datasets, transformations := s.domain.transformations[x := record])
    && z.storage == s.storage && z.intake == s.intake
  }

  lemma RunRegisteredKeepsStorage(s: State, task: nat, row: Row, x: nat, record: Transformation, z: State)
    requires StorageOk(s) && RunRegistered(s, task, row, x, record, z)
    ensures StorageOk(z)
  {
    assert Restated(s.domain.datasets, z.domain.datasets);
    RestatementKeepsHeads(s.domain.datasets, z.domain.datasets);
    hide HeadsOk, ManifestsOk, FilesOk, VersionsUnique, ArtifactsOk, WritersOk, DoomedOk, Fresh, SameHeads,
      OwnDataset, Restated, ActiveTasks, TaskUsed;
    SameHeadsKeepsStorage(s, z.domain.datasets);
    IssuingKeepsStorage(s.(domain := s.domain.(datasets := z.domain.datasets)), z.env.nextId);
  }

  lemma RunRegisteredKeepsJobs(s: State, task: nat, row: Row, x: nat, record: Transformation, z: State)
    requires JobsOk(s) && RunRegistered(s, task, row, x, record, z) && x !in s.domain.transformations
    ensures JobsOk(z)
  {
    assert z.domain.datasets.Keys == s.domain.datasets.Keys && z.domain.datasets[record.dataset].Imported();
    hide RowsOk, ImportsOk, TargetsOk, RunsAgree, EvaluationsAgree, CapacityOk, Fresh, OwnDataset, ActiveTasks,
      TaskUsed;
    NewRowKeepsRows(s.tasks.rows, task, row, s.env.nextId, z.env.nextId);
    NewRowKeepsCapacity(s.tasks.rows, s.env.settings.maxActiveJobs, task, row);
    NewRowKeepsTargets(s.tasks.rows, s.domain.transformations, s.domain.profilers, s.domain.datasets, z.domain.datasets,
                       s.intake.uploads, task, row);
    NewRunKeepsTargets(z.tasks.rows, s.domain.transformations, s.domain.profilers, z.domain.datasets, x, record);
    NewRunKeepsRuns(s.tasks.rows, s.domain.transformations, s.domain.evaluations, task, row, x, record);
  }

  lemma RunRegisteredFacts(s: State, task: nat, row: Row, x: nat, record: Transformation, z: State)
    requires HeadsOk(s.domain.datasets, s.storage.snapshots, s.intake.uploads, s.env.nextId)
    requires RunRegistered(s, task, row, x, record, z)
    ensures Restated(s.domain.datasets, z.domain.datasets) && z.domain.datasets.Keys == s.domain.datasets.Keys
    ensures Restatused(s.domain.transformations, s.domain.transformations)
    ensures record.inputPath in s.storage.snapshots && s.storage.snapshots[record.inputPath].dataset == record.dataset
    ensures s.storage.snapshots[record.inputPath].availability.Available?
  {
    hide Fresh, ActiveTasks, TaskUsed;
  }

  lemma RunRegisteredKeepsRecords(s: State, task: nat, row: Row, x: nat, record: Transformation, z: State)
    requires RecordsOk(s) && RunRegistered(s, task, row, x, record, z) && x !in s.domain.transformations
    requires HeadsOk(s.domain.datasets, s.storage.snapshots, s.intake.uploads, s.env.nextId)
    ensures RecordsOk(z)
  {
    RunRegisteredFacts(s, task, row, x, record, z);
    hide HeadsOk, TransformationsOk, TasksOk, DescriptionsOk, ProfilersOk, LiveOk, LeasesOk, HistoryOk,
      ReceiptsOk, Fresh, OwnDataset,
      Restated, Restatused, HasCapacity, TaskUsed, PlacedTarget;
    NewRowKeepsArtifacts(s.tasks.rows, s.storage.artifacts, s.storage.writers, s.domain.transformations, s.env.now,
                         s.env.nextId, z.env.nextId, task, row);
    NewRunKeepsLive(s.storage.artifacts, s.storage.writers, s.domain.transformations, z.tasks.rows, x, record);
    NewRunKeepsTransformations(s.domain.transformations, s.storage.snapshots, s.storage.writers, s.env.nextId,
                               z.env.nextId, x, record);
    RestatementKeepsDescriptions(s.domain.datasets, z.domain.datasets, s.storage.snapshots);
    RestatusKeepsHistory(s.domain.datasets, z.domain.datasets, s.domain.events, s.domain.transformations,
                         s.domain.transformations, s.intake.uploads);
    NewRunKeepsHistory(z.domain.datasets, s.domain.events, s.domain.transformations, s.intake.uploads, x, record);
  }

  lemma AdmitTransformationRegisters(s: State, task: nat, d: nat, user: nat, version: nat, key: nat, operation: int)
    requires PlacedDatasets(s)
    ensures var z := AdmitTransformation(s, task, d, user, version, key, operation);
            z == s || (task in z.tasks.rows && s.env.nextId in z.domain.transformations
                       && RunRegistered(s, task, z.tasks.rows[task], s.env.nextId,
                                        z.domain.transformations[s.env.nextId], z))
  {
    hide ActiveTasks, KeyUsed, TaskUsed;
  }

  lemma AdmitTransformationKeepsInv(s: State, task: nat, d: nat, user: nat, version: nat, key: nat, operation: int)
    requires Inv(s)
    ensures Inv(AdmitTransformation(s, task, d, user, version, key, operation))
  {
    InvPlacesDatasets(s);
    AdmitTransformationRegisters(s, task, d, user, version, key, operation);
    assert s.env.nextId !in s.domain.transformations by { assert TransformationsOk(s.domain.transformations,
        s.storage.snapshots, s.storage.writers, s.env.nextId); }
    hide JobsOk, RecordsOk, HeadsOk, ManifestsOk, FilesOk, VersionsUnique, ArtifactsOk, WritersOk, DoomedOk,
      RunRegistered, AdmitTransformation;
    var z := AdmitTransformation(s, task, d, user, version, key, operation);
    if z != s {
      var row, x, record := z.tasks.rows[task], s.env.nextId, z.domain.transformations[s.env.nextId];
      RunRegisteredKeepsStorage(s, task, row, x, record, z);
      RunRegisteredKeepsJobs(s, task, row, x, record, z);
      RunRegisteredKeepsRecords(s, task, row, x, record, z);
    }
  }
}
