/** Every step only goes forward: one lemma for each kind of effect. */
module ForwardProof {
  import opened Prelude
  import opened JobService
  import opened TaskProtocol
  import opened Tables
  import opened ArtifactService
  import opened Protocol
  import opened Invariants
  import opened ForwardOnly
  import opened StorageProof
  import opened JobsProof
  import opened RecordsProof
  import opened MovesProof
  import opened AdmissionProof
  import opened IntakeProof
  import opened UpkeepProof
  import opened ProfileProof
  import opened HistoryProof
  import opened PublicationProof
  import opened UndoProof

  lemma RestatementIsForward(a: map<nat, Dataset>, b: map<nat, Dataset>)
    requires Restated(a, b)
    ensures DatasetsForward(a, b)
  {
  }

  lemma RestatusIsForward(a: map<nat, Transformation>, b: map<nat, Transformation>)
    requires Restatused(a, b)
    ensures RunsForward(a, b)
  {
  }

  lemma ReschedulingIsForward(a: map<Path, Artifact>, b: map<Path, Artifact>, snapshots: map<Path, Snapshot>,
                              nextId: nat)
    requires Rescheduled(a, b, snapshots, nextId)
    ensures ArtifactsForward(a, b)
    ensures forall p | p in b && p !in a :: p.Prepared? || p in snapshots
  {
  }

  /** The components of `Forward` that an effect leaves alone. */
  lemma UnchangedIsForward(s: State)
    ensures EnvironmentForward(s.env, s.env) && DatasetsForward(s.domain.datasets, s.domain.datasets)
    ensures RunsForward(s.domain.transformations, s.domain.transformations)
        && EventsForward(s.domain.events, s.domain.events)
    ensures ManifestsForward(s.storage.snapshots, s.storage.snapshots)
        && ArtifactsForward(s.storage.artifacts, s.storage.artifacts)
    ensures OnlyFresh(s.storage, s.env.nextId, s.storage)
    ensures IntakeForward(s.intake, s.intake)
        && forall doomed: set<Path> {:trigger AbortsForward(s.intake, s.intake, doomed)} ::
        AbortsForward(s.intake, s.intake, doomed)
  {
  }

  lemma MovedIsForward(s: State, task: nat, act: Act, z: State)
    requires Moved(s, task, act, z) && Releases(s, z)
    ensures Forward(s, z)
  {
    hide Fires, Perform, OwnImport, OwnEvaluation, Agree;
    UnchangedIsForward(s);
    assert Restated(s.domain.datasets, z.domain.datasets);
    hide Restated, Restatused, DatasetsForward, RunsForward, EventsForward, ManifestsForward, ArtifactsForward,
      IntakeForward, AbortsForward, Rescheduled;
    OwnFacts(s.tasks.rows[task].job, z.tasks.rows[task].job, s.domain.datasets, z.domain.datasets,
             s.domain.transformations, z.domain.transformations);
    RestatementIsForward(s.domain.datasets, z.domain.datasets);
    RestatusIsForward(s.domain.transformations, z.domain.transformations);
    ReschedulingIsForward(s.storage.artifacts, z.storage.artifacts, s.storage.snapshots, s.env.nextId);
  }

  lemma RegisteredIsForward(s: State, task: nat, row: Row, z: State)
    requires Registered(s, task, row, z)
    ensures Forward(s, z)
  {
    assert Restated(s.domain.datasets, z.domain.datasets);
    hide Fresh, HasCapacity, Restated, DatasetsForward, RunsForward, EventsForward, ManifestsForward,
      ArtifactsForward, OnlyFresh, IntakeForward, AbortsForward;
    UnchangedIsForward(s);
    RestatementIsForward(s.domain.datasets, z.domain.datasets);
  }

  lemma RunRegisteredIsForward(s: State, task: nat, row: Row, x: nat, record: Transformation, z: State)
    requires RunRegistered(s, task, row, x, record, z) && x !in s.domain.transformations
    ensures Forward(s, z)
  {
    assert Restated(s.domain.datasets, z.domain.datasets);
    hide Fresh, HasCapacity, Restated, DatasetsForward, EventsForward, ManifestsForward, ArtifactsForward,
      OnlyFresh, IntakeForward, AbortsForward, TaskUsed;
    UnchangedIsForward(s);
    RestatementIsForward(s.domain.datasets, z.domain.datasets);
  }

  lemma StagedIsForward(s: State, task: nat, moved: Row, dataset: Dataset, manifest: Snapshot, z: State)
    requires Staged(s, task, moved, dataset, manifest, z) && z.storage.doomed == s.storage.doomed
        && z.intake.aborted == s.intake.aborted
    requires s.env.nextId !in s.domain.events && s.env.nextId !in s.intake.uploads
    ensures Forward(s, z)
  {
  }

  lemma ImportedIsForward(s: State, task: nat, d: nat, z: State)
    requires Imported(s, task, d, z)
    ensures Forward(s, z)
  {
    hide Sound, Agree, EvaluationAgrees, EventsForward, ManifestsForward, ArtifactsForward, IntakeForward,
      AbortsForward, RunsForward;
    UnchangedIsForward(s);
  }

  lemma StorageOnlyIsForward(s: State, z: State)
    requires StorageOnly(s, z)
    ensures Forward(s, z)
  {
    hide LiveAttempt, MoreWriters;
  }

  lemma SweptIsForward(s: State, z: State)
    requires Swept(s, z)
    ensures Forward(s, z)
  {
    hide OwnImport, Restated, DatasetsForward, EventsForward, ManifestsForward, ArtifactsForward, IntakeForward,
      AbortsForward, RunsForward;
    UnchangedIsForward(s);
    RestatementIsForward(s.domain.datasets, z.domain.datasets);
  }

  /** Steps that change rows, profilers, the clock or acknowledged uploads only. */
  lemma QuietIsForward(s: State, z: State)
    requires z.domain == s.domain.(profilers := z.domain.profilers) && z.storage == s.storage
    requires EnvironmentForward(s.env, z.env)
    requires z.intake == s.intake.(uploading := z.intake.uploading) && z.intake.uploading <= s.intake.uploading
    ensures Forward(s, z)
  {
    hide DatasetsForward, EventsForward, ManifestsForward, ArtifactsForward, RunsForward;
    UnchangedIsForward(s);
  }

  lemma NewHeadIsForward(a: map<nat, Dataset>, d: nat, head: Dataset)
    requires d in a && a[d].Imported() && a[d].Retained() && head.status.Ready? && head.owner == a[d].owner
        && head.version >= a[d].version
    ensures DatasetsForward(a, a[d := head])
  {
  }

  lemma NewStatusIsForward(a: map<nat, Transformation>, x: nat, record: Transformation)
    requires x in a && SameRequest(a[x], record) && !a[x].status.Undone?
    requires a[x].Published() ==> record.Published() && record == a[x].(status := record.status)
    requires !record.status.Admitted?
    ensures RunsForward(a, a[x := record])
  {
  }

  lemma AppendIsForward(a: map<nat, seq<Event>>, d: nat, event: Event)
    requires d in a
    ensures EventsForward(a, a[d := a[d] + [event]])
  {
  }

  lemma NewManifestIsForward(a: map<Path, Snapshot>, path: Path, manifest: Snapshot)
    requires path !in a
    ensures ManifestsForward(a, a[path := manifest])
  {
  }

  lemma LiveIsForward(a: map<Path, Artifact>, path: Path)
    requires path in a && a[path].state.Reserved?
    ensures ArtifactsForward(a, a[path := a[path].(state := Live, expiresAt := None)])
  {
  }

  lemma PublicationIsForward(s: State, task: nat, token: Token, final: Path, w: Written, z: State)
    requires PublicationWrites(s, task, token, final, w, z) && final !in s.storage.snapshots && final.Output?
    requires w.record.dataset in s.domain.datasets && s.domain.datasets[w.record.dataset].Imported()
        && w.record.dataset in s.domain.events
    ensures Forward(s, z)
  {
    hide Fires, Perform, IntakeForward, AbortsForward, DatasetsForward, RunsForward, EventsForward,
      ManifestsForward, ArtifactsForward;
    UnchangedIsForward(s);
    NewHeadIsForward(s.domain.datasets, w.record.dataset, w.head);
    NewStatusIsForward(s.domain.transformations, w.x, w.record);
    AppendIsForward(s.domain.events, w.record.dataset, w.event);
    NewManifestIsForward(s.storage.snapshots, final, w.manifest);
    LiveIsForward(s.storage.artifacts, final);
  }

  lemma UndoingIsForward(s: State, d: nat, x: nat, head: Dataset, event: Event, z: State)
    requires Undoing(s, d, x, head, event, z)
    ensures Forward(s, z)
  {
    hide Replay, IntakeForward, AbortsForward, DatasetsForward, RunsForward, EventsForward, ManifestsForward,
      ArtifactsForward;
    UnchangedIsForward(s);
    NewHeadIsForward(s.domain.datasets, d, head);
    NewStatusIsForward(s.domain.transformations, x, s.domain.transformations[x].(status := Undone));
    AppendIsForward(s.domain.events, d, event);
  }

  lemma AbortIsForward(s: State, d: nat)
    ensures Forward(s, AbortUpload(s, d))
  {
    hide Fires, Perform, DatasetsForward, EventsForward, ManifestsForward, ArtifactsForward, RunsForward;
    UnchangedIsForward(s);
  }

  /** Storing a profile changes nothing that `Forward` compares. */
  lemma DescribedIsForward(s: State, d: nat, profile: Option<Profile>)
    requires d in s.domain.datasets
    ensures var described := s.domain.datasets[d].(profile := profile);
            Forward(s, s.(domain := s.domain.(datasets := s.domain.datasets[d := described])))
  {
    hide EventsForward, ManifestsForward, ArtifactsForward, RunsForward, IntakeForward, AbortsForward;
    UnchangedIsForward(s);
  }

  // ---------------------------------------------------------------- by step

  lemma ReservationsAreForward(s: State, task: nat, owner: nat)
    requires Inv(s)
    ensures Forward(s, ReserveImport(s, task, owner)) && Forward(s, FailReservation(s, task))
  {
    ForwardIsReflexive(s);
    InvPlacesDatasets(s);
    hide Inv, Forward, Registered, PlacedDatasets, Moved, Releases, Placed, FailReservation;
    if FailReservation(s, task) != s {
      FailsOnlyKnown(s, task);
      InvPlaces(s, task);
      FailReservationMoves(s, task);
      MovedIsForward(s, task, Fail(None), FailReservation(s, task));
    }
    hide ReserveImport;
    var z := ReserveImport(s, task, owner);
    ReserveImportRegisters(s, task, owner);
    if z != s { RegisteredIsForward(s, task, z.tasks.rows[task], z); }
  }

  lemma FailsOnlyKnown(s: State, task: nat)
    ensures FailReservation(s, task) != s ==> task in s.tasks.rows
  {
  }

  lemma StagingIsForward(s: State, task: nat, content: Bytes)
    requires Inv(s)
    ensures Forward(s, StageUpload(s, task, content))
  {
    ForwardIsReflexive(s);
    NextIdIsNew(s);
    hide Inv, Forward, StageUpload, Staged;
    var z := StageUpload(s, task, content);
    if z != s {
      var d := s.env.nextId;
      StageUploadFrame(s, task, content);
      StageFacts(s, task, content);
      StagedIsForward(s, task, z.tasks.rows[task], z.domain.datasets[d], z.storage.snapshots[Output(d + 1)], z);
    }
  }

  lemma AdmitJobIsForward(s: State, task: nat, d: nat, kind: Kind)
    requires Inv(s)
    ensures Forward(s, AdmitJob(s, task, d, kind))
  {
    ForwardIsReflexive(s);
    InvPlacesDatasets(s);
    hide Inv, Forward, AdmitJob, Registered, PlacedDatasets;
    var z := AdmitJob(s, task, d, kind);
    AdmitJobRegisters(s, task, d, kind);
    if z != s { RegisteredIsForward(s, task, z.tasks.rows[task], z); }
  }

  lemma AdmitTransformationIsForward(s: State, task: nat, d: nat, user: nat, version: nat, key: nat, operation: int)
    requires Inv(s)
    ensures Forward(s, AdmitTransformation(s, task, d, user, version, key, operation))
  {
    ForwardIsReflexive(s);
    InvPlacesDatasets(s);
    NextIdIsNew(s);
    hide Inv, Forward, AdmitTransformation, RunRegistered, PlacedDatasets;
    var z, x := AdmitTransformation(s, task, d, user, version, key, operation), s.env.nextId;
    AdmitTransformationRegisters(s, task, d, user, version, key, operation);
    if z != s { RunRegisteredIsForward(s, task, z.tasks.rows[task], x, z.domain.transformations[x], z); }
  }

  lemma AdmissionIsForward(s: State, step: Admission)
    requires Inv(s)
    ensures Forward(s, AfterAdmission(s, step))
  {
    hide Inv, Forward, ReserveImport, FailReservation, StageUpload, AcknowledgeUpload, AbortUpload, AdmitJob,
      AdmitTransformation;
    match step {
      case ReserveImportStep(t, owner) => ReservationsAreForward(s, t, owner);
      case FailReservationStep(t) => ReservationsAreForward(s, t, 0);
      case StageUploadStep(t, content) => StagingIsForward(s, t, content);
      case AcknowledgeUploadStep(d) => AcknowledgeIsForward(s, d);
      case AbortUploadStep(d) => AbortIsForward(s, d);
      case AdmitJobStep(t, d, kind) => AdmitJobIsForward(s, t, d, kind);
      case AdmitTransformationStep(t, d, user, version, key, operation) =>
        AdmitTransformationIsForward(s, t, d, user, version, key, operation);
    }
  }

  lemma AcknowledgeIsForward(s: State, d: nat)
    ensures Forward(s, AcknowledgeUpload(s, d))
  {
    QuietIsForward(s, AcknowledgeUpload(s, d));
  }

  lemma StageUploadFrame(s: State, task: nat, content: Bytes)
    requires Inv(s)
    ensures StorageOk(s)
    ensures StageUpload(s, task, content).storage.doomed == s.storage.doomed
        && StageUpload(s, task, content).intake.aborted == s.intake.aborted
  {
    hide Fires, Perform, StorageOk, JobsOk, RecordsOk;
  }

  lemma NextIdIsNew(s: State)
    requires Inv(s)
    ensures s.env.nextId !in s.domain.transformations && s.env.nextId !in s.intake.uploads
        && s.env.nextId !in s.domain.datasets
    ensures s.env.nextId !in s.domain.events
  {
    hide ManifestsOk, FilesOk, VersionsUnique, ArtifactsOk, WritersOk, DoomedOk, JobsOk,
      TasksOk, DescriptionsOk, ProfilersOk, LiveOk, LeasesOk, ReceiptsOk, OutputOk, HistoryOf;
  }

  lemma ProfilingIsForward(s: State, step: Profiling)
    requires Inv(s)
    ensures Forward(s, AfterProfiling(s, step))
  {
    ForwardIsReflexive(s);
    match step {
      case BeginProfileStep(t, token) => BeginProfileIsForward(s, t, token);
      case ComputeProfileStep(token) => QuietIsForward(s, ComputeProfile(s, token));
      case PublishProfileStep(t, token) => PublishProfileIsForward(s, t, token);
    }
  }

  lemma BeginProfileIsForward(s: State, task: nat, token: Token)
    requires Inv(s)
    ensures Forward(s, BeginProfile(s, task, token))
  {
    ForwardIsReflexive(s);
    hide Inv, Placed, Moved, Releases, Forward;
    if BeginProfile(s, task, token) != s {
      assert task in s.tasks.rows;
      hide BeginProfile, Fires, Perform;
      InvPlaces(s, task);
      BeginProfileCases(s, task, token);
      var z, job := BeginProfile(s, task, token), s.tasks.rows[task].job;
      if RowFires(s, task, Succeed(token)) && z == OnRow(s, task, Succeed(token)) {
        RowMoves(s, task, Succeed(token));
        MovedIsForward(s, task, Succeed(token), z);
      } else {
        ProfileBegunMoves(s, task, token, job.dataset.value);
        var begun := ProfileBegun(s, task, token, job.dataset.value);
        MovedIsForward(s, task, Renew(token, JOB_LEASE_SECONDS, Some(15)), begun);
        hide ProfileBegun;
        QuietIsForward(begun, z);
        ForwardIsTransitive(s, begun, z);
      }
    }
  }

  lemma PublishProfileIsForward(s: State, task: nat, token: Token)
    requires Inv(s)
    ensures Forward(s, PublishProfile(s, task, token))
  {
    ForwardIsReflexive(s);
    hide Inv, Placed, Moved, Releases, Fires, Perform, Forward;
    if MayPublishProfile(s, task, token) {
      PublishProfileCases(s, task, token);
      hide MayPublishProfile, PublishProfile;
      var p := s.domain.profilers[token];
      InvPlaces(s, task);
      ProfiledMoves(s, task, token, p.dataset);
      var z := ProfileStored(s, task, token, p.dataset);
      MovedIsForward(s, task, Succeed(token), z);
      DescribedIsForward(z, p.dataset, p.result);
      ForwardIsTransitive(s, z, PublishProfile(s, task, token));
    }
  }

  lemma CompleteImportIsForward(s: State, task: nat, token: Token)
    requires Inv(s)
    ensures Forward(s, CompleteImport(s, task, token))
  {
    ForwardIsReflexive(s);
    hide Inv, CompleteImport, Imported, Placed, Forward;
    if CompleteImport(s, task, token) != s {
      ImportFires(s, task, token);
      InvPlaces(s, task);
      CompleteImportFacts(s, task, token);
      ImportedIsForward(s, task, s.tasks.rows[task].job.dataset.value, CompleteImport(s, task, token));
    }
  }

  lemma PublishIsForward(s: State, task: nat, token: Token, final: Path)
    requires Inv(s)
    ensures Forward(s, Publish(s, task, token, final))
  {
    ForwardIsReflexive(s);
    hide Inv, PublicationWrites, Forward;
    if MayPublish(s, task, token, final) {
      PublishPreconditions(s, task, token, final);
      var w := PublishWrites(s, task, token, final);
      PublishedDataset(s, task, token, final, w);
      hide Publish, MayPublish, PublishesImported;
      PublicationIsForward(s, task, token, final, w, Publish(s, task, token, final));
    }
  }

  lemma PublishedDataset(s: State, task: nat, token: Token, final: Path, w: Written)
    requires Inv(s) && MayPublish(s, task, token, final) && PublishesImported(s, task, token, final)
    requires PublicationWrites(s, task, token, final, w, Publish(s, task, token, final))
    ensures w.record.dataset in s.domain.datasets && s.domain.datasets[w.record.dataset].Imported()
        && w.record.dataset in s.domain.events
  {
    hide Publish, Fires, Perform, WrittenHead, Inv;
    assert w.record.dataset == s.domain.transformations[w.x].dataset;
    DatasetsAreLogged(s, w.record.dataset);
  }

  lemma UndoIsForward(s: State, d: nat, user: nat, version: nat, key: Option<nat>, x: nat)
    requires Inv(s)
    ensures Forward(s, Undo(s, d, user, version, key, x))
  {
    ForwardIsReflexive(s);
    hide Inv, Undoing, Forward, Replay;
    if MayUndo(s, d, user, version, key, x) {
      assert d in s.domain.datasets;
      hide MayUndo;
      DatasetsAreLogged(s, d);
      UndoIsUndoing(s, d, user, version, key, x);
      var z := Undo(s, d, user, version, key, x);
      assert d in z.domain.datasets;
      UndoingIsForward(s, d, x, z.domain.datasets[d],
                       UndoEventOf(x, s.domain.transformations[x], s.env.nextId, user, version, key), z);
    }
  }

  lemma StorageStepsAreForward(s: State, task: nat, token: Token, final: Path, target: Path, content: Bytes)
    requires Inv(s)
    ensures Forward(s, ReserveOutput(s, task, token)) && Forward(s, ReservePreview(s, task, token))
    ensures Forward(s, WriteScratch(s, final, target, content)) && Forward(s, RenameUnpublished(s, final))
        && Forward(s, DropTemporary(s, final))
    ensures Forward(s, AbandonAttemptOf(s, task, token))
  {
    hide HeadsOk, ManifestsOk, FilesOk, VersionsUnique, ArtifactsOk, WritersOk, DoomedOk, JobsOk, RecordsOk,
      StorageOnly, Forward, ReserveOutput, ReservePreview, WriteScratch, RenameUnpublished, DropTemporary,
      AbandonAttemptOf;
    ReservationsAreStorageOnly(s, task, token);
    WritersAreStorageOnly(s, final, target, content);
    AbandonIsStorageOnly(s, task, token);
    StorageOnlyIsForward(s, ReserveOutput(s, task, token));
    StorageOnlyIsForward(s, ReservePreview(s, task, token));
    StorageOnlyIsForward(s, WriteScratch(s, final, target, content));
    StorageOnlyIsForward(s, RenameUnpublished(s, final));
    StorageOnlyIsForward(s, DropTemporary(s, final));
    StorageOnlyIsForward(s, AbandonAttemptOf(s, task, token));
  }

  lemma CollectionStepsAreForward(s: State, path: Path, pinned: bool)
    requires Inv(s)
    ensures Forward(s, ExpireSnapshot(s, path)) && Forward(s, PinSnapshot(s, path, pinned))
    ensures Forward(s, Collect(s, path)) && Forward(s, Unlink(s, path)) && Forward(s, FinishDeletion(s, path))
  {
    hide StorageOnly, Forward, ExpireSnapshot, PinSnapshot, Collect, Unlink, FinishDeletion;
    hide StorageOk, JobsOk, RecordsOk, RunsAgree, TransformationsOk;
    RunTablesOk(s);
    ExpiryIsStorageOnly(s, path);
    PinningIsStorageOnly(s, path, pinned);
    CollectionIsStorageOnly(s, path);
    StorageOnlyIsForward(s, ExpireSnapshot(s, path));
    StorageOnlyIsForward(s, PinSnapshot(s, path, pinned));
    StorageOnlyIsForward(s, Collect(s, path));
    StorageOnlyIsForward(s, Unlink(s, path));
    StorageOnlyIsForward(s, FinishDeletion(s, path));
  }

  lemma UpkeepIsForward(s: State, step: Upkeep)
    requires Inv(s)
    ensures Forward(s, AfterUpkeep(s, step))
  {
    ForwardIsReflexive(s);
    hide Inv, Forward, ExpireSnapshot, Collect, Unlink, FinishDeletion, SweepDataset, SweepTransformation, Swept;
    match step {
      case ExpireStep(path) => CollectionStepsAreForward(s, path, false);
      case CollectStep(path) => CollectionStepsAreForward(s, path, false);
      case UnlinkStep(path) => CollectionStepsAreForward(s, path, false);
      case FinishStep(path) => CollectionStepsAreForward(s, path, false);
      case PurgeStep(t) => QuietIsForward(s, PurgeJob(s, t));
      case SweepDatasetStep(d) =>
        if SweepDataset(s, d) != s {
          SweepDatasetSweeps(s, d);
          SweptIsForward(s, SweepDataset(s, d));
        }
      case SweepTransformationStep(x) => SweepTransformationFindsNothing(s, x);
      case ReportsStep(paths) => QuietIsForward(s, s.(env := s.env.(reports := paths)));
    }
  }
}
