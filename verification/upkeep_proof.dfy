/** Steps that move no job: storage work, retention, collection, sweeps and the clock. */
module UpkeepProof {
  import opened Prelude
  import opened JobService
  import opened TaskProtocol
  import opened Tables
  import opened ArtifactService
  import opened Protocol
  import opened Invariants
  import opened StorageProof
  import opened JobsProof
  import opened RecordsProof
  import opened MovesProof
  import opened ForwardOnly

  // ---------------------------------------------------------------- storage work

  /** Manifests keep their dataset, version and digest, and expired ones stay expired. */
  ghost predicate SameContent(a: map<Path, Snapshot>, b: map<Path, Snapshot>) {
    && a.Keys == b.Keys
    && forall p | p in a ::
      && b[p].dataset == a[p].dataset && b[p].version == a[p].version && b[p].digest == a[p].digest
      && b[p].createdAt == a[p].createdAt
      && (a[p].availability.Expired? ==> b[p].availability.Expired?)
  }

  /** What an admitted transformation is about to read does not expire. */
  ghost predicate InputsKept(transformations: map<nat, Transformation>, a: map<Path, Snapshot>,
                             b: map<Path, Snapshot>) {
    forall x | x in transformations && transformations[x].status.Admitted? && transformations[x].inputPath in a ::
      transformations[x].inputPath in b && b[transformations[x].inputPath].availability
          == a[transformations[x].inputPath].availability
  }

  ghost predicate MoreWriters(a: map<Path, Writer>, b: map<Path, Writer>, transformations: map<nat, Transformation>) {
    && (forall p | p in a :: p in b && b[p] == a[p].(finished := b[p].finished) && (a[p].finished ==> b[p].finished))
    && (forall p | p in b && p !in a && b[p].transformation.Some? ::
          b[p].transformation.value in transformations && transformations[b[p].transformation.value].task == b[p].task)
  }

  /** Artifacts keep their attempt; none becomes live, and none of a live attempt is condemned. */
  ghost predicate Aged(a: map<Path, Artifact>, b: map<Path, Artifact>, snapshots: map<Path, Snapshot>,
                       rows: map<nat, Row>,
                       now: Time, nextId: nat, issued: nat) {
    && (forall p | p in a ::
          && p in b && b[p].task == a[p].task && b[p].attemptToken == a[p].attemptToken
          && b[p].temporaryPath == a[p].temporaryPath && Later(a[p].state, b[p].state)
          && (b[p].state.Live? ==> a[p].state.Live?)
          && (b[p].state.Deleting? || b[p].state.Deleted? ==>
                  a[p].state.Deleting? || a[p].state.Deleted? || !LiveAttempt(rows, a[p], now)))
    && (forall p | p in b && p !in a ::
            b[p].state.Reserved? && (b[p].attemptToken.Some? ==> b[p].attemptToken.value < issued)
            && (p.id >= nextId || p in snapshots))
  }

  lemma MoreWritersKeepTransformations(transformations: map<nat, Transformation>, a: map<Path, Snapshot>,
                                       b: map<Path, Snapshot>,
                                       x: map<Path, Writer>, y: map<Path, Writer>, nextId: nat, issued: nat)
    requires TransformationsOk(transformations, a, x, nextId) && TasksOk(transformations, x) && issued >= nextId
    requires SameContent(a, b) && MoreWriters(x, y, transformations) && InputsKept(transformations, a, b)
    ensures TransformationsOk(transformations, b, y, issued) && TasksOk(transformations, y)
  {
  }

  lemma SameContentKeepsDescriptions(datasets: map<nat, Dataset>, profilers: map<Token, Profiler>,
                                     a: map<Path, Snapshot>, b: map<Path, Snapshot>)
    requires DescriptionsOk(datasets, a) && ProfilersOk(profilers, a) && SameContent(a, b)
    ensures DescriptionsOk(datasets, b) && ProfilersOk(profilers, b)
  {
  }

  lemma AgedKeepsArtifacts(a: map<Path, Artifact>, b: map<Path, Artifact>, snapshots: map<Path, Snapshot>,
                           x: map<Path, Writer>, y: map<Path, Writer>,
                           transformations: map<nat, Transformation>, rows: map<nat, Row>, now: Time,
                            nextId: nat, issued: nat)
    requires LiveOk(a, x, transformations, rows) && LeasesOk(rows, a, now, nextId) && issued >= nextId
    requires Aged(a, b, snapshots, rows, now, nextId, issued) && MoreWriters(x, y, transformations)
    ensures LiveOk(b, y, transformations, rows) && LeasesOk(rows, b, now, issued)
  {
    assert forall p | p in a && p in b :: LiveAttempt(rows, b[p], now) == LiveAttempt(rows, a[p], now);
    hide LiveAttempt;
  }

  ghost predicate StorageOnly(s: State, z: State) {
    && z.tasks == s.tasks && z.domain == s.domain && z.intake == s.intake
    && z.env.settings == s.env.settings && z.env.now == s.env.now && z.env.nextId >= s.env.nextId
    && SameContent(s.storage.snapshots, z.storage.snapshots)
    && InputsKept(s.domain.transformations, s.storage.snapshots, z.storage.snapshots)
    && MoreWriters(s.storage.writers, z.storage.writers, s.domain.transformations)
    && Aged(s.storage.artifacts, z.storage.artifacts, s.storage.snapshots, s.tasks.rows, s.env.now, s.env.nextId,
            z.env.nextId)
    && s.storage.doomed <= z.storage.doomed
  }

  lemma IssuingKeepsRows(rows: map<nat, Row>, nextId: nat, issued: nat)
    requires RowsOk(rows, nextId) && issued >= nextId
    ensures RowsOk(rows, issued)
  {
    hide Sound;
  }

  lemma StorageOnlyKeepsRest(s: State, z: State)
    requires JobsOk(s) && RecordsOk(s) && StorageOnly(s, z)
    ensures JobsOk(z) && RecordsOk(z)
  {
    hide RowsOk, ImportsOk, TargetsOk, RunsAgree, EvaluationsAgree, CapacityOk,
      TransformationsOk, TasksOk, DescriptionsOk, ProfilersOk, LiveOk, LeasesOk, HistoryOk, ReceiptsOk,
      SameContent, InputsKept, MoreWriters, Aged;
    IssuingKeepsRows(s.tasks.rows, s.env.nextId, z.env.nextId);
    MoreWritersKeepTransformations(s.domain.transformations, s.storage.snapshots, z.storage.snapshots,
                                   s.storage.writers, z.storage.writers, s.env.nextId, z.env.nextId);
    SameContentKeepsDescriptions(s.domain.datasets, s.domain.profilers, s.storage.snapshots, z.storage.snapshots);
    AgedKeepsArtifacts(s.storage.artifacts, z.storage.artifacts, s.storage.snapshots, s.storage.writers,
                       z.storage.writers, s.domain.transformations, s.tasks.rows, s.env.now,
                       s.env.nextId, z.env.nextId);
  }

  lemma UnchangedTables(s: State)
    ensures InputsKept(s.domain.transformations, s.storage.snapshots, s.storage.snapshots)
    ensures SameContent(s.storage.snapshots, s.storage.snapshots)
        && MoreWriters(s.storage.writers, s.storage.writers, s.domain.transformations)
    ensures Aged(s.storage.artifacts, s.storage.artifacts, s.storage.snapshots, s.tasks.rows, s.env.now, s.env.nextId,
                 s.env.nextId)
  {
  }

  lemma AgedByOne(a: map<Path, Artifact>, path: Path, after: Artifact, snapshots: map<Path, Snapshot>,
                  rows: map<nat, Row>,
                  now: Time, nextId: nat, issued: nat)
    requires path in a ==>
               && after.task == a[path].task && after.attemptToken == a[path].attemptToken
               && after.temporaryPath == a[path].temporaryPath
               && (|| after.state == a[path].state
                   || (after.state.Deleting? && !LiveAttempt(rows, a[path], now))
                   || (after.state.Deleted? && a[path].state.Deleting?))
    requires path !in a ==>
               && after.state.Reserved? && (after.attemptToken.Some? ==> after.attemptToken.value < issued)
               && (path.id >= nextId || path in snapshots)
    ensures Aged(a, a[path := after], snapshots, rows, now, nextId, issued)
  {
    hide LiveAttempt;
  }

  lemma RemarkedContent(a: map<Path, Snapshot>, path: Path, after: Snapshot)
    requires path in a && after.dataset == a[path].dataset && after.version == a[path].version
        && after.digest == a[path].digest && after.createdAt == a[path].createdAt
    requires a[path].availability.Expired? ==> after.availability.Expired?
    ensures SameContent(a, a[path := after])
  {
  }

  lemma OneMoreWriter(a: map<Path, Writer>, path: Path, writer: Writer, transformations: map<nat, Transformation>)
    requires path !in a
    requires writer.transformation.Some? ==>
               writer.transformation.value in transformations && transformations[writer.transformation.value].task
                   == writer.task
    ensures MoreWriters(a, a[path := writer], transformations)
  {
  }

  /** What the invariant says about the attempt that asks for a reservation. */
  lemma ReservingAttempt(s: State, task: nat, token: Token)
    requires JobsOk(s) && MayReserve(s, task, token)
    requires ArtifactsOk(s.storage.artifacts, s.storage.snapshots, s.domain.datasets, s.env.nextId)
    requires WritersOk(s.storage.writers, s.storage.artifacts, s.storage.snapshots, s.intake.uploads)
    ensures token < s.env.nextId && Output(s.env.nextId) !in s.storage.artifacts
        && Output(s.env.nextId) !in s.storage.writers
    ensures var job := s.tasks.rows[task].job;
            job.kind.Transform? && job.transformation.Some? ==>
              job.transformation.value in s.domain.transformations
                  && s.domain.transformations[job.transformation.value].task == task
  {
    hide ImportsOk, TargetsOk, EvaluationsAgree, CapacityOk, Sound, Agree;
  }

  lemma ReservationsAreStorageOnly(s: State, task: nat, token: Token)
    requires JobsOk(s)
    requires ArtifactsOk(s.storage.artifacts, s.storage.snapshots, s.domain.datasets, s.env.nextId)
    requires WritersOk(s.storage.writers, s.storage.artifacts, s.storage.snapshots, s.intake.uploads)
    ensures StorageOnly(s, ReserveOutput(s, task, token)) && StorageOnly(s, ReservePreview(s, task, token))
  {
    hide JobsOk, ArtifactsOk, WritersOk, Aged, SameContent, InputsKept, MoreWriters, HeadUnmoved;
    UnchangedTables(s);
    if MayReserve(s, task, token) {
      ReservingAttempt(s, task, token);
      var job, final, temporary := s.tasks.rows[task].job, Output(s.env.nextId), Temporary(s.env.nextId + 1);
      AgedByOne(s.storage.artifacts, final, Reservation(job.owner, task, token, temporary, 900, s.env.now),
                s.storage.snapshots, s.tasks.rows, s.env.now, s.env.nextId, s.env.nextId + 2);
      OneMoreWriter(s.storage.writers, final, Writer(temporary, task, token, None, false), s.domain.transformations);
      if job.kind.Transform? && job.transformation.Some? {
        OneMoreWriter(s.storage.writers, final, Writer(temporary, task, token, job.transformation, false),
                      s.domain.transformations);
      }
      hide MayReserve;
    }
  }

  lemma ReserveOutputKeepsInv(s: State, task: nat, token: Token)
    requires Inv(s)
    ensures Inv(ReserveOutput(s, task, token))
  {
    var z := ReserveOutput(s, task, token);
    hide HeadsOk, ManifestsOk, FilesOk, VersionsUnique, ArtifactsOk, WritersOk, DoomedOk, JobsOk, RecordsOk,
      StorageOnly, MayReserve, HeadUnmoved;
    ReservationsAreStorageOnly(s, task, token);
    StorageOnlyKeepsRest(s, z);
    if z != s {
      var final := Output(s.env.nextId);
      ReservationKeepsStorage(s, z.storage.artifacts[final], z.storage.writers[final]);
    }
  }

  lemma ReservePreviewKeepsInv(s: State, task: nat, token: Token)
    requires Inv(s)
    ensures Inv(ReservePreview(s, task, token))
  {
    var z := ReservePreview(s, task, token);
    hide HeadsOk, ManifestsOk, FilesOk, VersionsUnique, ArtifactsOk, WritersOk, DoomedOk, JobsOk, RecordsOk,
      StorageOnly, MayReserve;
    ReservationsAreStorageOnly(s, task, token);
    StorageOnlyKeepsRest(s, z);
    if z != s {
      var final := Output(s.env.nextId);
      ReservationKeepsStorage(s, z.storage.artifacts[final], z.storage.writers[final]);
    }
  }

  lemma WritersAreStorageOnly(s: State, final: Path, target: Path, content: Bytes)
    ensures StorageOnly(s, WriteScratch(s, final, target, content))
    ensures StorageOnly(s, RenameUnpublished(s, final)) && StorageOnly(s, DropTemporary(s, final))
  {
    hide Scratch, LiveAttempt;
  }

  /** A dataset with an admitted transformation has a job in flight, so none of its manifests may expire. */
  lemma ExpiryKeepsInputs(s: State, path: Path)
    requires MayExpire(s, path) && RunsAgree(s.tasks.rows, s.domain.transformations)
    requires TransformationsOk(s.domain.transformations, s.storage.snapshots, s.storage.writers, s.env.nextId)
    ensures InputsKept(s.domain.transformations, s.storage.snapshots,
                       s.storage.snapshots[path := s.storage.snapshots[path].(availability := Expired)])
  {
    hide Recent, OutputOk;
    forall x | x in s.domain.transformations && s.domain.transformations[x].status.Admitted?
      ensures s.domain.transformations[x].inputPath != path
    {
      var t := s.domain.transformations[x].task;
      assert t in s.tasks.rows && s.tasks.rows[t].job.dataset == Some(s.domain.transformations[x].dataset);
    }
  }

  lemma PinningKeepsInputs(s: State, path: Path, pinned: bool)
    requires path in s.storage.snapshots
    ensures InputsKept(s.domain.transformations, s.storage.snapshots,
                       s.storage.snapshots[path := s.storage.snapshots[path].(pinned := pinned)])
  {
  }

  lemma ExpiryIsStorageOnly(s: State, path: Path)
    requires RunsAgree(s.tasks.rows, s.domain.transformations)
    requires TransformationsOk(s.domain.transformations, s.storage.snapshots, s.storage.writers, s.env.nextId)
    ensures StorageOnly(s, ExpireSnapshot(s, path))
  {
    hide TransformationsOk, RunsAgree, Aged, SameContent, InputsKept, MoreWriters;
    UnchangedTables(s);
    if MayExpire(s, path) {
      ExpiryKeepsInputs(s, path);
      assert path in s.storage.snapshots && s.storage.snapshots[path].dataset in s.domain.datasets;
      hide MayExpire;
      RemarkedContent(s.storage.snapshots, path, s.storage.snapshots[path].(availability := Expired));
      var z := ExpireSnapshot(s, path);
      AgedByOne(s.storage.artifacts, path, z.storage.artifacts[path], s.storage.snapshots, s.tasks.rows, s.env.now,
                s.env.nextId, s.env.nextId);
    }
  }

  lemma PinningIsStorageOnly(s: State, path: Path, pinned: bool)
    ensures StorageOnly(s, PinSnapshot(s, path, pinned))
  {
    hide Aged, SameContent, InputsKept, MoreWriters;
    UnchangedTables(s);
    if path in s.storage.snapshots {
      RemarkedContent(s.storage.snapshots, path, s.storage.snapshots[path].(pinned := pinned));
      PinningKeepsInputs(s, path, pinned);
    }
  }

  lemma RunTablesOk(s: State)
    requires JobsOk(s) && RecordsOk(s)
    ensures RunsAgree(s.tasks.rows, s.domain.transformations)
    ensures TransformationsOk(s.domain.transformations, s.storage.snapshots, s.storage.writers, s.env.nextId)
  {
    hide RowsOk, ImportsOk, TargetsOk, RunsAgree, EvaluationsAgree, CapacityOk,
      TransformationsOk, TasksOk, DescriptionsOk, ProfilersOk, LiveOk, LeasesOk, HistoryOk, ReceiptsOk;
  }

  lemma AbandonIsStorageOnly(s: State, task: nat, token: Token)
    ensures StorageOnly(s, AbandonAttemptOf(s, task, token))
  {
    hide LiveAttempt;
  }

  lemma CollectionIsStorageOnly(s: State, path: Path)
    ensures StorageOnly(s, Collect(s, path)) && StorageOnly(s, Unlink(s, path))
        && StorageOnly(s, FinishDeletion(s, path))
  {
    hide LiveAttempt, Referenced, Auxiliaries, Aged, SameContent, InputsKept, MoreWriters;
    UnchangedTables(s);
    if path in s.storage.artifacts {
      if VerdictOn(s, path).Condemn? {
        AgedByOne(s.storage.artifacts, path, s.storage.artifacts[path].(state := Deleting), s.storage.snapshots,
                  s.tasks.rows, s.env.now, s.env.nextId, s.env.nextId);
      }
      if s.storage.artifacts[path].state.Deleting? {
        AgedByOne(s.storage.artifacts, path, s.storage.artifacts[path].(state := Deleted), s.storage.snapshots,
                  s.tasks.rows, s.env.now, s.env.nextId, s.env.nextId);
      }
    }
  }

  /** Steps that touch only storage tables keep the invariant. */
  lemma WriterStepsKeepInv(s: State, final: Path, target: Path, content: Bytes)
    requires Inv(s)
    ensures Inv(WriteScratch(s, final, target, content)) && Inv(RenameUnpublished(s, final))
        && Inv(DropTemporary(s, final))
  {
    hide StorageOk, JobsOk, RecordsOk, StorageOnly, WriteScratch, RenameUnpublished, DropTemporary;
    WritersAreStorageOnly(s, final, target, content);
    ScratchKeepsStorage(s, final, target, content);
    RenameKeepsStorage(s, final);
    DropKeepsStorage(s, final);
    StorageOnlyKeepsRest(s, WriteScratch(s, final, target, content));
    StorageOnlyKeepsRest(s, RenameUnpublished(s, final));
    StorageOnlyKeepsRest(s, DropTemporary(s, final));
  }

  lemma RetentionStepsKeepInv(s: State, path: Path, pinned: bool, task: nat, token: Token)
    requires Inv(s)
    ensures Inv(ExpireSnapshot(s, path)) && Inv(PinSnapshot(s, path, pinned)) && Inv(AbandonAttemptOf(s, task, token))
  {
    hide StorageOk, JobsOk, RecordsOk, StorageOnly, ExpireSnapshot, PinSnapshot, AbandonAttemptOf;
    RunTablesOk(s);
    hide RunsAgree, TransformationsOk;
    ExpiryIsStorageOnly(s, path);
    PinningIsStorageOnly(s, path, pinned);
    AbandonIsStorageOnly(s, task, token);
    ExpireKeepsStorage(s, path);
    PinKeepsStorage(s, path, pinned);
    AbandonKeepsStorage(s, task, token);
    StorageOnlyKeepsRest(s, ExpireSnapshot(s, path));
    StorageOnlyKeepsRest(s, PinSnapshot(s, path, pinned));
    StorageOnlyKeepsRest(s, AbandonAttemptOf(s, task, token));
  }

  lemma CollectionStepsKeepInv(s: State, path: Path)
    requires Inv(s)
    ensures Inv(Collect(s, path)) && Inv(Unlink(s, path)) && Inv(FinishDeletion(s, path))
  {
    hide StorageOk, JobsOk, RecordsOk, StorageOnly, Collect, Unlink, FinishDeletion;
    CollectionIsStorageOnly(s, path);
    CollectKeepsStorage(s, path);
    UnlinkKeepsStorage(s, path);
    FinishKeepsStorage(s, path);
    StorageOnlyKeepsRest(s, Collect(s, path));
    StorageOnlyKeepsRest(s, Unlink(s, path));
    StorageOnlyKeepsRest(s, FinishDeletion(s, path));
  }

  // ---------------------------------------------------------------- the clock and other environments

  lemma TickKeepsInv(s: State, elapsed: nat)
    requires Inv(s)
    ensures Inv(s.(env := s.env.(now := s.env.now + elapsed)))
  {
    hide HeadsOk, ManifestsOk, FilesOk, VersionsUnique, ArtifactsOk, WritersOk, DoomedOk,
      RowsOk, ImportsOk, TargetsOk, RunsAgree, EvaluationsAgree, CapacityOk,
      TransformationsOk, TasksOk, DescriptionsOk, ProfilersOk, LiveOk, HistoryOk, ReceiptsOk;
  }

  lemma ReportsKeepInv(s: State, paths: set<Path>)
    requires Inv(s)
    ensures Inv(s.(env := s.env.(reports := paths)))
  {
    hide HeadsOk, ManifestsOk, FilesOk, VersionsUnique, ArtifactsOk, WritersOk, DoomedOk,
      RowsOk, ImportsOk, TargetsOk, RunsAgree, EvaluationsAgree, CapacityOk,
      TransformationsOk, TasksOk, DescriptionsOk, ProfilersOk, LiveOk, LeasesOk, HistoryOk, ReceiptsOk;
  }

  // ---------------------------------------------------------------- purging and sweeping

  lemma PurgeKeepsJobs(s: State, task: nat)
    requires JobsOk(s)
    ensures JobsOk(PurgeJob(s, task))
  {
    hide EvaluationAgrees, Sound;
    var z := PurgeJob(s, task);
    assert z.tasks.rows == s.tasks.rows || z.tasks.rows == s.tasks.rows - {task};
    forall owner: nat ensures |ActiveTasks(z.tasks.rows, owner)| <= s.env.settings.maxActiveJobs {
      SubsetSize(ActiveTasks(z.tasks.rows, owner), ActiveTasks(s.tasks.rows, owner));
      assert |ActiveTasks(s.tasks.rows, owner)| <= s.env.settings.maxActiveJobs;
    }
  }

  lemma FewerRowsKeepArtifacts(rows: map<nat, Row>, task: nat, artifacts: map<Path, Artifact>,
                               writers: map<Path, Writer>,
                               transformations: map<nat, Transformation>, now: Time, nextId: nat)
    requires LiveOk(artifacts, writers, transformations, rows) && LeasesOk(rows, artifacts, now, nextId)
    ensures LiveOk(artifacts, writers, transformations, rows - {task})
        && LeasesOk(rows - {task}, artifacts, now, nextId)
  {
  }

  lemma PurgeKeepsInv(s: State, task: nat)
    requires Inv(s)
    ensures Inv(PurgeJob(s, task))
  {
    hide JobsOk, HeadsOk, ManifestsOk, FilesOk, VersionsUnique, ArtifactsOk, WritersOk, DoomedOk,
      TransformationsOk, TasksOk, DescriptionsOk, ProfilersOk, LiveOk, LeasesOk, HistoryOk, ReceiptsOk;
    PurgeKeepsJobs(s, task);
    FewerRowsKeepArtifacts(s.tasks.rows, task, s.storage.artifacts, s.storage.writers, s.domain.transformations,
                           s.env.now, s.env.nextId);
  }

  /** Only dataset statuses changed, and no unfinished import's dataset is among them. */
  ghost predicate Swept(s: State, z: State) {
    && Restated(s.domain.datasets, z.domain.datasets)
    && z == s.(domain := s.domain.(datasets := z.domain.datasets))
    && forall t | t in s.tasks.rows :: OwnImport(s.tasks.rows[t].job, z.domain.datasets)
  }

  lemma SweptKeepsInv(s: State, z: State)
    requires Inv(s) && Swept(s, z)
    ensures Inv(z)
  {
    SweptKeepsStorage(s, z);
    SweptKeepsJobs(s, z);
    SweptKeepsRecords(s, z);
    hide StorageOk, JobsOk, RecordsOk, Swept;
  }

  lemma SweptKeepsStorage(s: State, z: State)
    requires StorageOk(s) && Swept(s, z)
    ensures StorageOk(z)
  {
    hide StorageOk, OwnImport;
    RestatementKeepsHeads(s.domain.datasets, z.domain.datasets);
    SameHeadsKeepsStorage(s, z.domain.datasets);
  }

  lemma SweptKeepsJobs(s: State, z: State)
    requires JobsOk(s) && Swept(s, z)
    ensures JobsOk(z)
  {
    hide RowsOk, RunsAgree, EvaluationsAgree, CapacityOk;
  }

  lemma SweptKeepsRecords(s: State, z: State)
    requires RecordsOk(s) && Swept(s, z)
    ensures RecordsOk(z)
  {
    assert Restatused(s.domain.transformations, s.domain.transformations) && z.domain.datasets.Keys
        == s.domain.datasets.Keys;
    hide TransformationsOk, TasksOk, DescriptionsOk, ProfilersOk, LiveOk, LeasesOk, HistoryOk, ReceiptsOk,
      OwnImport, Restated, Restatused;
    RestatementKeepsDescriptions(s.domain.datasets, z.domain.datasets, s.storage.snapshots);
    RestatusKeepsHistory(s.domain.datasets, z.domain.datasets, s.domain.events, s.domain.transformations,
                         s.domain.transformations, s.intake.uploads);
  }

  lemma SweepDatasetKeepsInv(s: State, d: nat)
    requires Inv(s)
    ensures Inv(SweepDataset(s, d))
  {
    hide Inv, Swept, SweepDataset;
    if SweepDataset(s, d) != s {
      SweepDatasetSweeps(s, d);
      SweptKeepsInv(s, SweepDataset(s, d));
    }
  }

  lemma SweepDatasetSweeps(s: State, d: nat)
    requires Inv(s) && SweepDataset(s, d) != s
    ensures Swept(s, SweepDataset(s, d))
  {
    hide RecordsOk, ManifestsOk, FilesOk, VersionsUnique, ArtifactsOk, WritersOk, DoomedOk, RowsOk, TargetsOk,
      RunsAgree, EvaluationsAgree, CapacityOk;
  }

  /** In a reachable store an admitted transformation's job still occupies capacity, so the sweep finds nothing. */
  lemma SweepTransformationFindsNothing(s: State, x: nat)
    requires Inv(s)
    ensures SweepTransformation(s, x) == s
  {
    hide RecordsOk, StorageOk, RowsOk, TargetsOk, ImportsOk, EvaluationsAgree, CapacityOk;
  }
}
