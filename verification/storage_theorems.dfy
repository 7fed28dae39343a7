/** What the collector, retention and publication guarantee about bytes on disk. */
module StorageTheorems {
  import opened Prelude
  import opened JobService
  import opened TaskProtocol
  import opened Tables
  import opened ArtifactService
  import opened Protocol
  import opened Invariants
  import opened ForwardOnly
  import opened Safety

  // ---------------------------------------------------------------- the current head

  /** The bytes the dataset's stored path had when they were recorded are still there. */
  ghost predicate HeadIntact(s: State, d: nat)
    requires d in s.domain.datasets
  {
    var path := s.domain.datasets[d].storedPath;
    path in s.storage.files && path in s.storage.snapshots && s.storage.files[path] == s.storage.snapshots[path].digest
  }

  /** The upload request that staged the dataset has ended, and was not told that its commit failed. */
  predicate UploadAcknowledged(s: State, d: nat) {
    d !in s.intake.uploading && d !in s.intake.aborted
  }

  /** Only an aborted upload can lose an imported head, and only while the head is the staged file. */
  lemma OnlyAbortedUploadsLoseHeads(s: State, d: nat)
    requires Reachable(s) && d in s.domain.datasets && s.domain.datasets[d].Imported()
    ensures d in s.intake.uploads
    ensures HeadIntact(s, d) || (d in s.intake.aborted && s.domain.datasets[d].storedPath == s.intake.uploads[d].path)
    ensures s.domain.datasets[d].storedPath in s.storage.doomed ==>
              d in s.intake.aborted && s.domain.datasets[d].storedPath == s.intake.uploads[d].path
  {
    hide Reachable, Inv;
    ReachableSatisfiesInv(s);
    StagedBefore(s, d);
    HeadOrAborted(s, d);
  }

  lemma HeadOrAborted(s: State, d: nat)
    requires Inv(s) && d in s.domain.datasets && s.domain.datasets[d].Imported() && d in s.intake.uploads
    ensures HeadIntact(s, d) || (d in s.intake.aborted && s.domain.datasets[d].storedPath == s.intake.uploads[d].path)
    ensures s.domain.datasets[d].storedPath in s.storage.doomed ==>
              d in s.intake.aborted && s.domain.datasets[d].storedPath == s.intake.uploads[d].path
  {
    hide JobsOk, RecordsOk, VersionsUnique, ArtifactsOk, WritersOk;
  }

  /**
   No interleaving of reservation, publication, undo, expiry, deletion requests,
   abandonment and the phases of collection ever unlinks the head of an imported
   dataset, nor any of its available versions.
   */
  lemma HeadSurvivesEveryRun(s: State, steps: seq<Step>, d: nat)
    requires Reachable(s) && d in s.domain.datasets && s.domain.datasets[d].Imported() && UploadAcknowledged(s, d)
    ensures var z := Run(s, steps);
            && d in z.domain.datasets && z.domain.datasets[d].Imported() && HeadIntact(z, d)
            && z.domain.datasets[d].storedPath !in z.storage.doomed
            && (forall p | p in z.storage.snapshots && z.storage.snapshots[p].dataset == d
                && z.storage.snapshots[p].availability.Available? ::
                  p in z.storage.files && z.storage.files[p] == z.storage.snapshots[p].digest)
  {
    hide Reachable, Inv, Forward, Run;
    ReachableRunsForward(s, steps);
    StagedBefore(s, d);
    AcknowledgedVersionsAreKept(s, Run(s, steps), d);
  }

  lemma StagedBefore(s: State, d: nat)
    requires Inv(s) && d in s.domain.datasets
    ensures d in s.intake.uploads
  {
    assert HeadsOk(s.domain.datasets, s.storage.snapshots, s.intake.uploads, s.env.nextId);
    assert d in s.intake.uploads.Keys;
  }

  lemma StaysAcknowledged(s: State, z: State, d: nat)
    requires Forward(s, z) && d in s.domain.datasets && s.domain.datasets[d].Imported() && UploadAcknowledged(s, d)
    requires d in s.intake.uploads
    ensures d in z.domain.datasets && z.domain.datasets[d].Imported() && d !in z.intake.aborted
  {
    hide EnvironmentForward, RunsForward, EventsForward, ManifestsForward, ArtifactsForward, OnlyFresh, AbortsForward;
  }

  lemma VersionsAreKept(z: State, d: nat)
    requires Inv(z) && d in z.domain.datasets && z.domain.datasets[d].Imported() && d !in z.intake.aborted
    ensures forall p | p in z.storage.snapshots && z.storage.snapshots[p].dataset == d
        && z.storage.snapshots[p].availability.Available? ::
              p in z.storage.files && z.storage.files[p] == z.storage.snapshots[p].digest
  {
    hide JobsOk, RecordsOk, ManifestsOk, VersionsUnique, ArtifactsOk, WritersOk, DoomedOk;
  }

  lemma AcknowledgedVersionsAreKept(s: State, z: State, d: nat)
    requires Inv(z) && Forward(s, z)
    requires d in s.domain.datasets && s.domain.datasets[d].Imported() && UploadAcknowledged(s, d)
        && d in s.intake.uploads
    ensures d in z.domain.datasets && z.domain.datasets[d].Imported() && HeadIntact(z, d)
    ensures z.domain.datasets[d].storedPath !in z.storage.doomed
    ensures forall p | p in z.storage.snapshots && z.storage.snapshots[p].dataset == d
        && z.storage.snapshots[p].availability.Available? ::
              p in z.storage.files && z.storage.files[p] == z.storage.snapshots[p].digest
  {
    hide Inv, Forward, HeadIntact;
    StaysAcknowledged(s, z, d);
    StagedBefore(z, d);
    HeadOrAborted(z, d);
    VersionsAreKept(z, d);
  }

  /**
   The guarantee holds of a head that is still the staged file exactly when its upload
   request was acknowledged: otherwise that request's error path can unlink the file.
   */
  lemma StagedHeadSurvivesIff(s: State, d: nat)
    requires Reachable(s) && d in s.domain.datasets && s.domain.datasets[d].Imported()
    requires d in s.intake.uploads && s.domain.datasets[d].storedPath == s.intake.uploads[d].path
    ensures (forall steps: seq<Step> ::
            d in Run(s, steps).domain.datasets && HeadIntact(Run(s, steps), d)) <==> UploadAcknowledged(s, d)
  {
    hide Run;
    if UploadAcknowledged(s, d) {
      forall steps: seq<Step> ensures d in Run(s, steps).domain.datasets && HeadIntact(Run(s, steps), d) {
        HeadSurvivesEveryRun(s, steps, d);
      }
    } else {
      var steps := LosingRun(s, d);
      assert !(d in Run(s, steps).domain.datasets && HeadIntact(Run(s, steps), d));
    }
  }

  lemma AbortedPathsAreDoomed(s: State)
    requires Reachable(s)
    ensures forall d | d in s.intake.aborted :: d in s.intake.uploads && s.intake.uploads[d].path in s.storage.doomed
  {
    hide Reachable, DatasetsForward, RunsForward, EventsForward, ManifestsForward, ArtifactsForward, OnlyFresh;
    var settings := InitialRunsForward(s);
    assert Initial(settings).intake.aborted == {};
  }

  lemma LosingRun(s: State, d: nat) returns (steps: seq<Step>)
    requires Reachable(s) && d in s.domain.datasets && !UploadAcknowledged(s, d)
    requires d in s.intake.uploads && s.domain.datasets[d].storedPath == s.intake.uploads[d].path
    ensures d in Run(s, steps).domain.datasets && !HeadIntact(Run(s, steps), d)
  {
    var unlink := Maintain(UnlinkStep(s.intake.uploads[d].path));
    if d in s.intake.aborted {
      AbortedPathsAreDoomed(s);
      steps := [unlink];
      assert Run(s, steps) == Run(Apply(s, unlink), steps[1..]) == Apply(s, unlink);
    } else {
      var abort := Admit(AbortUploadStep(d));
      steps := [abort, unlink];
      var aborted := Apply(s, abort);
      assert aborted.domain == s.domain && s.intake.uploads[d].path in aborted.storage.doomed;
      assert steps[1..] == [unlink] && steps[1..][1..] == [];
      assert Run(s, steps) == Run(aborted, [unlink]) == Run(Apply(aborted, unlink), []) == Apply(aborted, unlink);
    }
  }

  /** One import, staged by the run below and not yet started. */
  predicate JustStaged(s: State, task: nat, d: nat) {
    && task in s.tasks.rows && d in s.domain.datasets && d in s.intake.uploads && d in s.intake.uploading
    && s.tasks.rows[task].job == Created(1, Some(d), None, Import)
    && s.intake.uploads[d].path == s.domain.datasets[d].storedPath
    && s.domain.datasets[d].storedPath in s.storage.snapshots
  }

  lemma StagingRun(s: State, task: nat)
    requires s == Initial(Settings(300, 300, 1, 0, 0, 1))
    ensures var z := Apply(Apply(s, Admit(ReserveImportStep(task, 1))), Admit(StageUploadStep(task, Bytes(1, 1, 0))));
            JustStaged(z, task, 0)
  {
    assert ActiveTasks(s.tasks.rows, 1) == {};
    var reserved := Apply(s, Admit(ReserveImportStep(task, 1)));
    assert task in reserved.tasks.rows && RowFires(reserved, task, Enqueue(0, 2));
  }

  lemma ImportingRun(s: State, task: nat, d: nat)
    requires JustStaged(s, task, d)
    ensures var z := Apply(Apply(s, Work(StartStep(task, 60, 0))), Work(CompleteImportStep(task, s.env.nextId)));
            && d in z.domain.datasets && z.domain.datasets[d].status.Ready? && d in z.intake.uploading
            && d in z.intake.uploads && z.intake.uploads[d].path == z.domain.datasets[d].storedPath
  {
    var started := Apply(s, Work(StartStep(task, 60, 0)));
    assert task in started.tasks.rows && started.tasks.rows[task].job.OwnsLease(s.env.nextId, s.env.now);
    assert started.tasks.rows[task].job.dataset == Some(d) && started.domain.datasets == s.domain.datasets;
  }

  /**
   The exception is reachable: an imported dataset, READY in the store, whose upload
   request can still remove its only file.
   */
  lemma AnImportedHeadCanBeLost() returns (s: State, steps: seq<Step>)
    ensures Reachable(s) && 0 in s.domain.datasets && s.domain.datasets[0].status.Ready?
    ensures 0 in Run(s, steps).domain.datasets && !HeadIntact(Run(s, steps), 0)
  {
    var first := Initial(Settings(300, 300, 1, 0, 0, 1));
    var a, b := Admit(ReserveImportStep(7, 1)), Admit(StageUploadStep(7, Bytes(1, 1, 0)));
    var staged := Apply(Apply(first, a), b);
    StagingRun(first, 7);
    var c, d := Work(StartStep(7, 60, 0)), Work(CompleteImportStep(7, staged.env.nextId));
    ImportingRun(staged, 7, 0);
    hide Apply, JustStaged;
    s := Apply(Apply(staged, c), d);
    FourSteps(first, a, b, c, d);
    assert Reachable(s);
    hide Reachable;
    steps := LosingRun(s, 0);
  }

  lemma FourSteps(s: State, a: Step, b: Step, c: Step, d: Step)
    ensures Run(s, [a, b, c, d]) == Apply(Apply(Apply(Apply(s, a), b), c), d)
  {
    hide Apply;
    assert [a, b, c, d][1..] == [b, c, d] && [b, c, d][1..] == [c, d] && [c, d][1..] == [d] && [d][1..] == [];
    var s2 := Apply(Apply(s, a), b);
    assert Run(s, [a, b, c, d]) == Run(Apply(s, a), [b, c, d]) == Run(s2, [c, d]);
    assert Run(s2, [c, d]) == Run(Apply(s2, c), [d]) == Run(Apply(Apply(s2, c), d), []);
  }

  // ---------------------------------------------------------------- references never come back

  /** Some dataset, manifest or transformation wants the path (completed reports are an input of the model). */
  ghost predicate Wanted(s: State, path: Path) {
    Referenced(s.domain.datasets, s.storage.snapshots, s.domain.transformations, {}, path)
  }

  /** What is not recorded, and not reserved, is never recorded later. */
  lemma UnrecordedStaysUnrecorded(s: State, z: State, path: Path)
    requires Forward(s, z) && Issued(path, s.env.nextId) && path !in s.storage.snapshots
    requires path in s.storage.artifacts ==> !s.storage.artifacts[path].state.Reserved?
    ensures path !in z.storage.snapshots
  {
    hide DatasetsForward, RunsForward, EventsForward, ManifestsForward, ArtifactsForward, IntakeForward,
      AbortsForward;
  }

  lemma UnrecordedIsUnwanted(s: State, path: Path)
    requires Inv(s) && path !in s.storage.snapshots && path.Output?
    ensures !Wanted(s, path)
  {
    hide ManifestsOk, FilesOk, VersionsUnique, ArtifactsOk, WritersOk, DoomedOk, JobsOk, TasksOk, DescriptionsOk,
      ProfilersOk, LiveOk, LeasesOk, HistoryOk, ReceiptsOk;
  }

  /** An unwanted manifest has expired, or its dataset has been given up. */
  lemma UnwantedManifest(s: State, path: Path)
    requires !Wanted(s, path) && path in s.storage.snapshots && s.storage.snapshots[path].dataset in s.domain.datasets
    ensures s.storage.snapshots[path].availability.Expired?
        || !s.domain.datasets[s.storage.snapshots[path].dataset].Retained()
  {
  }

  lemma ExpiredOrGivenUpIsUnwanted(s: State, path: Path)
    requires Inv(s) && path in s.storage.snapshots && s.storage.snapshots[path].dataset in s.domain.datasets
    requires s.storage.snapshots[path].availability.Expired?
        || !s.domain.datasets[s.storage.snapshots[path].dataset].Retained()
    ensures !Wanted(s, path)
  {
    hide ManifestsOk, FilesOk, VersionsUnique, ArtifactsOk, WritersOk, DoomedOk, RowsOk, ImportsOk, RunsAgree,
      EvaluationsAgree, CapacityOk,
      TasksOk, DescriptionsOk, ProfilersOk, LiveOk, LeasesOk, HistoryOk, ReceiptsOk;
  }

  /**
   The key to collection: a path that nothing references and no reservation protects
   is never referenced again, whatever happens next.
   */
  lemma UnwantedStaysUnwanted(s: State, steps: seq<Step>, path: Path)
    requires Reachable(s) && path.Output? && Issued(path, s.env.nextId) && !Wanted(s, path)
    requires path in s.storage.artifacts ==> !s.storage.artifacts[path].state.Reserved?
    ensures !Wanted(Run(s, steps), path)
  {
    hide Reachable, Run, Wanted, Inv, Forward;
    ReachableRunsForward(s, steps);
    var z := Run(s, steps);
    if path in s.storage.snapshots {
      ManifestHasDataset(s, path);
      UnwantedManifest(s, path);
      GivenUpForGood(s, z, path);
      ManifestHasDataset(z, path);
      ExpiredOrGivenUpIsUnwanted(z, path);
    } else {
      UnrecordedStaysUnrecorded(s, z, path);
      UnrecordedIsUnwanted(z, path);
    }
  }

  lemma GivenUpForGood(s: State, z: State, path: Path)
    requires Forward(s, z) && path in s.storage.snapshots && s.storage.snapshots[path].dataset in s.domain.datasets
    requires s.storage.snapshots[path].availability.Expired?
        || !s.domain.datasets[s.storage.snapshots[path].dataset].Retained()
    ensures path in z.storage.snapshots && z.storage.snapshots[path].dataset in z.domain.datasets
    ensures z.storage.snapshots[path].availability.Expired?
        || !z.domain.datasets[z.storage.snapshots[path].dataset].Retained()
  {
    hide RunsForward, EventsForward, ArtifactsForward, OnlyFresh, IntakeForward, AbortsForward;
  }

  lemma ManifestHasDataset(s: State, path: Path)
    requires Inv(s) && path in s.storage.snapshots
    ensures s.storage.snapshots[path].dataset in s.domain.datasets
  {
    assert ManifestsOk(s.storage.snapshots, s.domain.datasets, s.env.nextId);
  }

  // ---------------------------------------------------------------- artifacts

  /** DELETING and DELETED are left only for each other: never again RESERVED or LIVE. */
  lemma CondemnationIsFinal(s: State, steps: seq<Step>, path: Path)
    requires Reachable(s) && path in s.storage.artifacts
    requires s.storage.artifacts[path].state.Deleting? || s.storage.artifacts[path].state.Deleted?
    ensures path in Run(s, steps).storage.artifacts
    ensures Run(s, steps).storage.artifacts[path].state.Deleting?
        || Run(s, steps).storage.artifacts[path].state.Deleted?
    ensures forall task: nat, token: Token :: !MayPublish(Run(s, steps), task, token, path)
  {
    hide Reachable, Run, Inv, Forward, Fires;
    ReachableRunsForward(s, steps);
    StaysCondemned(s, Run(s, steps), path);
  }

  lemma StaysCondemned(s: State, z: State, path: Path)
    requires Forward(s, z) && path in s.storage.artifacts
    ensures path in z.storage.artifacts && Later(s.storage.artifacts[path].state, z.storage.artifacts[path].state)
  {
    hide DatasetsForward, RunsForward, EventsForward, ManifestsForward, OnlyFresh, IntakeForward, AbortsForward;
  }

  /**
   If a reservation is published, no process had ever been able to remove its final,
   temporary or spill path: at every earlier moment the unlink would have been refused.
   */
  lemma PublishedPathsWereNeverUnlinked(s: State, steps: seq<Step>, task: nat, token: Token, final: Path, path: Path)
    requires Reachable(s) && MayPublish(Run(s, steps), task, token, final)
    requires path in {final} + Scratch(Run(s, steps).storage.writers[final].temporary)
    ensures path !in s.storage.doomed && Unlink(s, path) == s
  {
    hide Reachable, Run, Inv, DatasetsForward, RunsForward, EventsForward, ManifestsForward, ArtifactsForward,
      OnlyFresh, IntakeForward, AbortsForward, Fires;
    ReachableRunsForward(s, steps);
    UndecidedPaths(Run(s, steps), task, token, final, path);
  }

  lemma UndecidedPaths(z: State, task: nat, token: Token, final: Path, path: Path)
    requires Inv(z) && MayPublish(z, task, token, final)
        && path in {final} + Scratch(z.storage.writers[final].temporary)
    ensures path !in z.storage.doomed
  {
    hide JobsOk, RecordsOk, HeadsOk, ManifestsOk, FilesOk, VersionsUnique, Fires, HeadUnmoved;
  }

  /** The collector never condemns the output of an attempt that still holds its lease. */
  lemma LiveAttemptsAreSpared(s: State, path: Path)
    requires Reachable(s) && path in s.storage.artifacts
        && LiveAttempt(s.tasks.rows, s.storage.artifacts[path], s.env.now)
    ensures !s.storage.artifacts[path].state.Deleting? && !s.storage.artifacts[path].state.Deleted?
    ensures Collect(s, path) == s
  {
    hide Reachable, Inv, Referenced, LiveAttempt;
    ReachableSatisfiesInv(s);
    NoneCondemnedIsLive(s, path);
  }

  lemma NoneCondemnedIsLive(s: State, path: Path)
    requires Inv(s) && path in s.storage.artifacts && LiveAttempt(s.tasks.rows, s.storage.artifacts[path], s.env.now)
    ensures !s.storage.artifacts[path].state.Deleting? && !s.storage.artifacts[path].state.Deleted?
  {
    hide StorageOk, JobsOk, LiveAttempt;
    assert LeasesOk(s.tasks.rows, s.storage.artifacts, s.env.now, s.env.nextId);
  }

  /** Each task has at most one live artifact, written by the attempt its SUCCESS row records. */
  lemma OneLiveArtifactPerTask(s: State, p: Path, q: Path, task: nat)
    requires Reachable(s) && p in s.storage.artifacts && q in s.storage.artifacts
    requires s.storage.artifacts[p].state.Live? && s.storage.artifacts[q].state.Live?
    requires s.storage.artifacts[p].task == Some(task) == s.storage.artifacts[q].task
    ensures p == q
    ensures task in s.tasks.rows && s.tasks.rows[task].job.kind.Transform? ==>
              s.tasks.rows[task].job.status.Success? && s.tasks.rows[task].job.attemptToken
                  == s.storage.artifacts[p].attemptToken
  {
    hide Reachable, Inv;
    ReachableSatisfiesInv(s);
    LiveRun(s, p, task);
    LiveRun(s, q, task);
    OneRunPerTask(s, s.storage.writers[p].transformation.value, s.storage.writers[q].transformation.value);
    if task in s.tasks.rows && s.tasks.rows[task].job.kind.Transform? {
      PublishingJob(s, s.storage.writers[p].transformation.value);
    }
  }

  lemma OneRunPerTask(s: State, x: nat, y: nat)
    requires Inv(s) && x in s.domain.transformations && y in s.domain.transformations
    requires s.domain.transformations[x].task == s.domain.transformations[y].task
    ensures x == y
  {
    assert TasksOk(s.domain.transformations, s.storage.writers);
  }

  /** The retained job of a published transformation succeeded, with the token its artifact carries. */
  lemma PublishingJob(s: State, x: nat)
    requires Inv(s) && x in s.domain.transformations && s.domain.transformations[x].Published()
    requires var task := s.domain.transformations[x].task;
             task in s.tasks.rows && s.tasks.rows[task].job.kind.Transform?
    ensures var record, job := s.domain.transformations[x], s.tasks.rows[s.domain.transformations[x].task].job;
            job.status.Success? && record.outputPath in s.storage.artifacts
                && s.storage.artifacts[record.outputPath].attemptToken == job.attemptToken
  {
    hide StorageOk, ImportsOk, TargetsOk, EvaluationsAgree, CapacityOk, TransformationsOk, DescriptionsOk,
      ProfilersOk, LeasesOk, HistoryOk, ReceiptsOk, Sound;
  }

  lemma LiveRun(s: State, p: Path, task: nat)
    requires Inv(s) && p in s.storage.artifacts && s.storage.artifacts[p].state.Live? && s.storage.artifacts[p].task
        == Some(task)
    ensures p in s.storage.writers && s.storage.writers[p].transformation.Some?
    ensures var x := s.storage.writers[p].transformation.value;
            x in s.domain.transformations && s.domain.transformations[x].task == task
                && s.domain.transformations[x].Published()
            && s.domain.transformations[x].outputPath == p
  {
    hide HeadsOk, ManifestsOk, FilesOk, VersionsUnique, ArtifactsOk, DoomedOk, JobsOk,
      TransformationsOk, DescriptionsOk, ProfilersOk, LeasesOk, HistoryOk, ReceiptsOk;
  }
}
