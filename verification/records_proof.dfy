/** A job's move keeps the domain records: `MovedKeepsRecords`. */
module RecordsProof {
  import opened Prelude
  import opened JobService
  import opened TaskProtocol
  import opened Tables
  import opened ArtifactService
  import opened Protocol
  import opened Invariants
  import opened StorageProof
  import opened JobsProof

  lemma RestatusKeepsTransformations(a: map<nat, Transformation>, b: map<nat, Transformation>,
                                     snapshots: map<Path, Snapshot>,
                                     writers: map<Path, Writer>, nextId: nat, issued: nat)
    requires TransformationsOk(a, snapshots, writers, nextId) && TasksOk(a, writers) && Restatused(a, b)
        && issued >= nextId
    ensures TransformationsOk(b, snapshots, writers, issued) && TasksOk(b, writers)
  {
  }

  lemma RestatementKeepsDescriptions(a: map<nat, Dataset>, b: map<nat, Dataset>, snapshots: map<Path, Snapshot>)
    requires DescriptionsOk(a, snapshots) && Restated(a, b)
    ensures DescriptionsOk(b, snapshots)
  {
  }

  lemma RestatusKeepsHistory(a: map<nat, Dataset>, b: map<nat, Dataset>, events: map<nat, seq<Event>>,
                             x: map<nat, Transformation>,
                             y: map<nat, Transformation>, uploads: map<nat, Upload>)
    requires HistoryOk(a, events, x, uploads) && Restated(a, b) && Restatused(x, y)
    ensures HistoryOk(b, events, y, uploads)
  {
    forall d | d in b ensures HistoryOf(d, b[d], events[d], y, uploads[d].path) {
      RestatusKeepsStack(Stack(events[d]), d, x, y, uploads[d].path);
      hide Stack, Top, StackOk, Restatused, LogOk;
    }
    hide HistoryOf, Restatused;
  }

  lemma RestatusKeepsStack(stack: seq<nat>, d: nat, x: map<nat, Transformation>, y: map<nat, Transformation>,
                           staged: Path)
    requires StackOk(stack, d, x, staged) && Restatused(x, y)
    ensures StackOk(stack, d, y, staged)
    ensures Top(stack, y, staged) == Top(stack, x, staged)
  {
  }

  // ---------------------------------------------------------------- one more manifest

  lemma AddedManifestKeepsTransformations(transformations: map<nat, Transformation>, snapshots: map<Path, Snapshot>,
                                          writers: map<Path, Writer>,
                                          nextId: nat, issued: nat, path: Path, manifest: Snapshot)
    requires TransformationsOk(transformations, snapshots, writers, nextId) && path !in snapshots && issued >= nextId
    ensures TransformationsOk(transformations, snapshots[path := manifest], writers, issued)
  {
    forall x | x in transformations && transformations[x].Published()
      ensures transformations[x].inputPath in snapshots
          && OutputOk(x, transformations[x], snapshots[path := manifest], writers) {}
    hide OutputOk;
  }

  lemma AddedManifestKeepsProfilers(profilers: map<Token, Profiler>, snapshots: map<Path, Snapshot>, path: Path,
                                    manifest: Snapshot)
    requires ProfilersOk(profilers, snapshots) && path !in snapshots
    ensures ProfilersOk(profilers, snapshots[path := manifest])
  {
  }

  // ---------------------------------------------------------------- artifacts and attempts

  lemma MoveKeepsLive(a: map<Path, Artifact>, b: map<Path, Artifact>, snapshots: map<Path, Snapshot>, nextId: nat,
                      writers: map<Path, Writer>,
                      x: map<nat, Transformation>, y: map<nat, Transformation>, rows: map<nat, Row>,
                      task: nat, after: Row)
    requires LiveOk(a, writers, x, rows) && Rescheduled(a, b, snapshots, nextId) && Restatused(x, y)
    requires task in rows
        && (after.job.status.Success? && after.job.transformation.Some? ==> after.job == rows[task].job)
    ensures LiveOk(b, writers, y, rows[task := after])
  {
  }

  /** Only a fresh token makes an attempt live again. */
  lemma MoveRevivesNothing(row: Row, act: Act, now: Time, token: Option<Token>, nextId: nat)
    requires Fires(row, act, now) && Sound(row)
    requires act.Start? ==> nextId <= act.token
    requires token.Some? ==> token.value < nextId
    ensures var after := Perform(row, act, now).job;
            (after.status.Started? || after.status.CancellationRequested?) && after.attemptToken == token
                && !after.LeaseExpired(now) ==>
              (row.job.status.Started? || row.job.status.CancellationRequested?) && row.job.attemptToken == token
                  && !row.job.LeaseExpired(now)
  {
  }

  lemma MoveKeepsLeases(a: map<Path, Artifact>, b: map<Path, Artifact>, snapshots: map<Path, Snapshot>,
                        rows: map<nat, Row>, now: Time,
                        nextId: nat, issued: nat, task: nat, act: Act)
    requires LeasesOk(rows, a, now, nextId) && Rescheduled(a, b, snapshots, nextId) && issued >= nextId
    requires task in rows && Fires(rows[task], act, now) && Sound(rows[task])
    requires act.Start? ==> nextId <= act.token
    ensures LeasesOk(rows[task := Perform(rows[task], act, now)], b, now, issued)
  {
    var moved := rows[task := Perform(rows[task], act, now)];
    forall p | p in b && (b[p].state.Deleting? || b[p].state.Deleted?) ensures !LiveAttempt(moved, b[p], now) {
      assert p in a;
      MoveRevivesNothing(rows[task], act, now, a[p].attemptToken, nextId);
      hide Fires, Perform, Sound;
    }
    hide Fires, Perform, Sound, LiveAttempt;
  }

  lemma MoveFacts(s: State, task: nat, act: Act, z: State)
    requires RowsOk(s.tasks.rows, s.env.nextId) && Moved(s, task, act, z)
    requires act.Succeed? ==> s.tasks.rows[task].job.transformation.None?
    ensures Sound(s.tasks.rows[task]) && task in z.tasks.rows
    ensures var after := z.tasks.rows[task].job;
            after.status.Success? && after.transformation.Some? ==> after == s.tasks.rows[task].job
    ensures Restated(s.domain.datasets, z.domain.datasets)
        && Restatused(s.domain.transformations, z.domain.transformations)
    ensures z.domain.datasets.Keys == s.domain.datasets.Keys
  {
    SuccessIsFinal(s.tasks.rows[task], act, s.env.now);
    hide Fires, Perform, OwnImport, OwnEvaluation, Sound, Agree;
    var after := Perform(s.tasks.rows[task], act, s.env.now);
    hide Restated, Restatused;
    OwnFacts(s.tasks.rows[task].job, after.job, s.domain.datasets, z.domain.datasets, s.domain.transformations,
             z.domain.transformations);
    RestatementKeepsHeads(s.domain.datasets, z.domain.datasets);
  }

  lemma SuccessIsFinal(row: Row, act: Act, now: Time)
    requires Fires(row, act, now) && Sound(row)
    ensures Perform(row, act, now).job.status.Success? && !act.Succeed? ==> Perform(row, act, now).job == row.job
    ensures Perform(row, act, now).job.transformation == row.job.transformation
  {
  }

  lemma MovedKeepsRecords(s: State, task: nat, act: Act, z: State)
    requires JobsOk(s) && RecordsOk(s) && Moved(s, task, act, z)
    requires Rescheduled(s.storage.artifacts, z.storage.artifacts, s.storage.snapshots, s.env.nextId)
    requires z.storage.snapshots == s.storage.snapshots && z.storage.writers == s.storage.writers
    requires z.intake.uploading <= s.intake.uploading
    requires act.Succeed? ==> s.tasks.rows[task].job.transformation.None?
    ensures RecordsOk(z)
  {
    MoveFacts(s, task, act, z);
    var after := z.tasks.rows[task];
    hide RowsOk, ImportsOk, TargetsOk, RunsAgree, EvaluationsAgree, CapacityOk,
      TransformationsOk, TasksOk, DescriptionsOk, ProfilersOk, LiveOk, LeasesOk, HistoryOk, ReceiptsOk, Fires,
      Perform, Sound,
      OwnDataset, OwnImport, OwnRun, OwnEvaluation, Restated, Restatused, Rescheduled;
    RestatusKeepsTransformations(s.domain.transformations, z.domain.transformations, s.storage.snapshots,
                                 s.storage.writers, s.env.nextId, z.env.nextId);
    RestatementKeepsDescriptions(s.domain.datasets, z.domain.datasets, s.storage.snapshots);
    RestatusKeepsHistory(s.domain.datasets, z.domain.datasets, s.domain.events, s.domain.transformations,
                         z.domain.transformations, s.intake.uploads);
    MoveKeepsLive(s.storage.artifacts, z.storage.artifacts, s.storage.snapshots, s.env.nextId, s.storage.writers,
                  s.domain.transformations, z.domain.transformations, s.tasks.rows, task, after);
    MoveKeepsLeases(s.storage.artifacts, z.storage.artifacts, s.storage.snapshots, s.tasks.rows, s.env.now,
                    s.env.nextId, z.env.nextId, task, act);
  }

  // ---------------------------------------------------------------- storage side of a move

  /** The storage effects a move may have: deletion requests, and unlinks of files nobody can want. */
  ghost predicate Releases(s: State, z: State) {
    && Rescheduled(s.storage.artifacts, z.storage.artifacts, s.storage.snapshots, s.env.nextId)
    && z.storage == s.storage.(artifacts := z.storage.artifacts, doomed := z.storage.doomed)
    && s.storage.doomed <= z.storage.doomed
    && (forall p | p in z.storage.doomed && p !in s.storage.doomed ::
          p.Prepared? || (p.Output? && Unwanted(s.storage.snapshots, z.domain.datasets, p)))
    && z.intake == s.intake
    && z.env.nextId >= s.env.nextId
  }

  lemma DoomedUnwantedKeepsDoomed(doomed: set<Path>, after: set<Path>, artifacts: map<Path, Artifact>,
                                  snapshots: map<Path, Snapshot>,
                                  datasets: map<nat, Dataset>, uploads: map<nat, Upload>, aborted: set<nat>)
    requires DoomedOk(doomed, artifacts, snapshots, datasets, uploads, aborted)
    requires forall p | p in after && p !in doomed :: p.Prepared? || (p.Output? && Unwanted(snapshots, datasets, p))
    ensures DoomedOk(after, artifacts, snapshots, datasets, uploads, aborted)
  {
  }

  lemma ReleasesKeepsStorage(s: State, z: State)
    requires StorageOk(s) && Releases(s, z) && SameHeads(s.domain.datasets, z.domain.datasets)
    ensures StorageOk(z)
  {
    var a := s.(domain := s.domain.(datasets := z.domain.datasets));
    SameHeadsKeepsStorage(s, z.domain.datasets);
    var b := a.(storage := a.storage.(artifacts := z.storage.artifacts));
    hide HeadsOk, ManifestsOk, FilesOk, VersionsUnique, ArtifactsOk, WritersOk, DoomedOk, SameHeads, Rescheduled,
      Unwanted;
    RescheduledKeepsStorage(a, z.storage.artifacts);
    DoomedUnwantedKeepsDoomed(b.storage.doomed, z.storage.doomed, b.storage.artifacts, b.storage.snapshots,
                              b.domain.datasets, b.intake.uploads, b.intake.aborted);
    IssuingKeepsStorage(b, z.env.nextId);
  }

  lemma RestatementKeepsHeads(a: map<nat, Dataset>, b: map<nat, Dataset>)
    requires Restated(a, b)
    ensures SameHeads(a, b)
  {
  }

  /** A job's move with its own record and releases only keeps the whole invariant. */
  lemma MoveKeepsInv(s: State, task: nat, act: Act, z: State)
    requires Inv(s) && Moved(s, task, act, z) && Releases(s, z)
    requires act.Succeed? ==> s.tasks.rows[task].job.transformation.None?
    ensures Inv(z)
  {
    assert Restated(s.domain.datasets, z.domain.datasets);
    RestatementKeepsHeads(s.domain.datasets, z.domain.datasets);
    ReleasesKeepsStorage(s, z);
    hide StorageOk, JobsOk, RecordsOk, Moved, Fires, Perform;
    MovedKeepsJobs(s, task, act, z);
    MovedKeepsRecords(s, task, act, z);
  }
}
