/** Each storage action keeps `StorageOk`. */
module StorageProof {
  import opened Prelude
  import opened JobService
  import opened TaskProtocol
  import opened Tables
  import opened ArtifactService
  import opened Protocol
  import opened Invariants

  // ---------------------------------------------------------------- dataset rows

  /** No dataset regained its claim on its files. */
  ghost predicate NoneRegained(before: map<nat, Dataset>, after: map<nat, Dataset>) {
    before.Keys == after.Keys && forall d | d in before :: after[d].Retained() ==> before[d].Retained()
  }

  /** Every head stays where it is; versions do not fall. */
  ghost predicate SameHeads(before: map<nat, Dataset>, after: map<nat, Dataset>) {
    && NoneRegained(before, after)
    && forall d | d in before ::
      && after[d].storedPath == before[d].storedPath
      && after[d].version >= before[d].version
      && (after[d].deleted ==> after[d].status.CancelledImport?)
  }

  lemma SameHeadsKeepsHeads(a: map<nat, Dataset>, b: map<nat, Dataset>, snapshots: map<Path, Snapshot>,
                            uploads: map<nat, Upload>, nextId: nat)
    requires SameHeads(a, b) && HeadsOk(a, snapshots, uploads, nextId)
    ensures HeadsOk(b, snapshots, uploads, nextId)
  {
  }

  lemma SameHeadsKeepsManifests(a: map<nat, Dataset>, b: map<nat, Dataset>, snapshots: map<Path, Snapshot>, nextId: nat)
    requires SameHeads(a, b) && ManifestsOk(snapshots, a, nextId)
    ensures ManifestsOk(snapshots, b, nextId)
  {
  }

  lemma RetentionKeepsFiles(a: map<nat, Dataset>, b: map<nat, Dataset>, files: map<Path, Bytes>,
                            snapshots: map<Path, Snapshot>, uploads: map<nat, Upload>, aborted: set<nat>)
    requires NoneRegained(a, b) && FilesOk(files, snapshots, a, uploads, aborted)
    ensures FilesOk(files, snapshots, b, uploads, aborted)
  {
  }

  lemma RetentionKeepsArtifacts(a: map<nat, Dataset>, b: map<nat, Dataset>, artifacts: map<Path, Artifact>,
                                snapshots: map<Path, Snapshot>, nextId: nat)
    requires NoneRegained(a, b) && ArtifactsOk(artifacts, snapshots, a, nextId)
    ensures ArtifactsOk(artifacts, snapshots, b, nextId)
  {
  }

  lemma RetentionKeepsDoomed(a: map<nat, Dataset>, b: map<nat, Dataset>, doomed: set<Path>,
                             artifacts: map<Path, Artifact>, snapshots: map<Path, Snapshot>,
                             uploads: map<nat, Upload>, aborted: set<nat>)
    requires NoneRegained(a, b) && DoomedOk(doomed, artifacts, snapshots, a, uploads, aborted)
    ensures DoomedOk(doomed, artifacts, snapshots, b, uploads, aborted)
  {
  }

  lemma SameHeadsKeepsStorage(s: State, after: map<nat, Dataset>)
    requires StorageOk(s) && SameHeads(s.domain.datasets, after)
    ensures StorageOk(s.(domain := s.domain.(datasets := after)))
  {
    hide HeadsOk, ManifestsOk, FilesOk, ArtifactsOk, DoomedOk, WritersOk, VersionsUnique;
    SameHeadsKeepsHeads(s.domain.datasets, after, s.storage.snapshots, s.intake.uploads, s.env.nextId);
    SameHeadsKeepsManifests(s.domain.datasets, after, s.storage.snapshots, s.env.nextId);
    RetentionKeepsFiles(s.domain.datasets, after, s.storage.files, s.storage.snapshots, s.intake.uploads,
                        s.intake.aborted);
    RetentionKeepsArtifacts(s.domain.datasets, after, s.storage.artifacts, s.storage.snapshots, s.env.nextId);
    RetentionKeepsDoomed(s.domain.datasets, after, s.storage.doomed, s.storage.artifacts, s.storage.snapshots,
                         s.intake.uploads, s.intake.aborted);
  }

  // ---------------------------------------------------------------- deletion requests

  /** Rows keep everything but their deletion request; new rows belong to no attempt. */
  ghost predicate Rescheduled(a: map<Path, Artifact>, b: map<Path, Artifact>, snapshots: map<Path, Snapshot>,
                              nextId: nat) {
    && (forall p | p in a :: p in b && b[p] == a[p].(deletionRequestedAt := b[p].deletionRequestedAt))
    && (forall p | p in b && p !in a ::
          && Issued(p, nextId) && (p.Prepared? || (p.Output? && p in snapshots))
          && b[p].state.Reserved? && b[p].task.None? && b[p].attemptToken.None? && b[p].temporaryPath.None?)
  }

  lemma RescheduledKeepsArtifacts(a: map<Path, Artifact>, b: map<Path, Artifact>, snapshots: map<Path, Snapshot>,
                                  datasets: map<nat, Dataset>, nextId: nat)
    requires Rescheduled(a, b, snapshots, nextId) && ArtifactsOk(a, snapshots, datasets, nextId)
    ensures ArtifactsOk(b, snapshots, datasets, nextId)
  {
    forall p | p in b ensures p in a || p !in a {}
  }

  lemma RescheduledKeepsWriters(a: map<Path, Artifact>, b: map<Path, Artifact>, writers: map<Path, Writer>,
                                snapshots: map<Path, Snapshot>, uploads: map<nat, Upload>, nextId: nat)
    requires Rescheduled(a, b, snapshots, nextId) && WritersOk(writers, a, snapshots, uploads)
    ensures WritersOk(writers, b, snapshots, uploads)
  {
  }

  lemma RescheduledKeepsDoomed(a: map<Path, Artifact>, b: map<Path, Artifact>, doomed: set<Path>,
                               snapshots: map<Path, Snapshot>,
                               datasets: map<nat, Dataset>, uploads: map<nat, Upload>, aborted: set<nat>, nextId: nat)
    requires Rescheduled(a, b, snapshots, nextId) && DoomedOk(doomed, a, snapshots, datasets, uploads, aborted)
    ensures DoomedOk(doomed, b, snapshots, datasets, uploads, aborted)
  {
  }

  lemma RescheduledKeepsStorage(s: State, b: map<Path, Artifact>)
    requires StorageOk(s) && Rescheduled(s.storage.artifacts, b, s.storage.snapshots, s.env.nextId)
    ensures StorageOk(s.(storage := s.storage.(artifacts := b)))
  {
    hide HeadsOk, ManifestsOk, FilesOk, VersionsUnique, ArtifactsOk, WritersOk, DoomedOk, Rescheduled;
    RescheduledKeepsArtifacts(s.storage.artifacts, b, s.storage.snapshots, s.domain.datasets, s.env.nextId);
    RescheduledKeepsWriters(s.storage.artifacts, b, s.storage.writers, s.storage.snapshots, s.intake.uploads,
                            s.env.nextId);
    RescheduledKeepsDoomed(s.storage.artifacts, b, s.storage.doomed, s.storage.snapshots, s.domain.datasets,
                           s.intake.uploads, s.intake.aborted, s.env.nextId);
  }

  lemma RequestDeletionKeepsStorage(s: State, path: Path, owner: Option<nat>)
    requires StorageOk(s)
    requires Issued(path, s.env.nextId) && (path.Prepared? || (path.Output? && path in s.storage.snapshots))
    ensures StorageOk(RequestDeletion(s, path, owner))
  {
    hide StorageOk;
    RescheduledKeepsStorage(s, ScheduleDelete(s.storage.artifacts, path, owner, s.env.now));
  }

  lemma AbandonKeepsStorage(s: State, task: nat, token: Token)
    requires StorageOk(s)
    ensures StorageOk(AbandonAttemptOf(s, task, token))
  {
    hide StorageOk;
    RescheduledKeepsStorage(s, AbandonAttempt(s.storage.artifacts, task, token, s.env.now));
  }

  // ---------------------------------------------------------------- publication

  lemma NewHeadKeepsHeads(datasets: map<nat, Dataset>, snapshots: map<Path, Snapshot>, uploads: map<nat, Upload>,
                          nextId: nat,
                          d: nat, head: Dataset, final: Path, manifest: Snapshot)
    requires HeadsOk(datasets, snapshots, uploads, nextId)
    requires d in datasets && head.storedPath == final && !head.deleted
    requires final !in snapshots && manifest.dataset == d && manifest.availability.Available?
    ensures HeadsOk(datasets[d := head], snapshots[final := manifest], uploads, nextId + 1)
  {
  }

  lemma NewHeadKeepsManifests(datasets: map<nat, Dataset>, snapshots: map<Path, Snapshot>, nextId: nat,
                              d: nat, head: Dataset, final: Path, manifest: Snapshot)
    requires ManifestsOk(snapshots, datasets, nextId) && VersionsUnique(snapshots)
    requires d in datasets && head.version == datasets[d].version + 1
    requires final.Output? && Issued(final, nextId)
    requires manifest.dataset == d && manifest.version == head.version && !manifest.availability.Expired?
    ensures ManifestsOk(snapshots[final := manifest], datasets[d := head], nextId + 1)
    ensures VersionsUnique(snapshots[final := manifest])
  {
    forall p | p in snapshots ensures snapshots[p].dataset == d ==> snapshots[p].version < manifest.version {}
  }

  lemma NewManifestKeepsFiles(files: map<Path, Bytes>, snapshots: map<Path, Snapshot>, datasets: map<nat, Dataset>,
                              uploads: map<nat, Upload>,
                              aborted: set<nat>, temporary: Path, final: Path, manifest: Snapshot)
    requires FilesOk(files, snapshots, datasets, uploads, aborted)
    requires temporary !in snapshots
    requires final !in snapshots && final.Output?
    ensures FilesOk((files - {temporary})[final := manifest.digest], snapshots[final := manifest], datasets, uploads,
                    aborted)
  {
  }

  lemma NewManifestKeepsArtifacts(artifacts: map<Path, Artifact>, snapshots: map<Path, Snapshot>,
                                  datasets: map<nat, Dataset>, nextId: nat,
                                  final: Path, manifest: Snapshot, live: Artifact)
    requires ArtifactsOk(artifacts, snapshots, datasets, nextId)
    requires final in artifacts && artifacts[final].task.Some? && final !in snapshots
    requires live == artifacts[final].(state := Live, expiresAt := None)
    ensures ArtifactsOk(artifacts[final := live], snapshots[final := manifest], datasets, nextId + 1)
  {
  }

  lemma NewManifestKeepsWriters(writers: map<Path, Writer>, artifacts: map<Path, Artifact>,
                                snapshots: map<Path, Snapshot>, uploads: map<nat, Upload>,
                                final: Path, manifest: Snapshot, live: Artifact)
    requires WritersOk(writers, artifacts, snapshots, uploads)
    requires final in writers && final in artifacts && live == artifacts[final].(state := Live, expiresAt := None)
    ensures WritersOk(writers[final := writers[final].(finished := true)], artifacts[final := live],
                      snapshots[final := manifest], uploads)
  {
  }

  lemma NewManifestKeepsDoomed(doomed: set<Path>, artifacts: map<Path, Artifact>, snapshots: map<Path, Snapshot>,
                               datasets: map<nat, Dataset>,
                               uploads: map<nat, Upload>, aborted: set<nat>, final: Path, manifest: Snapshot,
                               live: Artifact)
    requires DoomedOk(doomed, artifacts, snapshots, datasets, uploads, aborted)
    requires final.Output? && final in artifacts && artifacts[final].state.Reserved? && final !in snapshots
    requires live == artifacts[final].(state := Live, expiresAt := None)
    ensures DoomedOk(doomed, artifacts[final := live], snapshots[final := manifest], datasets, uploads, aborted)
  {
  }

  ghost predicate PublishesImported(s: State, task: nat, token: Token, final: Path) {
    MayPublish(s, task, token, final) ==>
      var x := s.domain.transformations[s.tasks.rows[task].job.transformation.value];
      x.dataset in s.domain.datasets && s.domain.datasets[x.dataset].Imported()
  }

  lemma PublishFacts(s: State, task: nat, token: Token, final: Path)
    requires MayPublish(s, task, token, final) && PublishesImported(s, task, token, final)
    requires ManifestsOk(s.storage.snapshots, s.domain.datasets, s.env.nextId)
    requires ArtifactsOk(s.storage.artifacts, s.storage.snapshots, s.domain.datasets, s.env.nextId)
    requires WritersOk(s.storage.writers, s.storage.artifacts, s.storage.snapshots, s.intake.uploads)
    ensures final.Output? && Issued(final, s.env.nextId) && final !in s.storage.snapshots
    ensures s.storage.writers[final].temporary !in s.storage.snapshots
    ensures NoneRegained(s.domain.datasets, Publish(s, task, token, final).domain.datasets)
  {
    hide Fires, Perform;
  }

  lemma PublishKeepsStorage(s: State, task: nat, token: Token, final: Path)
    requires StorageOk(s) && PublishesImported(s, task, token, final)
    ensures StorageOk(Publish(s, task, token, final))
  {
    hide HeadsOk, ManifestsOk, FilesOk, VersionsUnique, ArtifactsOk, WritersOk, DoomedOk, Fires, Perform,
      NoneRegained;
    if MayPublish(s, task, token, final) {
      PublishFacts(s, task, token, final);
      var t := Publish(s, task, token, final);
      var d := s.domain.transformations[s.tasks.rows[task].job.transformation.value].dataset;
      var head, manifest, live := t.domain.datasets[d], t.storage.snapshots[final], t.storage.artifacts[final];
      NewHeadKeepsHeads(s.domain.datasets, s.storage.snapshots, s.intake.uploads, s.env.nextId,
                        d, head, final, manifest);
      NewHeadKeepsManifests(s.domain.datasets, s.storage.snapshots, s.env.nextId, d, head, final, manifest);
      RetentionKeepsFiles(s.domain.datasets, t.domain.datasets, s.storage.files, s.storage.snapshots, s.intake.uploads,
                          s.intake.aborted);
      RetentionKeepsArtifacts(s.domain.datasets, t.domain.datasets, s.storage.artifacts, s.storage.snapshots,
                              s.env.nextId);
      RetentionKeepsDoomed(s.domain.datasets, t.domain.datasets, s.storage.doomed, s.storage.artifacts,
                           s.storage.snapshots, s.intake.uploads, s.intake.aborted);
      NewManifestKeepsFiles(s.storage.files, s.storage.snapshots, t.domain.datasets, s.intake.uploads, s.intake.aborted,
                            s.storage.writers[final].temporary, final, manifest);
      NewManifestKeepsArtifacts(s.storage.artifacts, s.storage.snapshots, t.domain.datasets, s.env.nextId, final,
                                manifest, live);
      NewManifestKeepsWriters(s.storage.writers, s.storage.artifacts, s.storage.snapshots, s.intake.uploads, final,
                              manifest, live);
      NewManifestKeepsDoomed(s.storage.doomed, s.storage.artifacts, s.storage.snapshots, t.domain.datasets,
                             s.intake.uploads, s.intake.aborted, final, manifest, live);
    }
  }

  // ---------------------------------------------------------------- undo

  lemma RestoredHeadKeepsStorage(s: State, d: nat, head: Dataset)
    requires StorageOk(s)
    requires d in s.domain.datasets && s.domain.datasets[d].Retained() && !head.deleted
        && head.version >= s.domain.datasets[d].version
    requires head.storedPath in s.storage.snapshots
    requires s.storage.snapshots[head.storedPath].dataset == d
        && s.storage.snapshots[head.storedPath].availability.Available?
    ensures StorageOk(s.(domain := s.domain.(datasets := s.domain.datasets[d := head])))
  {
    hide HeadsOk, ManifestsOk, FilesOk, ArtifactsOk, DoomedOk, WritersOk, VersionsUnique;
    var b := s.domain.datasets[d := head];
    assert HeadsOk(b, s.storage.snapshots, s.intake.uploads,
                   s.env.nextId) by { RestoredHeadKeepsHeads(s.domain.datasets, s.storage.snapshots, s.intake.uploads,
                                                             s.env.nextId, d, head); }
    assert ManifestsOk(s.storage.snapshots, b,
                       s.env.nextId) by { RestoredHeadKeepsManifests(s.domain.datasets, s.storage.snapshots,
                                                                     s.env.nextId, d, head); }
    RetentionKeepsFiles(s.domain.datasets, b, s.storage.files, s.storage.snapshots, s.intake.uploads, s.intake.aborted);
    RetentionKeepsArtifacts(s.domain.datasets, b, s.storage.artifacts, s.storage.snapshots, s.env.nextId);
    RetentionKeepsDoomed(s.domain.datasets, b, s.storage.doomed, s.storage.artifacts, s.storage.snapshots,
                         s.intake.uploads, s.intake.aborted);
  }

  lemma RestoredHeadKeepsHeads(datasets: map<nat, Dataset>, snapshots: map<Path, Snapshot>, uploads: map<nat, Upload>,
                               nextId: nat, d: nat, head: Dataset)
    requires HeadsOk(datasets, snapshots, uploads, nextId) && d in datasets && !head.deleted
    requires head.storedPath in snapshots && snapshots[head.storedPath].dataset == d
        && snapshots[head.storedPath].availability.Available?
    ensures HeadsOk(datasets[d := head], snapshots, uploads, nextId)
  {
  }

  lemma RestoredHeadKeepsManifests(datasets: map<nat, Dataset>, snapshots: map<Path, Snapshot>, nextId: nat, d: nat,
                                   head: Dataset)
    requires ManifestsOk(snapshots, datasets, nextId) && d in datasets && head.version >= datasets[d].version
    ensures ManifestsOk(snapshots, datasets[d := head], nextId)
  {
  }

  lemma UndoKeepsStorage(s: State, d: nat, user: nat, version: nat, key: Option<nat>, x: nat)
    requires StorageOk(s)
    ensures StorageOk(Undo(s, d, user, version, key, x))
  {
    hide StorageOk, Replay;
    if MayUndo(s, d, user, version, key, x) {
      var t := Undo(s, d, user, version, key, x);
      RestoredHeadKeepsStorage(s, d, t.domain.datasets[d]);
      IssuingKeepsStorage(s.(domain := s.domain.(datasets := t.domain.datasets)), t.env.nextId);
      OtherTablesAreIrrelevant(s.(domain := s.domain.(datasets := t.domain.datasets),
                                  env := s.env.(nextId := t.env.nextId)), t);
    }
  }

  // ---------------------------------------------------------------- frames

  lemma IssuingKeepsStorage(s: State, nextId: nat)
    requires StorageOk(s) && nextId >= s.env.nextId
    ensures StorageOk(s.(env := s.env.(nextId := nextId)))
  {
    hide FilesOk, DoomedOk, WritersOk, VersionsUnique;
  }

  /** `StorageOk` reads only the storage tables. */
  lemma OtherTablesAreIrrelevant(s: State, t: State)
    requires StorageOk(s)
    requires t.domain.datasets == s.domain.datasets && t.storage.snapshots == s.storage.snapshots
        && t.intake.uploads == s.intake.uploads && t.env.nextId == s.env.nextId
    requires t.storage.files == s.storage.files && t.intake.aborted == s.intake.aborted && t.storage.artifacts
        == s.storage.artifacts && t.storage.writers == s.storage.writers && t.storage.doomed == s.storage.doomed
    ensures StorageOk(t)
  {
    hide HeadsOk, ManifestsOk, FilesOk, ArtifactsOk, DoomedOk, WritersOk, VersionsUnique;
  }

  // ---------------------------------------------------------------- uploads

  lemma NewUploadKeepsHeads(datasets: map<nat, Dataset>, snapshots: map<Path, Snapshot>, uploads: map<nat, Upload>,
                            nextId: nat, dataset: Dataset, manifest: Snapshot, task: nat)
    requires HeadsOk(datasets, snapshots, uploads, nextId) && ManifestsOk(snapshots, datasets, nextId)
    requires dataset.storedPath == Output(nextId + 1) && !dataset.deleted
    requires manifest.dataset == nextId && manifest.availability.Available?
    ensures HeadsOk(datasets[nextId := dataset], snapshots[Output(nextId + 1) := manifest],
                    uploads[nextId := Upload(Output(nextId + 1), task)], nextId + 3)
  {
  }

  lemma NewUploadKeepsManifests(datasets: map<nat, Dataset>, snapshots: map<Path, Snapshot>, nextId: nat,
                                dataset: Dataset, manifest: Snapshot)
    requires ManifestsOk(snapshots, datasets, nextId) && VersionsUnique(snapshots) && nextId !in datasets
    requires dataset.version == 1 && manifest.dataset == nextId && manifest.version == 1
    requires manifest.availability.Available?
    ensures ManifestsOk(snapshots[Output(nextId + 1) := manifest], datasets[nextId := dataset], nextId + 3)
    ensures VersionsUnique(snapshots[Output(nextId + 1) := manifest])
  {
  }

  lemma NewUploadKeepsDatasets(datasets: map<nat, Dataset>, snapshots: map<Path, Snapshot>, uploads: map<nat, Upload>,
                               nextId: nat, dataset: Dataset, manifest: Snapshot, task: nat)
    requires HeadsOk(datasets, snapshots, uploads, nextId) && ManifestsOk(snapshots, datasets, nextId)
        && VersionsUnique(snapshots)
    requires dataset.storedPath == Output(nextId + 1) && dataset.version == 1 && !dataset.deleted
    requires manifest.dataset == nextId && manifest.version == 1 && manifest.availability.Available?
    ensures HeadsOk(datasets[nextId := dataset], snapshots[Output(nextId + 1) := manifest],
                    uploads[nextId := Upload(Output(nextId + 1), task)], nextId + 3)
    ensures ManifestsOk(snapshots[Output(nextId + 1) := manifest], datasets[nextId := dataset], nextId + 3)
    ensures VersionsUnique(snapshots[Output(nextId + 1) := manifest])
  {
    assert nextId !in datasets;
    hide HeadsOk, ManifestsOk, VersionsUnique;
    NewUploadKeepsHeads(datasets, snapshots, uploads, nextId, dataset, manifest, task);
    NewUploadKeepsManifests(datasets, snapshots, nextId, dataset, manifest);
  }

  lemma NewUploadKeepsFiles(files: map<Path, Bytes>, datasets: map<nat, Dataset>, snapshots: map<Path, Snapshot>,
                            uploads: map<nat, Upload>,
                            aborted: set<nat>, nextId: nat, dataset: Dataset, manifest: Snapshot, task: nat)
    requires FilesOk(files, snapshots, datasets, uploads, aborted) && ManifestsOk(snapshots, datasets, nextId)
    requires HeadsOk(datasets, snapshots, uploads, nextId)
    requires manifest.dataset == nextId
    ensures FilesOk(files[Output(nextId + 1) := manifest.digest], snapshots[Output(nextId + 1) := manifest],
                    datasets[nextId := dataset],
                    uploads[nextId := Upload(Output(nextId + 1), task)], aborted)
  {
  }

  lemma NewUploadKeepsArtifacts(artifacts: map<Path, Artifact>, writers: map<Path, Writer>, datasets: map<nat, Dataset>,
                                snapshots: map<Path, Snapshot>,
                                uploads: map<nat, Upload>, nextId: nat, dataset: Dataset, manifest: Snapshot, task: nat)
    requires ArtifactsOk(artifacts, snapshots, datasets, nextId) && ManifestsOk(snapshots, datasets, nextId)
    requires WritersOk(writers, artifacts, snapshots, uploads)
    requires HeadsOk(datasets, snapshots, uploads, nextId)
    requires manifest.dataset == nextId
    ensures ArtifactsOk(artifacts, snapshots[Output(nextId + 1) := manifest], datasets[nextId := dataset], nextId + 3)
    ensures WritersOk(writers, artifacts, snapshots[Output(nextId + 1) := manifest],
                      uploads[nextId := Upload(Output(nextId + 1), task)])
  {
  }

  lemma NewUploadKeepsDoomed(doomed: set<Path>, artifacts: map<Path, Artifact>, datasets: map<nat, Dataset>,
                             snapshots: map<Path, Snapshot>,
                             uploads: map<nat, Upload>, aborted: set<nat>, nextId: nat,
                              dataset: Dataset, manifest: Snapshot, task: nat)
    requires DoomedOk(doomed, artifacts, snapshots, datasets, uploads, aborted)
    requires ArtifactsOk(artifacts, snapshots, datasets, nextId) && ManifestsOk(snapshots, datasets, nextId)
    requires HeadsOk(datasets, snapshots, uploads, nextId)
    requires manifest.dataset == nextId
    ensures DoomedOk(doomed, artifacts, snapshots[Output(nextId + 1) := manifest], datasets[nextId := dataset],
                     uploads[nextId := Upload(Output(nextId + 1), task)], aborted)
  {
  }

  lemma StageUploadKeepsStorage(s: State, task: nat, content: Bytes)
    requires StorageOk(s)
    ensures StorageOk(StageUpload(s, task, content))
  {
    hide HeadsOk, ManifestsOk, FilesOk, ArtifactsOk, DoomedOk, WritersOk, VersionsUnique, Fires, Perform;
    var t := StageUpload(s, task, content);
    if t != s {
      var d, path := s.env.nextId, Output(s.env.nextId + 1);
      var dataset, manifest := t.domain.datasets[d], t.storage.snapshots[path];
      NewUploadKeepsDatasets(s.domain.datasets, s.storage.snapshots, s.intake.uploads, s.env.nextId, dataset, manifest,
                             task);
      NewUploadKeepsFiles(s.storage.files, s.domain.datasets, s.storage.snapshots, s.intake.uploads, s.intake.aborted,
                          s.env.nextId, dataset, manifest, task);
      NewUploadKeepsArtifacts(s.storage.artifacts, s.storage.writers, s.domain.datasets, s.storage.snapshots,
                              s.intake.uploads, s.env.nextId, dataset, manifest, task);
      NewUploadKeepsDoomed(s.storage.doomed, s.storage.artifacts, s.domain.datasets, s.storage.snapshots,
                           s.intake.uploads, s.intake.aborted, s.env.nextId, dataset, manifest, task);
    }
  }

  lemma AbortUploadKeepsStorage(s: State, d: nat)
    requires StorageOk(s)
    requires d in s.intake.uploading ==> d in s.domain.datasets
    ensures StorageOk(AbortUpload(s, d))
  {
    hide HeadsOk, ManifestsOk, FilesOk, ArtifactsOk, DoomedOk, WritersOk, VersionsUnique, Fires, Perform;
    if d in s.intake.uploading && d in s.intake.uploads {
      AbortingKeepsFiles(s.storage.files, s.domain.datasets, s.storage.snapshots, s.intake.uploads,
                         s.intake.aborted, d);
      AbortingKeepsDoomed(s.storage.doomed, s.storage.artifacts, s.domain.datasets, s.storage.snapshots,
                          s.intake.uploads, s.intake.aborted, s.env.nextId, d);
    }
  }

  lemma AbortingKeepsFiles(files: map<Path, Bytes>, datasets: map<nat, Dataset>, snapshots: map<Path, Snapshot>,
                           uploads: map<nat, Upload>, aborted: set<nat>, d: nat)
    requires FilesOk(files, snapshots, datasets, uploads, aborted)
    ensures FilesOk(files, snapshots, datasets, uploads, aborted + {d})
  {
  }

  lemma AbortingKeepsDoomed(doomed: set<Path>, artifacts: map<Path, Artifact>, datasets: map<nat, Dataset>,
                            snapshots: map<Path, Snapshot>,
                            uploads: map<nat, Upload>, aborted: set<nat>, nextId: nat, d: nat)
    requires DoomedOk(doomed, artifacts, snapshots, datasets, uploads, aborted)
    requires HeadsOk(datasets, snapshots, uploads, nextId) && ManifestsOk(snapshots, datasets, nextId) && d in datasets
    ensures DoomedOk(doomed + {uploads[d].path}, artifacts, snapshots, datasets, uploads, aborted + {d})
  {
  }

  // ---------------------------------------------------------------- reservations and writers

  lemma ReservationKeepsStorage(s: State, artifact: Artifact, writer: Writer)
    requires StorageOk(s)
    requires artifact.state.Reserved? && artifact.task == Some(writer.task)
        && artifact.attemptToken == Some(writer.token)
    requires writer.temporary == Temporary(s.env.nextId + 1) && artifact.temporaryPath == Some(writer.temporary)
    ensures StorageOk(s.(
        env := s.env.(nextId := s.env.nextId + 2),
        storage := s.storage.(artifacts := s.storage.artifacts[Output(s.env.nextId) := artifact],
                              writers := s.storage.writers[Output(s.env.nextId) := writer])))
  {
    hide FilesOk, VersionsUnique, HeadsOk, ManifestsOk, ArtifactsOk, WritersOk, DoomedOk;
    var artifacts, final := s.storage.artifacts[Output(s.env.nextId) := artifact], Output(s.env.nextId);
    IssuingKeepsStorage(s, s.env.nextId + 2);
    NewReservationKeepsArtifacts(s.storage.artifacts, s.storage.snapshots, s.domain.datasets, s.env.nextId, artifact);
    NewReservationKeepsWriters(s.storage.writers, s.storage.artifacts, s.storage.snapshots, s.domain.datasets,
                               s.intake.uploads, s.env.nextId, artifact, writer);
    NewReservationKeepsDoomed(s.storage.doomed, s.storage.artifacts, s.storage.snapshots, s.domain.datasets,
                              s.intake.uploads, s.intake.aborted, s.env.nextId, artifact);
  }

  lemma NewReservationKeepsArtifacts(artifacts: map<Path, Artifact>, snapshots: map<Path, Snapshot>,
                                     datasets: map<nat, Dataset>, nextId: nat, artifact: Artifact)
    requires ArtifactsOk(artifacts, snapshots, datasets, nextId) && ManifestsOk(snapshots, datasets, nextId)
    requires artifact.state.Reserved? && artifact.task.Some? && artifact.attemptToken.Some? && artifact.temporaryPath
        == Some(Temporary(nextId + 1))
    ensures ArtifactsOk(artifacts[Output(nextId) := artifact], snapshots, datasets, nextId + 2)
  {
  }

  lemma NewReservationKeepsWriters(writers: map<Path, Writer>, artifacts: map<Path, Artifact>,
                                   snapshots: map<Path, Snapshot>, datasets: map<nat, Dataset>,
                                   uploads: map<nat, Upload>, nextId: nat, artifact: Artifact, writer: Writer)
    requires WritersOk(writers, artifacts, snapshots, uploads) && ManifestsOk(snapshots, datasets, nextId)
    requires ArtifactsOk(artifacts, snapshots, datasets, nextId)
    requires HeadsOk(datasets, snapshots, uploads, nextId)
    requires artifact.task == Some(writer.task) && artifact.attemptToken == Some(writer.token) && artifact.temporaryPath
        == Some(writer.temporary)
    ensures WritersOk(writers[Output(nextId) := writer], artifacts[Output(nextId) := artifact], snapshots, uploads)
  {
    forall d | d in uploads ensures Issued(uploads[d].path, nextId) {
      assert d in uploads.Keys;
      assert d in datasets;
    }
  }

  lemma NewReservationKeepsDoomed(doomed: set<Path>, artifacts: map<Path, Artifact>, snapshots: map<Path, Snapshot>,
                                  datasets: map<nat, Dataset>,
                                  uploads: map<nat, Upload>, aborted: set<nat>, nextId: nat, artifact: Artifact)
    requires DoomedOk(doomed, artifacts, snapshots, datasets, uploads, aborted)
    requires ArtifactsOk(artifacts, snapshots, datasets, nextId)
    ensures DoomedOk(doomed, artifacts[Output(nextId) := artifact], snapshots, datasets, uploads, aborted)
  {
  }

  /** Writing or removing files that no manifest names. */
  lemma UnnamedFilesKeepFiles(a: map<Path, Bytes>, b: map<Path, Bytes>, snapshots: map<Path, Snapshot>,
                              datasets: map<nat, Dataset>,
                              uploads: map<nat, Upload>, aborted: set<nat>)
    requires FilesOk(a, snapshots, datasets, uploads, aborted)
    requires forall p | p in snapshots :: (p in a <==> p in b) && (p in a ==> a[p] == b[p])
    ensures FilesOk(b, snapshots, datasets, uploads, aborted)
  {
  }

  lemma FinishedKeepsWriters(writers: map<Path, Writer>, artifacts: map<Path, Artifact>, snapshots: map<Path, Snapshot>,
                             uploads: map<nat, Upload>, final: Path)
    requires WritersOk(writers, artifacts, snapshots, uploads) && final in writers
    ensures WritersOk(writers[final := writers[final].(finished := true)], artifacts, snapshots, uploads)
  {
  }

  lemma WriterFacts(s: State, final: Path)
    requires StorageOk(s) && final in s.storage.writers && !s.storage.writers[final].finished
    ensures final !in s.storage.snapshots && Scratch(s.storage.writers[final].temporary) !! s.storage.snapshots.Keys
    ensures s.storage.writers[final].temporary in Scratch(s.storage.writers[final].temporary)
  {
    hide HeadsOk, FilesOk, VersionsUnique, DoomedOk;
  }

  lemma ScratchKeepsStorage(s: State, final: Path, target: Path, content: Bytes)
    requires StorageOk(s)
    ensures StorageOk(WriteScratch(s, final, target, content))
  {
    hide HeadsOk, ManifestsOk, FilesOk, ArtifactsOk, DoomedOk, WritersOk, VersionsUnique;
    var t := WriteScratch(s, final, target, content);
    if t != s {
      WriterFacts(s, final);
      UnnamedFilesKeepFiles(s.storage.files, t.storage.files, s.storage.snapshots, s.domain.datasets, s.intake.uploads,
                            s.intake.aborted);
    }
  }

  lemma RenameKeepsStorage(s: State, final: Path)
    requires StorageOk(s)
    ensures StorageOk(RenameUnpublished(s, final))
  {
    hide HeadsOk, ManifestsOk, FilesOk, ArtifactsOk, DoomedOk, WritersOk, VersionsUnique, Scratch;
    var t := RenameUnpublished(s, final);
    if t != s {
      WriterFacts(s, final);
      UnnamedFilesKeepFiles(s.storage.files, t.storage.files, s.storage.snapshots, s.domain.datasets, s.intake.uploads,
                            s.intake.aborted);
      FinishedKeepsWriters(s.storage.writers, s.storage.artifacts, s.storage.snapshots, s.intake.uploads, final);
    }
  }

  lemma DropKeepsStorage(s: State, final: Path)
    requires StorageOk(s)
    ensures StorageOk(DropTemporary(s, final))
  {
    hide HeadsOk, ManifestsOk, FilesOk, ArtifactsOk, DoomedOk, WritersOk, VersionsUnique, Scratch;
    var t := DropTemporary(s, final);
    if t != s {
      WriterFacts(s, final);
      UnnamedFilesKeepFiles(s.storage.files, t.storage.files, s.storage.snapshots, s.domain.datasets, s.intake.uploads,
                            s.intake.aborted);
      FinishedKeepsWriters(s.storage.writers, s.storage.artifacts, s.storage.snapshots, s.intake.uploads, final);
    }
  }

  // ---------------------------------------------------------------- expiry and collection

  /** Only availability and pinning of an available manifest changed; an expired one is unpinned and no head. */
  ghost predicate Remarked(datasets: map<nat, Dataset>, snapshots: map<Path, Snapshot>, path: Path,
                           manifest: Snapshot) {
    && path in snapshots && snapshots[path].availability.Available?
    && manifest == snapshots[path].(availability := manifest.availability, pinned := manifest.pinned)
    && (manifest.availability.Expired? ==>
          !manifest.pinned && snapshots[path].dataset in datasets
           && datasets[snapshots[path].dataset].storedPath != path)
  }

  lemma RemarkKeepsStorage(s: State, path: Path, manifest: Snapshot)
    requires StorageOk(s) && Remarked(s.domain.datasets, s.storage.snapshots, path, manifest)
    ensures StorageOk(s.(storage := s.storage.(snapshots := s.storage.snapshots[path := manifest])))
  {
    hide HeadsOk, ManifestsOk, FilesOk, ArtifactsOk, DoomedOk, WritersOk, VersionsUnique, Remarked;
    RemarkKeepsHeads(s.domain.datasets, s.storage.snapshots, s.intake.uploads, s.env.nextId, path, manifest);
    RemarkKeepsManifests(s.domain.datasets, s.storage.snapshots, s.env.nextId, path, manifest);
    RemarkKeepsFiles(s.storage.files, s.domain.datasets, s.storage.snapshots, s.intake.uploads, s.intake.aborted, path,
                     manifest);
    RemarkKeepsArtifacts(s.storage.artifacts, s.storage.writers, s.domain.datasets, s.storage.snapshots,
                         s.intake.uploads, s.env.nextId, path, manifest);
    RemarkKeepsDoomed(s.storage.doomed, s.storage.artifacts, s.domain.datasets, s.storage.snapshots, s.intake.uploads,
                      s.intake.aborted, path, manifest);
  }

  lemma RemarkKeepsHeads(datasets: map<nat, Dataset>, snapshots: map<Path, Snapshot>, uploads: map<nat, Upload>,
                         nextId: nat, path: Path, manifest: Snapshot)
    requires HeadsOk(datasets, snapshots, uploads, nextId) && Remarked(datasets, snapshots, path, manifest)
    ensures HeadsOk(datasets, snapshots[path := manifest], uploads, nextId)
  {
  }

  lemma RemarkKeepsManifests(datasets: map<nat, Dataset>, snapshots: map<Path, Snapshot>, nextId: nat, path: Path,
                             manifest: Snapshot)
    requires ManifestsOk(snapshots, datasets, nextId) && VersionsUnique(snapshots)
        && Remarked(datasets, snapshots, path, manifest)
    ensures ManifestsOk(snapshots[path := manifest], datasets, nextId) && VersionsUnique(snapshots[path := manifest])
  {
    var after := snapshots[path := manifest];
    assert forall p | p in after ::
            p in snapshots && after[p].dataset == snapshots[p].dataset && after[p].version == snapshots[p].version;
  }

  lemma RemarkKeepsFiles(files: map<Path, Bytes>, datasets: map<nat, Dataset>, snapshots: map<Path, Snapshot>,
                         uploads: map<nat, Upload>,
                         aborted: set<nat>, path: Path, manifest: Snapshot)
    requires FilesOk(files, snapshots, datasets, uploads, aborted)
    requires Remarked(datasets, snapshots, path, manifest)
    ensures FilesOk(files, snapshots[path := manifest], datasets, uploads, aborted)
  {
  }

  lemma RemarkKeepsArtifacts(artifacts: map<Path, Artifact>, writers: map<Path, Writer>, datasets: map<nat, Dataset>,
                             snapshots: map<Path, Snapshot>,
                             uploads: map<nat, Upload>, nextId: nat, path: Path, manifest: Snapshot)
    requires ArtifactsOk(artifacts, snapshots, datasets, nextId) && WritersOk(writers, artifacts, snapshots, uploads)
    requires Remarked(datasets, snapshots, path, manifest)
    ensures ArtifactsOk(artifacts, snapshots[path := manifest], datasets, nextId)
    ensures WritersOk(writers, artifacts, snapshots[path := manifest], uploads)
  {
  }

  lemma RemarkKeepsDoomed(doomed: set<Path>, artifacts: map<Path, Artifact>, datasets: map<nat, Dataset>,
                          snapshots: map<Path, Snapshot>,
                          uploads: map<nat, Upload>, aborted: set<nat>, path: Path, manifest: Snapshot)
    requires DoomedOk(doomed, artifacts, snapshots, datasets, uploads, aborted)
    requires Remarked(datasets, snapshots, path, manifest)
    ensures DoomedOk(doomed, artifacts, snapshots[path := manifest], datasets, uploads, aborted)
  {
  }

  lemma ExpireKeepsStorage(s: State, path: Path)
    requires StorageOk(s)
    ensures StorageOk(ExpireSnapshot(s, path))
  {
    if MayExpire(s, path) {
      var expired := s.storage.snapshots[path].(availability := Expired);
      var marked := s.(storage := s.storage.(snapshots := s.storage.snapshots[path := expired]));
      MayExpireFacts(s, path);
      hide StorageOk, MayExpire, Remarked;
      RemarkKeepsStorage(s, path, marked.storage.snapshots[path]);
      RequestDeletionKeepsStorage(marked, path, Some(s.domain.datasets[s.storage.snapshots[path].dataset].owner));
    }
  }

  lemma MayExpireFacts(s: State, path: Path)
    requires ManifestsOk(s.storage.snapshots, s.domain.datasets, s.env.nextId) && MayExpire(s, path)
    ensures Issued(path, s.env.nextId) && path.Output?
    ensures Remarked(s.domain.datasets, s.storage.snapshots, path, s.storage.snapshots[path].(availability := Expired))
  {
    hide Recent, InFlight;
  }

  lemma PinKeepsStorage(s: State, path: Path, pinned: bool)
    requires StorageOk(s)
    ensures StorageOk(PinSnapshot(s, path, pinned))
  {
    hide StorageOk;
    if path in s.storage.snapshots && s.storage.snapshots[path].availability.Available? {
      RemarkKeepsStorage(s, path, s.storage.snapshots[path].(pinned := pinned));
    }
  }

  /** What the collector's checks guarantee about a path it condemns. */
  lemma CondemnedIsUnwanted(s: State, path: Path)
    requires path in s.storage.artifacts && VerdictOn(s, path).Condemn?
    ensures path in s.storage.snapshots ==> Unwanted(s.storage.snapshots, s.domain.datasets, path)
  {
    hide LiveAttempt;
  }

  ghost predicate Condemned(artifact: Artifact, after: Artifact) {
    after == artifact.(state := after.state) && (after.state.Deleting? || after.state.Deleted?)
  }

  lemma CondemnKeepsArtifacts(artifacts: map<Path, Artifact>, writers: map<Path, Writer>,
                              snapshots: map<Path, Snapshot>, datasets: map<nat, Dataset>,
                              uploads: map<nat, Upload>, nextId: nat, path: Path, after: Artifact)
    requires ArtifactsOk(artifacts, snapshots, datasets, nextId) && WritersOk(writers, artifacts, snapshots, uploads)
    requires path in artifacts && Condemned(artifacts[path], after)
    requires path in snapshots ==> Unwanted(snapshots, datasets, path)
    ensures ArtifactsOk(artifacts[path := after], snapshots, datasets, nextId)
    ensures WritersOk(writers, artifacts[path := after], snapshots, uploads)
  {
  }

  lemma CondemnKeepsDoomed(doomed: set<Path>, artifacts: map<Path, Artifact>, snapshots: map<Path, Snapshot>,
                           datasets: map<nat, Dataset>,
                           uploads: map<nat, Upload>, aborted: set<nat>, nextId: nat, path: Path, after: Artifact)
    requires DoomedOk(doomed, artifacts, snapshots, datasets, uploads, aborted)
        && ArtifactsOk(artifacts, snapshots, datasets, nextId)
    requires path in artifacts && Condemned(artifacts[path], after)
    requires path in snapshots ==> Unwanted(snapshots, datasets, path)
    ensures DoomedOk(doomed + {path} + Auxiliaries(artifacts[path]), artifacts[path := after], snapshots, datasets,
                     uploads, aborted)
  {
  }

  lemma CondemnKeepsStorage(s: State, path: Path, after: Artifact)
    requires StorageOk(s)
    requires path in s.storage.artifacts && Condemned(s.storage.artifacts[path], after)
    requires path in s.storage.snapshots ==> Unwanted(s.storage.snapshots, s.domain.datasets, path)
    ensures StorageOk(s.(
        storage := s.storage.(artifacts := s.storage.artifacts[path := after],
                              doomed := s.storage.doomed + {path} + Auxiliaries(s.storage.artifacts[path]))))
  {
    hide HeadsOk, ManifestsOk, FilesOk, ArtifactsOk, DoomedOk, WritersOk, VersionsUnique, Unwanted, Condemned,
      Auxiliaries;
    CondemnKeepsArtifacts(s.storage.artifacts, s.storage.writers, s.storage.snapshots, s.domain.datasets,
                          s.intake.uploads, s.env.nextId, path, after);
    CondemnKeepsDoomed(s.storage.doomed, s.storage.artifacts, s.storage.snapshots, s.domain.datasets, s.intake.uploads,
                       s.intake.aborted, s.env.nextId, path, after);
  }

  lemma FewerDoomedKeepsStorage(s: State, doomed: set<Path>)
    requires StorageOk(s) && doomed <= s.storage.doomed
    ensures StorageOk(s.(storage := s.storage.(doomed := doomed)))
  {
    hide HeadsOk, ManifestsOk, FilesOk, ArtifactsOk, WritersOk, VersionsUnique;
  }

  lemma AuxiliariesKeepStorage(s: State, path: Path)
    requires StorageOk(s) && path in s.storage.artifacts && s.storage.artifacts[path].state.Live?
    ensures StorageOk(s.(storage := s.storage.(doomed := s.storage.doomed + Auxiliaries(s.storage.artifacts[path]))))
  {
    hide HeadsOk, ManifestsOk, FilesOk, WritersOk, VersionsUnique;
  }

  lemma CollectKeepsStorage(s: State, path: Path)
    requires StorageOk(s)
    ensures StorageOk(Collect(s, path))
  {
    hide StorageOk, LiveAttempt, Referenced, Unwanted, Auxiliaries;
    if path in s.storage.artifacts {
      match VerdictOn(s, path) {
        case Keep =>
        case CollectAuxiliaries => AuxiliariesKeepStorage(s, path);
        case Condemn =>
          CondemnedIsUnwanted(s, path);
          CondemnKeepsStorage(s, path, s.storage.artifacts[path].(state := Deleting));
      }
    }
  }

  lemma UnlinkKeepsStorage(s: State, path: Path)
    requires StorageOk(s)
    ensures StorageOk(Unlink(s, path))
  {
    hide HeadsOk, VersionsUnique, ArtifactsOk, WritersOk;
  }

  lemma DeletingIsUnwanted(artifacts: map<Path, Artifact>, snapshots: map<Path, Snapshot>, datasets: map<nat, Dataset>,
                           nextId: nat, path: Path)
    requires ArtifactsOk(artifacts, snapshots, datasets, nextId)
    requires path in artifacts && (artifacts[path].state.Deleting? || artifacts[path].state.Deleted?)
        && path in snapshots
    ensures Unwanted(snapshots, datasets, path)
  {
  }

  lemma FinishKeepsStorage(s: State, path: Path)
    requires StorageOk(s)
    ensures StorageOk(FinishDeletion(s, path))
  {
    hide HeadsOk, ManifestsOk, FilesOk, ArtifactsOk, DoomedOk, WritersOk, VersionsUnique, Unwanted, Auxiliaries;
    var t := FinishDeletion(s, path);
    if t != s {
      if path in s.storage.snapshots {
        DeletingIsUnwanted(s.storage.artifacts, s.storage.snapshots, s.domain.datasets, s.env.nextId, path);
      }
      CondemnKeepsStorage(s, path, t.storage.artifacts[path]);
      var doomed := s.storage.doomed + {path} + Auxiliaries(s.storage.artifacts[path]);
      FewerDoomedKeepsStorage(s.(storage := s.storage.(artifacts := t.storage.artifacts, doomed := doomed)),
                              s.storage.doomed);
    }
  }
}
