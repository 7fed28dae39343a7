/** Publishing a transformation keeps the invariant. */
module PublicationProof {
  import opened Prelude
  import opened JobService
  import opened TaskProtocol
  import opened Tables
  import opened ArtifactService
  import opened Protocol
  import opened Invariants
  import opened StorageProof
  import opened JobsProof
  import opened RecordsProof
  import opened MovesProof
  import opened IntakeProof
  import opened HistoryProof

  /** The rows one publication writes. */
  datatype Written = Written(x: nat, record: Transformation, head: Dataset, event: Event, manifest: Snapshot,
                             live: Artifact)

  ghost predicate WrittenRun(s: State, final: Path, w: Written)
    requires w.x in s.domain.transformations
  {
    var before := s.domain.transformations[w.x];
    && !before.Published() && w.record.status.Completed?
    && before.inputPath in s.storage.snapshots
    && var source := s.storage.snapshots[before.inputPath].digest;
       w.record == before.(outputPath := final, status := Completed,
                           beforeRows := source.rows, beforeColumns := source.columns,
                           afterRows := w.manifest.digest.rows, afterColumns := w.manifest.digest.columns)
  }

  ghost predicate WrittenHead(s: State, final: Path, w: Written)
    requires w.record.dataset in s.domain.datasets
  {
    var before := s.domain.datasets[w.record.dataset];
    && w.head.status.Ready? && w.head.owner == before.owner && w.head.storedPath == final && w.head.profile.None?
        && !before.deleted && !w.head.deleted
    && w.head.rowCount == Some(w.manifest.digest.rows) && w.head.columnCount == Some(w.manifest.digest.columns)
    && w.record.inputPath == before.storedPath && w.manifest.dataset == w.record.dataset
    && w.event.kind.TransformEvent? && w.event.transformation == w.x && Continues(w.event, before, w.head)
  }

  ghost predicate PublicationWrites(s: State, task: nat, token: Token, final: Path, w: Written, z: State) {
    && RowFires(s, task, Succeed(token)) && z.tasks.rows == OnRow(s, task, Succeed(token)).tasks.rows
    && s.tasks.rows[task].job.kind.Transform? && s.tasks.rows[task].job.transformation == Some(w.x)
    && w.x in s.domain.transformations && w.record.dataset in s.domain.datasets
    && WrittenRun(s, final, w) && WrittenHead(s, final, w)
    && final in s.storage.writers && !s.storage.writers[final].finished && s.storage.writers[final].transformation
        == Some(w.x)
    && final in s.storage.artifacts && s.storage.artifacts[final].state.Reserved?
    && s.storage.artifacts[final].task == Some(task) && s.storage.artifacts[final].attemptToken == Some(token)
    && w.live == s.storage.artifacts[final].(state := Live, expiresAt := None)
    && z.domain == s.domain.(
         datasets := s.domain.datasets[w.record.dataset := w.head],
         transformations := s.domain.transformations[w.x := w.record],
         events := s.domain.events[w.record.dataset := EventsOf(s, w.record.dataset) + [w.event]])
    && z.storage.artifacts == s.storage.artifacts[final := w.live]
    && z.storage.snapshots == s.storage.snapshots[final := w.manifest]
    && z.storage.writers == s.storage.writers[final := s.storage.writers[final].(finished := true)]
    && z.storage.doomed == s.storage.doomed
    && z.env == s.env.(nextId := s.env.nextId + 1) && z.intake == s.intake
  }

  lemma PublishWrites(s: State, task: nat, token: Token, final: Path) returns (w: Written)
    requires MayPublish(s, task, token, final)
    ensures PublicationWrites(s, task, token, final, w, Publish(s, task, token, final))
  {
    hide Fires, Perform;
    var z := Publish(s, task, token, final);
    var x := s.tasks.rows[task].job.transformation.value;
    var d := s.domain.transformations[x].dataset;
    w := Written(x, z.domain.transformations[x], z.domain.datasets[d], z.domain.events[d][|EventsOf(s, d)|],
                 z.storage.snapshots[final], z.storage.artifacts[final]);
  }

  // ---------------------------------------------------------------- tables

  lemma PublicationKeepsRuns(rows: map<nat, Row>, a: map<nat, Transformation>, evaluations: map<nat, Evaluation>,
                             task: nat, moved: Row, x: nat, record: Transformation)
    requires RunsAgree(rows, a) && EvaluationsAgree(rows, evaluations) && task in rows && x in a
    requires SameIdentity(rows[task].job, moved.job) && moved.job.status.Success?
    requires rows[task].job.kind.Transform? && rows[task].job.transformation == Some(x)
    requires record.task == a[x].task && record.dataset == a[x].dataset && record.user == a[x].user
        && record.status.Completed?
    ensures RunsAgree(rows[task := moved], a[x := record]) && EvaluationsAgree(rows[task := moved], evaluations)
  {
    hide EvaluationAgrees;
  }

  lemma PublicationKeepsTargets(rows: map<nat, Row>, a: map<nat, Transformation>, profilers: map<Token, Profiler>,
                                datasets: map<nat, Dataset>,
                                uploads: map<nat, Upload>, task: nat, moved: Row, x: nat, record: Transformation,
                                head: Dataset)
    requires TargetsOk(rows, a, profilers, datasets) && ImportsOk(rows, datasets, uploads) && task in rows && x in a
    requires SameIdentity(rows[task].job, moved.job) && rows[task].job.kind.Transform?
    requires record.dataset == a[x].dataset && record.dataset in datasets && head.status.Ready?
    ensures TargetsOk(rows[task := moved], a[x := record], profilers, datasets[record.dataset := head])
    ensures ImportsOk(rows[task := moved], datasets[record.dataset := head], uploads)
  {
  }

  lemma PublicationKeepsTransformations(a: map<nat, Transformation>, snapshots: map<Path, Snapshot>,
                                        writers: map<Path, Writer>, nextId: nat,
                                        x: nat, record: Transformation, final: Path, manifest: Snapshot)
    requires TransformationsOk(a, snapshots, writers, nextId) && TasksOk(a, writers)
    requires x in a && a[x].inputPath in snapshots && final !in snapshots && final in writers
        && writers[final].transformation == Some(x)
    requires manifest.dataset == a[x].dataset
    requires var source := snapshots[a[x].inputPath].digest;
             record == a[x].(outputPath := final, status := Completed, beforeRows := source.rows,
                             beforeColumns := source.columns,
                             afterRows := manifest.digest.rows, afterColumns := manifest.digest.columns)
    ensures var written := writers[final := writers[final].(finished := true)];
            TransformationsOk(a[x := record], snapshots[final := manifest], written, nextId + 1)
                && TasksOk(a[x := record], written)
  {
    var written := writers[final := writers[final].(finished := true)];
    assert OutputOk(x, record, snapshots[final := manifest], written);
    forall y | y in a && y != x && a[y].Published()
      ensures a[y].inputPath in snapshots && OutputOk(y, a[y], snapshots[final := manifest], written)
    {
      assert OutputOk(y, a[y], snapshots, writers);
    }
    hide OutputOk;
  }

  lemma PublicationKeepsDescriptions(datasets: map<nat, Dataset>, snapshots: map<Path, Snapshot>, d: nat, head: Dataset,
                                     final: Path, manifest: Snapshot)
    requires DescriptionsOk(datasets, snapshots) && final !in snapshots
    requires forall e | e in datasets :: datasets[e].storedPath in snapshots
    requires head.storedPath == final && head.profile.None?
    requires head.rowCount == Some(manifest.digest.rows) && head.columnCount == Some(manifest.digest.columns)
    ensures DescriptionsOk(datasets[d := head], snapshots[final := manifest])
  {
  }

  lemma PublicationKeepsLive(artifacts: map<Path, Artifact>, writers: map<Path, Writer>, a: map<nat, Transformation>,
                             rows: map<nat, Row>,
                             task: nat, moved: Row, x: nat, record: Transformation, final: Path, live: Artifact)
    requires LiveOk(artifacts, writers, a, rows) && RunsAgree(rows, a) && x in a && !a[x].Published() && task in rows
    requires final in writers && writers[final].transformation == Some(x) && final in artifacts
    requires live == artifacts[final].(state := Live, expiresAt := None) && live.task == Some(task) && live.attemptToken
        == moved.job.attemptToken
    requires moved.job.transformation == Some(x) && rows[task].job.transformation == Some(x)
        && rows[task].job.kind.Transform?
    requires record.outputPath == final && record.status.Completed?
    requires forall t | t in rows :: rows[t].job.kind.Transform? <==> rows[t].job.transformation.Some?
    ensures LiveOk(artifacts[final := live], writers[final := writers[final].(finished := true)], a[x := record],
                   rows[task := moved])
  {
    hide Agree;
  }

  lemma PublicationKeepsLeases(rows: map<nat, Row>, artifacts: map<Path, Artifact>, now: Time, nextId: nat, task: nat,
                               moved: Row, final: Path, live: Artifact)
    requires LeasesOk(rows, artifacts, now, nextId) && moved.job.status.Success?
    requires final in artifacts && live == artifacts[final].(state := Live, expiresAt := None)
    ensures LeasesOk(rows[task := moved], artifacts[final := live], now, nextId + 1)
  {
  }

  // ---------------------------------------------------------------- the whole step

  lemma MovedRow(s: State, task: nat, token: Token, z: State)
    requires RowFires(s, task, Succeed(token)) && z.tasks.rows == OnRow(s, task, Succeed(token)).tasks.rows
    ensures task in z.tasks.rows && task in s.tasks.rows && z.tasks.rows == s.tasks.rows[task := z.tasks.rows[task]]
    ensures var a, b := s.tasks.rows[task].job, z.tasks.rows[task].job;
            SameIdentity(a, b) && b.status.Success? && b.attemptToken == Some(token)
  {
  }

  lemma PublicationKeepsJobs(s: State, task: nat, token: Token, final: Path, w: Written, z: State)
    requires JobsOk(s) && PublicationWrites(s, task, token, final, w, z)
    ensures JobsOk(z)
  {
    MovedRow(s, task, token, z);
    var moved := z.tasks.rows[task];
    assert w.record == s.domain.transformations[w.x].(outputPath := w.record.outputPath, status := w.record.status,
                                                      beforeRows := w.record.beforeRows,
                                                      afterRows := w.record.afterRows, beforeColumns :=
                                                          w.record.beforeColumns, afterColumns :=
                                                          w.record.afterColumns);
    hide RowsOk, ImportsOk, TargetsOk, RunsAgree, EvaluationsAgree, CapacityOk, Fires, Perform, WrittenRun;
    MoveKeepsRows(s.tasks.rows, task, Succeed(token), s.env.now, s.env.nextId, z.env.nextId);
    PublicationKeepsTargets(s.tasks.rows, s.domain.transformations, s.domain.profilers, s.domain.datasets,
                            s.intake.uploads, task, moved, w.x, w.record, w.head);
    PublicationKeepsRuns(s.tasks.rows, s.domain.transformations, s.domain.evaluations, task, moved, w.x, w.record);
    MoveKeepsCapacity(s.tasks.rows, s.env.settings.maxActiveJobs, task, moved);
  }

  lemma PublicationPushes(s: State, task: nat, token: Token, final: Path, w: Written, z: State, log: seq<Event>,
                          staged: Path)
    requires PublicationWrites(s, task, token, final, w, z)
    requires HistoryOf(w.record.dataset, s.domain.datasets[w.record.dataset], log, s.domain.transformations, staged)
    ensures s.domain.transformations[w.x].dataset == w.record.dataset && w.event.kind.TransformEvent?
    ensures HistoryOf(w.record.dataset, w.head, log + [w.event], s.domain.transformations[w.x := w.record], staged)
  {
    hide HistoryOf, Fires, Perform;
    PushKeepsHistory(w.record.dataset, s.domain.datasets[w.record.dataset], log, s.domain.transformations, staged, w.x,
                     w.record, w.event, w.head);
  }

  lemma PublicationKeepsLog(s: State, task: nat, token: Token, final: Path, w: Written, z: State)
    requires PublicationWrites(s, task, token, final, w, z)
    requires HistoryOk(s.domain.datasets, s.domain.events, s.domain.transformations, s.intake.uploads)
        && ReceiptsOk(s.domain.events)
    ensures HistoryOk(z.domain.datasets, z.domain.events, z.domain.transformations, z.intake.uploads)
        && ReceiptsOk(z.domain.events)
    ensures z.domain.datasets.Keys == s.domain.datasets.Keys
  {
    var d := w.record.dataset;
    hide HistoryOf, ReceiptsOk, Fires, Perform, WrittenRun, WrittenHead;
    assert d in s.domain.datasets && d in s.domain.events.Keys && d in s.intake.uploads;
    var log := s.domain.events[d] + [w.event];
    PublicationPushes(s, task, token, final, w, z, s.domain.events[d], s.intake.uploads[d].path);
    hide HistoryOk;
    AppendKeepsReceipts(s.domain.events, d, w.event);
    OneLogKeepsHistory(s.domain.datasets, s.domain.events, s.domain.transformations, s.intake.uploads, d, w.head, log,
                       w.x, w.record);
  }

  lemma PublicationKeepsContent(s: State, task: nat, token: Token, final: Path, w: Written, z: State)
    requires PublicationWrites(s, task, token, final, w, z) && final !in s.storage.snapshots
    requires TransformationsOk(s.domain.transformations, s.storage.snapshots, s.storage.writers, s.env.nextId)
    requires TasksOk(s.domain.transformations, s.storage.writers)
    requires DescriptionsOk(s.domain.datasets, s.storage.snapshots)
        && ProfilersOk(s.domain.profilers, s.storage.snapshots)
    requires forall e | e in s.domain.datasets :: s.domain.datasets[e].storedPath in s.storage.snapshots
    ensures TransformationsOk(z.domain.transformations, z.storage.snapshots, z.storage.writers, z.env.nextId)
    ensures TasksOk(z.domain.transformations, z.storage.writers)
    ensures DescriptionsOk(z.domain.datasets, z.storage.snapshots)
        && ProfilersOk(z.domain.profilers, z.storage.snapshots)
  {
    hide TransformationsOk, TasksOk, DescriptionsOk, ProfilersOk, Fires, Perform;
    PublicationKeepsTransformations(s.domain.transformations, s.storage.snapshots, s.storage.writers, s.env.nextId, w.x,
                                    w.record, final, w.manifest);
    PublicationKeepsDescriptions(s.domain.datasets, s.storage.snapshots, w.record.dataset, w.head, final, w.manifest);
    AddedManifestKeepsProfilers(s.domain.profilers, s.storage.snapshots, final, w.manifest);
  }

  lemma PublicationKeepsAttempts(s: State, task: nat, token: Token, final: Path, w: Written, z: State)
    requires PublicationWrites(s, task, token, final, w, z)
    requires LiveOk(s.storage.artifacts, s.storage.writers, s.domain.transformations, s.tasks.rows)
    requires LeasesOk(s.tasks.rows, s.storage.artifacts, s.env.now, s.env.nextId)
    requires RunsAgree(s.tasks.rows, s.domain.transformations)
    requires forall t | t in s.tasks.rows ::
        s.tasks.rows[t].job.kind.Transform? <==> s.tasks.rows[t].job.transformation.Some?
    ensures LiveOk(z.storage.artifacts, z.storage.writers, z.domain.transformations, z.tasks.rows)
    ensures LeasesOk(z.tasks.rows, z.storage.artifacts, z.env.now, z.env.nextId)
  {
    MovedRow(s, task, token, z);
    var moved := z.tasks.rows[task];
    hide LiveOk, LeasesOk, RunsAgree, Fires, Perform, WrittenHead;
    PublicationKeepsLive(s.storage.artifacts, s.storage.writers, s.domain.transformations, s.tasks.rows, task, moved,
                         w.x, w.record, final, w.live);
    PublicationKeepsLeases(s.tasks.rows, s.storage.artifacts, s.env.now, s.env.nextId, task, moved, final, w.live);
  }

  lemma PublicationKeepsRecords(s: State, task: nat, token: Token, final: Path, w: Written, z: State)
    requires RecordsOk(s) && PublicationWrites(s, task, token, final, w, z) && final !in s.storage.snapshots
    requires RunsAgree(s.tasks.rows, s.domain.transformations)
    requires forall t | t in s.tasks.rows ::
        s.tasks.rows[t].job.kind.Transform? <==> s.tasks.rows[t].job.transformation.Some?
    requires forall e | e in s.domain.datasets :: s.domain.datasets[e].storedPath in s.storage.snapshots
    ensures RecordsOk(z)
  {
    assert z.intake == s.intake;
    hide TransformationsOk, TasksOk, DescriptionsOk, ProfilersOk, LiveOk, LeasesOk, HistoryOk, ReceiptsOk,
      RunsAgree, PublicationWrites;
    PublicationKeepsLog(s, task, token, final, w, z);
    PublicationKeepsContent(s, task, token, final, w, z);
    PublicationKeepsAttempts(s, task, token, final, w, z);
  }

  lemma PublishPreconditions(s: State, task: nat, token: Token, final: Path)
    requires Inv(s) && MayPublish(s, task, token, final)
    ensures PublishesImported(s, task, token, final) && final !in s.storage.snapshots && final.Output?
    ensures RunsAgree(s.tasks.rows, s.domain.transformations)
    ensures forall t | t in s.tasks.rows ::
        s.tasks.rows[t].job.kind.Transform? <==> s.tasks.rows[t].job.transformation.Some?
  {
    hide FilesOk, VersionsUnique, DoomedOk, ImportsOk, EvaluationsAgree, CapacityOk, RecordsOk, Sound, RunsAgree,
      Fires;
    assert !s.storage.writers[final].finished ==> final !in s.storage.snapshots;
  }

  lemma PublishKeepsInv(s: State, task: nat, token: Token, final: Path)
    requires Inv(s)
    ensures Inv(Publish(s, task, token, final))
  {
    hide StorageOk, JobsOk, RecordsOk, PublicationWrites, MayPublish, PublishesImported, RunsAgree;
    if MayPublish(s, task, token, final) {
      PublishPreconditions(s, task, token, final);
      HeadsHaveManifests(s);
      PublishKeepsStorage(s, task, token, final);
      var w := PublishWrites(s, task, token, final);
      var z := Publish(s, task, token, final);
      hide Publish;
      PublicationKeepsJobs(s, task, token, final, w, z);
      PublicationKeepsRecords(s, task, token, final, w, z);
    }
  }
}

/** Undoing the newest transformation keeps the invariant. */
module UndoProof {
  import opened Prelude
  import opened JobService
  import opened TaskProtocol
  import opened Tables
  import opened ArtifactService
  import opened Protocol
  import opened Invariants
  import opened StorageProof
  import opened JobsProof
  import opened RecordsProof
  import opened MovesProof
  import opened IntakeProof
  import opened HistoryProof

  /** One undo, as the rows it changes. */
  ghost predicate Undoing(s: State, d: nat, x: nat, head: Dataset, event: Event, z: State) {
    && d in s.domain.datasets && x in s.domain.transformations && d in s.domain.events
    && var record, before := s.domain.transformations[x], s.domain.datasets[d];
    && record.status.Completed? && record.dataset == d && record.outputPath == before.storedPath
    && record.inputPath in s.storage.snapshots
    && before.Imported() && !before.deleted && head.owner == before.owner && head.status.Ready?
        && head.storedPath == record.inputPath && head.profile.None?
    && head.rowCount == Some(record.beforeRows) && head.columnCount == Some(record.beforeColumns)
    && event.kind.UndoEvent? && event.transformation == x && Continues(event, before, head)
    && event.fingerprint == UndoRequest(d, event.previousVersion)
    && Replay(s.domain.events[d], event.actor, event.idempotencyKey).None?
    && z == s.(env := s.env.(nextId := s.env.nextId + 1),
               domain := s.domain.(
                 transformations := s.domain.transformations[x := record.(status := Undone)],
                 datasets := s.domain.datasets[d := head],
                 events := s.domain.events[d := s.domain.events[d] + [event]]))
  }

  lemma UndoIsUndoing(s: State, d: nat, user: nat, version: nat, key: Option<nat>, x: nat)
    requires MayUndo(s, d, user, version, key, x) && d in s.domain.events
    ensures var z := Undo(s, d, user, version, key, x);
            Undoing(s, d, x, z.domain.datasets[d],
                    UndoEventOf(x, s.domain.transformations[x], s.env.nextId, user, version, key), z)
  {
    hide Replay;
  }

  lemma UndoingKeepsTargets(rows: map<nat, Row>, a: map<nat, Transformation>, profilers: map<Token, Profiler>,
                            datasets: map<nat, Dataset>, uploads: map<nat, Upload>, d: nat, x: nat, head: Dataset)
    requires TargetsOk(rows, a, profilers, datasets) && ImportsOk(rows, datasets, uploads) && x in a
    requires d in datasets && datasets[d].Imported() && head.status.Ready?
    ensures TargetsOk(rows, a[x := a[x].(status := Undone)], profilers, datasets[d := head])
    ensures ImportsOk(rows, datasets[d := head], uploads)
  {
  }

  lemma UndoingKeepsRuns(rows: map<nat, Row>, a: map<nat, Transformation>, x: nat)
    requires RunsAgree(rows, a) && x in a && a[x].Published()
    ensures RunsAgree(rows, a[x := a[x].(status := Undone)])
  {
  }

  lemma UndoingKeepsJobs(s: State, d: nat, x: nat, head: Dataset, event: Event, z: State)
    requires JobsOk(s) && Undoing(s, d, x, head, event, z)
    ensures JobsOk(z)
  {
    hide RowsOk, ImportsOk, TargetsOk, RunsAgree, CapacityOk, EvaluationsAgree, Replay, Continues;
    UndoingKeepsTargets(s.tasks.rows, s.domain.transformations, s.domain.profilers, s.domain.datasets, s.intake.uploads,
                         d, x, head);
    UndoingKeepsRuns(s.tasks.rows, s.domain.transformations, x);
    LaterIssuesKeepRows(s.tasks.rows, s.env.nextId, z.env.nextId);
  }

  lemma LaterIssuesKeepRows(rows: map<nat, Row>, nextId: nat, issued: nat)
    requires RowsOk(rows, nextId) && issued >= nextId
    ensures RowsOk(rows, issued)
  {
    hide Sound;
  }

  lemma UndoingKeepsContent(s: State, d: nat, x: nat, head: Dataset, event: Event, z: State)
    requires Undoing(s, d, x, head, event, z)
    requires TransformationsOk(s.domain.transformations, s.storage.snapshots, s.storage.writers, s.env.nextId)
    requires TasksOk(s.domain.transformations, s.storage.writers)
        && DescriptionsOk(s.domain.datasets, s.storage.snapshots)
    ensures TransformationsOk(z.domain.transformations, s.storage.snapshots, s.storage.writers, z.env.nextId)
    ensures TasksOk(z.domain.transformations, s.storage.writers)
        && DescriptionsOk(z.domain.datasets, s.storage.snapshots)
  {
    hide Replay, Continues;
    assert OutputOk(x, s.domain.transformations[x], s.storage.snapshots, s.storage.writers);
  }

  lemma UndoingKeepsLive(artifacts: map<Path, Artifact>, writers: map<Path, Writer>, a: map<nat, Transformation>,
                         rows: map<nat, Row>, x: nat)
    requires LiveOk(artifacts, writers, a, rows) && x in a && a[x].Published()
    ensures LiveOk(artifacts, writers, a[x := a[x].(status := Undone)], rows)
  {
  }

  lemma UndoingKeepsLog(s: State, d: nat, x: nat, head: Dataset, event: Event, z: State)
    requires Undoing(s, d, x, head, event, z)
    requires HistoryOk(s.domain.datasets, s.domain.events, s.domain.transformations, s.intake.uploads)
        && ReceiptsOk(s.domain.events)
    requires TransformationsOk(s.domain.transformations, s.storage.snapshots, s.storage.writers, s.env.nextId)
    requires d in s.intake.uploads && s.intake.uploads[d].path !in s.storage.writers
    ensures HistoryOk(z.domain.datasets, z.domain.events, z.domain.transformations, s.intake.uploads)
        && ReceiptsOk(z.domain.events)
    ensures z.domain.datasets.Keys == s.domain.datasets.Keys
  {
    hide HistoryOf, ReceiptsOk, Replay, TransformationsOk;
    var staged, a := s.intake.uploads[d].path, s.domain.transformations;
    UndoCandidateIsTop(d, s.domain.datasets[d], s.domain.events[d], a, staged, s.storage.snapshots, s.storage.writers,
                       s.env.nextId, x);
    PopKeepsHistory(d, s.domain.datasets[d], s.domain.events[d], a, staged, x, a[x].(status := Undone), event, head);
    AppendKeepsReceipts(s.domain.events, d, event);
    OneLogKeepsHistory(s.domain.datasets, s.domain.events, a, s.intake.uploads, d, head, s.domain.events[d] + [event],
                       x, a[x].(status := Undone));
  }

  lemma UndoingKeepsRecords(s: State, d: nat, x: nat, head: Dataset, event: Event, z: State)
    requires RecordsOk(s) && Undoing(s, d, x, head, event, z)
    requires d in s.intake.uploads && s.intake.uploads[d].path !in s.storage.writers
    ensures RecordsOk(z)
  {
    hide TransformationsOk, TasksOk, DescriptionsOk, ProfilersOk, LiveOk, LeasesOk, HistoryOk, ReceiptsOk,
      Replay, Continues;
    UndoingKeepsContent(s, d, x, head, event, z);
    UndoingKeepsLive(s.storage.artifacts, s.storage.writers, s.domain.transformations, s.tasks.rows, x);
    UndoingKeepsLog(s, d, x, head, event, z);
    LaterIssuesKeepLeases(s.tasks.rows, s.storage.artifacts, s.env.now, s.env.nextId, z.env.nextId);
  }

  lemma LaterIssuesKeepLeases(rows: map<nat, Row>, artifacts: map<Path, Artifact>, now: Time, nextId: nat, issued: nat)
    requires LeasesOk(rows, artifacts, now, nextId) && issued >= nextId
    ensures LeasesOk(rows, artifacts, now, issued)
  {
    hide LiveAttempt;
  }

  lemma DatasetsAreLogged(s: State, d: nat)
    requires Inv(s) && d in s.domain.datasets
    ensures d in s.domain.events && d in s.intake.uploads && s.intake.uploads[d].path !in s.storage.writers
  {
    hide ManifestsOk, FilesOk, VersionsUnique, ArtifactsOk, DoomedOk, JobsOk, HistoryOf;
    assert d in s.intake.uploads.Keys;
  }

  lemma UndoKeepsInv(s: State, d: nat, user: nat, version: nat, key: Option<nat>, x: nat)
    requires Inv(s)
    ensures Inv(Undo(s, d, user, version, key, x))
  {
    hide StorageOk, JobsOk, RecordsOk, Undoing, Replay;
    if MayUndo(s, d, user, version, key, x) {
      assert d in s.domain.datasets;
      hide MayUndo, Undo;
      DatasetsAreLogged(s, d);
      UndoKeepsStorage(s, d, user, version, key, x);
      UndoIsUndoing(s, d, user, version, key, x);
      var z := Undo(s, d, user, version, key, x);
      assert d in z.domain.datasets;
      var event := UndoEventOf(x, s.domain.transformations[x], s.env.nextId, user, version, key);
      UndoingKeepsJobs(s, d, x, z.domain.datasets[d], event, z);
      UndoingKeepsRecords(s, d, x, z.domain.datasets[d], event, z);
    }
  }
}
