/** What every reachable store satisfies, one predicate for each group of tables. */
module Invariants {
  import opened Prelude
  import opened JobService
  import opened TaskProtocol
  import opened Tables
  import opened ArtifactService
  import opened Protocol

  /** Nothing can make this snapshot's bytes wanted again: it expired, or its import failed or was cancelled. */
  ghost predicate Unwanted(snapshots: map<Path, Snapshot>, datasets: map<nat, Dataset>, path: Path) {
    && path in snapshots
    && (snapshots[path].availability.Expired?
        || snapshots[path].dataset !in datasets
        || !datasets[snapshots[path].dataset].Retained())
  }

  ghost predicate Issued(path: Path, nextId: nat) {
    path.id < nextId
  }

  // ---------------------------------------------------------------- storage

  ghost predicate HeadsOk(datasets: map<nat, Dataset>, snapshots: map<Path, Snapshot>, uploads: map<nat, Upload>,
                          nextId: nat) {
    uploads.Keys == datasets.Keys && forall d | d in datasets ::
      && d < nextId
      && uploads[d].path in snapshots
      && snapshots[uploads[d].path].dataset == d
      && datasets[d].storedPath in snapshots
      && snapshots[datasets[d].storedPath].dataset == d
      && snapshots[datasets[d].storedPath].availability.Available?
      && (datasets[d].deleted ==> datasets[d].status.CancelledImport?)
  }

  ghost predicate ManifestsOk(snapshots: map<Path, Snapshot>, datasets: map<nat, Dataset>, nextId: nat) {
    forall p | p in snapshots ::
      && p.Output? && Issued(p, nextId)
      && snapshots[p].dataset in datasets
      && 1 <= snapshots[p].version <= datasets[snapshots[p].dataset].version
      && (snapshots[p].availability.Expired? ==> !snapshots[p].pinned)
  }

  /** The table's unique constraint on dataset and version. */
  ghost predicate VersionsUnique(snapshots: map<Path, Snapshot>) {
    forall p, q | p in snapshots && q in snapshots ::
      snapshots[p].dataset == snapshots[q].dataset && snapshots[p].version == snapshots[q].version ==> p == q
  }

  /** Bytes of a manifest never change, and stay while the manifest's history is retained. */
  ghost predicate FilesOk(files: map<Path, Bytes>, snapshots: map<Path, Snapshot>, datasets: map<nat, Dataset>,
                          uploads: map<nat, Upload>, aborted: set<nat>)
  {
    forall p | p in snapshots ::
      && (p in files ==> files[p] == snapshots[p].digest)
      && (p in files || Unwanted(snapshots, datasets, p) || UploadAborted(snapshots, uploads, aborted, p))
  }

  ghost predicate UploadAborted(snapshots: map<Path, Snapshot>, uploads: map<nat, Upload>, aborted: set<nat>,
                                path: Path) {
    && path in snapshots
    && snapshots[path].dataset in aborted
    && snapshots[path].dataset in uploads
    && uploads[snapshots[path].dataset].path == path
  }

  ghost predicate ArtifactsOk(artifacts: map<Path, Artifact>, snapshots: map<Path, Snapshot>,
                              datasets: map<nat, Dataset>, nextId: nat) {
    forall p | p in artifacts ::
      && (p.Output? || p.Prepared?) && Issued(p, nextId)
      && (artifacts[p].task.Some? == artifacts[p].attemptToken.Some? == artifacts[p].temporaryPath.Some?)
      && (artifacts[p].temporaryPath.Some? ==>
              p.Output? && artifacts[p].temporaryPath.value == Temporary(p.id + 1) && p.id + 1 < nextId)
      && (match artifacts[p].state
          case Reserved => (if artifacts[p].task.Some? then p !in snapshots else p.Output? ==> p in snapshots)
          case Live => p in snapshots && artifacts[p].task.Some?
          case _ => p in snapshots ==> Unwanted(snapshots, datasets, p))
  }

  ghost predicate WritersOk(writers: map<Path, Writer>, artifacts: map<Path, Artifact>, snapshots: map<Path, Snapshot>,
                            uploads: map<nat, Upload>) {
    && (forall p | p in writers ::
          && p.Output? && p in artifacts
          && artifacts[p].temporaryPath == Some(writers[p].temporary)
          && artifacts[p].task == Some(writers[p].task)
          && artifacts[p].attemptToken == Some(writers[p].token)
          && (!writers[p].finished ==> p !in snapshots))
    && (forall d | d in uploads :: uploads[d].path.Output? && uploads[d].path !in writers)
  }

  /** A path some process may still unlink is either scratch of a decided reservation or wanted by nobody. */
  ghost predicate DoomedOk(doomed: set<Path>, artifacts: map<Path, Artifact>, snapshots: map<Path, Snapshot>,
                           datasets: map<nat, Dataset>, uploads: map<nat, Upload>, aborted: set<nat>)
  {
    forall p | p in doomed ::
      match p
      case Output(_) =>
        if p in snapshots then Unwanted(snapshots, datasets, p) || UploadAborted(snapshots, uploads, aborted, p)
        else p in artifacts && (artifacts[p].state.Deleting? || artifacts[p].state.Deleted?)
      case Temporary(i) => Decided(artifacts, i)
      case Spill(i) => Decided(artifacts, i)
      case Prepared(_) => true
      case ReportFile(_) => true
  }

  /** The reservation owning scratch number `i` is published or condemned. */
  ghost predicate Decided(artifacts: map<Path, Artifact>, i: nat) {
    i >= 1 && Output(i - 1) in artifacts && !artifacts[Output(i - 1)].state.Reserved?
  }

  ghost predicate StorageOk(s: State) {
    && HeadsOk(s.domain.datasets, s.storage.snapshots, s.intake.uploads, s.env.nextId)
    && ManifestsOk(s.storage.snapshots, s.domain.datasets, s.env.nextId)
    && VersionsUnique(s.storage.snapshots)
    && FilesOk(s.storage.files, s.storage.snapshots, s.domain.datasets, s.intake.uploads, s.intake.aborted)
    && ArtifactsOk(s.storage.artifacts, s.storage.snapshots, s.domain.datasets, s.env.nextId)
    && WritersOk(s.storage.writers, s.storage.artifacts, s.storage.snapshots, s.intake.uploads)
    && DoomedOk(s.storage.doomed, s.storage.artifacts, s.storage.snapshots, s.domain.datasets, s.intake.uploads,
                s.intake.aborted)
  }


  // ---------------------------------------------------------------- jobs and their domain records

  ghost predicate RowsOk(rows: map<nat, Row>, nextId: nat) {
    forall t | t in rows ::
      && Sound(rows[t])
      && (rows[t].job.attemptToken.Some? ==> rows[t].job.attemptToken.value < nextId)
      && (rows[t].outbox.Some? && rows[t].outbox.value.claimToken.Some? ==>
          rows[t].outbox.value.claimToken.value < nextId)
      && (rows[t].job.kind.Transform? <==> rows[t].job.transformation.Some?)
  }

  /** An unfinished import owns a dataset that is not yet imported; every dataset has one import task. */
  ghost predicate ImportsOk(rows: map<nat, Row>, datasets: map<nat, Dataset>, uploads: map<nat, Upload>) {
    forall t | t in rows && rows[t].job.kind.Import? && rows[t].job.dataset.Some? ::
      var d := rows[t].job.dataset.value;
      && d in datasets && d in uploads && uploads[d].task == t
      && (rows[t].job.OccupiesCapacity() ==> !datasets[d].Imported() && datasets[d].Retained())
  }

  /** Every other job, transformation and profiling attempt concerns an imported dataset. */
  ghost predicate TargetsOk(rows: map<nat, Row>, transformations: map<nat, Transformation>,
                            profilers: map<Token, Profiler>, datasets: map<nat, Dataset>) {
    && (forall t | t in rows && !rows[t].job.kind.Import? ::
          rows[t].job.dataset.Some? && rows[t].job.dataset.value in datasets
              && datasets[rows[t].job.dataset.value].Imported())
    && (forall x | x in transformations ::
          transformations[x].dataset in datasets && datasets[transformations[x].dataset].Imported())
    && (forall token | token in profilers ::
          profilers[token].dataset in datasets && datasets[profilers[token].dataset].Imported())
  }

  ghost predicate TransformationsOk(transformations: map<nat, Transformation>, snapshots: map<Path, Snapshot>,
                                    writers: map<Path, Writer>, nextId: nat) {
    forall x | x in transformations ::
      && x < nextId
      && transformations[x].inputPath in snapshots
      && snapshots[transformations[x].inputPath].dataset == transformations[x].dataset
      && (transformations[x].status.Admitted? ==> snapshots[transformations[x].inputPath].availability.Available?)
      && (if transformations[x].Published()
          then OutputOk(x, transformations[x], snapshots, writers)
          else transformations[x].outputPath.Prepared? && Issued(transformations[x].outputPath, nextId))
  }

  /** Tasks and transformations correspond one to one, and a writer works for its task's transformation. */
  ghost predicate TasksOk(transformations: map<nat, Transformation>, writers: map<Path, Writer>) {
    && (forall x, y | x in transformations && y in transformations ::
        transformations[x].task == transformations[y].task ==> x == y)
    && (forall p | p in writers && writers[p].transformation.Some? ::
          var x := writers[p].transformation.value;
          x in transformations && transformations[x].task == writers[p].task)
  }

  /** A published output belongs to exactly one transformation, which records both files' dimensions. */
  ghost predicate OutputOk(x: nat, record: Transformation, snapshots: map<Path, Snapshot>, writers: map<Path, Writer>)
    requires record.inputPath in snapshots
  {
    && record.outputPath in snapshots
    && snapshots[record.outputPath].dataset == record.dataset
    && record.outputPath in writers
    && writers[record.outputPath].transformation == Some(x)
    && writers[record.outputPath].finished
    && record.beforeRows == snapshots[record.inputPath].digest.rows
    && record.beforeColumns == snapshots[record.inputPath].digest.columns
    && record.afterRows == snapshots[record.outputPath].digest.rows
    && record.afterColumns == snapshots[record.outputPath].digest.columns
  }

  /** Dimensions and profile of an imported dataset describe the bytes of its head. */
  ghost predicate DescriptionsOk(datasets: map<nat, Dataset>, snapshots: map<Path, Snapshot>) {
    forall d | d in datasets && datasets[d].storedPath in snapshots ::
      var head := snapshots[datasets[d].storedPath].digest;
      && (datasets[d].Imported() ==>
              datasets[d].rowCount == Some(head.rows) && datasets[d].columnCount == Some(head.columns))
      && (datasets[d].profile.Some? ==> datasets[d].profile.value.source == head)
  }

  ghost predicate ProfilersOk(profilers: map<Token, Profiler>, snapshots: map<Path, Snapshot>) {
    forall token | token in profilers ::
      && profilers[token].path in snapshots
      && (profilers[token].result.Some? ==>
              profilers[token].result.value.source == snapshots[profilers[token].path].digest)
  }

  predicate Agree(job: Job, record: Transformation) {
    match job.status
    case Success => record.Published()
    case Failure => record.status.FailedRun?
    case Cancelled => record.status.CancelledRun?
    case _ => record.status.Admitted?
  }

  predicate EvaluationAgrees(job: Job, evaluation: Evaluation) {
    match job.status
    case Success => evaluation.status.Evaluated? && evaluation.passed.Some?
    case Failure => evaluation.status.EvaluationError?
    case Cancelled => evaluation.status.EvaluationCancelled?
    case _ => evaluation.Open()
  }

  /** A retained transformation job and its record always stand at the same outcome. */
  ghost predicate RunsAgree(rows: map<nat, Row>, transformations: map<nat, Transformation>) {
    && (forall t | t in rows && rows[t].job.kind.Transform? && rows[t].job.transformation.Some? ::
          var x := rows[t].job.transformation.value;
          && x in transformations && transformations[x].task == t
          && rows[t].job.dataset == Some(transformations[x].dataset)
          && rows[t].job.owner == transformations[x].user
          && Agree(rows[t].job, transformations[x]))
    && (forall x | x in transformations && transformations[x].status.Admitted? ::
          var t := transformations[x].task;
          t in rows && rows[t].job.kind.Transform? && rows[t].job.transformation == Some(x))
  }

  ghost predicate EvaluationsAgree(rows: map<nat, Row>, evaluations: map<nat, Evaluation>) {
    forall t | t in rows && rows[t].job.kind.Quality? ::
      t in evaluations && EvaluationAgrees(rows[t].job, evaluations[t])
  }

  /** A live artifact is the output of one published transformation, written by the attempt its job records. */
  ghost predicate LiveOk(artifacts: map<Path, Artifact>, writers: map<Path, Writer>,
                         transformations: map<nat, Transformation>, rows: map<nat, Row>) {
    && (forall p | p in artifacts && artifacts[p].state.Live? ::
          && p in writers && writers[p].transformation.Some?
          && writers[p].transformation.value in transformations
          && transformations[writers[p].transformation.value].Published()
          && transformations[writers[p].transformation.value].outputPath == p)
    && (forall t | t in rows && rows[t].job.status.Success? && rows[t].job.transformation.Some? ::
          var x := rows[t].job.transformation.value;
          && x in transformations && transformations[x].outputPath in artifacts
          && artifacts[transformations[x].outputPath].task == Some(t)
          && artifacts[transformations[x].outputPath].attemptToken == rows[t].job.attemptToken)
  }

  /** The attempt of a condemned reservation lost its lease for good. */
  ghost predicate LeasesOk(rows: map<nat, Row>, artifacts: map<Path, Artifact>, now: Time, nextId: nat) {
    forall p | p in artifacts ::
      && (artifacts[p].attemptToken.Some? ==> artifacts[p].attemptToken.value < nextId)
      && (artifacts[p].state.Deleting? || artifacts[p].state.Deleted? ==> !LiveAttempt(rows, artifacts[p], now))
  }

  ghost predicate CapacityOk(rows: map<nat, Row>, limit: nat) {
    forall owner: nat :: |ActiveTasks(rows, owner)| <= limit
  }

  // ---------------------------------------------------------------- history

  /** The transformations an event log leaves applied, oldest first. */
  function Stack(events: seq<Event>): seq<nat> {
    if events == [] then []
    else
      var last, below := events[|events| - 1], Stack(events[..|events| - 1]);
      if last.kind.TransformEvent? then below + [last.transformation]
      else if below == [] then []
      else below[..|below| - 1]
  }

  /** Where a dataset's head must be when `stack` is applied to the path it was staged at. */
  function Top(stack: seq<nat>, transformations: map<nat, Transformation>, staged: Path): Path {
    if stack == [] || stack[|stack| - 1] !in transformations then staged
    else transformations[stack[|stack| - 1]].outputPath
  }

  /** One event for each version, each starting where the one before it ended. */
  ghost predicate LogOk(events: seq<Event>, staged: Path) {
    && (forall i | 0 <= i < |events| :: events[i].previousVersion == i + 1 && events[i].resultVersion == i + 2)
    && (events != [] ==> events[0].inputPath == staged)
    && (forall i | 0 < i < |events| :: events[i].inputPath == events[i - 1].outputPath)
  }

  /** The stack is the chain of the dataset's completed transformations, from the staged path up. */
  ghost predicate StackOk(stack: seq<nat>, d: nat, transformations: map<nat, Transformation>, staged: Path) {
    && Linked(stack, d, transformations, staged)
    && (forall i, j | 0 <= i < j < |stack| :: stack[i] != stack[j])
    && (forall x | x in transformations && transformations[x].dataset == d && transformations[x].status.Completed? ::
        x in stack)
  }

  ghost predicate Linked(stack: seq<nat>, d: nat, transformations: map<nat, Transformation>, staged: Path) {
    && (forall i | 0 <= i < |stack| ::
          stack[i] in transformations && transformations[stack[i]].dataset == d
              && transformations[stack[i]].status.Completed?)
    && (stack != [] ==> transformations[stack[0]].inputPath == staged)
    && (forall i | 0 < i < |stack| :: transformations[stack[i]].inputPath == transformations[stack[i - 1]].outputPath)
  }

  ghost predicate HistoryOk(datasets: map<nat, Dataset>, events: map<nat, seq<Event>>,
                            transformations: map<nat, Transformation>, uploads: map<nat, Upload>) {
    events.Keys == datasets.Keys && forall d | d in datasets ::
      d in uploads && HistoryOf(d, datasets[d], events[d], transformations, uploads[d].path)
  }

  /** A dataset's version and head are what its log, replayed over the path it was staged at, says they are. */
  ghost predicate HistoryOf(d: nat, dataset: Dataset, log: seq<Event>, transformations: map<nat, Transformation>,
                            staged: Path) {
    && LogOk(log, staged)
    && dataset.version == |log| + 1
    && dataset.storedPath == Top(Stack(log), transformations, staged)
    && dataset.storedPath == (if log == [] then staged else log[|log| - 1].outputPath)
    && StackOk(Stack(log), d, transformations, staged)
  }

  /** The receipt key of an undo was used once; every event carries the request that made it. */
  ghost predicate ReceiptsOk(events: map<nat, seq<Event>>) {
    forall d | d in events :: LogReceiptsOk(d, events[d])
  }

  ghost predicate LogReceiptsOk(d: nat, log: seq<Event>) {
    && (forall i | 0 <= i < |log| && log[i].kind.UndoEvent? ::
        log[i].fingerprint == UndoRequest(d, log[i].previousVersion))
    && (forall i, j | 0 <= i < j < |log| && log[i].kind.UndoEvent? && log[j].kind.UndoEvent?
        && log[i].actor == log[j].actor ::
          log[i].idempotencyKey.None? || log[i].idempotencyKey != log[j].idempotencyKey)
  }

  // ---------------------------------------------------------------- everything

  ghost predicate JobsOk(s: State) {
    && RowsOk(s.tasks.rows, s.env.nextId)
    && ImportsOk(s.tasks.rows, s.domain.datasets, s.intake.uploads)
    && TargetsOk(s.tasks.rows, s.domain.transformations, s.domain.profilers, s.domain.datasets)
    && RunsAgree(s.tasks.rows, s.domain.transformations)
    && EvaluationsAgree(s.tasks.rows, s.domain.evaluations)
    && CapacityOk(s.tasks.rows, s.env.settings.maxActiveJobs)
  }

  ghost predicate RecordsOk(s: State) {
    && TransformationsOk(s.domain.transformations, s.storage.snapshots, s.storage.writers, s.env.nextId)
    && TasksOk(s.domain.transformations, s.storage.writers)
    && DescriptionsOk(s.domain.datasets, s.storage.snapshots)
    && ProfilersOk(s.domain.profilers, s.storage.snapshots)
    && LiveOk(s.storage.artifacts, s.storage.writers, s.domain.transformations, s.tasks.rows)
    && LeasesOk(s.tasks.rows, s.storage.artifacts, s.env.now, s.env.nextId)
    && HistoryOk(s.domain.datasets, s.domain.events, s.domain.transformations, s.intake.uploads)
    && ReceiptsOk(s.domain.events)
    && s.intake.uploading <= s.domain.datasets.Keys
  }

  /** The inductive invariant of the protocol. */
  ghost predicate Inv(s: State) {
    StorageOk(s) && JobsOk(s) && RecordsOk(s)
  }
}
