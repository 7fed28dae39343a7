/**
 The durable processing protocol: every committed transaction, every file-system action
 and every environment event that can come between them, as one deterministic step.

 A step whose guard fails leaves the store unchanged: the service returns or raises and
 its transaction is rolled back.
 */
module Protocol {
  import opened Prelude
  import opened JobService
  import opened TaskProtocol
  import opened Tables
  import opened ArtifactService

  // ---------------------------------------------------------------- shared pieces

  predicate RowFires(s: State, task: nat, act: Act) {
    task in s.tasks.rows && Fires(s.tasks.rows[task], act, s.env.now)
  }

  function OnRow(s: State, task: nat, act: Act): State
    requires RowFires(s, task, act)
  {
    s.(tasks := s.tasks.(rows := s.tasks.rows[task := Perform(s.tasks.rows[task], act, s.env.now)]))
  }

  function ActiveTasks(rows: map<nat, Row>, owner: nat): set<nat> {
    set t | t in rows && rows[t].job.owner == owner && rows[t].job.OccupiesCapacity()
  }

  /** `ensure_capacity`: admission of one more job for the account. */
  predicate HasCapacity(s: State, owner: nat) {
    |ActiveTasks(s.tasks.rows, owner)| < s.env.settings.maxActiveJobs
  }

  predicate InFlight(rows: map<nat, Row>, dataset: nat) {
    exists t | t in rows :: rows[t].job.dataset == Some(dataset) && rows[t].job.OccupiesCapacity()
  }

  function WithStatus(datasets: map<nat, Dataset>, d: nat, status: DatasetStatus): map<nat, Dataset>
    requires d in datasets
  {
    datasets[d := datasets[d].(status := status)]
  }

  /** Release the dataset a transformation was admitted on, unless its head moved on. */
  function Released(datasets: map<nat, Dataset>, x: Transformation, status: DatasetStatus): map<nat, Dataset> {
    if x.dataset in datasets && datasets[x.dataset].version == x.expectedVersion
    then WithStatus(datasets, x.dataset, status)
    else datasets
  }

  /** The same, also checking that the stored path did not move. */
  function ReleasedHead(datasets: map<nat, Dataset>, x: Transformation): map<nat, Dataset> {
    if x.dataset in datasets && datasets[x.dataset].storedPath == x.inputPath
    then Released(datasets, x, Ready)
    else datasets
  }

  /** `restore_ready` of a profiling attempt. */
  function RestoredReady(s: State, token: Token): map<nat, Dataset> {
    if token !in s.domain.profilers then s.domain.datasets
    else
      var p := s.domain.profilers[token];
      if && p.dataset in s.domain.datasets
         && s.domain.datasets[p.dataset].version == p.version
         && s.domain.datasets[p.dataset].storedPath == p.path
         && s.domain.datasets[p.dataset].status.Profiling?
         && !s.domain.datasets[p.dataset].deleted
      then WithStatus(s.domain.datasets, p.dataset, Ready)
      else s.domain.datasets
  }

  /** `_complete_quality_evaluation`: close an open evaluation with its job. */
  function Closed(evaluations: map<nat, Evaluation>, task: nat, status: EvaluationStatus): map<nat, Evaluation> {
    if task in evaluations && evaluations[task].Open()
    then evaluations[task := Evaluation(status, None)]
    else evaluations
  }

  function TransformationOf(s: State, job: Job): Option<nat> {
    if job.transformation.Some? && job.transformation.value in s.domain.transformations then job.transformation
        else None
  }

  function DatasetOf(s: State, job: Job): Option<nat> {
    if job.dataset.Some? && job.dataset.value in s.domain.datasets then job.dataset else None
  }

  /** Set a transformation's status and its dataset's in one transaction. */
  function CloseRun(s: State, x: nat, status: TransformationStatus, datasets: map<nat, Dataset>): State
    requires x in s.domain.transformations
  {
    s.(domain := s.domain.(
      transformations := s.domain.transformations[x := s.domain.transformations[x].(status := status)],
      datasets := datasets))
  }

  function RequestDeletion(s: State, path: Path, owner: Option<nat>): State {
    s.(storage := s.storage.(artifacts := ScheduleDelete(s.storage.artifacts, path, owner, s.env.now)))
  }

  function AbandonAttemptOf(s: State, task: nat, token: Token): State {
    s.(storage := s.storage.(artifacts := AbandonAttempt(s.storage.artifacts, task, token, s.env.now)))
  }

  /** Schedule a path's collection in the transaction, and unlink it after the commit. */
  function DeletionAndUnlink(s: State, path: Path): State {
    s.(storage := s.storage.(
      artifacts := ScheduleDelete(s.storage.artifacts, path, None, s.env.now),
      doomed := s.storage.doomed + {path}))
  }

  // ---------------------------------------------------------------- admission

  function ReserveImport(s: State, task: nat, owner: nat): State {
    if task in s.tasks.rows || !HasCapacity(s, owner) then s
    else s.(tasks := s.tasks.(rows := s.tasks.rows[task := Row(Created(owner, None, None, Import), None)]))
  }

  /**
   The upload request fails before it has staged anything: its error path fails the
   reserved job if that is still active, with no attempt token.
   */
  function FailReservation(s: State, task: nat): State {
    if Unstaged(s, task) && RowFires(s, task, Fail(None)) then OnRow(s, task, Fail(None)) else s
  }

  predicate Unstaged(s: State, task: nat) {
    task in s.tasks.rows && s.tasks.rows[task].job.kind.Import? && s.tasks.rows[task].job.dataset.None?
  }

  /** Attach the staged dataset, record its manifest and enqueue the import, in one commit. */
  function StageUpload(s: State, task: nat, content: Bytes): State {
    var d, path, box := s.env.nextId, Output(s.env.nextId + 1), s.env.nextId + 2;
    if !RowFires(s, task, Enqueue(d, box)) then s
    else
      var dataset := Dataset(s.tasks.rows[task].job.owner, path, Queued, 1, None, None, None, false);
      OnRow(s, task, Enqueue(d, box)).(
        env := s.env.(nextId := s.env.nextId + 3),
        domain := s.domain.(
          datasets := s.domain.datasets[d := dataset],
          events := s.domain.events[d := []]),
        storage := s.storage.(
          snapshots := s.storage.snapshots[path := Snapshot(d, 1, content, Available, false, s.env.now)],
          files := s.storage.files[path := content]),
        intake := s.intake.(
          uploads := s.intake.uploads[d := Upload(path, task)],
          uploading := s.intake.uploading + {d}))
  }

  /** The upload request learns that its commit succeeded. */
  function AcknowledgeUpload(s: State, d: nat): State {
    s.(intake := s.intake.(uploading := s.intake.uploading - {d}))
  }

  predicate OwnImportJob(s: State, task: nat, d: nat) {
    task in s.tasks.rows && s.tasks.rows[task].job.kind.Import? && s.tasks.rows[task].job.dataset == Some(d)
  }

  /**
   The upload request is told its commit failed although it did not: the handler fails
   the job if it is still active, then unlinks the staged path.
   */
  function AbortUpload(s: State, d: nat): State {
    if d !in s.intake.uploading || d !in s.intake.uploads then s
    else
      var task := s.intake.uploads[d].task;
      var failed := if OwnImportJob(s, task, d) && RowFires(s, task, Fail(None)) then OnRow(s, task, Fail(None)) else s;
      failed.(
        intake := failed.intake.(uploading := s.intake.uploading - {d}, aborted := s.intake.aborted + {d}),
        storage := failed.storage.(doomed := s.storage.doomed + {s.intake.uploads[d].path}))
  }

  predicate ProfileActive(rows: map<nat, Row>, d: nat) {
    exists t | t in rows :: rows[t].job.dataset == Some(d) && rows[t].job.kind.ProfileJob? && rows[t].job.Active()
  }

  predicate MayAdmit(s: State, task: nat, d: nat, kind: Kind) {
    && task !in s.tasks.rows && d in s.domain.datasets
    && (kind.ReportJob? || !s.domain.datasets[d].deleted) && s.domain.datasets[d].EnsureReady()
    && HasCapacity(s, s.domain.datasets[d].owner)
    && match kind
       case ProfileJob => s.domain.datasets[d].profile.None? && !ProfileActive(s.tasks.rows, d)
       case Preview => true
       case ReportJob => true
       case Quality =>
         && task !in s.domain.evaluations
         && (s.domain.datasets[d].storedPath in s.storage.snapshots ==>
             s.storage.snapshots[s.domain.datasets[d].storedPath].availability.Available?)
       case _ => false
  }

  /** Profiling, transformation previews, quality evaluations and reports of a ready dataset. */
  function AdmitJob(s: State, task: nat, d: nat, kind: Kind): State {
    if !MayAdmit(s, task, d, kind) then s
    else
      var job := Created(s.domain.datasets[d].owner, Some(d), None, kind);
      s.(
        env := s.env.(nextId := s.env.nextId + 1),
        tasks := s.tasks.(rows := s.tasks.rows[task := Row(job, Some(Enqueued(s.env.nextId, s.env.now)))]),
        domain := s.domain.(
          datasets := if kind.ProfileJob? then WithStatus(s.domain.datasets, d, Profiling) else s.domain.datasets,
          evaluations := if kind.Quality?
                         then s.domain.evaluations[task := Evaluation(EvaluationPending, None)]
                         else s.domain.evaluations))
  }

  predicate KeyUsed(transformations: map<nat, Transformation>, d: nat, user: nat, key: nat) {
    exists x | x in transformations ::
      transformations[x].dataset == d && transformations[x].user == user && transformations[x].idempotencyKey == key
  }

  predicate TaskUsed(transformations: map<nat, Transformation>, task: nat) {
    exists x | x in transformations :: transformations[x].task == task
  }

  predicate MayTransform(s: State, task: nat, d: nat, user: nat, expectedVersion: nat, key: nat) {
    && task !in s.tasks.rows && d in s.domain.datasets
    && !s.domain.datasets[d].deleted && s.domain.datasets[d].owner == user
    && !KeyUsed(s.domain.transformations, d, user, key)
    && !TaskUsed(s.domain.transformations, task)
    && s.domain.datasets[d].EnsureReady()
    && s.domain.datasets[d].version == expectedVersion
    && HasCapacity(s, user)
  }

  function OrZero(value: Option<nat>): nat {
    if value.Some? then value.value else 0
  }

  /** `prepare_transformation` together with its job and publication intent. */
  function AdmitTransformation(s: State, task: nat, d: nat, user: nat, expectedVersion: nat, key: nat,
                               operation: int): State {
    if !MayTransform(s, task, d, user, expectedVersion, key) then s
    else
      var dataset := s.domain.datasets[d];
      var x, job := s.env.nextId, Created(user, Some(d), Some(s.env.nextId), Transform);
      var record := Transformation(
        d, user, operation, key, expectedVersion, dataset.storedPath, Prepared(s.env.nextId + 2), Admitted, task,
        OrZero(dataset.rowCount), OrZero(dataset.rowCount), OrZero(dataset.columnCount), OrZero(dataset.columnCount));
      s.(
        env := s.env.(nextId := s.env.nextId + 3),
        tasks := s.tasks.(rows := s.tasks.rows[task := Row(job, Some(Enqueued(s.env.nextId + 1, s.env.now)))]),
        domain := s.domain.(
          transformations := s.domain.transformations[x := record],
          datasets := WithStatus(s.domain.datasets, d, Transforming)))
  }

  // ---------------------------------------------------------------- worker attempts

  function StartJob(s: State, task: nat, seconds: int, progress: int): State {
    var act := Start(s.env.nextId, seconds, progress);
    if !RowFires(s, task, act) then s
    else
      var job := s.tasks.rows[task].job;
      if job.kind.Quality? && (task !in s.domain.evaluations || DatasetOf(s, job).None?) then s
      else
        OnRow(s, task, act).(
          env := s.env.(nextId := s.env.nextId + 1),
          domain := s.domain.(
            evaluations := if job.kind.Quality?
                           then s.domain.evaluations[task := s.domain.evaluations[task].(status := Running)]
                           else s.domain.evaluations))
  }

  function RenewLease(s: State, task: nat, token: Token, seconds: int, report: Option<int>): State {
    if RowFires(s, task, Renew(token, seconds, report)) then OnRow(s, task, Renew(token, seconds, report)) else s
  }

  function BeginImport(s: State, task: nat, token: Token): State {
    var act := Renew(token, JOB_LEASE_SECONDS, Some(25));
    if !RowFires(s, task, act) || !s.tasks.rows[task].job.kind.Import? then s
    else match DatasetOf(s, s.tasks.rows[task].job)
      case None => s
      case Some(d) =>
        if s.domain.datasets[d].status.Ready? then s
        else OnRow(s, task, act).(domain := s.domain.(datasets := WithStatus(s.domain.datasets, d, Processing)))
  }

  /** Inspection read the staged bytes; dimensions, status and SUCCESS commit together. */
  function CompleteImport(s: State, task: nat, token: Token): State {
    if !RowFires(s, task, Succeed(token)) || !s.tasks.rows[task].job.kind.Import? then s
    else match DatasetOf(s, s.tasks.rows[task].job)
      case None => s
      case Some(d) =>
        if s.domain.datasets[d].storedPath !in s.storage.snapshots then s
        else
          var seen := s.storage.snapshots[s.domain.datasets[d].storedPath].digest;
          OnRow(s, task, Succeed(token)).(
            domain := s.domain.(datasets := s.domain.datasets[d := s.domain.datasets[d].(
              status := Ready, rowCount := Some(seen.rows), columnCount := Some(seen.columns))]))
  }

  function RetryJob(s: State, task: nat, token: Token): State {
    if !RowFires(s, task, Retry(token)) || s.tasks.rows[task].job.kind.Quality? then s
    else
      var job := s.tasks.rows[task].job;
      var retried := OnRow(s, task, Retry(token));
      match job.kind
      case Import =>
        if DatasetOf(s, job).None? then retried
        else retried.(domain := retried.domain.(datasets := WithStatus(s.domain.datasets, job.dataset.value, Queued)))
      case ProfileJob => retried.(domain := retried.domain.(datasets := RestoredReady(s, token)))
      case Transform =>
        if TransformationOf(s, job).None? then retried
        else
          var x := job.transformation.value;
          CloseRun(retried, x, Admitted, Released(s.domain.datasets, s.domain.transformations[x], Transforming))
      case _ => retried
  }

  /** The domain record of a job its own worker has just failed. */
  function FailTarget(s: State, job: Job, task: nat, token: Token): State {
    match job.kind
    case Import =>
      if DatasetOf(s, job).None? then s
      else
        var d := job.dataset.value;
        DeletionAndUnlink(s, s.domain.datasets[d].storedPath).(
          domain := s.domain.(datasets := WithStatus(s.domain.datasets, d, FailedImport)))
    case ProfileJob => s.(domain := s.domain.(datasets := RestoredReady(s, token)))
    case Transform =>
      if TransformationOf(s, job).None? || s.domain.transformations[job.transformation.value].Published() then s
      else
        var x := s.domain.transformations[job.transformation.value];
        CloseRun(AbandonAttemptOf(s, task, token), job.transformation.value, FailedRun,
                 ReleasedHead(s.domain.datasets, x))
    case Quality => s.(domain := s.domain.(evaluations := Closed(s.domain.evaluations, task, EvaluationError)))
    case _ => s
  }

  function FailJob(s: State, task: nat, token: Token): State {
    if !RowFires(s, task, Fail(Some(token))) then s
    else FailTarget(OnRow(s, task, Fail(Some(token))), s.tasks.rows[task].job, task, token)
  }

  /** The domain record of a job its own worker has just cancelled. */
  function CancelTarget(s: State, job: Job, task: nat, token: Token): State {
    match job.kind
    case Import =>
      if DatasetOf(s, job).None? || s.domain.datasets[job.dataset.value].EnsureReady() then s
      else
        var d := job.dataset.value;
        DeletionAndUnlink(s, s.domain.datasets[d].storedPath).(
          domain := s.domain.(
            datasets := s.domain.datasets[d := s.domain.datasets[d].(status := CancelledImport, deleted := true)]))
    case ProfileJob => s.(domain := s.domain.(datasets := RestoredReady(s, token)))
    case Transform =>
      if TransformationOf(s, job).None? then s
      else
        var x := s.domain.transformations[job.transformation.value];
        CloseRun(DeletionAndUnlink(s, x.outputPath), job.transformation.value, CancelledRun,
                 Released(s.domain.datasets, x, Ready))
    case Quality => s.(domain := s.domain.(evaluations := Closed(s.domain.evaluations, task, EvaluationCancelled)))
    case _ => s
  }

  function CancelRunning(s: State, task: nat, token: Token): State {
    if !RowFires(s, task, CancelByWorker(token)) then s
    else CancelTarget(OnRow(s, task, CancelByWorker(token)), s.tasks.rows[task].job, task, token)
  }

  // ---------------------------------------------------------------- transformation output

  predicate MayReserve(s: State, task: nat, token: Token) {
    task in s.tasks.rows && s.tasks.rows[task].job.OwnsLease(token, s.env.now)
  }

  /** The head the transformation was admitted on is still the head. */
  predicate HeadUnmoved(s: State, x: Transformation) {
    && x.dataset in s.domain.datasets
    && !s.domain.datasets[x.dataset].deleted
    && s.domain.datasets[x.dataset].version == x.expectedVersion
    && s.domain.datasets[x.dataset].storedPath == x.inputPath
  }

  /** A fresh final path with its temporary path, reserved for one attempt. */
  function Reserving(s: State, job: Job, task: nat, token: Token, transformation: Option<nat>): State {
    var final, temporary := Output(s.env.nextId), Temporary(s.env.nextId + 1);
    s.(
      env := s.env.(nextId := s.env.nextId + 2),
      storage := s.storage.(
        artifacts := s.storage.artifacts[final := Reservation(job.owner, task, token, temporary, 900, s.env.now)],
        writers := s.storage.writers[final := Writer(temporary, task, token, transformation, false)]))
  }

  /** The worker compared the head before, with no lock held, so that check restricts nothing here. */
  function ReserveOutput(s: State, task: nat, token: Token): State {
    if !MayReserve(s, task, token) then s
    else
      var job := s.tasks.rows[task].job;
      if !job.kind.Transform? || TransformationOf(s, job).None? then s
      else if s.domain.transformations[job.transformation.value].Published() then s
      else Reserving(s, job, task, token, job.transformation)
  }

  /** A preview's output is reserved the same way and never published. */
  function ReservePreview(s: State, task: nat, token: Token): State {
    if !MayReserve(s, task, token) || !s.tasks.rows[task].job.kind.Preview? then s
    else Reserving(s, s.tasks.rows[task].job, task, token, None)
  }

  /** A writer fills its temporary file or its spill directory, at any time, stale or not. */
  function WriteScratch(s: State, final: Path, target: Path, content: Bytes): State {
    if final !in s.storage.writers || s.storage.writers[final].finished
        || target !in Scratch(s.storage.writers[final].temporary) then s
    else s.(storage := s.storage.(files := s.storage.files[target := content]))
  }

  predicate MayPublish(s: State, task: nat, token: Token, final: Path) {
    && RowFires(s, task, Succeed(token))
    && s.tasks.rows[task].job.kind.Transform?
    && TransformationOf(s, s.tasks.rows[task].job).Some?
    && final in s.storage.writers && !s.storage.writers[final].finished
    && s.storage.writers[final].transformation == s.tasks.rows[task].job.transformation
    && s.storage.writers[final].temporary in s.storage.files
    && final in s.storage.artifacts
    && s.storage.artifacts[final].task == Some(task)
    && s.storage.artifacts[final].owner == Some(s.tasks.rows[task].job.owner)
    && s.storage.artifacts[final].state.Reserved?
    && s.storage.artifacts[final].attemptToken == Some(token)
    && var x := s.domain.transformations[s.tasks.rows[task].job.transformation.value];
       HeadUnmoved(s, x) && !x.Published() && !x.status.CancelledRun? && x.inputPath in s.storage.snapshots
  }

  function TransformationEvent(x: nat, record: Transformation, id: nat, final: Path, source: Bytes, output: Bytes)
    : Event
  {
    Event(id, record.user, x, TransformEvent, Some(record.idempotencyKey),
          TransformRequest(record.dataset, record.expectedVersion, record.operation),
          record.expectedVersion, record.expectedVersion + 1, record.inputPath, final,
          Receipt(id, x, record.expectedVersion, record.expectedVersion + 1, source.rows, output.rows, source.columns,
                  output.columns, final))
  }

  /**
   Publication. Rename, LIVE, manifest, new head, completed transformation, event and
   SUCCESS are one transaction under the job, dataset and artifact locks.
   */
  function Publish(s: State, task: nat, token: Token, final: Path): State {
    if !MayPublish(s, task, token, final) then s
    else
      var x := s.tasks.rows[task].job.transformation.value;
      var record := s.domain.transformations[x];
      var temporary := s.storage.writers[final].temporary;
      var source, output := s.storage.snapshots[record.inputPath].digest, s.storage.files[temporary];
      var d, version := record.dataset, record.expectedVersion + 1;
      OnRow(s, task, Succeed(token)).(
        env := s.env.(nextId := s.env.nextId + 1),
        storage := s.storage.(
          artifacts := s.storage.artifacts[final := s.storage.artifacts[final].(state := Live, expiresAt := None)],
          files := (s.storage.files - {temporary})[final := output],
          writers := s.storage.writers[final := s.storage.writers[final].(finished := true)],
          snapshots := s.storage.snapshots[final := Snapshot(d, version, output, Available, false, s.env.now)]),
        domain := s.domain.(
          datasets := s.domain.datasets[d := s.domain.datasets[d].(
            storedPath := final, rowCount := Some(output.rows), columnCount := Some(output.columns),
            profile := None, version := version, status := Ready)],
          transformations := s.domain.transformations[x := record.(
            outputPath := final, status := Completed, beforeRows := source.rows, afterRows := output.rows,
            beforeColumns := source.columns, afterColumns := output.columns)],
          events := s.domain.events[d := EventsOf(s, d)
                                        + [TransformationEvent(x, record, s.env.nextId, final, source, output)]]))
  }

  function EventsOf(s: State, d: nat): seq<Event> {
    if d in s.domain.events then s.domain.events[d] else []
  }

  /** The writer dies, or its commit fails, after the rename: bytes appear at the final path. */
  function RenameUnpublished(s: State, final: Path): State {
    if final !in s.storage.writers || s.storage.writers[final].finished then s
    else if s.storage.writers[final].temporary !in s.storage.files then s
    else
      var temporary := s.storage.writers[final].temporary;
      s.(storage := s.storage.(
        files := (s.storage.files - {temporary})[final := s.storage.files[temporary]],
        writers := s.storage.writers[final := s.storage.writers[final].(finished := true)]))
  }

  /** The writer gives up and removes its own temporary file. */
  function DropTemporary(s: State, final: Path): State {
    if final !in s.storage.writers || s.storage.writers[final].finished then s
    else s.(storage := s.storage.(
              files := s.storage.files - {s.storage.writers[final].temporary},
              writers := s.storage.writers[final := s.storage.writers[final].(finished := true)]))
  }

  function RecoveryAct(job: Job, token: Token): Act {
    if job.status.CancellationRequested? then CancelByWorker(token) else Fail(Some(token))
  }

  /** `_recover_transformation_finalization`, for a final commit whose outcome is unknown. */
  function RecoverFinalization(s: State, task: nat, token: Token): State {
    if task !in s.tasks.rows || !s.tasks.rows[task].job.kind.Transform?
        || TransformationOf(s, s.tasks.rows[task].job).None? then s
    else
      var job := s.tasks.rows[task].job;
      var x := job.transformation.value;
      var act := RecoveryAct(job, token);
      if (job.status.Success? && s.domain.transformations[x].Published()) || !RowFires(s, task, act) then s
      else
        CloseRun(AbandonAttemptOf(DeletionAndUnlink(OnRow(s, task, act), s.domain.transformations[x].outputPath),
                                  task, token),
                 x, if act.CancelByWorker? then CancelledRun else FailedRun,
                 ReleasedHead(s.domain.datasets, s.domain.transformations[x]))
  }

  // ---------------------------------------------------------------- profiling

  function BeginProfile(s: State, task: nat, token: Token): State {
    var act := Renew(token, JOB_LEASE_SECONDS, Some(15));
    if !RowFires(s, task, act) || !s.tasks.rows[task].job.kind.ProfileJob? then s
    else match DatasetOf(s, s.tasks.rows[task].job)
      case None => s
      case Some(d) =>
        var dataset := s.domain.datasets[d];
        if dataset.deleted then s
        else if dataset.profile.Some? then OnRow(s, task, Succeed(token))
        else if !dataset.status.Profiling? && !dataset.EnsureReady() then s
        else
          OnRow(s, task, act).(
            domain := s.domain.(
              datasets := WithStatus(s.domain.datasets, d, Profiling),
              profilers := s.domain.profilers[token := Profiler(d, dataset.version, dataset.storedPath, None)]))
  }

  /** The subprocess reads the captured path with no lock held. */
  function ComputeProfile(s: State, token: Token): State {
    if token !in s.domain.profilers || s.domain.profilers[token].path !in s.storage.files then s
    else
      var p := s.domain.profilers[token];
      var computed := Some(Profile(s.storage.files[p.path]));
      s.(domain := s.domain.(profilers := s.domain.profilers[token := p.(result := computed)]))
  }

  /** The captured head is still the head, and the dataset is still being profiled. */
  predicate MayPublishProfile(s: State, task: nat, token: Token) {
    && RowFires(s, task, Succeed(token))
    && s.tasks.rows[task].job.kind.ProfileJob?
    && token in s.domain.profilers
    && var p := s.domain.profilers[token];
       && p.result.Some? && s.tasks.rows[task].job.dataset == Some(p.dataset) && p.dataset in s.domain.datasets
       && var dataset := s.domain.datasets[p.dataset];
          !dataset.deleted && dataset.version == p.version && dataset.storedPath == p.path && dataset.status.Profiling?
  }

  function PublishProfile(s: State, task: nat, token: Token): State {
    if !MayPublishProfile(s, task, token) then s
    else
      var p := s.domain.profilers[token];
      var described := s.domain.datasets[p.dataset].(profile := p.result, status := Profiled);
      OnRow(s, task, Succeed(token)).(domain := s.domain.(datasets := s.domain.datasets[p.dataset := described]))
  }

  /** Previews and reports: their results are no table of this store. */
  function CompleteUnrecorded(s: State, task: nat, token: Token): State {
    if RowFires(s, task, Succeed(token)) && s.tasks.rows[task].job.Unrecorded() then OnRow(s, task, Succeed(token))
    else s
  }

  /** Evidence and SUCCESS commit together. */
  function CompleteEvaluation(s: State, task: nat, token: Token, passed: bool): State {
    if !RowFires(s, task, Succeed(token)) || !s.tasks.rows[task].job.kind.Quality? then s
    else if task !in s.domain.evaluations then s
    else
      var evidence := Evaluation(Evaluated, Some(passed));
      OnRow(s, task, Succeed(token)).(domain := s.domain.(evaluations := s.domain.evaluations[task := evidence]))
  }

  // ---------------------------------------------------------------- user requests

  predicate UndoReceiptFor(event: Event, actor: nat, key: nat) {
    event.kind.UndoEvent? && event.actor == actor && event.idempotencyKey == Some(key)
  }

  /** The stored receipt for an undo key, if the key was ever used (`replay`). */
  function Replay(events: seq<Event>, actor: nat, key: Option<nat>): Option<Event> {
    if key.None? || events == [] then None
    else if UndoReceiptFor(events[0], actor, key.value) then Some(events[0])
    else Replay(events[1..], actor, key)
  }

  predicate UndoCandidate(s: State, d: nat, user: nat, x: nat) {
    && d in s.domain.datasets && x in s.domain.transformations
    && s.domain.transformations[x].dataset == d
    && s.domain.transformations[x].user == user
    && s.domain.transformations[x].status.Completed?
    && s.domain.transformations[x].outputPath == s.domain.datasets[d].storedPath
  }

  /** Under the locks: the newest completed transformation of the head, and its intact input. */
  predicate MayUndo(s: State, d: nat, user: nat, expectedVersion: nat, key: Option<nat>, x: nat) {
    && d in s.domain.datasets && !s.domain.datasets[d].deleted && s.domain.datasets[d].owner == user
    && Replay(EventsOf(s, d), user, key).None?
    && s.domain.datasets[d].version == expectedVersion
    && s.domain.datasets[d].EnsureReady()
    && UndoCandidate(s, d, user, x)
    && (forall y | y in s.domain.transformations :: UndoCandidate(s, d, user, y) ==> y <= x)
    && var path := s.domain.transformations[x].inputPath;
       && path in s.storage.snapshots && s.storage.snapshots[path].dataset == d
           && s.storage.snapshots[path].availability.Available?
       && path in s.storage.files && s.storage.files[path] == s.storage.snapshots[path].digest
  }

  function UndoEventOf(x: nat, record: Transformation, id: nat, actor: nat, version: nat, key: Option<nat>): Event {
    Event(id, actor, x, UndoEvent, key, UndoRequest(record.dataset, version), version, version + 1,
          record.outputPath, record.inputPath,
          Receipt(id, x, version, version + 1, record.beforeRows, record.afterRows, record.beforeColumns,
                  record.afterColumns, record.inputPath))
  }

  function Undo(s: State, d: nat, user: nat, expectedVersion: nat, key: Option<nat>, x: nat): State {
    if !MayUndo(s, d, user, expectedVersion, key, x) then s
    else
      var record := s.domain.transformations[x];
      s.(
        env := s.env.(nextId := s.env.nextId + 1),
        domain := s.domain.(
          transformations := s.domain.transformations[x := record.(status := Undone)],
          datasets := s.domain.datasets[d := s.domain.datasets[d].(
            storedPath := record.inputPath, rowCount := Some(record.beforeRows), columnCount :=
                Some(record.beforeColumns),
            version := s.domain.datasets[d].version + 1, profile := None, status := Ready)],
          events := s.domain.events[d := EventsOf(s,
                                                  d) + [UndoEventOf(x, record, s.env.nextId, user, expectedVersion,
                                                                    key)]]))
  }

  /** The cancellation route's first transaction: withdraw work that no worker has taken. */
  function CancelWaiting(s: State, task: nat): State {
    if RowFires(s, task, CancelPending)
    then CancelledTarget(OnRow(s, task, CancelPending), s.tasks.rows[task].job, task)
    else s
  }

  /**
   Its second transaction, when the first found nothing waiting: ask the worker to stop.
   The job may have been requeued in between, so a waiting job can be asked too.
   */
  function RequestStop(s: State, task: nat): State {
    if RowFires(s, task, RequestCancellation) then OnRow(s, task, RequestCancellation) else s
  }

  /** The domain record of a job withdrawn before any worker took it. */
  function CancelledTarget(s: State, job: Job, task: nat): State {
    match job.kind
    case Import =>
      if DatasetOf(s, job).None? then s
      else
        var d := job.dataset.value;
        s.(domain := s.domain.(
             datasets := s.domain.datasets[d := s.domain.datasets[d].(status := CancelledImport, deleted := true)]),
           storage := s.storage.(doomed := s.storage.doomed + {s.domain.datasets[d].storedPath}))
    case ProfileJob =>
      if DatasetOf(s, job).None? then s
      else s.(domain := s.domain.(datasets := WithStatus(s.domain.datasets, job.dataset.value, Ready)))
    case Transform =>
      if TransformationOf(s, job).None? then s
      else CloseRun(s, job.transformation.value, CancelledRun,
                    Released(s.domain.datasets, s.domain.transformations[job.transformation.value], Ready))
    case Quality => s.(domain := s.domain.(evaluations := Closed(s.domain.evaluations, task, EvaluationCancelled)))
    case _ => s
  }

  // ---------------------------------------------------------------- dispatch and recovery

  function ClaimPublication(s: State, task: nat): State {
    var act := Claim(s.env.nextId, s.env.settings.outboxClaimTtl);
    if !RowFires(s, task, act) then s
    else
      var box := s.tasks.rows[task].outbox.value;
      var claim := ClaimRecord(task, box.id, box.generation, box.attempts + 1);
      var moved := OnRow(s, task, act);
      moved.(
        env := s.env.(nextId := s.env.nextId + 1),
        tasks := moved.tasks.(claims := s.tasks.claims[s.env.nextId := claim]))
  }

  function PowerOfTwo(n: nat): (power: nat)
    ensures power >= 1
  {
    if n == 0 then 1 else 2 * PowerOfTwo(n - 1)
  }

  function BackoffCeiling(attempts: nat, maxRetry: nat): int {
    Max(1, Min(PowerOfTwo(Min(attempts, 8)), maxRetry))
  }

  /** The dispatcher records the outcome of its broker call; `backoff` is set when it failed. */
  function AcknowledgePublication(s: State, claim: nat, backoff: Option<nat>): State {
    if claim !in s.tasks.claims then s
    else
      var c := s.tasks.claims[claim];
      var act := Acknowledge(c.outboxId, c.generation, claim, backoff);
      if backoff.Some? && !(1 <= backoff.value <= BackoffCeiling(c.attempts, s.env.settings.outboxMaxRetry)) then s
      else if RowFires(s, c.task, act) then OnRow(s, c.task, act)
      else s
  }

  /** `_reconcile_job_target`. */
  function ReconcileTarget(s: State, job: Job, task: nat, cancelled: bool): State {
    match job.kind
    case Import =>
      if DatasetOf(s, job).None? then s
      else
        var d := job.dataset.value;
        var dataset := s.domain.datasets[d].(
          status := if cancelled then CancelledImport else FailedImport,
          deleted := s.domain.datasets[d].deleted || cancelled);
        RequestDeletion(s, dataset.storedPath, None).(domain := s.domain.(datasets := s.domain.datasets[d := dataset]))
    case ProfileJob =>
      if DatasetOf(s, job).None? || !s.domain.datasets[job.dataset.value].status.Profiling? then s
      else s.(domain := s.domain.(datasets := WithStatus(s.domain.datasets, job.dataset.value, Ready)))
    case Transform =>
      if TransformationOf(s, job).None? || s.domain.transformations[job.transformation.value].Published() then s
      else
        CloseRun(s, job.transformation.value, if cancelled then CancelledRun else FailedRun,
                 Released(s.domain.datasets, s.domain.transformations[job.transformation.value], Ready))
    case Quality =>
      var closed := Closed(s.domain.evaluations, task, if cancelled then EvaluationCancelled else EvaluationError);
      s.(domain := s.domain.(evaluations := closed))
    case _ => s
  }

  function ReconcileJob(s: State, task: nat): State {
    if !RowFires(s, task, Reconcile) then s
    else
      var next := OnRow(s, task, Reconcile);
      if Unrecoverable(s.tasks.rows[task]) then ReconcileTarget(next, s.tasks.rows[task].job, task, false) else next
  }

  function ReconcileCancelled(s: State, task: nat): State {
    if !RowFires(s, task, ReconcileCancellation) then s
    else ReconcileTarget(OnRow(s, task, ReconcileCancellation), s.tasks.rows[task].job, task, true)
  }

  // ---------------------------------------------------------------- retention and collection

  function NewerAvailable(snapshots: map<Path, Snapshot>, d: nat, version: nat): set<Path> {
    set p | p in snapshots && snapshots[p].dataset == d && snapshots[p].availability.Available?
        && snapshots[p].version > version
  }

  /** Among the `keepLast` highest-version available snapshots of its dataset. */
  predicate Recent(snapshots: map<Path, Snapshot>, path: Path, keepLast: nat)
    requires path in snapshots
  {
    && snapshots[path].availability.Available?
    && |NewerAvailable(snapshots, snapshots[path].dataset, snapshots[path].version)| < keepLast
  }

  predicate MayExpire(s: State, path: Path) {
    && path in s.storage.snapshots && s.storage.snapshots[path].dataset in s.domain.datasets
    && s.env.settings.snapshotRetention > 0
    && s.storage.snapshots[path].createdAt < s.env.now - s.env.settings.snapshotRetention
    && s.storage.snapshots[path].availability.Available? && !s.storage.snapshots[path].pinned
    && !Recent(s.storage.snapshots, path, s.env.settings.keepLast)
    && !InFlight(s.tasks.rows, s.storage.snapshots[path].dataset)
    && s.domain.datasets[s.storage.snapshots[path].dataset].storedPath != path
  }

  function ExpireSnapshot(s: State, path: Path): State {
    if !MayExpire(s, path) then s
    else
      var expired := s.storage.snapshots[path].(availability := Expired);
      RequestDeletion(s.(storage := s.storage.(snapshots := s.storage.snapshots[path := expired])),
                      path, Some(s.domain.datasets[expired.dataset].owner))
  }

  function PinSnapshot(s: State, path: Path, pinned: bool): State {
    if path !in s.storage.snapshots || !s.storage.snapshots[path].availability.Available? then s
    else
      var marked := s.storage.snapshots[path].(pinned := pinned);
      s.(storage := s.storage.(snapshots := s.storage.snapshots[path := marked]))
  }

  function VerdictOn(s: State, path: Path): Verdict
    requires path in s.storage.artifacts
  {
    Judge(s.storage.artifacts[path], LiveAttempt(s.tasks.rows, s.storage.artifacts[path], s.env.now),
          Referenced(s.domain.datasets, s.storage.snapshots, s.domain.transformations, s.env.reports, path), s.env.now)
  }

  /** First phase of collection: decide and commit; the unlinks come later. */
  function Collect(s: State, path: Path): State {
    if path !in s.storage.artifacts then s
    else
      var artifact := s.storage.artifacts[path];
      match VerdictOn(s, path)
      case Keep => s
      case CollectAuxiliaries => s.(storage := s.storage.(doomed := s.storage.doomed + Auxiliaries(artifact)))
      case Condemn => s.(storage := s.storage.(
        artifacts := s.storage.artifacts[path := artifact.(state := Deleting)],
        doomed := s.storage.doomed + {path} + Auxiliaries(artifact)))
  }

  /** Second phase: any process may carry out any unlink it decided on, any number of times. */
  function Unlink(s: State, path: Path): State {
    if path in s.storage.doomed then s.(storage := s.storage.(files := s.storage.files - {path})) else s
  }

  /** Third phase. */
  function FinishDeletion(s: State, path: Path): State {
    if path in s.storage.artifacts && s.storage.artifacts[path].state.Deleting? then
      var deleted := s.storage.artifacts[path].(state := Deleted);
      s.(storage := s.storage.(artifacts := s.storage.artifacts[path := deleted]))
    else s
  }

  /** Job retention removes finished rows with their publication intent. */
  function PurgeJob(s: State, task: nat): State {
    if && task in s.tasks.rows && s.tasks.rows[task].job.Terminal() && s.tasks.rows[task].job.finishedAt.Some?
       && s.tasks.rows[task].job.finishedAt.value < s.env.now - s.env.settings.jobRetention
    then s.(tasks := s.tasks.(rows := s.tasks.rows - {task}))
    else s
  }

  predicate TargetActive(rows: map<nat, Row>, d: nat) {
    exists t | t in rows :: rows[t].job.dataset == Some(d) && rows[t].job.OccupiesCapacity()
                            && (rows[t].job.kind.Import? || rows[t].job.kind.ProfileJob? || rows[t].job.kind.Transform?)
  }

  /** Stale dataset statuses repaired by the orphan task. */
  function SweepDataset(s: State, d: nat): State {
    if d !in s.domain.datasets || TargetActive(s.tasks.rows, d) then s
    else match s.domain.datasets[d].status
      case Queued => s.(domain := s.domain.(datasets := WithStatus(s.domain.datasets, d, FailedImport)))
      case Processing => s.(domain := s.domain.(datasets := WithStatus(s.domain.datasets, d, FailedImport)))
      case Profiling => s.(domain := s.domain.(datasets := WithStatus(s.domain.datasets, d, Ready)))
      case Transforming => s.(domain := s.domain.(datasets := WithStatus(s.domain.datasets, d, Ready)))
      case _ => s
  }

  /** A transformation whose task is no longer active is closed as failed. */
  function SweepTransformation(s: State, x: nat): State {
    if x !in s.domain.transformations || !s.domain.transformations[x].status.Admitted? then s
    else if s.domain.transformations[x].task in s.tasks.rows
        && s.tasks.rows[s.domain.transformations[x].task].job.OccupiesCapacity() then s
    else CloseRun(s, x, FailedRun, Released(s.domain.datasets, s.domain.transformations[x], Ready))
  }

  // ---------------------------------------------------------------- steps and runs

  datatype Admission =
    | ReserveImportStep(task: nat, owner: nat)
    | FailReservationStep(task: nat)
    | StageUploadStep(task: nat, content: Bytes)
    | AcknowledgeUploadStep(dataset: nat)
    | AbortUploadStep(dataset: nat)
    | AdmitJobStep(task: nat, dataset: nat, kind: Kind)
    | AdmitTransformationStep(task: nat, dataset: nat, user: nat, version: nat, key: nat, operation: int)

  datatype Attempt =
    | StartStep(task: nat, seconds: int, progress: int)
    | RenewStep(task: nat, token: Token, seconds: int, report: Option<int>)
    | RetryStep(task: nat, token: Token)
    | FailStep(task: nat, token: Token)
    | CancelStep(task: nat, token: Token)
    | BeginImportStep(task: nat, token: Token)
    | CompleteImportStep(task: nat, token: Token)
    | CompleteUnrecordedStep(task: nat, token: Token)
    | CompleteEvaluationStep(task: nat, token: Token, passed: bool)

  datatype Profiling =
    | BeginProfileStep(task: nat, token: Token)
    | ComputeProfileStep(token: Token)
    | PublishProfileStep(task: nat, token: Token)

  datatype Writing =
    | ReserveOutputStep(task: nat, token: Token)
    | ReservePreviewStep(task: nat, token: Token)
    | ScratchStep(final: Path, target: Path, content: Bytes)
    | PublishStep(task: nat, token: Token, final: Path)
    | RenameStep(final: Path)
    | DropStep(final: Path)
    | AbandonStep(task: nat, token: Token)
    | RecoverStep(task: nat, token: Token)

  datatype Request =
    | UndoStep(dataset: nat, user: nat, version: nat, key: Option<nat>, transformation: nat)
    | CancelWaitingStep(task: nat)
    | RequestStopStep(task: nat)
    | PinStep(path: Path, pinned: bool)

  datatype Dispatch =
    | ClaimStep(task: nat)
    | AcknowledgeStep(claim: nat, backoff: Option<nat>)
    | ReconcileStep(task: nat)
    | ReconcileCancelledStep(task: nat)

  datatype Upkeep =
    | ExpireStep(path: Path)
    | CollectStep(path: Path)
    | UnlinkStep(path: Path)
    | FinishStep(path: Path)
    | PurgeStep(task: nat)
    | SweepDatasetStep(dataset: nat)
    | SweepTransformationStep(transformation: nat)
    | ReportsStep(paths: set<Path>)

  datatype Step =
    | Tick(elapsed: nat)
    | Admit(admission: Admission)
    | Work(attempt: Attempt)
    | Profiles(profiling: Profiling)
    | Write(writing: Writing)
    | Ask(request: Request)
    | Deliver(dispatch: Dispatch)
    | Maintain(upkeep: Upkeep)

  function AfterAdmission(s: State, step: Admission): State {
    match step
    case ReserveImportStep(t, owner) => ReserveImport(s, t, owner)
    case FailReservationStep(t) => FailReservation(s, t)
    case StageUploadStep(t, content) => StageUpload(s, t, content)
    case AcknowledgeUploadStep(d) => AcknowledgeUpload(s, d)
    case AbortUploadStep(d) => AbortUpload(s, d)
    case AdmitJobStep(t, d, kind) => AdmitJob(s, t, d, kind)
    case AdmitTransformationStep(t, d, user, version, key, operation) => AdmitTransformation(s, t, d, user, version,
        key, operation)
  }

  function AfterWork(s: State, step: Attempt): State {
    match step
    case StartStep(t, seconds, progress) => StartJob(s, t, seconds, progress)
    case RenewStep(t, token, seconds, report) => RenewLease(s, t, token, seconds, report)
    case RetryStep(t, token) => RetryJob(s, t, token)
    case FailStep(t, token) => FailJob(s, t, token)
    case CancelStep(t, token) => CancelRunning(s, t, token)
    case BeginImportStep(t, token) => BeginImport(s, t, token)
    case CompleteImportStep(t, token) => CompleteImport(s, t, token)
    case CompleteUnrecordedStep(t, token) => CompleteUnrecorded(s, t, token)
    case CompleteEvaluationStep(t, token, passed) => CompleteEvaluation(s, t, token, passed)
  }

  function AfterProfiling(s: State, step: Profiling): State {
    match step
    case BeginProfileStep(t, token) => BeginProfile(s, t, token)
    case ComputeProfileStep(token) => ComputeProfile(s, token)
    case PublishProfileStep(t, token) => PublishProfile(s, t, token)
  }

  function AfterWriting(s: State, step: Writing): State {
    match step
    case ReserveOutputStep(t, token) => ReserveOutput(s, t, token)
    case ReservePreviewStep(t, token) => ReservePreview(s, t, token)
    case ScratchStep(final, target, content) => WriteScratch(s, final, target, content)
    case PublishStep(t, token, final) => Publish(s, t, token, final)
    case RenameStep(final) => RenameUnpublished(s, final)
    case DropStep(final) => DropTemporary(s, final)
    case AbandonStep(t, token) => AbandonAttemptOf(s, t, token)
    case RecoverStep(t, token) => RecoverFinalization(s, t, token)
  }

  function AfterRequest(s: State, step: Request): State {
    match step
    case UndoStep(d, user, version, key, x) => Undo(s, d, user, version, key, x)
    case CancelWaitingStep(t) => CancelWaiting(s, t)
    case RequestStopStep(t) => RequestStop(s, t)
    case PinStep(path, pinned) => PinSnapshot(s, path, pinned)
  }

  function AfterDispatch(s: State, step: Dispatch): State {
    match step
    case ClaimStep(t) => ClaimPublication(s, t)
    case AcknowledgeStep(claim, backoff) => AcknowledgePublication(s, claim, backoff)
    case ReconcileStep(t) => ReconcileJob(s, t)
    case ReconcileCancelledStep(t) => ReconcileCancelled(s, t)
  }

  function AfterUpkeep(s: State, step: Upkeep): State {
    match step
    case ExpireStep(path) => ExpireSnapshot(s, path)
    case CollectStep(path) => Collect(s, path)
    case UnlinkStep(path) => Unlink(s, path)
    case FinishStep(path) => FinishDeletion(s, path)
    case PurgeStep(t) => PurgeJob(s, t)
    case SweepDatasetStep(d) => SweepDataset(s, d)
    case SweepTransformationStep(x) => SweepTransformation(s, x)
    case ReportsStep(paths) => s.(env := s.env.(reports := paths))
  }

  function Apply(s: State, step: Step): State {
    match step
    case Tick(elapsed) => s.(env := s.env.(now := s.env.now + elapsed))
    case Admit(admission) => AfterAdmission(s, admission)
    case Work(attempt) => AfterWork(s, attempt)
    case Profiles(profiling) => AfterProfiling(s, profiling)
    case Write(writing) => AfterWriting(s, writing)
    case Ask(request) => AfterRequest(s, request)
    case Deliver(dispatch) => AfterDispatch(s, dispatch)
    case Maintain(upkeep) => AfterUpkeep(s, upkeep)
  }

  /** Every interleaving of the services, the workers and the environment is a sequence of steps. */
  function Run(s: State, steps: seq<Step>): State
    decreases steps
  {
    if steps == [] then s else Run(Apply(s, steps[0]), steps[1..])
  }
}
