/** The steps in which one job and its own record move: each keeps the invariant. */
module MovesProof {
  import opened Prelude
  import opened JobService
  import opened TaskProtocol
  import opened Tables
  import opened ArtifactService
  import opened Protocol
  import opened Invariants
  import opened StorageProof
  import opened JobsProof
  import opened RecordsProof

  /** What the invariant says about one task and the records it is responsible for. */
  ghost predicate Placed(s: State, task: nat) {
    && task in s.tasks.rows && Sound(s.tasks.rows[task])
    && Stands(s, task, s.tasks.rows[task].job)
  }

  ghost predicate Stands(s: State, task: nat, job: Job) {
    && (job.kind.Transform? <==> job.transformation.Some?)
    && (job.kind.Import? ==> PlacedImport(s, job))
    && (!job.kind.Import? ==> job.dataset.Some? && PlacedTarget(s, job.dataset.value))
    && (job.kind.Transform? ==> PlacedRun(s, job))
    && (job.kind.Quality? ==> task in s.domain.evaluations && EvaluationAgrees(job, s.domain.evaluations[task]))
    && PlacedDatasets(s)
  }

  ghost predicate PlacedTarget(s: State, d: nat) {
    d in s.domain.datasets && s.domain.datasets[d].Imported()
  }

  ghost predicate PlacedImport(s: State, job: Job) {
    job.dataset.Some? ==>
      && job.dataset.value in s.domain.datasets
      && var d := s.domain.datasets[job.dataset.value];
         && d.storedPath.Output? && Issued(d.storedPath, s.env.nextId)
         && d.storedPath in s.storage.snapshots && s.storage.snapshots[d.storedPath].dataset == job.dataset.value
         && (job.OccupiesCapacity() ==> !d.Imported() && d.Retained())
  }

  ghost predicate PlacedRun(s: State, job: Job)
    requires job.transformation.Some?
  {
    && job.transformation.value in s.domain.transformations
    && var x := s.domain.transformations[job.transformation.value];
       && PlacedTarget(s, x.dataset)
       && Agree(job, x)
       && (!x.Published() ==> x.outputPath.Prepared? && Issued(x.outputPath, s.env.nextId))
  }

  ghost predicate PlacedDatasets(s: State) {
    && (forall d | d in s.domain.datasets :: s.domain.datasets[d].deleted ==>
        s.domain.datasets[d].status.CancelledImport?)
    && (forall token | token in s.domain.profilers :: PlacedTarget(s, s.domain.profilers[token].dataset))
  }

  lemma InvPlaces(s: State, task: nat)
    requires Inv(s) && task in s.tasks.rows
    ensures Placed(s, task)
  {
    hide FilesOk, VersionsUnique, ArtifactsOk, WritersOk, DoomedOk, CapacityOk, TasksOk, DescriptionsOk,
      ProfilersOk, LiveOk, LeasesOk,
      HistoryOk, ReceiptsOk, Sound, Agree, EvaluationAgrees, OutputOk;
    assert PlacedDatasets(s);
    assert s.tasks.rows[task].job.kind.Import? ==> PlacedImport(s, s.tasks.rows[task].job) by {
      hide TransformationsOk, RunsAgree, EvaluationsAgree, TargetsOk;
    }
    hide ImportsOk, HeadsOk, ManifestsOk, PlacedImport, PlacedDatasets;
  }

  /** The status an act leaves, and whom it can concern. */
  lemma ActSets(row: Row, act: Act, now: Time)
    requires Fires(row, act, now) && Sound(row) && !act.Enqueue?
    ensures var before, after := row.job, Perform(row, act, now).job;
            && after.kind == before.kind && after.owner == before.owner && after.dataset == before.dataset
                && after.transformation == before.transformation
            && (if act.Claim? || act.Acknowledge? then after == before else before.OccupiesCapacity())
            && match act
               case Start(_, _, _) => after.status.Started? && before.Active()
               case Renew(_, _, _) => after.status == before.status
               case Succeed(_) => after.status.Success?
               case Retry(_) => after.status.Pending?
               case Fail(_) => after.status.Failure? && before.Active()
               case RequestCancellation => after.status.CancellationRequested?
               case CancelPending => after.status.Cancelled?
               case CancelByWorker(_) => after.status.Cancelled?
               case Reconcile => after.status == if Unrecoverable(row) then Failure else Pending
               case ReconcileCancellation => after.status.Cancelled?
               case _ => true
  {
  }

  // ---------------------------------------------------------------- one lemma for each step

  lemma StartMoves(s: State, task: nat, seconds: int, progress: int)
    requires Placed(s, task)
    ensures var z, act := StartJob(s, task, seconds, progress), Start(s.env.nextId, seconds, progress);
            z == s || (Moved(s, task, act, z) && Releases(s, z))
  {
    if RowFires(s, task, Start(s.env.nextId, seconds, progress)) {
      ActSets(s.tasks.rows[task], Start(s.env.nextId, seconds, progress), s.env.now);
      hide Fires, Perform, Sound;
    }
  }

  lemma RenewMoves(s: State, task: nat, token: Token, seconds: int, report: Option<int>)
    requires Placed(s, task)
    ensures var z, act := RenewLease(s, task, token, seconds, report), Renew(token, seconds, report);
            z == s || (Moved(s, task, act, z) && Releases(s, z))
  {
    if RowFires(s, task, Renew(token, seconds, report)) {
      ActSets(s.tasks.rows[task], Renew(token, seconds, report), s.env.now);
      hide Fires, Perform, Sound;
    }
  }

  lemma BeginImportMoves(s: State, task: nat, token: Token)
    requires Placed(s, task)
    ensures var z, act := BeginImport(s, task, token), Renew(token, JOB_LEASE_SECONDS, Some(25));
            z == s || (Moved(s, task, act, z) && Releases(s, z))
  {
    if RowFires(s, task, Renew(token, JOB_LEASE_SECONDS, Some(25))) {
      ActSets(s.tasks.rows[task], Renew(token, JOB_LEASE_SECONDS, Some(25)), s.env.now);
      hide Fires, Perform, Sound;
    }
  }

  // ---------------------------------------------------------------- moves that settle the domain record

  /** The domain and storage effects of a move whose row has already been replaced. */
  ghost predicate Settled(m: State, task: nat, job: Job, after: Job, z: State) {
    && z.tasks == m.tasks && z.env == m.env
    && OwnDataset(job, m.domain.datasets, z.domain.datasets)
    && OwnImport(after, z.domain.datasets)
    && OwnRun(job, after, m.domain.transformations, z.domain.transformations)
    && OwnEvaluation(task, job, after, m.domain.evaluations, z.domain.evaluations)
    && z.domain.profilers == m.domain.profilers && z.domain.events == m.domain.events
    && Releases(m, z)
  }

  lemma SettledMoves(s: State, task: nat, act: Act, z: State)
    requires RowFires(s, task, act) && !act.Enqueue? && !act.Start? && !act.Claim?
    requires Settled(OnRow(s, task, act), task, s.tasks.rows[task].job, Perform(s.tasks.rows[task], act, s.env.now).job,
                     z)
    ensures Moved(s, task, act, z) && Releases(s, z)
  {
    hide Fires, Perform, OwnDataset, OwnImport, OwnRun, OwnEvaluation;
  }

  ghost predicate Ends(job: Job, after: Job) {
    SameIdentity(job, after) && job.OccupiesCapacity()
  }

  lemma NothingSettles(m: State, task: nat, job: Job, after: Job)
    requires Stands(m, task, job) && Ends(job, after)
    requires job.Unrecorded()
    ensures Settled(m, task, job, after, m)
  {
  }

  /** The staged dataset of an unfinished import changes status, and perhaps is discarded. */
  lemma ImportSettles(m: State, task: nat, job: Job, after: Job, status: DatasetStatus, deleted: bool, z: State)
    requires Stands(m, task, job) && Ends(job, after) && job.kind.Import? && job.dataset.Some?
    requires var d := job.dataset.value;
             var moved := m.domain.datasets[d].(status := status, deleted := deleted);
             z == m.(storage := z.storage, domain := m.domain.(datasets := m.domain.datasets[d := moved]))
    requires status.Queued? || status.Processing? || status.FailedImport? || status.CancelledImport?
    requires deleted ==> status.CancelledImport?
    requires after.OccupiesCapacity() ==> status.Queued? || status.Processing?
    requires Rescheduled(m.storage.artifacts, z.storage.artifacts, m.storage.snapshots, m.env.nextId)
    requires z.storage == m.storage.(artifacts := z.storage.artifacts, doomed := z.storage.doomed)
    requires z.storage.doomed == m.storage.doomed
             || (z.storage.doomed == m.storage.doomed + {m.domain.datasets[job.dataset.value].storedPath}
                 && (status.FailedImport? || status.CancelledImport?))
    ensures Settled(m, task, job, after, z)
  {
    hide Rescheduled;
  }

  /** Only the status of imported datasets changed, and they stay imported. */
  ghost predicate Steady(m: State, datasets: map<nat, Dataset>) {
    && datasets.Keys == m.domain.datasets.Keys
    && forall d | d in datasets && datasets[d] != m.domain.datasets[d] ::
      && m.domain.datasets[d].Imported() && datasets[d].Imported()
      && datasets[d] == m.domain.datasets[d].(status := datasets[d].status)
  }

  lemma ReleasedIsSteady(m: State, x: Transformation, status: DatasetStatus)
    requires PlacedTarget(m, x.dataset) && (status.Ready? || status.Transforming?)
    ensures Steady(m, Released(m.domain.datasets, x, status))
    ensures Steady(m, ReleasedHead(m.domain.datasets, x))
  {
  }

  lemma RestoredReadyIsSteady(m: State, token: Token)
    requires PlacedDatasets(m)
    ensures Steady(m, RestoredReady(m, token))
  {
  }

  lemma SteadyIsOwn(m: State, job: Job, after: Job, datasets: map<nat, Dataset>)
    requires PlacedDatasets(m) && Steady(m, datasets)
    requires job.kind == after.kind
        && (job.kind.Import? ==>
                PlacedImport(m, job) && job.dataset == after.dataset
                && (after.OccupiesCapacity() ==> job.OccupiesCapacity()))
    ensures OwnDataset(job, m.domain.datasets, datasets) && OwnImport(after, datasets)
  {
  }

  lemma ProfileSettles(m: State, task: nat, job: Job, after: Job, datasets: map<nat, Dataset>)
    requires Stands(m, task, job) && Ends(job, after) && job.kind.ProfileJob? && Steady(m, datasets)
    ensures Settled(m, task, job, after, m.(domain := m.domain.(datasets := datasets)))
  {
    SteadyIsOwn(m, job, after, datasets);
    hide OwnDataset, OwnImport, Steady, PlacedDatasets;
  }

  lemma RunSettles(m: State, task: nat, job: Job, after: Job, status: TransformationStatus, datasets: map<nat, Dataset>,
                   z: State)
    requires Stands(m, task, job) && Ends(job, after) && job.kind.Transform? && Steady(m, datasets)
    requires var x := job.transformation.value;
             var closed := m.domain.transformations[x].(status := status);
             z == m.(storage := z.storage, domain := m.domain.(
                       datasets := datasets, transformations := m.domain.transformations[x := closed]))
    requires Agree(after, m.domain.transformations[job.transformation.value].(status := status))
             && !after.status.Success?
    requires Rescheduled(m.storage.artifacts, z.storage.artifacts, m.storage.snapshots, m.env.nextId)
    requires z.storage == m.storage.(artifacts := z.storage.artifacts, doomed := z.storage.doomed)
    requires z.storage.doomed == m.storage.doomed
             || z.storage.doomed == m.storage.doomed + {m.domain.transformations[job.transformation.value].outputPath}
    ensures Settled(m, task, job, after, z)
  {
    SteadyIsOwn(m, job, after, datasets);
    hide OwnDataset, OwnImport, Steady, PlacedDatasets, Rescheduled;
  }

  lemma EvaluationSettles(m: State, task: nat, job: Job, after: Job, evaluation: Evaluation)
    requires Stands(m, task, job) && Ends(job, after) && job.kind.Quality? && EvaluationAgrees(after, evaluation)
    ensures Settled(m, task, job, after,
                    m.(domain := m.domain.(evaluations := m.domain.evaluations[task := evaluation])))
  {
    SteadyIsOwn(m, job, after, m.domain.datasets);
    hide OwnDataset, OwnImport, Steady, PlacedDatasets;
  }

  // ---------------------------------------------------------------- the targets of failing and cancelling

  lemma FailTargetSettles(m: State, task: nat, job: Job, after: Job, token: Token)
    requires Stands(m, task, job) && Ends(job, after) && after.status.Failure?
    ensures Settled(m, task, job, after, FailTarget(m, job, task, token))
  {
    hide Settled;
    var z := FailTarget(m, job, task, token);
    match job.kind {
      case Import =>
        if DatasetOf(m, job).Some? {
          ImportSettles(m, task, job, after, FailedImport, m.domain.datasets[job.dataset.value].deleted, z);
        } else {
          UnstagedSettles(m, task, job, after);
        }
      case ProfileJob =>
        RestoredReadyIsSteady(m, token);
        ProfileSettles(m, task, job, after, RestoredReady(m, token));
      case Transform =>
        var x := m.domain.transformations[job.transformation.value];
        ReleasedIsSteady(m, x, Ready);
        RunSettles(m, task, job, after, FailedRun, ReleasedHead(m.domain.datasets, x), z);
      case Quality => EvaluationSettles(m, task, job, after, Evaluation(EvaluationError, None));
      case _ => NothingSettles(m, task, job, after);
    }
  }

  /** A reserved import that was never staged has no record to settle. */
  lemma UnstagedSettles(m: State, task: nat, job: Job, after: Job)
    requires Stands(m, task, job) && Ends(job, after) && job.kind.Import? && job.dataset.None?
    ensures Settled(m, task, job, after, m)
  {
  }

  lemma CancelledImportSettles(m: State, task: nat, job: Job, after: Job, token: Token)
    requires Stands(m, task, job) && Ends(job, after) && after.status.Cancelled? && job.kind.Import?
    ensures Settled(m, task, job, after, CancelTarget(m, job, task, token))
  {
    hide Settled, Agree, EvaluationAgrees, PlacedRun;
    if DatasetOf(m, job).Some? {
      ImportSettles(m, task, job, after, CancelledImport, true, CancelTarget(m, job, task, token));
    } else {
      UnstagedSettles(m, task, job, after);
    }
  }

  lemma DeletionReschedules(m: State, path: Path)
    requires path.Prepared? && Issued(path, m.env.nextId)
    ensures var z := DeletionAndUnlink(m, path);
            && Rescheduled(m.storage.artifacts, z.storage.artifacts, m.storage.snapshots, m.env.nextId)
            && z == m.(storage := m.storage.(artifacts := z.storage.artifacts, doomed := m.storage.doomed + {path}))
  {
  }

  lemma CancelledRunSettles(m: State, task: nat, job: Job, after: Job, token: Token)
    requires Stands(m, task, job) && Ends(job, after) && after.status.Cancelled? && job.kind.Transform?
    ensures Settled(m, task, job, after, CancelTarget(m, job, task, token))
  {
    var x := m.domain.transformations[job.transformation.value];
    ReleasedIsSteady(m, x, Ready);
    DeletionReschedules(m, x.outputPath);
    hide Settled, PlacedImport, EvaluationAgrees, Steady, Released, DeletionAndUnlink, Rescheduled, PlacedDatasets;
    RunSettles(m, task, job, after, CancelledRun, Released(m.domain.datasets, x, Ready),
               CancelTarget(m, job, task, token));
  }

  lemma CancelTargetSettles(m: State, task: nat, job: Job, after: Job, token: Token)
    requires Stands(m, task, job) && Ends(job, after) && after.status.Cancelled?
    ensures Settled(m, task, job, after, CancelTarget(m, job, task, token))
  {
    match job.kind {
      case Import => hide CancelTarget, Settled, Stands, Ends; CancelledImportSettles(m, task, job, after, token);
      case Transform => hide CancelTarget, Settled, Stands, Ends; CancelledRunSettles(m, task, job, after, token);
      case ProfileJob =>
        hide Settled, PlacedRun, PlacedImport, Agree;
        RestoredReadyIsSteady(m, token);
        ProfileSettles(m, task, job, after, RestoredReady(m, token));
      case Quality =>
        hide Settled, PlacedRun, PlacedImport, Agree;
        EvaluationSettles(m, task, job, after, Evaluation(EvaluationCancelled, None));
      case _ =>
        hide Settled, PlacedRun, PlacedImport, Agree;
        NothingSettles(m, task, job, after);
    }
  }

  lemma ReconcileTargetSettles(m: State, task: nat, job: Job, after: Job, cancelled: bool)
    requires Stands(m, task, job) && Ends(job, after)
    requires if cancelled then after.status.Cancelled? else after.status.Failure?
    ensures Settled(m, task, job, after, ReconcileTarget(m, job, task, cancelled))
  {
    hide Settled;
    var z := ReconcileTarget(m, job, task, cancelled);
    match job.kind {
      case Import =>
        if DatasetOf(m, job).Some? {
          ImportSettles(m, task, job, after, if cancelled then CancelledImport else FailedImport,
                        m.domain.datasets[job.dataset.value].deleted || cancelled, z);
        } else {
          UnstagedSettles(m, task, job, after);
        }
      case ProfileJob =>
        ProfileSettles(m, task, job, after, z.domain.datasets);
      case Transform =>
        var x := m.domain.transformations[job.transformation.value];
        ReleasedIsSteady(m, x, Ready);
        RunSettles(m, task, job, after, if cancelled then CancelledRun else FailedRun,
                   Released(m.domain.datasets, x, Ready), z);
      case Quality => EvaluationSettles(m, task, job, after,
                                        Evaluation(if cancelled then EvaluationCancelled else EvaluationError, None));
      case _ => NothingSettles(m, task, job, after);
    }
  }

  lemma RetrySettles(s: State, task: nat, token: Token)
    requires Placed(s, task) && RowFires(s, task, Retry(token)) && !s.tasks.rows[task].job.kind.Quality?
    ensures Settled(OnRow(s, task, Retry(token)), task, s.tasks.rows[task].job,
                    Perform(s.tasks.rows[task], Retry(token), s.env.now).job, RetryJob(s, task, token))
  {
    ActSets(s.tasks.rows[task], Retry(token), s.env.now);
    hide Settled, Fires, Perform, Sound;
    var m, job, after := OnRow(s, task, Retry(token)), s.tasks.rows[task].job, Perform(s.tasks.rows[task], Retry(token),
        s.env.now).job;
    var z := RetryJob(s, task, token);
    match job.kind {
      case Import =>
        if DatasetOf(s, job).Some? {
          ImportSettles(m, task, job, after, Queued, m.domain.datasets[job.dataset.value].deleted, z);
        } else {
          UnstagedSettles(m, task, job, after);
        }
      case ProfileJob =>
        RestoredReadyIsSteady(s, token);
        ProfileSettles(m, task, job, after, z.domain.datasets);
      case Transform =>
        var x := s.domain.transformations[job.transformation.value];
        ReleasedIsSteady(s, x, Transforming);
        RunSettles(m, task, job, after, Admitted, z.domain.datasets, z);
      case Quality =>
      case _ => NothingSettles(m, task, job, after);
    }
  }

  lemma CancelWaitingSettles(s: State, task: nat)
    requires Placed(s, task) && RowFires(s, task, CancelPending)
    ensures Settled(OnRow(s, task, CancelPending), task, s.tasks.rows[task].job,
                    Perform(s.tasks.rows[task], CancelPending, s.env.now).job, CancelWaiting(s, task))
  {
    ActSets(s.tasks.rows[task], CancelPending, s.env.now);
    hide Settled, Fires, Perform, Sound;
    var m, job, after := OnRow(s, task, CancelPending), s.tasks.rows[task].job, Perform(s.tasks.rows[task],
        CancelPending, s.env.now).job;
    var z := CancelWaiting(s, task);
    match job.kind {
      case Import =>
        if DatasetOf(s, job).Some? {
          ImportSettles(m, task, job, after, CancelledImport, true, z);
        } else {
          UnstagedSettles(m, task, job, after);
        }
      case ProfileJob => ProfileSettles(m, task, job, after, z.domain.datasets);
      case Transform =>
        var x := s.domain.transformations[job.transformation.value];
        ReleasedIsSteady(s, x, Ready);
        RunSettles(m, task, job, after, CancelledRun, z.domain.datasets, z);
      case Quality => EvaluationSettles(m, task, job, after, Evaluation(EvaluationCancelled, None));
      case _ => NothingSettles(m, task, job, after);
    }
  }

  /** Recovery's deletion request on the recorded output, then on the attempt's own paths. */
  lemma RecoveryReschedules(m: State, path: Path, task: nat, token: Token)
    requires path.Prepared? && Issued(path, m.env.nextId)
    ensures var z := AbandonAttemptOf(DeletionAndUnlink(m, path), task, token);
            && Rescheduled(m.storage.artifacts, z.storage.artifacts, m.storage.snapshots, m.env.nextId)
            && z == m.(storage := m.storage.(artifacts := z.storage.artifacts, doomed := m.storage.doomed + {path}))
  {
  }

  /** What recovery finds: an unfinished run whose output is still only its placeholder. */
  lemma RecoveryFinds(s: State, task: nat, token: Token)
    requires Placed(s, task) && RecoverFinalization(s, task, token) != s
    ensures var job := s.tasks.rows[task].job;
            && job.kind.Transform? && job.transformation.Some? && job.transformation.value in s.domain.transformations
            && RowFires(s, task, RecoveryAct(job, token))
    ensures var job := s.tasks.rows[task].job;
            var x := s.domain.transformations[job.transformation.value];
            && PlacedTarget(s, x.dataset) && x.outputPath.Prepared? && Issued(x.outputPath, s.env.nextId)
    ensures var job, act := s.tasks.rows[task].job, RecoveryAct(s.tasks.rows[task].job, token);
            var x := s.domain.transformations[job.transformation.value];
            RecoverFinalization(s, task, token)
            == CloseRun(AbandonAttemptOf(DeletionAndUnlink(OnRow(s, task, act), x.outputPath), task, token),
                        job.transformation.value, if act.CancelByWorker? then CancelledRun else FailedRun,
                        ReleasedHead(s.domain.datasets, x))
  {
    hide Perform, CloseRun, AbandonAttemptOf, DeletionAndUnlink, ReleasedHead, PlacedImport, EvaluationAgrees,
      PlacedDatasets;
  }

  lemma RecoverSettles(s: State, task: nat, token: Token)
    requires Placed(s, task) && RecoverFinalization(s, task, token) != s
    ensures var act := RecoveryAct(s.tasks.rows[task].job, token);
            && RowFires(s, task, act)
            && Settled(OnRow(s, task, act), task, s.tasks.rows[task].job,
                       Perform(s.tasks.rows[task], act, s.env.now).job, RecoverFinalization(s, task, token))
  {
    RecoveryFinds(s, task, token);
    var job, act := s.tasks.rows[task].job, RecoveryAct(s.tasks.rows[task].job, token);
    ActSets(s.tasks.rows[task], act, s.env.now);
    var m, after := OnRow(s, task, act), Perform(s.tasks.rows[task], act, s.env.now).job;
    var x := s.domain.transformations[job.transformation.value];
    ReleasedIsSteady(s, x, Ready);
    hide Settled, Fires, Perform, Sound, AbandonAttemptOf, DeletionAndUnlink, Steady, ReleasedHead, Rescheduled,
      RecoverFinalization, PlacedImport, EvaluationAgrees, PlacedDatasets;
    RecoveryReschedules(m, x.outputPath, task, token);
    RunSettles(m, task, job, after, if act.CancelByWorker? then CancelledRun else FailedRun,
               ReleasedHead(s.domain.datasets, x), RecoverFinalization(s, task, token));
  }

  // ---------------------------------------------------------------- the steps

  lemma FailMoves(s: State, task: nat, token: Token)
    requires Placed(s, task)
    ensures var z, act := FailJob(s, task, token), Fail(Some(token));
            z == s || (Moved(s, task, act, z) && Releases(s, z))
  {
    hide Settled, FailTarget, Moved, Releases;
    var act := Fail(Some(token));
    if RowFires(s, task, act) {
      ActSets(s.tasks.rows[task], act, s.env.now);
      hide Fires, Perform, Sound;
      FailTargetSettles(OnRow(s, task, act), task, s.tasks.rows[task].job,
                        Perform(s.tasks.rows[task], act, s.env.now).job, token);
      SettledMoves(s, task, act, FailJob(s, task, token));
    }
  }

  lemma CancelMoves(s: State, task: nat, token: Token)
    requires Placed(s, task)
    ensures var z, act := CancelRunning(s, task, token), CancelByWorker(token);
            z == s || (Moved(s, task, act, z) && Releases(s, z))
  {
    hide Settled, CancelTarget, Moved, Releases;
    var act := CancelByWorker(token);
    if RowFires(s, task, act) {
      ActSets(s.tasks.rows[task], act, s.env.now);
      hide Fires, Perform, Sound;
      CancelTargetSettles(OnRow(s, task, act), task, s.tasks.rows[task].job,
                          Perform(s.tasks.rows[task], act, s.env.now).job, token);
      SettledMoves(s, task, act, CancelRunning(s, task, token));
    }
  }

  lemma RetryMoves(s: State, task: nat, token: Token)
    requires Placed(s, task)
    ensures var z, act := RetryJob(s, task, token), Retry(token);
            z == s || (Moved(s, task, act, z) && Releases(s, z))
  {
    hide Settled, Moved, Releases;
    if RowFires(s, task, Retry(token)) && !s.tasks.rows[task].job.kind.Quality? {
      RetrySettles(s, task, token);
      hide Fires, Perform, RetryJob;
      SettledMoves(s, task, Retry(token), RetryJob(s, task, token));
    }
  }

  lemma RecoverMoves(s: State, task: nat, token: Token)
    requires Placed(s, task)
    ensures var z, act := RecoverFinalization(s, task, token), RecoveryAct(s.tasks.rows[task].job, token);
            z == s || (Moved(s, task, act, z) && Releases(s, z))
  {
    hide Settled, Moved, Releases, Fires, Perform, RecoverFinalization;
    if RecoverFinalization(s, task, token) != s {
      RecoverSettles(s, task, token);
      SettledMoves(s, task, RecoveryAct(s.tasks.rows[task].job, token), RecoverFinalization(s, task, token));
    }
  }

  lemma CancelWaitingMoves(s: State, task: nat)
    requires Placed(s, task)
    ensures var z := CancelWaiting(s, task);
            z == s || (Moved(s, task, CancelPending, z) && Releases(s, z))
  {
    if RowFires(s, task, CancelPending) {
      hide Settled, Moved, Releases;
      CancelWaitingSettles(s, task);
      hide Fires, Perform, CancelWaiting;
      SettledMoves(s, task, CancelPending, CancelWaiting(s, task));
    }
  }

  lemma RequestStopMoves(s: State, task: nat)
    requires Placed(s, task)
    ensures var z := RequestStop(s, task);
            z == s || (Moved(s, task, RequestCancellation, z) && Releases(s, z))
  {
    if RowFires(s, task, RequestCancellation) {
      ActSets(s.tasks.rows[task], RequestCancellation, s.env.now);
      RowMoves(s, task, RequestCancellation);
      hide Fires, Perform, Moved, Releases;
    }
  }

  /** A reservation that fails before staging has no record to settle. */
  lemma FailReservationMoves(s: State, task: nat)
    requires Placed(s, task)
    ensures var z := FailReservation(s, task);
            z == s || (Moved(s, task, Fail(None), z) && Releases(s, z))
  {
    if FailReservation(s, task) != s {
      ActSets(s.tasks.rows[task], Fail(None), s.env.now);
      hide Settled, Moved, Releases, Fires, Perform, Sound;
      UnstagedSettles(OnRow(s, task, Fail(None)), task, s.tasks.rows[task].job,
                      Perform(s.tasks.rows[task], Fail(None), s.env.now).job);
      SettledMoves(s, task, Fail(None), FailReservation(s, task));
    }
  }

  /** An act that finishes nothing, or a job without a domain record, moves the row alone. */
  lemma RowMoves(s: State, task: nat, act: Act)
    requires Placed(s, task) && RowFires(s, task, act) && !act.Enqueue? && !act.Start? && !act.Claim?
    requires var before, after := s.tasks.rows[task].job, Perform(s.tasks.rows[task], act, s.env.now).job;
             || (after.OccupiesCapacity() == before.OccupiesCapacity() && (before.Terminal() ==> after == before))
             || before.Unrecorded() || before.kind.ProfileJob?
    ensures Moved(s, task, act, OnRow(s, task, act)) && Releases(s, OnRow(s, task, act))
  {
    ActSets(s.tasks.rows[task], act, s.env.now);
    hide Fires, Perform, Sound;
  }

  lemma ReconcileMoves(s: State, task: nat)
    requires Placed(s, task)
    ensures var z := ReconcileJob(s, task);
            z == s || (Moved(s, task, Reconcile, z) && Releases(s, z))
  {
    if RowFires(s, task, Reconcile) {
      ActSets(s.tasks.rows[task], Reconcile, s.env.now);
      var m, job, after := OnRow(s, task, Reconcile), s.tasks.rows[task].job, Perform(s.tasks.rows[task], Reconcile,
          s.env.now).job;
      hide Settled, Moved, Releases, Fires, Perform, Sound, ReconcileTarget;
      if Unrecoverable(s.tasks.rows[task]) {
        ReconcileTargetSettles(m, task, job, after, false);
        SettledMoves(s, task, Reconcile, ReconcileJob(s, task));
      } else {
        RowMoves(s, task, Reconcile);
      }
    }
  }

  lemma ReconcileCancelledMoves(s: State, task: nat)
    requires Placed(s, task)
    ensures var z := ReconcileCancelled(s, task);
            z == s || (Moved(s, task, ReconcileCancellation, z) && Releases(s, z))
  {
    if RowFires(s, task, ReconcileCancellation) {
      ActSets(s.tasks.rows[task], ReconcileCancellation, s.env.now);
      var m, job, after := OnRow(s, task, ReconcileCancellation), s.tasks.rows[task].job, Perform(s.tasks.rows[task],
          ReconcileCancellation, s.env.now).job;
      hide Settled, Moved, Releases, Fires, Perform, Sound, ReconcileTarget;
      ReconcileTargetSettles(m, task, job, after, true);
      SettledMoves(s, task, ReconcileCancellation, ReconcileCancelled(s, task));
    }
  }

  lemma CompleteUnrecordedMoves(s: State, task: nat, token: Token)
    requires Placed(s, task)
    ensures var z := CompleteUnrecorded(s, task, token);
            z == s || (Moved(s, task, Succeed(token), z) && Releases(s, z))
  {
    if CompleteUnrecorded(s, task, token) != s {
      hide Fires, Perform, Sound, Moved, Releases;
      RowMoves(s, task, Succeed(token));
    }
  }

  lemma CompleteEvaluationMoves(s: State, task: nat, token: Token, passed: bool)
    requires Placed(s, task)
    ensures var z := CompleteEvaluation(s, task, token, passed);
            z == s || (Moved(s, task, Succeed(token), z) && Releases(s, z))
  {
    if CompleteEvaluation(s, task, token, passed) != s {
      ActSets(s.tasks.rows[task], Succeed(token), s.env.now);
      hide Fires, Perform, Sound, Moved, Releases, Settled;
      EvaluationSettles(OnRow(s, task, Succeed(token)), task, s.tasks.rows[task].job,
                        Perform(s.tasks.rows[task], Succeed(token), s.env.now).job,
                        Evaluation(Evaluated, Some(passed)));
      SettledMoves(s, task, Succeed(token), CompleteEvaluation(s, task, token, passed));
    }
  }

  lemma ClaimMoves(s: State, task: nat)
    requires Placed(s, task)
    ensures var z, act := ClaimPublication(s, task), Claim(s.env.nextId, s.env.settings.outboxClaimTtl);
            z == s || (Moved(s, task, act, z) && Releases(s, z))
  {
    var act := Claim(s.env.nextId, s.env.settings.outboxClaimTtl);
    if RowFires(s, task, act) {
      ActSets(s.tasks.rows[task], act, s.env.now);
      SteadyIsOwn(s, s.tasks.rows[task].job, s.tasks.rows[task].job, s.domain.datasets);
      hide Fires, Perform, Sound, OwnDataset, OwnImport;
    }
  }

  lemma AcknowledgeMoves(s: State, claim: nat, backoff: Option<nat>)
    requires claim in s.tasks.claims && s.tasks.claims[claim].task in s.tasks.rows ==>
        Placed(s, s.tasks.claims[claim].task)
    ensures var z := AcknowledgePublication(s, claim, backoff);
            z == s || (claim in s.tasks.claims
                       && var c := s.tasks.claims[claim];
                          Moved(s, c.task, Acknowledge(c.outboxId, c.generation, claim, backoff), z) && Releases(s, z))
  {
    hide BackoffCeiling;
    if AcknowledgePublication(s, claim, backoff) != s {
      var c := s.tasks.claims[claim];
      var act := Acknowledge(c.outboxId, c.generation, claim, backoff);
      ActSets(s.tasks.rows[c.task], act, s.env.now);
      hide Fires, Perform, Sound, Moved, Releases;
      RowMoves(s, c.task, act);
    }
  }
}
