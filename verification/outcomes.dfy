/**
 What each transaction is for, told from the tables alone: when it takes effect, and
 what it leaves. A transaction whose condition fails changes nothing.
 */
module Outcomes {
  import opened Prelude
  import opened JobService
  import opened TaskProtocol
  import opened Tables
  import opened ArtifactService
  import opened Protocol
  import opened RowFacts

  /** Only this task's row differs. */
  predicate OnlyRow(s: State, task: nat, z: State) {
    task in s.tasks.rows && task in z.tasks.rows
        && z.tasks == s.tasks.(rows := s.tasks.rows[task := z.tasks.rows[task]])
  }

  predicate WorkedBy(s: State, task: nat, token: Token) {
    && task in s.tasks.rows && s.tasks.rows[task].job.status.Started?
    && s.tasks.rows[task].job.attemptToken == Some(token) && Leased(s.tasks.rows[task].job, s.env.now)
  }

  predicate HasRoom(s: State, owner: nat) {
    |set t | t in s.tasks.rows && s.tasks.rows[t].job.owner == owner && Unfinished(s.tasks.rows[t].job)|
    < s.env.settings.maxActiveJobs
  }

  lemma RoomIsCapacity(s: State, owner: nat)
    ensures HasRoom(s, owner) <==> HasCapacity(s, owner)
  {
    assert ActiveTasks(s.tasks.rows, owner)
        == set t | t in s.tasks.rows && s.tasks.rows[t].job.owner == owner && Unfinished(s.tasks.rows[t].job);
  }

  // ---------------------------------------------------------------- admission

  /** An import is reserved exactly when its id is new and the account has room. */
  lemma ImportIsReserved(s: State, task: nat, owner: nat)
    ensures var z := Apply(s, Admit(ReserveImportStep(task, owner)));
            if task !in s.tasks.rows && HasRoom(s, owner)
            then && task in z.tasks.rows && z.tasks.rows[task].outbox.None?
                 && NewlyAdmitted(z.tasks.rows[task].job, Import, owner, None, None)
                 && z == s.(tasks := s.tasks.(rows := s.tasks.rows[task := z.tasks.rows[task]]))
            else z == s
  {
    RoomIsCapacity(s, owner);
    hide HasRoom, HasCapacity;
  }

  /** Staging attaches the file to a waiting reservation: first version, manifest, empty log, a due job. */
  lemma UploadIsStaged(s: State, task: nat, content: Bytes)
    ensures var z := Apply(s, Admit(StageUploadStep(task, content)));
            var d, path := s.env.nextId, Output(s.env.nextId + 1);
            if task in s.tasks.rows && s.tasks.rows[task].job.kind.Import? && s.tasks.rows[task].job.status.Pending?
               && s.tasks.rows[task].job.dataset.None? && s.tasks.rows[task].outbox.None?
            then && OnlyRow(s, task, z)
                 && z.tasks.rows[task].job == s.tasks.rows[task].job.(dataset := Some(d))
                 && z.tasks.rows[task].outbox.Some?
                 && NewlyEnqueued(z.tasks.rows[task].outbox.value, s.env.nextId + 2, s.env.now)
                 && z.domain == s.domain.(
                      datasets := s.domain.datasets[d := Dataset(s.tasks.rows[task].job.owner, path, Queued, 1, None,
                                                                 None,
                                                                 None, false)],
                      events := s.domain.events[d := []])
                 && z.storage == s.storage.(
                      snapshots := s.storage.snapshots[path := Snapshot(d, 1, content, Available, false, s.env.now)],
                      files := s.storage.files[path := content])
                 && d in z.intake.uploading && z.intake.uploads == s.intake.uploads[d := Upload(path, task)]
                 && z.env == s.env.(nextId := s.env.nextId + 3)
            else z == s
  {
  }

  lemma FailureEnds(row: Row, token: Option<Token>, now: Time)
    requires Fires(row, Fail(token), now)
    ensures Perform(row, Fail(token), now) == row.(job := Ended(row.job, Failure, now))
  {
  }

  predicate Active(s: State, task: nat) {
    task in s.tasks.rows && (s.tasks.rows[task].job.status.Pending? || s.tasks.rows[task].job.status.Started?)
  }

  /** An upload request that fails before staging fails its reservation. */
  lemma ReservationFails(s: State, task: nat)
    ensures var z := Apply(s, Admit(FailReservationStep(task)));
            if Active(s, task) && s.tasks.rows[task].job.kind.Import? && s.tasks.rows[task].job.dataset.None?
            then && OnlyRow(s, task, z) && z == s.(tasks := z.tasks)
                 && z.tasks.rows[task] == s.tasks.rows[task].(job := Ended(s.tasks.rows[task].job, Failure, s.env.now))
            else z == s
  {
    hide Perform;
    if RowFires(s, task, Fail(None)) { FailureEnds(s.tasks.rows[task], None, s.env.now); }
  }

  /** One that is told its commit failed fails its own job if that is active, and dooms the staged file. */
  lemma UploadIsAborted(s: State, d: nat)
    ensures var z := Apply(s, Admit(AbortUploadStep(d)));
            if d in s.intake.uploading && d in s.intake.uploads
            then && z == s.(tasks := z.tasks,
                            intake := s.intake.(uploading := s.intake.uploading - {d},
                                                aborted := s.intake.aborted + {d}),
                            storage := s.storage.(doomed := s.storage.doomed + {s.intake.uploads[d].path}))
                 && var task := s.intake.uploads[d].task;
                    if Active(s, task) && s.tasks.rows[task].job.kind.Import?
                       && s.tasks.rows[task].job.dataset == Some(d)
                    then && OnlyRow(s, task, z)
                         && z.tasks.rows[task]
                            == s.tasks.rows[task].(job := Ended(s.tasks.rows[task].job, Failure, s.env.now))
                    else z.tasks == s.tasks
            else z == s
    ensures Apply(s, Admit(AcknowledgeUploadStep(d))) == s.(intake := s.intake.(uploading := s.intake.uploading - {d}))
  {
    hide Perform;
    if d in s.intake.uploads && RowFires(s, s.intake.uploads[d].task, Fail(None)) {
      FailureEnds(s.tasks.rows[s.intake.uploads[d].task], None, s.env.now);
    }
  }

  /** When a job other than a transformation may be admitted on a dataset. */
  predicate Admissible(s: State, task: nat, d: nat, kind: Kind) {
    && task !in s.tasks.rows && d in s.domain.datasets && HasRoom(s, s.domain.datasets[d].owner)
    && var dataset := s.domain.datasets[d];
       && (dataset.status.Ready? || dataset.status.Profiled?)
       && match kind
          case ReportJob => true
          case Preview => !dataset.deleted
          case ProfileJob =>
            && !dataset.deleted && dataset.profile.None?
            && forall t | t in s.tasks.rows && s.tasks.rows[t].job.dataset == Some(d)
                          && s.tasks.rows[t].job.kind.ProfileJob? :: !Active(s, t)
          case Quality =>
            && !dataset.deleted && task !in s.domain.evaluations
            && !(dataset.storedPath in s.storage.snapshots
                 && s.storage.snapshots[dataset.storedPath].availability.Expired?)
          case _ => false
  }

  lemma JobIsAdmitted(s: State, task: nat, d: nat, kind: Kind)
    ensures var z := Apply(s, Admit(AdmitJobStep(task, d, kind)));
            if Admissible(s, task, d, kind)
            then && task in z.tasks.rows && z.tasks == s.tasks.(rows := s.tasks.rows[task := z.tasks.rows[task]])
                 && NewlyAdmitted(z.tasks.rows[task].job, kind, s.domain.datasets[d].owner, Some(d), None)
                 && z.tasks.rows[task].outbox.Some?
                 && NewlyEnqueued(z.tasks.rows[task].outbox.value, s.env.nextId, s.env.now)
                 && z.domain == s.domain.(
                      datasets := if kind == ProfileJob
                                  then s.domain.datasets[d := s.domain.datasets[d].(status := Profiling)]
                                  else s.domain.datasets,
                      evaluations := if kind == Quality
                                     then s.domain.evaluations[task := Evaluation(EvaluationPending, None)]
                                     else s.domain.evaluations)
                 && z.storage == s.storage && z.intake == s.intake && z.env == s.env.(nextId := s.env.nextId + 1)
            else z == s
  {
    AdmissibleIsAllowed(s, task, d, kind);
    hide Admissible, MayAdmit;
  }

  lemma AdmissibleIsAllowed(s: State, task: nat, d: nat, kind: Kind)
    ensures Admissible(s, task, d, kind) <==> MayAdmit(s, task, d, kind)
    ensures MayAdmit(s, task, d, kind) ==> d in s.domain.datasets && kind != Transform
  {
    if d in s.domain.datasets { RoomIsCapacity(s, s.domain.datasets[d].owner); }
    hide HasRoom, HasCapacity;
  }

  /** When a transformation may be admitted: a ready dataset of the user, at the revision shown, with a new key. */
  predicate Transformable(s: State, task: nat, d: nat, user: nat, version: nat, key: nat) {
    && task !in s.tasks.rows && d in s.domain.datasets && HasRoom(s, user)
    && (forall x | x in s.domain.transformations ::
          && s.domain.transformations[x].task != task
          && !(s.domain.transformations[x].dataset == d && s.domain.transformations[x].user == user
               && s.domain.transformations[x].idempotencyKey == key))
    && var dataset := s.domain.datasets[d];
       && !dataset.deleted && dataset.owner == user && dataset.version == version
       && (dataset.status.Ready? || dataset.status.Profiled?)
  }

  lemma TransformationIsAdmitted(s: State, task: nat, d: nat, user: nat, version: nat, key: nat, operation: int)
    ensures var z := Apply(s, Admit(AdmitTransformationStep(task, d, user, version, key, operation)));
            var x := s.env.nextId;
            if Transformable(s, task, d, user, version, key)
            then && task in z.tasks.rows && z.tasks == s.tasks.(rows := s.tasks.rows[task := z.tasks.rows[task]])
                 && NewlyAdmitted(z.tasks.rows[task].job, Transform, user, Some(d), Some(x))
                 && z.tasks.rows[task].outbox.Some?
                 && NewlyEnqueued(z.tasks.rows[task].outbox.value, s.env.nextId + 1, s.env.now)
                 && x in z.domain.transformations
                 && z.domain == s.domain.(
                      datasets := s.domain.datasets[d := s.domain.datasets[d].(status := Transforming)],
                      transformations := s.domain.transformations[x := z.domain.transformations[x]])
                 && (var record := z.domain.transformations[x];
                     && record.dataset == d && record.user == user && record.operation == operation
                     && record.idempotencyKey == key && record.expectedVersion == version && record.task == task
                     && record.status.Admitted? && record.inputPath == s.domain.datasets[d].storedPath
                     && record.outputPath == Prepared(s.env.nextId + 2)
                     && var dataset := s.domain.datasets[d];
                        && record.beforeRows == record.afterRows
                           == (if dataset.rowCount.Some? then dataset.rowCount.value else 0)
                        && record.beforeColumns == record.afterColumns
                           == (if dataset.columnCount.Some? then dataset.columnCount.value else 0))
                 && z.storage == s.storage && z.intake == s.intake && z.env == s.env.(nextId := s.env.nextId + 3)
            else z == s
  {
    RoomIsCapacity(s, user);
    hide HasRoom, HasCapacity;
    KeysAndTasks(s.domain.transformations, task, d, user, key);
    hide KeyUsed, TaskUsed;
  }

  lemma KeysAndTasks(transformations: map<nat, Transformation>, task: nat, d: nat, user: nat, key: nat)
    ensures !KeyUsed(transformations, d, user, key) && !TaskUsed(transformations, task) <==>
            forall x | x in transformations ::
              && transformations[x].task != task
              && !(transformations[x].dataset == d && transformations[x].user == user
                   && transformations[x].idempotencyKey == key)
  {
  }

  // ---------------------------------------------------------------- attempts that succeed

  lemma SuccessEnds(row: Row, token: Token, now: Time)
    requires Fires(row, Succeed(token), now)
    ensures Perform(row, Succeed(token), now) == row.(job := Ended(row.job, Success, now).(progress := 100))
  {
  }

  predicate Succeeded(s: State, task: nat, z: State) {
    && OnlyRow(s, task, z)
    && z.tasks.rows[task]
        == s.tasks.rows[task].(job := Ended(s.tasks.rows[task].job, Success, s.env.now).(progress := 100))
  }

  lemma WorkingMaySucceed(s: State, task: nat, token: Token)
    ensures RowFires(s, task, Succeed(token)) <==> WorkedBy(s, task, token)
    ensures WorkedBy(s, task, token) ==> Succeeded(s, task, OnRow(s, task, Succeed(token)))
  {
    hide Perform;
    if RowFires(s, task, Succeed(token)) { SuccessEnds(s.tasks.rows[task], token, s.env.now); }
  }

  /** An import ends with its dataset READY at the size of the staged file. */
  lemma ImportCompletes(s: State, task: nat, token: Token)
    ensures var z := Apply(s, Work(CompleteImportStep(task, token)));
            if WorkedBy(s, task, token) && s.tasks.rows[task].job.kind.Import? && s.tasks.rows[task].job.dataset.Some?
               && s.tasks.rows[task].job.dataset.value in s.domain.datasets
               && s.domain.datasets[s.tasks.rows[task].job.dataset.value].storedPath in s.storage.snapshots
            then && Succeeded(s, task, z)
                 && var d := s.tasks.rows[task].job.dataset.value;
                    var staged := s.storage.snapshots[s.domain.datasets[d].storedPath].digest;
                    && z == s.(tasks := z.tasks, domain := s.domain.(
                               datasets := s.domain.datasets[d := s.domain.datasets[d].(
                                 status := Ready, rowCount := Some(staged.rows), columnCount := Some(staged.columns))]))
            else z == s
  {
    WorkingMaySucceed(s, task, token);
    hide Fires, Perform, WorkedBy;
  }

  /** A preview or report ends its job alone; an evaluation ends with its evidence, in one commit. */
  lemma WorkCompletes(s: State, task: nat, token: Token, passed: bool)
    ensures var z := Apply(s, Work(CompleteUnrecordedStep(task, token)));
            if WorkedBy(s, task, token)
               && (s.tasks.rows[task].job.kind.Preview? || s.tasks.rows[task].job.kind.ReportJob?)
            then Succeeded(s, task, z) && z == s.(tasks := z.tasks)
            else z == s
    ensures var z := Apply(s, Work(CompleteEvaluationStep(task, token, passed)));
            if WorkedBy(s, task, token) && s.tasks.rows[task].job.kind.Quality? && task in s.domain.evaluations
            then && Succeeded(s, task, z)
                 && z == s.(tasks := z.tasks, domain := s.domain.(
                            evaluations := s.domain.evaluations[task := Evaluation(Evaluated, Some(passed))]))
            else z == s
  {
    WorkingMaySucceed(s, task, token);
    hide Fires, Perform, WorkedBy;
  }

  // ---------------------------------------------------------------- attempts that begin

  lemma StartTakes(row: Row, token: Token, seconds: int, progress: int, now: Time)
    ensures Fires(row, Start(token, seconds, progress), now) <==>
            row.job.attemptCount < row.job.maxAttempts
            && (row.job.status.Pending? || (row.job.status.Started? && !Leased(row.job, now)))
    ensures Fires(row, Start(token, seconds, progress), now) ==>
              Perform(row, Start(token, seconds, progress), now)
              == row.(job := row.job.(status := Started, progress := progress, attemptToken := Some(token),
                                      attemptCount := row.job.attemptCount + 1,
                                      leaseExpiresAt := Some(now + Max(1, seconds))))
  {
  }

  /** A worker acquires a job under a token nobody ever held; an evaluation is marked running with it. */
  lemma AttemptStarts(s: State, task: nat, seconds: int, progress: int)
    ensures var z := Apply(s, Work(StartStep(task, seconds, progress)));
            if && task in s.tasks.rows
               && var job := s.tasks.rows[task].job;
                  && job.attemptCount < job.maxAttempts
                  && (job.status.Pending? || (job.status.Started? && !Leased(job, s.env.now)))
                  && (job.kind.Quality? ==> task in s.domain.evaluations && job.dataset.Some?
                                            && job.dataset.value in s.domain.datasets)
            then && OnlyRow(s, task, z)
                 && z.tasks.rows[task]
                    == s.tasks.rows[task].(job := s.tasks.rows[task].job.(
                         status := Started, progress := progress, attemptToken := Some(s.env.nextId),
                         attemptCount := s.tasks.rows[task].job.attemptCount + 1,
                         leaseExpiresAt := Some(s.env.now + Max(1, seconds))))
                 && z == s.(tasks := z.tasks, env := s.env.(nextId := s.env.nextId + 1), domain := s.domain.(
                            evaluations := if s.tasks.rows[task].job.kind.Quality?
                                           then s.domain.evaluations[task := s.domain.evaluations[task].(
                                                  status := Running)]
                                           else s.domain.evaluations))
            else z == s
  {
    if task in s.tasks.rows { StartTakes(s.tasks.rows[task], s.env.nextId, seconds, progress, s.env.now); }
    hide Fires, Perform;
  }

  lemma RenewalKeeps(row: Row, token: Token, seconds: int, report: Option<int>, now: Time)
    ensures Fires(row, Renew(token, seconds, report), now) <==>
            row.job.status.Started? && row.job.attemptToken == Some(token) && Leased(row.job, now)
    ensures Fires(row, Renew(token, seconds, report), now) ==>
              Perform(row, Renew(token, seconds, report), now)
              == row.(job := row.job.(leaseExpiresAt := Some(now + Max(1, seconds)),
                                      progress := if report.Some? then report.value else row.job.progress))
  {
  }

  predicate LeaseRenewed(s: State, task: nat, seconds: int, report: Option<int>, z: State) {
    && OnlyRow(s, task, z)
    && z.tasks.rows[task] == s.tasks.rows[task].(job := s.tasks.rows[task].job.(
         leaseExpiresAt := Some(s.env.now + Max(1, seconds)),
         progress := if report.Some? then report.value else s.tasks.rows[task].job.progress))
  }

  /** A heartbeat, and the beginning of an import. */
  lemma AttemptIsRenewed(s: State, task: nat, token: Token, seconds: int, report: Option<int>)
    ensures var z := Apply(s, Work(RenewStep(task, token, seconds, report)));
            if WorkedBy(s, task, token) then LeaseRenewed(s, task, seconds, report, z) && z == s.(tasks := z.tasks)
            else z == s
    ensures var z := Apply(s, Work(BeginImportStep(task, token)));
            if && WorkedBy(s, task, token) && s.tasks.rows[task].job.kind.Import?
               && s.tasks.rows[task].job.dataset.Some? && s.tasks.rows[task].job.dataset.value in s.domain.datasets
               && !s.domain.datasets[s.tasks.rows[task].job.dataset.value].status.Ready?
            then && LeaseRenewed(s, task, 360, Some(25), z)
                 && var d := s.tasks.rows[task].job.dataset.value;
                    z == s.(tasks := z.tasks, domain := s.domain.(
                            datasets := s.domain.datasets[d := s.domain.datasets[d].(status := Processing)]))
            else z == s
  {
    if task in s.tasks.rows {
      RenewalKeeps(s.tasks.rows[task], token, seconds, report, s.env.now);
      RenewalKeeps(s.tasks.rows[task], token, JOB_LEASE_SECONDS, Some(25), s.env.now);
    }
    hide Fires, Perform;
  }

  /** Profiling captures the head it will read, or ends at once when the profile is already there. */
  lemma ProfilingBegins(s: State, task: nat, token: Token)
    ensures var z := Apply(s, Profiles(BeginProfileStep(task, token)));
            if WorkedBy(s, task, token) && s.tasks.rows[task].job.kind.ProfileJob?
                && s.tasks.rows[task].job.dataset.Some?
               && s.tasks.rows[task].job.dataset.value in s.domain.datasets
               && !s.domain.datasets[s.tasks.rows[task].job.dataset.value].deleted
            then var d := s.tasks.rows[task].job.dataset.value;
                 var dataset := s.domain.datasets[d];
                 if dataset.profile.Some? then Succeeded(s, task, z) && z == s.(tasks := z.tasks)
                 else if dataset.status.Profiling? || dataset.status.Ready? || dataset.status.Profiled?
                 then && LeaseRenewed(s, task, 360, Some(15), z)
                      && z == s.(tasks := z.tasks, domain := s.domain.(
                                 datasets := s.domain.datasets[d := dataset.(status := Profiling)],
                                 profilers := s.domain.profilers[token := Profiler(d, dataset.version,
                                     dataset.storedPath,
                                                                                   None)]))
                 else z == s
            else z == s
  {
    WorkingMaySucceed(s, task, token);
    if task in s.tasks.rows { RenewalKeeps(s.tasks.rows[task], token, JOB_LEASE_SECONDS, Some(15), s.env.now); }
    hide Fires, Perform;
  }

  /** The profile is that of the captured file, and is stored only if that file is still the head being profiled. */
  lemma ProfileIsStored(s: State, task: nat, token: Token)
    ensures var z := Apply(s, Profiles(ComputeProfileStep(token)));
            if token in s.domain.profilers && s.domain.profilers[token].path in s.storage.files
            then z == s.(domain := s.domain.(profilers := s.domain.profilers[token := s.domain.profilers[token].(
                         result := Some(Profile(s.storage.files[s.domain.profilers[token].path])))]))
            else z == s
    ensures var z := Apply(s, Profiles(PublishProfileStep(task, token)));
            if && WorkedBy(s, task, token) && s.tasks.rows[task].job.kind.ProfileJob? && token in s.domain.profilers
               && var p := s.domain.profilers[token];
                  && p.result.Some? && s.tasks.rows[task].job.dataset == Some(p.dataset)
                      && p.dataset in s.domain.datasets
                  && var head := s.domain.datasets[p.dataset];
                     && !head.deleted && head.version == p.version && head.storedPath == p.path
                         && head.status.Profiling?
            then && Succeeded(s, task, z)
                 && var p := s.domain.profilers[token];
                    z == s.(tasks := z.tasks, domain := s.domain.(
                            datasets := s.domain.datasets[p.dataset := s.domain.datasets[p.dataset].(
                              profile := p.result, status := Profiled)]))
            else z == s
  {
    WorkingMaySucceed(s, task, token);
    hide Fires, Perform, WorkedBy;
  }

  // ---------------------------------------------------------------- attempts that are given back or given up

  lemma RetryGivesBack(row: Row, token: Token, now: Time)
    ensures Fires(row, Retry(token), now) <==>
            row.outbox.Some? && row.job.status.Started? && row.job.attemptToken == Some(token) && Leased(row.job, now)
            && row.job.attemptCount < row.job.maxAttempts
    ensures Fires(row, Retry(token), now) ==>
              var after := Perform(row, Retry(token), now);
              after.job == GivenBack(row.job) && after.outbox.Some?
              && StartsOver(row.outbox.value, after.outbox.value, now)
  {
  }

  predicate WaitsAgain(s: State, task: nat, z: State) {
    && OnlyRow(s, task, z) && s.tasks.rows[task].outbox.Some? && z.tasks.rows[task].outbox.Some?
    && z.tasks.rows[task].job == GivenBack(s.tasks.rows[task].job)
    && StartsOver(s.tasks.rows[task].outbox.value, z.tasks.rows[task].outbox.value, s.env.now)
  }

  /** The head that a transformation was admitted on, at the revision it saw. */
  predicate AtItsRevision(s: State, x: Transformation) {
    x.dataset in s.domain.datasets && s.domain.datasets[x.dataset].version == x.expectedVersion
  }

  function DatasetStatusSet(s: State, d: nat, status: DatasetStatus): map<nat, Dataset>
    requires d in s.domain.datasets
  {
    s.domain.datasets[d := s.domain.datasets[d].(status := status)]
  }

  /** Datasets after a profiling attempt gives up: READY again, if it still profiles the head it captured. */
  function UnprofiledBy(s: State, token: Token): map<nat, Dataset> {
    if token !in s.domain.profilers then s.domain.datasets
    else
      var p := s.domain.profilers[token];
      if p.dataset in s.domain.datasets
         && var head := s.domain.datasets[p.dataset];
            head.version == p.version && head.storedPath == p.path && head.status.Profiling? && !head.deleted
      then DatasetStatusSet(s, p.dataset, Ready)
      else s.domain.datasets
  }

  /** The paths of this attempt that were never published, and now wait for the collector. */
  predicate AttemptAbandoned(was: map<Path, Artifact>, artifacts: map<Path, Artifact>, task: nat, token: Token,
                             now: Time) {
    && artifacts.Keys == was.Keys
    && forall p | p in was ::
         artifacts[p] == if was[p].task == Some(task) && was[p].attemptToken == Some(token) && was[p].state.Reserved?
                         then was[p].(deletionRequestedAt := Some(now)) else was[p]
  }

  /** The collector has been asked for the path; a path without a row gets one that is already up. */
  predicate DeletionAsked(was: map<Path, Artifact>, artifacts: map<Path, Artifact>, path: Path, owner: Option<nat>,
                          now: Time) {
    && artifacts.Keys == was.Keys + {path}
    && (forall p | p in was && p != path :: artifacts[p] == was[p])
    && artifacts[path] == if path in was then was[path].(deletionRequestedAt := Some(now))
                          else Artifact(owner, None, None, None, Reserved, Some(now), Some(now))
  }

  /** A retried attempt requeues its job and publication, and puts its record back to where admission left it. */
  lemma AttemptIsRetried(s: State, task: nat, token: Token)
    ensures var z := Apply(s, Work(RetryStep(task, token)));
            if WorkedBy(s, task, token) && s.tasks.rows[task].outbox.Some? && !s.tasks.rows[task].job.kind.Quality?
               && s.tasks.rows[task].job.attemptCount < s.tasks.rows[task].job.maxAttempts
            then && WaitsAgain(s, task, z) && z.storage == s.storage && z.intake == s.intake && z.env == s.env
                 && var job := s.tasks.rows[task].job;
                    match job.kind
                    case Import =>
                      z.domain == if job.dataset.Some? && job.dataset.value in s.domain.datasets
                                  then s.domain.(datasets := DatasetStatusSet(s, job.dataset.value, Queued))
                                      else s.domain
                    case ProfileJob => z.domain == s.domain.(datasets := UnprofiledBy(s, token))
                    case Transform =>
                      z.domain == if job.transformation.Some? && job.transformation.value in s.domain.transformations
                                  then var x := job.transformation.value;
                                       var record := s.domain.transformations[x];
                                       s.domain.(
                                         transformations := s.domain.transformations[x := record.(status := Admitted)],
                                         datasets := if AtItsRevision(s, record)
                                                     then DatasetStatusSet(s, record.dataset, Transforming)
                                                     else s.domain.datasets)
                                  else s.domain
                    case _ => z.domain == s.domain
            else z == s
  {
    if task in s.tasks.rows { RetryGivesBack(s.tasks.rows[task], token, s.env.now); }
    hide Fires, Perform, GivenBack, StartsOver;
  }

  predicate EndedAs(s: State, task: nat, status: Status, z: State) {
    && OnlyRow(s, task, z)
    && z.tasks.rows[task] == s.tasks.rows[task].(job := Ended(s.tasks.rows[task].job, status, s.env.now))
  }

  lemma WorkerFails(s: State, task: nat, token: Token)
    ensures RowFires(s, task, Fail(Some(token))) <==>
            Active(s, task) && s.tasks.rows[task].job.attemptToken == Some(token)
            && Leased(s.tasks.rows[task].job, s.env.now)
    ensures RowFires(s, task, Fail(Some(token))) ==> EndedAs(s, task, Failure, OnRow(s, task, Fail(Some(token))))
  {
    hide Perform;
    if RowFires(s, task, Fail(Some(token))) { FailureEnds(s.tasks.rows[task], Some(token), s.env.now); }
  }

  lemma AbandoningMarks(was: map<Path, Artifact>, task: nat, token: Token, now: Time)
    ensures AttemptAbandoned(was, AbandonAttempt(was, task, token, now), task, token, now)
  {
  }

  lemma SchedulingAsks(was: map<Path, Artifact>, path: Path, owner: Option<nat>, now: Time)
    ensures DeletionAsked(was, ScheduleDelete(was, path, owner, now), path, owner, now)
  {
  }

  /** What a worker's failure leaves of the record its job was about. */
  ghost predicate FailedRecord(s: State, job: Job, task: nat, token: Token, z: State) {
    match job.kind
    case Import =>
      if job.dataset.Some? && job.dataset.value in s.domain.datasets
      then var path := s.domain.datasets[job.dataset.value].storedPath;
           && z.domain == s.domain.(datasets := DatasetStatusSet(s, job.dataset.value, FailedImport))
           && DeletionAsked(s.storage.artifacts, z.storage.artifacts, path, None, s.env.now)
           && z.storage == s.storage.(artifacts := z.storage.artifacts, doomed := s.storage.doomed + {path})
      else z.domain == s.domain && z.storage == s.storage
    case ProfileJob => z.domain == s.domain.(datasets := UnprofiledBy(s, token)) && z.storage == s.storage
    case Transform =>
      if job.transformation.Some? && job.transformation.value in s.domain.transformations
         && var status := s.domain.transformations[job.transformation.value].status;
            !status.Completed? && !status.Undone?
      then var x := job.transformation.value;
           var record := s.domain.transformations[x];
           && z.domain == s.domain.(
                transformations := s.domain.transformations[x := record.(status := FailedRun)],
                datasets := if AtItsRevision(s, record)
                               && s.domain.datasets[record.dataset].storedPath == record.inputPath
                            then DatasetStatusSet(s, record.dataset, Ready) else s.domain.datasets)
           && AttemptAbandoned(s.storage.artifacts, z.storage.artifacts, task, token, s.env.now)
           && z.storage == s.storage.(artifacts := z.storage.artifacts)
      else z.domain == s.domain && z.storage == s.storage
    case Quality =>
      && z.storage == s.storage
      && z.domain == if task in s.domain.evaluations && s.domain.evaluations[task].Open()
                     then s.domain.(evaluations := s.domain.evaluations[task := Evaluation(EvaluationError, None)])
                     else s.domain
    case _ => z.domain == s.domain && z.storage == s.storage
  }

  lemma FailTargetLeaves(m: State, s: State, job: Job, task: nat, token: Token)
    requires m.domain == s.domain && m.storage == s.storage && m.env == s.env
    ensures var z := FailTarget(m, job, task, token);
            FailedRecord(s, job, task, token, z) && z.tasks == m.tasks && z.env == m.env && z.intake == m.intake
  {
    AbandoningMarks(s.storage.artifacts, task, token, s.env.now);
    if job.kind.Import? && DatasetOf(s, job).Some? {
      SchedulingAsks(s.storage.artifacts, s.domain.datasets[job.dataset.value].storedPath, None, s.env.now);
    }
    hide AttemptAbandoned, DeletionAsked, AbandonAttempt, ScheduleDelete;
  }

  /** A failed attempt: its job, and the record the job was about, in one commit. */
  lemma AttemptFails(s: State, task: nat, token: Token)
    ensures var z := Apply(s, Work(FailStep(task, token)));
            if Active(s, task) && s.tasks.rows[task].job.attemptToken == Some(token)
               && Leased(s.tasks.rows[task].job, s.env.now)
            then EndedAs(s, task, Failure, z) && FailedRecord(s, s.tasks.rows[task].job, task, token, z)
                 && z.env == s.env && z.intake == s.intake
            else z == s
  {
    WorkerFails(s, task, token);
    hide Fires, Perform, FailedRecord, FailTarget;
    if RowFires(s, task, Fail(Some(token))) {
      FailTargetLeaves(OnRow(s, task, Fail(Some(token))), s, s.tasks.rows[task].job, task, token);
    }
  }

  lemma WorkerCancels(s: State, task: nat, token: Token)
    ensures RowFires(s, task, CancelByWorker(token)) <==>
            && task in s.tasks.rows
            && var job := s.tasks.rows[task].job;
               !job.status.Success? && !job.status.Failure? && job.attemptToken == Some(token) && Leased(job, s.env.now)
    ensures RowFires(s, task, CancelByWorker(token)) ==>
        EndedAs(s, task, Cancelled, OnRow(s, task, CancelByWorker(token)))
  {
  }

  /** What a worker that obeys a cancellation leaves of the record. */
  ghost predicate CancelledRecord(s: State, job: Job, task: nat, token: Token, z: State) {
    match job.kind
    case Import =>
      if job.dataset.Some? && job.dataset.value in s.domain.datasets
         && var status := s.domain.datasets[job.dataset.value].status;
            !status.Ready? && !status.Profiled?
      then var d := job.dataset.value;
           var path := s.domain.datasets[d].storedPath;
           && z.domain == s.domain.(datasets := s.domain.datasets[d := s.domain.datasets[d].(
                                      status := CancelledImport, deleted := true)])
           && DeletionAsked(s.storage.artifacts, z.storage.artifacts, path, None, s.env.now)
           && z.storage == s.storage.(artifacts := z.storage.artifacts, doomed := s.storage.doomed + {path})
      else z.domain == s.domain && z.storage == s.storage
    case ProfileJob => z.domain == s.domain.(datasets := UnprofiledBy(s, token)) && z.storage == s.storage
    case Transform =>
      if job.transformation.Some? && job.transformation.value in s.domain.transformations
      then var x := job.transformation.value;
           var record := s.domain.transformations[x];
           && z.domain == s.domain.(
                transformations := s.domain.transformations[x := record.(status := CancelledRun)],
                datasets := if AtItsRevision(s, record) then DatasetStatusSet(s, record.dataset, Ready)
                            else s.domain.datasets)
           && DeletionAsked(s.storage.artifacts, z.storage.artifacts, record.outputPath, None, s.env.now)
           && z.storage == s.storage.(artifacts := z.storage.artifacts,
                                      doomed := s.storage.doomed + {record.outputPath})
      else z.domain == s.domain && z.storage == s.storage
    case Quality =>
      && z.storage == s.storage
      && z.domain == if task in s.domain.evaluations && s.domain.evaluations[task].Open()
                     then s.domain.(evaluations := s.domain.evaluations[task := Evaluation(EvaluationCancelled, None)])
                     else s.domain
    case _ => z.domain == s.domain && z.storage == s.storage
  }

  lemma CancelTargetLeaves(m: State, s: State, job: Job, task: nat, token: Token)
    requires m.domain == s.domain && m.storage == s.storage && m.env == s.env
    ensures var z := CancelTarget(m, job, task, token);
            CancelledRecord(s, job, task, token, z) && z.tasks == m.tasks && z.env == m.env && z.intake == m.intake
  {
    if job.kind.Import? && DatasetOf(s, job).Some? {
      SchedulingAsks(s.storage.artifacts, s.domain.datasets[job.dataset.value].storedPath, None, s.env.now);
    }
    if job.kind.Transform? && TransformationOf(s, job).Some? {
      SchedulingAsks(s.storage.artifacts, s.domain.transformations[job.transformation.value].outputPath, None,
                     s.env.now);
    }
    hide DeletionAsked, ScheduleDelete;
  }

  /** A worker obeys a cancellation: its job, and the record the job was about, in one commit. */
  lemma AttemptIsCancelled(s: State, task: nat, token: Token)
    ensures var z := Apply(s, Work(CancelStep(task, token)));
            if && task in s.tasks.rows
               && var job := s.tasks.rows[task].job;
                  !job.status.Success? && !job.status.Failure? && job.attemptToken == Some(token)
                      && Leased(job, s.env.now)
            then EndedAs(s, task, Cancelled, z) && CancelledRecord(s, s.tasks.rows[task].job, task, token, z)
                 && z.env == s.env && z.intake == s.intake
            else z == s
  {
    WorkerCancels(s, task, token);
    hide Fires, Perform, CancelledRecord, CancelTarget;
    if RowFires(s, task, CancelByWorker(token)) {
      CancelTargetLeaves(OnRow(s, task, CancelByWorker(token)), s, s.tasks.rows[task].job, task, token);
    }
  }

  // ---------------------------------------------------------------- recovery and cancellation by others

  function Intent(row: Row): Option<Outbox> {
    if row.outbox.None? || row.outbox.value.status.Withdrawn? then row.outbox
    else Some(row.outbox.value.(status := Withdrawn, claimToken := None, claimedAt := None))
  }

  /** The job ended and its publication, if it has one, was withdrawn. */
  predicate EndedAndSilenced(s: State, task: nat, status: Status, z: State) {
    && OnlyRow(s, task, z)
    && z.tasks.rows[task] == Row(Ended(s.tasks.rows[task].job, status, s.env.now), Intent(s.tasks.rows[task]))
  }

  /** Its attempt's lease ran out, its delivery was never taken up, or its budget is spent. */
  predicate Lost(row: Row, now: Time) {
    || (row.job.status.Started? && !Leased(row.job, now))
    || (row.job.status.Pending? && row.job.attemptCount >= row.job.maxAttempts)
    || (row.job.status.Pending? && row.outbox.Some? && row.outbox.value.status.Published?
        && row.outbox.value.publishedAt.Some?
        && now - row.outbox.value.publishedAt.value >= 120)
  }

  /** No attempt is left, or nothing can be published again. */
  predicate Hopeless(row: Row) {
    row.job.attemptCount >= row.job.maxAttempts || row.outbox.None? || row.outbox.value.status.Withdrawn?
  }

  lemma RecoveryDecides(row: Row, now: Time)
    ensures Fires(row, Reconcile, now) <==> Lost(row, now)
    ensures Unrecoverable(row) <==> Hopeless(row)
    ensures Lost(row, now) && Hopeless(row) ==>
              Perform(row, Reconcile, now) == Row(Ended(row.job, Failure, now), Intent(row))
    ensures Lost(row, now) && !Hopeless(row) ==>
              var after := Perform(row, Reconcile, now);
              after.job == GivenBack(row.job) && after.outbox.Some?
              && StartsOver(row.outbox.value, after.outbox.value, now)
  {
  }

  /** What maintenance leaves of the record of a job it ends. */
  ghost predicate SettledRecord(s: State, job: Job, task: nat, cancelled: bool, z: State) {
    match job.kind
    case Import =>
      if job.dataset.Some? && job.dataset.value in s.domain.datasets
      then var d := job.dataset.value;
           var dataset := s.domain.datasets[d];
           && z.domain == s.domain.(datasets := s.domain.datasets[d := dataset.(
                                      status := if cancelled then CancelledImport else FailedImport,
                                      deleted := dataset.deleted || cancelled)])
           && DeletionAsked(s.storage.artifacts, z.storage.artifacts, dataset.storedPath, None, s.env.now)
           && z.storage == s.storage.(artifacts := z.storage.artifacts)
      else z.domain == s.domain && z.storage == s.storage
    case ProfileJob =>
      && z.storage == s.storage
      && z.domain == if job.dataset.Some? && job.dataset.value in s.domain.datasets
                        && s.domain.datasets[job.dataset.value].status.Profiling?
                     then s.domain.(datasets := DatasetStatusSet(s, job.dataset.value, Ready)) else s.domain
    case Transform =>
      && z.storage == s.storage
      && z.domain == if job.transformation.Some? && job.transformation.value in s.domain.transformations
                        && var status := s.domain.transformations[job.transformation.value].status;
                           !status.Completed? && !status.Undone?
                     then var x := job.transformation.value;
                          var record := s.domain.transformations[x];
                          s.domain.(
                            transformations := s.domain.transformations[x := record.(
                              status := if cancelled then CancelledRun else FailedRun)],
                            datasets := if AtItsRevision(s, record) then DatasetStatusSet(s, record.dataset, Ready)
                                        else s.domain.datasets)
                     else s.domain
    case Quality =>
      && z.storage == s.storage
      && z.domain == if task in s.domain.evaluations && s.domain.evaluations[task].Open()
                     then s.domain.(evaluations := s.domain.evaluations[task := Evaluation(
                            if cancelled then EvaluationCancelled else EvaluationError, None)])
                     else s.domain
    case _ => z.domain == s.domain && z.storage == s.storage
  }

  lemma ReconcileTargetLeaves(m: State, s: State, job: Job, task: nat, cancelled: bool)
    requires m.domain == s.domain && m.storage == s.storage && m.env == s.env
    ensures var z := ReconcileTarget(m, job, task, cancelled);
            SettledRecord(s, job, task, cancelled, z) && z.tasks == m.tasks && z.env == m.env && z.intake == m.intake
  {
    if job.kind.Import? && DatasetOf(s, job).Some? {
      SchedulingAsks(s.storage.artifacts, s.domain.datasets[job.dataset.value].storedPath, None, s.env.now);
    }
    hide DeletionAsked, ScheduleDelete;
  }

  /** Recovery of one job: requeued with its publication, or ended as failed with its record. */
  lemma JobIsRecovered(s: State, task: nat)
    ensures var z := Apply(s, Deliver(ReconcileStep(task)));
            if task !in s.tasks.rows || !Lost(s.tasks.rows[task], s.env.now) then z == s
            else if Hopeless(s.tasks.rows[task])
            then EndedAndSilenced(s, task, Failure, z) && SettledRecord(s, s.tasks.rows[task].job, task, false, z)
                 && z.env == s.env && z.intake == s.intake
            else WaitsAgain(s, task, z) && z == s.(tasks := z.tasks)
  {
    if task in s.tasks.rows {
      RecoveryDecides(s.tasks.rows[task], s.env.now);
      if RowFires(s, task, Reconcile) {
        ReconcileTargetLeaves(OnRow(s, task, Reconcile), s, s.tasks.rows[task].job, task, false);
      }
    }
    hide Fires, Perform, Unrecoverable, Lost, SettledRecord, ReconcileTarget, GivenBack, StartsOver;
  }

  lemma CancellationEnds(row: Row, now: Time)
    ensures Fires(row, ReconcileCancellation, now) <==> row.job.status.CancellationRequested? && !Leased(row.job, now)
    ensures Fires(row, ReconcileCancellation, now) ==>
              Perform(row, ReconcileCancellation, now) == Row(Ended(row.job, Cancelled, now), Intent(row))
    ensures Fires(row, CancelPending, now) <==> row.job.status.Pending?
    ensures Fires(row, CancelPending, now) ==>
              Perform(row, CancelPending, now) == Row(Ended(row.job, Cancelled, now), Intent(row))
  {
  }

  /** A requested cancellation that no live worker will see is completed, with its record. */
  lemma CancellationIsCompleted(s: State, task: nat)
    ensures var z := Apply(s, Deliver(ReconcileCancelledStep(task)));
            if task in s.tasks.rows && s.tasks.rows[task].job.status.CancellationRequested?
               && !Leased(s.tasks.rows[task].job, s.env.now)
            then EndedAndSilenced(s, task, Cancelled, z) && SettledRecord(s, s.tasks.rows[task].job, task, true, z)
                 && z.env == s.env && z.intake == s.intake
            else z == s
  {
    if task in s.tasks.rows {
      CancellationEnds(s.tasks.rows[task], s.env.now);
      if RowFires(s, task, ReconcileCancellation) {
        ReconcileTargetLeaves(OnRow(s, task, ReconcileCancellation), s, s.tasks.rows[task].job, task, true);
      }
    }
    hide Fires, Perform, SettledRecord, ReconcileTarget;
  }

  /** What withdrawing a job that no worker took leaves of its record. */
  ghost predicate WithdrawnRecord(s: State, job: Job, task: nat, z: State) {
    match job.kind
    case Import =>
      if job.dataset.Some? && job.dataset.value in s.domain.datasets
      then var d := job.dataset.value;
           && z.domain == s.domain.(datasets := s.domain.datasets[d := s.domain.datasets[d].(
                                      status := CancelledImport, deleted := true)])
           && z.storage == s.storage.(doomed := s.storage.doomed + {s.domain.datasets[d].storedPath})
      else z.domain == s.domain && z.storage == s.storage
    case ProfileJob =>
      && z.storage == s.storage
      && z.domain == if job.dataset.Some? && job.dataset.value in s.domain.datasets
                     then s.domain.(datasets := DatasetStatusSet(s, job.dataset.value, Ready)) else s.domain
    case Transform =>
      && z.storage == s.storage
      && z.domain == if job.transformation.Some? && job.transformation.value in s.domain.transformations
                     then var x := job.transformation.value;
                          var record := s.domain.transformations[x];
                          s.domain.(
                            transformations := s.domain.transformations[x := record.(status := CancelledRun)],
                            datasets := if AtItsRevision(s, record) then DatasetStatusSet(s, record.dataset, Ready)
                                        else s.domain.datasets)
                     else s.domain
    case Quality =>
      && z.storage == s.storage
      && z.domain == if task in s.domain.evaluations && s.domain.evaluations[task].Open()
                     then s.domain.(evaluations := s.domain.evaluations[task := Evaluation(EvaluationCancelled, None)])
                     else s.domain
    case _ => z.domain == s.domain && z.storage == s.storage
  }

  lemma CancelledTargetLeaves(m: State, s: State, job: Job, task: nat)
    requires m.domain == s.domain && m.storage == s.storage && m.env == s.env
    ensures var z := CancelledTarget(m, job, task);
            WithdrawnRecord(s, job, task, z) && z.tasks == m.tasks && z.env == m.env && z.intake == m.intake
  {
  }

  /** Waiting work is withdrawn with its publication and record; otherwise a worker is asked to stop. */
  lemma WorkIsWithdrawn(s: State, task: nat)
    ensures var z := Apply(s, Ask(CancelWaitingStep(task)));
            if task in s.tasks.rows && s.tasks.rows[task].job.status.Pending?
            then EndedAndSilenced(s, task, Cancelled, z) && WithdrawnRecord(s, s.tasks.rows[task].job, task, z)
                 && z.env == s.env && z.intake == s.intake
            else z == s
    ensures var z := Apply(s, Ask(RequestStopStep(task)));
            if Active(s, task)
            then && OnlyRow(s, task, z) && z == s.(tasks := z.tasks)
                 && z.tasks.rows[task]
                    == s.tasks.rows[task].(job := s.tasks.rows[task].job.(status := CancellationRequested))
            else z == s
  {
    if task in s.tasks.rows {
      CancellationEnds(s.tasks.rows[task], s.env.now);
      if RowFires(s, task, CancelPending) {
        CancelledTargetLeaves(OnRow(s, task, CancelPending), s, s.tasks.rows[task].job, task);
      }
    }
    hide WithdrawnRecord, CancelledTarget;
  }

  /** What resolving an ambiguous final commit leaves: nothing if it had succeeded, else an ended job and record. */
  ghost predicate ResolvedRecord(s: State, x: nat, task: nat, token: Token, status: TransformationStatus, z: State)
    requires x in s.domain.transformations
  {
    var record := s.domain.transformations[x];
    && z.domain == s.domain.(
         transformations := s.domain.transformations[x := record.(status := status)],
         datasets := if AtItsRevision(s, record) && s.domain.datasets[record.dataset].storedPath == record.inputPath
                     then DatasetStatusSet(s, record.dataset, Ready) else s.domain.datasets)
    && z.storage.artifacts.Keys == s.storage.artifacts.Keys + {record.outputPath}
    && (forall p | p in s.storage.artifacts ::
          z.storage.artifacts[p]
          == if p == record.outputPath || (s.storage.artifacts[p].task == Some(task)
                                           && s.storage.artifacts[p].attemptToken == Some(token)
                                           && s.storage.artifacts[p].state.Reserved?)
             then s.storage.artifacts[p].(deletionRequestedAt := Some(s.env.now)) else s.storage.artifacts[p])
    && z.storage == s.storage.(artifacts := z.storage.artifacts, doomed := s.storage.doomed + {record.outputPath})
  }

  lemma DeletionThenAbandonment(s: State, m: State, path: Path, task: nat, token: Token)
    requires m.storage == s.storage && m.env == s.env
    ensures var z := AbandonAttemptOf(DeletionAndUnlink(m, path), task, token);
            && z == m.(storage := z.storage)
            && z.storage == s.storage.(artifacts := z.storage.artifacts, doomed := s.storage.doomed + {path})
            && z.storage.artifacts.Keys == s.storage.artifacts.Keys + {path}
            && forall p | p in s.storage.artifacts ::
                 z.storage.artifacts[p]
                 == if p == path || (s.storage.artifacts[p].task == Some(task)
                                     && s.storage.artifacts[p].attemptToken == Some(token)
                                     && s.storage.artifacts[p].state.Reserved?)
                    then s.storage.artifacts[p].(deletionRequestedAt := Some(s.env.now)) else s.storage.artifacts[p]
  {
  }

  /** When an attempt whose final commit is in doubt may still end its job. */
  predicate InDoubt(s: State, task: nat, token: Token) {
    && task in s.tasks.rows
    && var job := s.tasks.rows[task].job;
       && job.kind.Transform? && job.transformation.Some? && job.transformation.value in s.domain.transformations
       && (job.status.Pending? || job.status.Started? || job.status.CancellationRequested?)
       && job.attemptToken == Some(token) && Leased(job, s.env.now)
  }

  lemma DoubtIsResolved(s: State, task: nat, token: Token)
    ensures if InDoubt(s, task, token)
            then var job := s.tasks.rows[task].job;
                 var record := s.domain.transformations[job.transformation.value];
                 var stopping := job.status.CancellationRequested?;
                 var act := if stopping then CancelByWorker(token) else Fail(Some(token));
                 && RowFires(s, task, act)
                 && EndedAs(s, task, if stopping then Cancelled else Failure, OnRow(s, task, act))
                 && RecoverFinalization(s, task, token)
                    == CloseRun(AbandonAttemptOf(DeletionAndUnlink(OnRow(s, task, act), record.outputPath), task,
                                                 token),
                                job.transformation.value, if stopping then CancelledRun else FailedRun,
                                ReleasedHead(s.domain.datasets, record))
            else RecoverFinalization(s, task, token) == s
  {
    WorkerFails(s, task, token);
    WorkerCancels(s, task, token);
    hide Fires, Perform, AbandonAttemptOf, DeletionAndUnlink, ReleasedHead, CloseRun;
  }

  lemma HeadIsReleased(s: State, record: Transformation)
    ensures ReleasedHead(s.domain.datasets, record)
            == if AtItsRevision(s, record) && s.domain.datasets[record.dataset].storedPath == record.inputPath
               then DatasetStatusSet(s, record.dataset, Ready) else s.domain.datasets
  {
  }

  /** An attempt whose final commit is in doubt ends its job, unless it turns out to have ended already. */
  lemma FinalizationIsResolved(s: State, task: nat, token: Token)
    ensures var z := Apply(s, Write(RecoverStep(task, token)));
            if InDoubt(s, task, token)
            then var job := s.tasks.rows[task].job;
                 var stopping := job.status.CancellationRequested?;
                 && EndedAs(s, task, if stopping then Cancelled else Failure, z)
                 && ResolvedRecord(s, job.transformation.value, task, token, if stopping then CancelledRun
                                   else FailedRun,
                                   z)
                 && z.env == s.env && z.intake == s.intake
            else z == s
  {
    DoubtIsResolved(s, task, token);
    if InDoubt(s, task, token) {
      var job := s.tasks.rows[task].job;
      var record := s.domain.transformations[job.transformation.value];
      var act := if job.status.CancellationRequested? then CancelByWorker(token) else Fail(Some(token));
      HeadIsReleased(s, record);
      DeletionThenAbandonment(s, OnRow(s, task, act), record.outputPath, task, token);
    }
    hide Fires, Perform, AbandonAttemptOf, DeletionAndUnlink, ReleasedHead, RecoverFinalization, InDoubt;
  }

  lemma AttemptIsAbandoned(s: State, task: nat, token: Token)
    ensures var z := Apply(s, Write(AbandonStep(task, token)));
            && z == s.(storage := s.storage.(artifacts := z.storage.artifacts))
            && AttemptAbandoned(s.storage.artifacts, z.storage.artifacts, task, token, s.env.now)
  {
    AbandoningMarks(s.storage.artifacts, task, token, s.env.now);
    hide AbandonAttempt, AttemptAbandoned;
  }

  // ---------------------------------------------------------------- outputs

  /** An attempt on an unpublished transformation, or on a preview, reserves fresh paths under its own token. */
  lemma OutputIsReserved(s: State, task: nat, token: Token)
    ensures var z := Apply(s, Write(ReserveOutputStep(task, token)));
            if && WorkedBy(s, task, token) && s.tasks.rows[task].job.kind.Transform?
               && s.tasks.rows[task].job.transformation.Some?
               && s.tasks.rows[task].job.transformation.value in s.domain.transformations
               && var status := s.domain.transformations[s.tasks.rows[task].job.transformation.value].status;
                  !status.Completed? && !status.Undone?
            then ReservedFor(s, task, token, s.tasks.rows[task].job.transformation, z)
            else z == s
    ensures var z := Apply(s, Write(ReservePreviewStep(task, token)));
            if WorkedBy(s, task, token) && s.tasks.rows[task].job.kind.Preview?
                then ReservedFor(s, task, token, None, z)
            else z == s
  {
  }

  predicate ReservedFor(s: State, task: nat, token: Token, transformation: Option<nat>, z: State)
    requires task in s.tasks.rows
  {
    var final, temporary := Output(s.env.nextId), Temporary(s.env.nextId + 1);
    && z == s.(env := s.env.(nextId := s.env.nextId + 2),
               storage := s.storage.(artifacts := z.storage.artifacts, writers := z.storage.writers))
    && z.storage.writers == s.storage.writers[final := Writer(temporary, task, token, transformation, false)]
    && z.storage.artifacts == s.storage.artifacts[final := Artifact(
         Some(s.tasks.rows[task].job.owner), Some(task), Some(token), Some(temporary), Reserved,
         Some(s.env.now + 900), None)]
  }

  predicate Writing(s: State, final: Path) {
    final in s.storage.writers && !s.storage.writers[final].finished
  }

  function Finishing(s: State, final: Path): map<Path, Writer>
    requires final in s.storage.writers
  {
    s.storage.writers[final := s.storage.writers[final].(finished := true)]
  }

  /** What a writer does to the disk: it fills its scratch, renames it without publishing, or drops it. */
  lemma WriterActs(s: State, final: Path, target: Path, content: Bytes)
    ensures var z := Apply(s, Write(ScratchStep(final, target, content)));
            if Writing(s, final)
               && (target == s.storage.writers[final].temporary
                   || (s.storage.writers[final].temporary.Temporary?
                       && target == Spill(s.storage.writers[final].temporary.id)))
            then z == s.(storage := s.storage.(files := s.storage.files[target := content]))
            else z == s
    ensures var z := Apply(s, Write(RenameStep(final)));
            if Writing(s, final) && s.storage.writers[final].temporary in s.storage.files
            then var temporary := s.storage.writers[final].temporary;
                 z == s.(storage := s.storage.(
                         files := (s.storage.files - {temporary})[final := s.storage.files[temporary]],
                         writers := Finishing(s, final)))
            else z == s
    ensures var z := Apply(s, Write(DropStep(final)));
            if Writing(s, final)
            then z == s.(storage := s.storage.(files := s.storage.files - {s.storage.writers[final].temporary},
                                               writers := Finishing(s, final)))
            else z == s
  {
  }

  /** A transformation still waits for its result, on the head it was admitted on. */
  predicate AwaitsResult(s: State, x: nat) {
    && x in s.domain.transformations
    && var record := s.domain.transformations[x];
       && AtItsRevision(s, record) && !s.domain.datasets[record.dataset].deleted
       && s.domain.datasets[record.dataset].storedPath == record.inputPath && record.inputPath in s.storage.snapshots
       && (record.status.Admitted? || record.status.FailedRun?)
  }

  /** The attempt's reservation stands and its temporary file is written. */
  predicate HoldsOutput(s: State, task: nat, token: Token, final: Path)
    requires task in s.tasks.rows
  {
    && Writing(s, final) && s.storage.writers[final].transformation == s.tasks.rows[task].job.transformation
    && s.storage.writers[final].temporary in s.storage.files && final in s.storage.artifacts
    && var artifact := s.storage.artifacts[final];
       && artifact.state.Reserved? && artifact.task == Some(task) && artifact.attemptToken == Some(token)
       && artifact.owner == Some(s.tasks.rows[task].job.owner)
  }

  /** The final transaction of a transformation: file, artifact, manifest, head, record, event and job together. */
  lemma OutputIsPublished(s: State, task: nat, token: Token, final: Path)
    ensures var z := Apply(s, Write(PublishStep(task, token, final)));
            if && WorkedBy(s, task, token) && s.tasks.rows[task].job.kind.Transform?
               && s.tasks.rows[task].job.transformation.Some?
               && AwaitsResult(s, s.tasks.rows[task].job.transformation.value)
               && HoldsOutput(s, task, token, final)
            then && Succeeded(s, task, z)
                 && var x := s.tasks.rows[task].job.transformation.value;
                    var record, temporary := s.domain.transformations[x], s.storage.writers[final].temporary;
                    var source, output := s.storage.snapshots[record.inputPath].digest, s.storage.files[temporary];
                    && z.storage == s.storage.(
                         files := (s.storage.files - {temporary})[final := output], writers := Finishing(s, final),
                         artifacts := s.storage.artifacts[final := s.storage.artifacts[final].(
                           state := Live, expiresAt := None)],
                         snapshots := s.storage.snapshots[final := Snapshot(
                           record.dataset, record.expectedVersion + 1, output, Available, false, s.env.now)])
                    && z.domain.datasets == s.domain.datasets[record.dataset := s.domain.datasets[record.dataset].(
                         storedPath := final, version := record.expectedVersion + 1, status := Ready, profile := None,
                         rowCount := Some(output.rows), columnCount := Some(output.columns))]
                    && z.domain.transformations == s.domain.transformations[x := record.(
                         outputPath := final, status := Completed, beforeRows := source.rows,
                         afterRows := output.rows, beforeColumns := source.columns, afterColumns := output.columns)]
                    && record.dataset in z.domain.events
                    && |z.domain.events[record.dataset]| == |EventsOf(s, record.dataset)| + 1
                    && z.env == s.env.(nextId := s.env.nextId + 1) && z.intake == s.intake
            else z == s
  {
    WorkingMaySucceed(s, task, token);
    hide Fires, Perform, WorkedBy, TransformationEvent;
  }

  // ---------------------------------------------------------------- upkeep

  /** Finished rows are removed once their retention is over; a failed removal of a pin or a row changes nothing. */
  lemma FinishedJobIsPurged(s: State, task: nat)
    ensures var z := Apply(s, Maintain(PurgeStep(task)));
            if && task in s.tasks.rows && !Unfinished(s.tasks.rows[task].job)
               && s.tasks.rows[task].job.finishedAt.Some?
               && s.env.now - s.tasks.rows[task].job.finishedAt.value > s.env.settings.jobRetention
            then z == s.(tasks := s.tasks.(rows := s.tasks.rows - {task}))
            else z == s
  {
  }

  /** Pins are set and cleared on usable manifests alone; a decided unlink removes its file; a mark ends a deletion. */
  lemma StorageIsMarked(s: State, path: Path, pinned: bool)
    ensures var z := Apply(s, Ask(PinStep(path, pinned)));
            if path in s.storage.snapshots && s.storage.snapshots[path].availability.Available?
            then z == s.(storage := s.storage.(
                         snapshots := s.storage.snapshots[path := s.storage.snapshots[path].(pinned := pinned)]))
            else z == s
    ensures var z := Apply(s, Maintain(UnlinkStep(path)));
            z == if path in s.storage.doomed then s.(storage := s.storage.(files := s.storage.files - {path})) else s
    ensures var z := Apply(s, Maintain(FinishStep(path)));
            if path in s.storage.artifacts && s.storage.artifacts[path].state.Deleting?
            then z == s.(storage := s.storage.(
                         artifacts := s.storage.artifacts[path := s.storage.artifacts[path].(state := Deleted)]))
            else z == s
  {
  }

  /** A dataset left in passing by work that is gone: an import is failed, anything else is READY again. */
  lemma DatasetIsSwept(s: State, d: nat)
    ensures var z := Apply(s, Maintain(SweepDatasetStep(d)));
            if d !in s.domain.datasets
               || exists t | t in s.tasks.rows ::
                    s.tasks.rows[t].job.dataset == Some(d) && Unfinished(s.tasks.rows[t].job)
                    && (s.tasks.rows[t].job.kind.Import? || s.tasks.rows[t].job.kind.ProfileJob?
                        || s.tasks.rows[t].job.kind.Transform?)
            then z == s
            else match s.domain.datasets[d].status
                 case Queued => z == s.(domain := s.domain.(datasets := DatasetStatusSet(s, d, FailedImport)))
                 case Processing => z == s.(domain := s.domain.(datasets := DatasetStatusSet(s, d, FailedImport)))
                 case Profiling => z == s.(domain := s.domain.(datasets := DatasetStatusSet(s, d, Ready)))
                 case Transforming => z == s.(domain := s.domain.(datasets := DatasetStatusSet(s, d, Ready)))
                 case _ => z == s
  {
    assert TargetActive(s.tasks.rows, d) <==>
           exists t | t in s.tasks.rows ::
             s.tasks.rows[t].job.dataset == Some(d) && Unfinished(s.tasks.rows[t].job)
             && (s.tasks.rows[t].job.kind.Import? || s.tasks.rows[t].job.kind.ProfileJob?
                 || s.tasks.rows[t].job.kind.Transform?);
  }
}
