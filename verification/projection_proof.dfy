/**
 The protocol refines the single-task one: whatever the rest of the store does, each
 retained task's job and publication intent move by the acts of `TaskProtocol`, at the
 times of the shared clock. The single-task theorems are lifted to whole runs here.
 */
module TaskRefinement {
  import opened Prelude
  import opened JobService
  import opened TaskProtocol
  import opened Tables
  import opened ArtifactService
  import opened Protocol

  datatype TaskAct = TaskAct(task: nat, act: Act)

  function IfFires(s: State, task: nat, act: Act, also: bool): Option<TaskAct> {
    if also && RowFires(s, task, act) then Some(TaskAct(task, act)) else None
  }

  predicate OfKind(s: State, task: nat, kind: Kind) {
    task in s.tasks.rows && s.tasks.rows[task].job.kind == kind
  }

  function AdmissionAct(s: State, step: Admission): Option<TaskAct> {
    match step
    case FailReservationStep(t) => IfFires(s, t, Fail(None), Unstaged(s, t))
    case StageUploadStep(t, _) => IfFires(s, t, Enqueue(s.env.nextId, s.env.nextId + 2), true)
    case AbortUploadStep(d) =>
      if d !in s.intake.uploading || d !in s.intake.uploads then None
      else
        var t := s.intake.uploads[d].task;
        IfFires(s, t, Fail(None), OwnImportJob(s, t, d))
    case _ => None
  }

  function AttemptAct(s: State, step: Attempt): Option<TaskAct> {
    match step
    case StartStep(t, seconds, progress) =>
      IfFires(s, t, Start(s.env.nextId, seconds, progress),
              OfKind(s, t, Quality) ==> t in s.domain.evaluations && DatasetOf(s, s.tasks.rows[t].job).Some?)
    case RenewStep(t, token, seconds, report) => IfFires(s, t, Renew(token, seconds, report), true)
    case RetryStep(t, token) => IfFires(s, t, Retry(token), !OfKind(s, t, Quality))
    case FailStep(t, token) => IfFires(s, t, Fail(Some(token)), true)
    case CancelStep(t, token) => IfFires(s, t, CancelByWorker(token), true)
    case BeginImportStep(t, token) =>
      IfFires(s, t, Renew(token, JOB_LEASE_SECONDS, Some(25)),
              OfKind(s, t, Import) && DatasetOf(s, s.tasks.rows[t].job).Some?
                  && !s.domain.datasets[s.tasks.rows[t].job.dataset.value].status.Ready?)
    case CompleteImportStep(t, token) =>
      IfFires(s, t, Succeed(token),
              OfKind(s, t, Import) && DatasetOf(s, s.tasks.rows[t].job).Some?
              && s.domain.datasets[s.tasks.rows[t].job.dataset.value].storedPath in s.storage.snapshots)
    case CompleteUnrecordedStep(t, token) =>
      IfFires(s, t, Succeed(token), OfKind(s, t, Preview) || OfKind(s, t, ReportJob))
    case CompleteEvaluationStep(t, token, _) => IfFires(s, t, Succeed(token), OfKind(s, t, Quality)
                                                        && t in s.domain.evaluations)
  }

  function ProfilingAct(s: State, step: Profiling): Option<TaskAct> {
    match step
    case BeginProfileStep(t, token) =>
      if !RowFires(s, t, Renew(token, JOB_LEASE_SECONDS, Some(15))) || !OfKind(s, t, ProfileJob)
          || DatasetOf(s, s.tasks.rows[t].job).None? then None
      else
        var dataset := s.domain.datasets[s.tasks.rows[t].job.dataset.value];
        if dataset.deleted then None
        else if dataset.profile.Some? then Some(TaskAct(t, Succeed(token)))
        else if !dataset.status.Profiling? && !dataset.EnsureReady() then None
        else Some(TaskAct(t, Renew(token, JOB_LEASE_SECONDS, Some(15))))
    case ComputeProfileStep(_) => None
    case PublishProfileStep(t, token) =>
      if MayPublishProfile(s, t, token) then Some(TaskAct(t, Succeed(token))) else None
  }

  function WritingAct(s: State, step: Writing): Option<TaskAct> {
    match step
    case PublishStep(t, token, final) =>
      if MayPublish(s, t, token, final) then Some(TaskAct(t, Succeed(token))) else None
    case RecoverStep(t, token) =>
      if !OfKind(s, t, Transform) || TransformationOf(s, s.tasks.rows[t].job).None? then None
      else IfFires(s, t, RecoveryAct(s.tasks.rows[t].job, token),
                   !(s.tasks.rows[t].job.status.Success?
                     && s.domain.transformations[s.tasks.rows[t].job.transformation.value].Published()))
    case _ => None
  }

  function RequestAct(s: State, step: Request): Option<TaskAct> {
    match step
    case CancelWaitingStep(t) => IfFires(s, t, CancelPending, true)
    case RequestStopStep(t) => IfFires(s, t, RequestCancellation, true)
    case _ => None
  }

  function DispatchAct(s: State, step: Dispatch): Option<TaskAct> {
    match step
    case ClaimStep(t) => IfFires(s, t, Claim(s.env.nextId, s.env.settings.outboxClaimTtl), true)
    case AcknowledgeStep(claim, backoff) =>
      if claim !in s.tasks.claims then None
      else
        var c := s.tasks.claims[claim];
        IfFires(s, c.task, Acknowledge(c.outboxId, c.generation, claim, backoff),
                backoff.Some? ==> 1 <= backoff.value <= BackoffCeiling(c.attempts, s.env.settings.outboxMaxRetry))
    case ReconcileStep(t) => IfFires(s, t, Reconcile, true)
    case ReconcileCancelledStep(t) => IfFires(s, t, ReconcileCancellation, true)
  }

  /** Which task a step moves, and by which act. */
  function ActOf(s: State, step: Step): Option<TaskAct> {
    match step
    case Admit(admission) => AdmissionAct(s, admission)
    case Work(attempt) => AttemptAct(s, attempt)
    case Profiles(profiling) => ProfilingAct(s, profiling)
    case Write(writing) => WritingAct(s, writing)
    case Ask(request) => RequestAct(s, request)
    case Deliver(dispatch) => DispatchAct(s, dispatch)
    case _ => None
  }

  ghost predicate MovedBy(s: State, moved: Option<TaskAct>, t: State) {
    && (moved.Some? ==> RowFires(s, moved.value.task, moved.value.act))
    && t.tasks.rows == (if moved.None? then s.tasks.rows
                  else s.tasks.rows[moved.value.task := Perform(s.tasks.rows[moved.value.task], moved.value.act,
                                                                s.env.now)])
  }

  /** The four steps that add or remove a row. */
  predicate Registers(step: Step) {
    || (step.Admit? && (step.admission.ReserveImportStep? || step.admission.AdmitJobStep?
                        || step.admission.AdmitTransformationStep?))
    || (step.Maintain? && step.upkeep.PurgeStep?)
  }

  lemma AdmissionMovesRows(s: State, step: Admission)
    requires !Registers(Admit(step))
    ensures MovedBy(s, AdmissionAct(s, step), AfterAdmission(s, step))
  {
    hide Fires, Perform;
  }

  lemma AttemptMovesRows(s: State, step: Attempt)
    ensures MovedBy(s, AttemptAct(s, step), AfterWork(s, step))
  {
    hide Fires, Perform;
  }

  lemma ProfilingMovesRows(s: State, step: Profiling)
    ensures MovedBy(s, ProfilingAct(s, step), AfterProfiling(s, step))
  {
    hide Perform;
  }

  lemma WritingMovesRows(s: State, step: Writing)
    ensures MovedBy(s, WritingAct(s, step), AfterWriting(s, step))
  {
    hide Fires, Perform;
  }

  lemma RequestMovesRows(s: State, step: Request)
    ensures MovedBy(s, RequestAct(s, step), AfterRequest(s, step))
  {
    hide Fires, Perform, MayUndo;
  }

  lemma DispatchMovesRows(s: State, step: Dispatch)
    ensures MovedBy(s, DispatchAct(s, step), AfterDispatch(s, step))
  {
    hide Fires, Perform, BackoffCeiling;
  }

  lemma UpkeepMovesNoRow(s: State, step: Upkeep)
    requires !step.PurgeStep?
    ensures AfterUpkeep(s, step).tasks.rows == s.tasks.rows
  {
    match step {
      case ExpireStep(path) => 
      case CollectStep(path) => 
      case UnlinkStep(path) => 
      case FinishStep(path) => 
      case SweepDatasetStep(d) => 
      case SweepTransformationStep(x) => 
      case ReportsStep(paths) =>
    }
  }

  lemma StepMovesRows(s: State, step: Step)
    requires !Registers(step)
    ensures MovedBy(s, ActOf(s, step), Apply(s, step))
  {
    hide AfterAdmission, AfterWork, AfterProfiling, AfterWriting, AfterRequest, AfterDispatch, AfterUpkeep,
      AdmissionAct, AttemptAct, ProfilingAct, WritingAct, RequestAct, DispatchAct;
    match step {
      case Tick(_) => assert MovedBy(s, None, Apply(s, step));
      case Admit(admission) => AdmissionMovesRows(s, admission);
      case Work(attempt) => AttemptMovesRows(s, attempt);
      case Profiles(profiling) => ProfilingMovesRows(s, profiling);
      case Write(writing) => WritingMovesRows(s, writing);
      case Ask(request) => RequestMovesRows(s, request);
      case Deliver(dispatch) => DispatchMovesRows(s, dispatch);
      case Maintain(upkeep) => UpkeepMovesNoRow(s, upkeep); assert MovedBy(s, None, Apply(s, step));
    }
  }
}
