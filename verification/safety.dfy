/** The invariant holds initially, every step keeps it, so every reachable store satisfies it. */
module Safety {
  import opened Prelude
  import opened JobService
  import opened TaskProtocol
  import opened Tables
  import opened ArtifactService
  import opened Protocol
  import opened Invariants
  import opened ForwardOnly
  import opened ForwardProof
  import opened StorageProof
  import opened JobsProof
  import opened RecordsProof
  import opened MovesProof
  import opened AdmissionProof
  import opened IntakeProof
  import opened UpkeepProof
  import opened ProfileProof
  import opened PublicationProof
  import opened UndoProof

  lemma InitialSatisfiesInv(settings: Settings)
    ensures Inv(Initial(settings))
  {
    forall owner: nat ensures |ActiveTasks(Initial(settings).tasks.rows, owner)| <= settings.maxActiveJobs {
      assert ActiveTasks(Initial(settings).tasks.rows, owner) == {};
    }
  }

  /** A step that either changes nothing or moves one placed job keeps the invariant. */
  lemma MoveOrNothing(s: State, task: nat, act: Act, z: State)
    requires Inv(s) && (z == s || (Moved(s, task, act, z) && Releases(s, z)))
    requires act.Succeed? && task in s.tasks.rows ==> !s.tasks.rows[task].job.kind.Transform? || z == s
    ensures Inv(z) && Forward(s, z)
  {
    ForwardIsReflexive(s);
    hide Inv, Releases, Forward;
    if z != s {
      assert task in s.tasks.rows;
      InvPlaces(s, task);
      hide Moved;
      MoveKeepsInv(s, task, act, z);
      MovedIsForward(s, task, act, z);
    }
  }

  lemma FailReservationKeepsInv(s: State, task: nat)
    requires Inv(s)
    ensures Inv(FailReservation(s, task)) && Forward(s, FailReservation(s, task))
  {
    ForwardIsReflexive(s);
    hide Inv, Forward, Placed, Moved, Releases;
    if task in s.tasks.rows {
      hide FailReservation;
      InvPlaces(s, task);
      FailReservationMoves(s, task);
      MoveOrNothing(s, task, Fail(None), FailReservation(s, task));
    }
  }

  lemma AdmissionKeepsInv(s: State, step: Admission)
    requires Inv(s)
    ensures Inv(AfterAdmission(s, step)) && Forward(s, AfterAdmission(s, step))
  {
    ForwardIsReflexive(s);
    hide Inv, Forward, ReserveImport, FailReservation, StageUpload, AcknowledgeUpload, AbortUpload, AdmitJob,
      AdmitTransformation;
    AdmissionIsForward(s, step);
    match step {
      case ReserveImportStep(t, owner) => ReserveImportKeepsInv(s, t, owner);
      case FailReservationStep(t) => FailReservationKeepsInv(s, t);
      case StageUploadStep(t, content) => StageKeepsInv(s, t, content);
      case AcknowledgeUploadStep(d) => AcknowledgeUploadKeepsInv(s, d);
      case AbortUploadStep(d) => AbortUploadKeepsInv(s, d);
      case AdmitJobStep(t, d, kind) => AdmitJobKeepsInv(s, t, d, kind);
      case AdmitTransformationStep(t, d, user, version, key, operation) => AdmitTransformationKeepsInv(s, t, d, user,
          version, key, operation);
    }
  }

  lemma UnknownTaskStays(s: State, step: Attempt)
    requires step.task !in s.tasks.rows
    ensures AfterWork(s, step) == s
  {
  }

  lemma KindsOfSuccess(s: State, task: nat, token: Token, passed: bool)
    requires task in s.tasks.rows && s.tasks.rows[task].job.kind.Transform?
    ensures CompleteUnrecorded(s, task, token) == s && CompleteEvaluation(s, task, token, passed) == s
  {
  }

  /** The attempts that succeed outside publication. */
  lemma CompletionKeepsInv(s: State, step: Attempt)
    requires Inv(s) && step.task in s.tasks.rows && Placed(s, step.task)
    requires step.CompleteImportStep? || step.CompleteUnrecordedStep? || step.CompleteEvaluationStep?
    ensures Inv(AfterWork(s, step)) && Forward(s, AfterWork(s, step))
  {
    hide Inv, Forward, Placed, Moved, Releases, CompleteImport, CompleteUnrecorded, CompleteEvaluation;
    match step {
      case CompleteImportStep(t, token) =>
        CompleteImportKeepsInv(s, t, token);
        CompleteImportIsForward(s, t, token);
      case CompleteUnrecordedStep(t, token) =>
        if s.tasks.rows[t].job.kind.Transform? { KindsOfSuccess(s, t, token, true); }
        CompleteUnrecordedMoves(s, t, token);
        MoveOrNothing(s, t, Succeed(token), CompleteUnrecorded(s, t, token));
      case CompleteEvaluationStep(t, token, passed) =>
        if s.tasks.rows[t].job.kind.Transform? { KindsOfSuccess(s, t, token, passed); }
        CompleteEvaluationMoves(s, t, token, passed);
        MoveOrNothing(s, t, Succeed(token), CompleteEvaluation(s, t, token, passed));
    }
  }

  /** The attempts that take, hold or give back the lease. */
  lemma LeaseAttemptKeepsInv(s: State, step: Attempt)
    requires Inv(s) && step.task in s.tasks.rows && Placed(s, step.task)
    requires step.StartStep? || step.RenewStep? || step.RetryStep? || step.BeginImportStep?
    ensures Inv(AfterWork(s, step)) && Forward(s, AfterWork(s, step))
  {
    hide Inv, Forward, Placed, Moved, Releases, StartJob, RenewLease, RetryJob, BeginImport;
    match step {
      case StartStep(t, seconds, progress) =>
        StartMoves(s, t, seconds, progress);
        MoveOrNothing(s, t, Start(s.env.nextId, seconds, progress), StartJob(s, t, seconds, progress));
      case RenewStep(t, token, seconds, report) =>
        RenewMoves(s, t, token, seconds, report);
        MoveOrNothing(s, t, Renew(token, seconds, report), RenewLease(s, t, token, seconds, report));
      case RetryStep(t, token) =>
        RetryMoves(s, t, token);
        MoveOrNothing(s, t, Retry(token), RetryJob(s, t, token));
      case BeginImportStep(t, token) =>
        BeginImportMoves(s, t, token);
        MoveOrNothing(s, t, Renew(token, JOB_LEASE_SECONDS, Some(25)), BeginImport(s, t, token));
    }
  }

  /** The attempts that give up. */
  lemma GivingUpKeepsInv(s: State, step: Attempt)
    requires Inv(s) && step.task in s.tasks.rows && Placed(s, step.task) && (step.FailStep? || step.CancelStep?)
    ensures Inv(AfterWork(s, step)) && Forward(s, AfterWork(s, step))
  {
    hide Inv, Forward, Placed, Moved, Releases, FailJob, CancelRunning;
    match step {
      case FailStep(t, token) =>
        FailMoves(s, t, token);
        MoveOrNothing(s, t, Fail(Some(token)), FailJob(s, t, token));
      case CancelStep(t, token) =>
        CancelMoves(s, t, token);
        MoveOrNothing(s, t, CancelByWorker(token), CancelRunning(s, t, token));
    }
  }

  lemma AttemptKeepsInv(s: State, step: Attempt)
    requires Inv(s)
    ensures Inv(AfterWork(s, step)) && Forward(s, AfterWork(s, step))
  {
    if step.task !in s.tasks.rows {
      ForwardIsReflexive(s);
      UnknownTaskStays(s, step);
    } else {
      hide Inv, Forward, Placed, AfterWork;
      InvPlaces(s, step.task);
      match step {
        case FailStep(_, _) => GivingUpKeepsInv(s, step);
        case CancelStep(_, _) => GivingUpKeepsInv(s, step);
        case CompleteImportStep(_, _) => CompletionKeepsInv(s, step);
        case CompleteUnrecordedStep(_, _) => CompletionKeepsInv(s, step);
        case CompleteEvaluationStep(_, _, _) => CompletionKeepsInv(s, step);
        case _ => LeaseAttemptKeepsInv(s, step);
      }
    }
  }

  lemma ProfilingKeepsInv(s: State, step: Profiling)
    requires Inv(s)
    ensures Inv(AfterProfiling(s, step)) && Forward(s, AfterProfiling(s, step))
  {
    ForwardIsReflexive(s);
    hide Inv, Forward, BeginProfile, ComputeProfile, PublishProfile;
    ProfilingIsForward(s, step);
    match step {
      case BeginProfileStep(t, token) => BeginProfileKeepsInv(s, t, token);
      case ComputeProfileStep(token) => ComputeProfileKeepsInv(s, token);
      case PublishProfileStep(t, token) => PublishProfileKeepsInv(s, t, token);
    }
  }

  lemma RecoverKeepsInv(s: State, task: nat, token: Token)
    requires Inv(s)
    ensures Inv(RecoverFinalization(s, task, token)) && Forward(s, RecoverFinalization(s, task, token))
  {
    ForwardIsReflexive(s);
    hide Inv, Forward, Placed, Moved, Releases;
    if task in s.tasks.rows {
      hide RecoverFinalization;
      InvPlaces(s, task);
      RecoverMoves(s, task, token);
      MoveOrNothing(s, task, RecoveryAct(s.tasks.rows[task].job, token), RecoverFinalization(s, task, token));
    }
  }

  lemma WritingKeepsInv(s: State, step: Writing)
    requires Inv(s)
    ensures Inv(AfterWriting(s, step)) && Forward(s, AfterWriting(s, step))
  {
    ForwardIsReflexive(s);
    hide Inv, Forward, ReserveOutput, ReservePreview, WriteScratch, Publish, RenameUnpublished, DropTemporary,
      AbandonAttemptOf, RecoverFinalization;
    match step {
      case ReserveOutputStep(t, token) => ReserveOutputKeepsInv(s, t, token); StorageStepsAreForward(s, t, token,
          Output(0), Output(0), Bytes(0, 0, 0));
      case ReservePreviewStep(t, token) => ReservePreviewKeepsInv(s, t, token); StorageStepsAreForward(s, t, token,
          Output(0), Output(0), Bytes(0, 0, 0));
      case ScratchStep(final, target, content) => WriterStepsKeepInv(s, final, target,
                                                                     content); StorageStepsAreForward(s, 0, 0, final,
          target, content);
      case PublishStep(t, token, final) => PublishKeepsInv(s, t, token, final); PublishIsForward(s, t, token, final);
      case RenameStep(final) => WriterStepsKeepInv(s, final, final, Bytes(0, 0, 0)); StorageStepsAreForward(s, 0, 0,
          final, final, Bytes(0, 0, 0));
      case DropStep(final) => WriterStepsKeepInv(s, final, final, Bytes(0, 0, 0)); StorageStepsAreForward(s, 0, 0,
          final, final, Bytes(0, 0, 0));
      case AbandonStep(t, token) => RetentionStepsKeepInv(s, Output(0), false, t, token); StorageStepsAreForward(s, t,
          token, Output(0), Output(0), Bytes(0, 0, 0));
      case RecoverStep(t, token) => RecoverKeepsInv(s, t, token);
    }
  }

  lemma CancellationKeepsInv(s: State, task: nat)
    requires Inv(s)
    ensures Inv(CancelWaiting(s, task)) && Forward(s, CancelWaiting(s, task))
    ensures Inv(RequestStop(s, task)) && Forward(s, RequestStop(s, task))
  {
    ForwardIsReflexive(s);
    hide Inv, Forward, Placed, Moved, Releases;
    if task in s.tasks.rows {
      hide CancelWaiting, RequestStop;
      InvPlaces(s, task);
      CancelWaitingMoves(s, task);
      RequestStopMoves(s, task);
      MoveOrNothing(s, task, CancelPending, CancelWaiting(s, task));
      MoveOrNothing(s, task, RequestCancellation, RequestStop(s, task));
    }
  }

  lemma RequestKeepsInv(s: State, step: Request)
    requires Inv(s)
    ensures Inv(AfterRequest(s, step)) && Forward(s, AfterRequest(s, step))
  {
    ForwardIsReflexive(s);
    hide Inv, Forward, Undo, CancelWaiting, RequestStop, PinSnapshot;
    match step {
      case UndoStep(d, user, version, key, x) => UndoKeepsInv(s, d, user, version, key, x); UndoIsForward(s, d, user,
          version, key, x);
      case CancelWaitingStep(t) => CancellationKeepsInv(s, t);
      case RequestStopStep(t) => CancellationKeepsInv(s, t);
      case PinStep(path, pinned) => RetentionStepsKeepInv(s, path, pinned, 0, 0); CollectionStepsAreForward(s, path,
          pinned);
    }
  }

  lemma DispatchKeepsInv(s: State, step: Dispatch)
    requires Inv(s)
    ensures Inv(AfterDispatch(s, step)) && Forward(s, AfterDispatch(s, step))
  {
    ForwardIsReflexive(s);
    hide Inv, Forward, Placed, Moved, Releases;
    match step {
      case ClaimStep(t) =>
        if t in s.tasks.rows {
          hide ClaimPublication;
          InvPlaces(s, t);
          ClaimMoves(s, t);
          MoveOrNothing(s, t, Claim(s.env.nextId, s.env.settings.outboxClaimTtl), ClaimPublication(s, t));
        }
      case AcknowledgeStep(claim, backoff) =>
        if claim in s.tasks.claims
            && s.tasks.claims[claim].task in s.tasks.rows { InvPlaces(s, s.tasks.claims[claim].task); }
        AcknowledgeMoves(s, claim, backoff);
        hide AcknowledgePublication;
        if AcknowledgePublication(s, claim, backoff) != s {
          var c := s.tasks.claims[claim];
          MoveOrNothing(s, c.task, Acknowledge(c.outboxId, c.generation, claim, backoff),
                        AcknowledgePublication(s, claim, backoff));
        }
      case ReconcileStep(t) =>
        if t in s.tasks.rows {
          hide ReconcileJob;
          InvPlaces(s, t);
          ReconcileMoves(s, t);
          MoveOrNothing(s, t, Reconcile, ReconcileJob(s, t));
        }
      case ReconcileCancelledStep(t) =>
        if t in s.tasks.rows {
          hide ReconcileCancelled;
          InvPlaces(s, t);
          ReconcileCancelledMoves(s, t);
          MoveOrNothing(s, t, ReconcileCancellation, ReconcileCancelled(s, t));
        }
    }
  }

  lemma UpkeepKeepsInv(s: State, step: Upkeep)
    requires Inv(s)
    ensures Inv(AfterUpkeep(s, step)) && Forward(s, AfterUpkeep(s, step))
  {
    ForwardIsReflexive(s);
    hide Inv, Forward, ExpireSnapshot, Collect, Unlink, FinishDeletion, PurgeJob, SweepDataset, SweepTransformation;
    UpkeepIsForward(s, step);
    match step {
      case ExpireStep(path) => RetentionStepsKeepInv(s, path, false, 0, 0);
      case CollectStep(path) => CollectionStepsKeepInv(s, path);
      case UnlinkStep(path) => CollectionStepsKeepInv(s, path);
      case FinishStep(path) => CollectionStepsKeepInv(s, path);
      case PurgeStep(t) => PurgeKeepsInv(s, t);
      case SweepDatasetStep(d) => SweepDatasetKeepsInv(s, d);
      case SweepTransformationStep(x) => SweepTransformationFindsNothing(s, x);
      case ReportsStep(paths) => ReportsKeepInv(s, paths);
    }
  }

  lemma EnvironmentIsForward(s: State, step: Step)
    ensures step.Tick? ==> Forward(s, Apply(s, step))
  {
    if step.Tick? { QuietIsForward(s, Apply(s, step)); }
  }

  /** Every committed transaction, file action and environment event keeps the invariant and only goes forward. */
  lemma StepKeepsInv(s: State, step: Step)
    requires Inv(s)
    ensures Inv(Apply(s, step)) && Forward(s, Apply(s, step))
  {
    EnvironmentIsForward(s, step);
    hide Inv, Forward, AfterAdmission, AfterWork, AfterProfiling, AfterWriting, AfterRequest, AfterDispatch,
      AfterUpkeep;
    match step {
      case Tick(elapsed) => TickKeepsInv(s, elapsed);
      case Admit(admission) => AdmissionKeepsInv(s, admission);
      case Work(attempt) => AttemptKeepsInv(s, attempt);
      case Profiles(profiling) => ProfilingKeepsInv(s, profiling);
      case Write(writing) => WritingKeepsInv(s, writing);
      case Ask(request) => RequestKeepsInv(s, request);
      case Deliver(dispatch) => DispatchKeepsInv(s, dispatch);
      case Maintain(upkeep) => UpkeepKeepsInv(s, upkeep);
    }
  }

  lemma {:induction false} RunKeepsInv(s: State, steps: seq<Step>)
    requires Inv(s)
    ensures Inv(Run(s, steps)) && Forward(s, Run(s, steps))
    decreases steps
  {
    ForwardIsReflexive(s);
    hide Inv, Forward, Apply;
    if steps != [] {
      StepKeepsInv(s, steps[0]);
      RunKeepsInv(Apply(s, steps[0]), steps[1..]);
      ForwardIsTransitive(s, Apply(s, steps[0]), Run(s, steps));
    }
  }

  ghost predicate Reachable(s: State) {
    exists settings: Settings, steps: seq<Step> :: s == Run(Initial(settings), steps)
  }

  lemma ReachableSatisfiesInv(s: State)
    requires Reachable(s)
    ensures Inv(s)
  {
    var settings: Settings, steps: seq<Step> :| s == Run(Initial(settings), steps);
    InitialSatisfiesInv(settings);
    hide Inv, Run;
    RunKeepsInv(Initial(settings), steps);
  }

  /** A reachable store and any later one: both satisfy the invariant, and nothing went back. */
  lemma ReachableRunsForward(s: State, steps: seq<Step>)
    requires Reachable(s)
    ensures Inv(s) && Inv(Run(s, steps)) && Forward(s, Run(s, steps))
  {
    hide Inv, Forward, Reachable, Apply;
    ReachableSatisfiesInv(s);
    RunKeepsInv(s, steps);
  }

  lemma InitialRunsForward(s: State) returns (settings: Settings)
    requires Reachable(s)
    ensures Forward(Initial(settings), s)
  {
    hide Inv, Forward, Apply;
    var first: Settings, steps: seq<Step> :| s == Run(Initial(first), steps);
    settings := first;
    InitialSatisfiesInv(settings);
    RunKeepsInv(Initial(settings), steps);
  }
}
