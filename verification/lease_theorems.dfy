/**
 Who can end an unexpired lease: its holder, and one call that carries no fence. The
 error path of an upload request fails the request's own job without a token, also when
 a worker has already leased it.
 */
module LeaseTheorems {
  import opened Prelude
  import opened JobService
  import opened TaskProtocol
  import opened Tables
  import opened ArtifactService
  import opened Protocol
  import opened Invariants
  import opened ForwardOnly
  import opened TaskRefinement
  import opened Safety
  import opened TaskTheorems
  import StorageTheorems

  ghost predicate Held(s: State, task: nat, holder: Token, deadline: Time) {
    task in s.tasks.rows && HeldUntil(s.tasks.rows[task], holder, deadline)
  }

  /** The step is the error path of the upload request that reserved this task, and fails its job. */
  predicate TellsUploadFailed(s: State, step: Step, task: nat) {
    && RowFires(s, task, Fail(None))
    && match step
       case Admit(AbortUploadStep(d)) =>
         && d in s.intake.uploading && d in s.intake.uploads && s.intake.uploads[d].task == task
         && OwnImportJob(s, task, d)
       case Admit(FailReservationStep(t)) => t == task && Unstaged(s, task)
       case _ => false
  }

  /** Every act that presents a token belongs to a call of that worker. */
  lemma ActsOfWorkers(s: State, step: Step, task: nat, act: Act)
    requires ActOf(s, step) == Some(TaskAct(task, act)) && Presents(act).Some?
    ensures ByWorker(step, task, Presents(act).value)
  {
    hide Fires, MayPublish, MayPublishProfile, BackoffCeiling;
  }

  /** An unfenced failure is the error path of an upload request, and nothing else. */
  lemma UnfencedFailuresComeFromUploads(s: State, step: Step, task: nat)
    ensures ActOf(s, step) == Some(TaskAct(task, Fail(None))) <==> TellsUploadFailed(s, step, task)
  {
    hide Fires, MayPublish, MayPublishProfile, BackoffCeiling;
  }

  lemma RegistrationKeepsHeld(s: State, step: Step, task: nat, holder: Token, deadline: Time)
    requires Registers(step) && Held(s, task, holder, deadline)
    ensures Held(Apply(s, step), task, holder, deadline) && Apply(s, step).tasks.rows[task] == s.tasks.rows[task]
  {
    hide HasCapacity, ProfileActive, KeyUsed, TaskUsed;
  }

  /**
   Exactly when one step takes an unexpired lease from a silent holder. While it is kept,
   the job's row changes in its status alone, and only towards cancellation.
   */
  lemma StepTakesLeaseIff(s: State, step: Step, task: nat, holder: Token, deadline: Time)
    requires Held(s, task, holder, deadline) && s.env.now < deadline && !ByWorker(step, task, holder)
    ensures Held(Apply(s, step), task, holder, deadline) <==> !TellsUploadFailed(s, step, task)
    ensures Held(Apply(s, step), task, holder, deadline) ==>
              var before, after := s.tasks.rows[task].job, Apply(s, step).tasks.rows[task].job;
              after == before || after == before.(status := CancellationRequested)
  {
    UnfencedFailuresComeFromUploads(s, step, task);
    if Registers(step) {
      RegistrationKeepsHeld(s, step, task, holder, deadline);
      RegistrationIsElsewhere(s, step, task);
    } else {
      hide Apply, ActOf, Fires, Perform, ByWorker, Applied, TellsUploadFailed, HeldUntil;
      StepMovesRows(s, step);
      var moved := ActOf(s, step);
      if moved.Some? && moved.value.task == task {
        var act := moved.value.act;
        if Presents(act).Some? { ActsOfWorkers(s, step, task, act); }
        AppliedPerforms(s.tasks.rows[task], act, s.env.now);
        LeaseIsTakenIff(s.tasks.rows[task], act, s.env.now, holder, deadline);
        if act == Fail(None) { UnfencedFailureNeedsActive(s.tasks.rows[task], s.env.now, holder, deadline); }
      }
    }
  }

  lemma UnfencedFailureNeedsActive(row: Row, now: Time, holder: Token, deadline: Time)
    requires HeldUntil(row, holder, deadline) && Fires(row, Fail(None), now)
    ensures row.job.status.Started?
  {
  }

  // ---------------------------------------------------------------- whole runs

  /** Neither the holder nor the error path of the task's own upload request speaks during the run. */
  predicate Undisturbed(s: State, steps: seq<Step>, task: nat, holder: Token)
    decreases steps
  {
    steps != [] ==>
      && !ByWorker(steps[0], task, holder) && !TellsUploadFailed(s, steps[0], task)
      && Undisturbed(Apply(s, steps[0]), steps[1..], task, holder)
  }

  lemma ClockRuns(s: State, steps: seq<Step>)
    requires Inv(s)
    ensures s.env.now <= Run(s, steps).env.now
  {
    hide Inv, Forward, Run;
    RunKeepsInv(s, steps);
    EnvironmentAdvances(s, Run(s, steps));
  }

  lemma {:induction false} UndisturbedLeaseIsKept(s: State, steps: seq<Step>, task: nat, holder: Token, deadline: Time)
    requires Inv(s) && Held(s, task, holder, deadline) && Run(s, steps).env.now < deadline
    requires Undisturbed(s, steps, task, holder)
    ensures Held(Run(s, steps), task, holder, deadline)
    ensures Run(s, steps).tasks.rows[task].job.attemptCount == s.tasks.rows[task].job.attemptCount
    decreases steps
  {
    hide Inv, Forward, Apply, ByWorker, TellsUploadFailed, HeldUntil;
    if steps != [] {
      ClockRuns(s, steps);
      StepKeepsInv(s, steps[0]);
      StepTakesLeaseIff(s, steps[0], task, holder, deadline);
      UndisturbedLeaseIsKept(Apply(s, steps[0]), steps[1..], task, holder, deadline);
    }
  }

  /**
   An unexpired lease is exclusive: in every run of the whole protocol, the lease is lost
   before its deadline only if its holder spoke, or the task's own upload request was
   told that it failed. Otherwise holder, deadline and attempt count stay.
   */
  lemma UnexpiredLeaseIsExclusive(s: State, steps: seq<Step>, task: nat, holder: Token, deadline: Time)
    requires Reachable(s) && Held(s, task, holder, deadline) && Run(s, steps).env.now < deadline
    requires Undisturbed(s, steps, task, holder)
    ensures Held(Run(s, steps), task, holder, deadline)
    ensures Run(s, steps).tasks.rows[task].job.attemptCount == s.tasks.rows[task].job.attemptCount
  {
    hide Reachable, Inv, Run, Undisturbed, HeldUntil;
    ReachableSatisfiesInv(s);
    UndisturbedLeaseIsKept(s, steps, task, holder, deadline);
  }

  // ---------------------------------------------------------------- heartbeats

  /** The job is being worked on by `holder`, whose lease lasts at least until `deadline`. */
  ghost predicate WorkedOn(s: State, task: nat, holder: Token, deadline: Time) {
    && task in s.tasks.rows && s.tasks.rows[task].job.status.Started?
    && s.tasks.rows[task].job.attemptToken == Some(holder)
    && s.tasks.rows[task].job.leaseExpiresAt.Some? && s.tasks.rows[task].job.leaseExpiresAt.value >= deadline
  }

  /** The holder ends its attempt, somebody asks it to stop, or its own upload request is told it failed. */
  predicate EndsWork(s: State, step: Step, task: nat, holder: Token) {
    || TellsUploadFailed(s, step, task)
    || step == Ask(RequestStopStep(task))
    || (ByWorker(step, task, holder)
        && var moved := ActOf(s, step);
           moved.Some? && moved.value.task == task && !moved.value.act.Renew?)
  }

  /** Until when the lease must last after a step: a heartbeat sets it, beginning the work may shorten it. */
  function DeadlineAfter(s: State, step: Step, task: nat, holder: Token, deadline: Time): Time {
    match step
    case Work(RenewStep(t, token, seconds, _)) =>
      if t == task && token == holder then s.env.now + Max(1, seconds) else deadline
    case Work(BeginImportStep(t, token)) =>
      if t == task && token == holder then Min(deadline, s.env.now + JOB_LEASE_SECONDS) else deadline
    case Profiles(BeginProfileStep(t, token)) =>
      if t == task && token == holder then Min(deadline, s.env.now + JOB_LEASE_SECONDS) else deadline
    case _ => deadline
  }

  /** The clock never reaches the deadline that the heartbeats so far have set. */
  predicate Attended(s: State, steps: seq<Step>, task: nat, holder: Token, deadline: Time)
    decreases steps
  {
    && s.env.now < deadline
    && (steps != [] ==>
          && !EndsWork(s, steps[0], task, holder)
          && Attended(Apply(s, steps[0]), steps[1..], task, holder, DeadlineAfter(s, steps[0], task, holder, deadline)))
  }

  /** The deadline set by the last heartbeat of a run. */
  function LastDeadline(s: State, steps: seq<Step>, task: nat, holder: Token, deadline: Time): Time
    decreases steps
  {
    if steps == [] then deadline
    else LastDeadline(Apply(s, steps[0]), steps[1..], task, holder, DeadlineAfter(s, steps[0], task, holder, deadline))
  }

  /** Which steps renew a lease, and for how long. */
  lemma RenewalsAreCalls(s: State, step: Step, task: nat, token: Token, seconds: int, report: Option<int>)
    requires ActOf(s, step) == Some(TaskAct(task, Renew(token, seconds, report)))
    ensures || step == Work(RenewStep(task, token, seconds, report))
            || (step == Work(BeginImportStep(task, token)) && seconds == JOB_LEASE_SECONDS)
            || (step == Profiles(BeginProfileStep(task, token)) && seconds == JOB_LEASE_SECONDS)
  {
    hide Fires, MayPublish, MayPublishProfile, BackoffCeiling;
  }

  lemma StopsAreRequests(s: State, step: Step, task: nat)
    requires ActOf(s, step) == Some(TaskAct(task, RequestCancellation))
    ensures step == Ask(RequestStopStep(task))
  {
    hide Fires, MayPublish, MayPublishProfile, BackoffCeiling;
  }

  /** A heartbeat of the holder before its deadline always takes effect. */
  lemma HeartbeatFires(s: State, task: nat, holder: Token, seconds: int, report: Option<int>, deadline: Time)
    requires WorkedOn(s, task, holder, deadline) && s.env.now < deadline
    ensures ActOf(s, Work(RenewStep(task, holder, seconds, report)))
            == Some(TaskAct(task, Renew(holder, seconds, report)))
  {
  }

  lemma WorkGoesOn(s: State, step: Step, task: nat, holder: Token, deadline: Time)
    requires WorkedOn(s, task, holder, deadline) && s.env.now < deadline && !EndsWork(s, step, task, holder)
    ensures WorkedOn(Apply(s, step), task, holder, DeadlineAfter(s, step, task, holder, deadline))
    ensures Apply(s, step).tasks.rows[task].job.attemptCount == s.tasks.rows[task].job.attemptCount
  {
    var row := s.tasks.rows[task];
    if Registers(step) {
      RegistrationKeepsHeld(s, step, task, holder, row.job.leaseExpiresAt.value);
    } else {
      UnfencedFailuresComeFromUploads(s, step, task);
      hide Apply, ActOf, Fires, Perform, ByWorker, Applied, TellsUploadFailed;
      StepMovesRows(s, step);
      var moved := ActOf(s, step);
      if step.Work? && step.attempt.RenewStep? && step.attempt.task == task && step.attempt.token == holder {
        HeartbeatFires(s, task, holder, step.attempt.seconds, step.attempt.report, deadline);
      }
      if moved.Some? && moved.value.task == task {
        var act := moved.value.act;
        if Presents(act).Some? { ActsOfWorkers(s, step, task, act); }
        if act.RequestCancellation? { StopsAreRequests(s, step, task); }
        if act.Renew? { RenewalsAreCalls(s, step, task, act.token, act.seconds, act.report); }
        AppliedPerforms(row, act, s.env.now);
        WorkingRowStays(row, act, s.env.now, holder, row.job.leaseExpiresAt.value);
      }
    }
  }

  lemma {:induction false} AttendedWorkGoesOn(s: State, steps: seq<Step>, task: nat, holder: Token, deadline: Time)
    requires WorkedOn(s, task, holder, deadline) && Attended(s, steps, task, holder, deadline)
    ensures WorkedOn(Run(s, steps), task, holder, LastDeadline(s, steps, task, holder, deadline))
    ensures Run(s, steps).tasks.rows[task].job.attemptCount == s.tasks.rows[task].job.attemptCount
    decreases steps
  {
    hide Apply, EndsWork, DeadlineAfter;
    if steps != [] {
      WorkGoesOn(s, steps[0], task, holder, deadline);
      AttendedWorkGoesOn(Apply(s, steps[0]), steps[1..], task, holder,
                         DeadlineAfter(s, steps[0], task, holder, deadline));
    }
  }

  /**
   What heartbeats are for: a worker that renews before each deadline keeps its job, in
   every run, for as long as it does, unless it ends the attempt itself, is asked to
   stop, or its own upload request is told that it failed. Nobody recovers the job,
   nobody else acquires it, and no attempt is counted.
   */
  lemma HeartbeatsKeepTheJob(s: State, steps: seq<Step>, task: nat, holder: Token, deadline: Time)
    requires Held(s, task, holder, deadline) && s.tasks.rows[task].job.status.Started?
    requires Attended(s, steps, task, holder, deadline)
    ensures WorkedOn(Run(s, steps), task, holder, LastDeadline(s, steps, task, holder, deadline))
    ensures Run(s, steps).tasks.rows[task].job.attemptCount == s.tasks.rows[task].job.attemptCount
  {
    AttendedWorkGoesOn(s, steps, task, holder, deadline);
  }

  // ---------------------------------------------------------------- exactly which leases are safe

  predicate Silent(steps: seq<Step>, task: nat, holder: Token) {
    forall i | 0 <= i < |steps| :: !ByWorker(steps[i], task, holder)
  }

  /** The job is an import, not being cancelled, whose upload request is still running. */
  predicate UploadStillRuns(s: State, task: nat)
    requires task in s.tasks.rows
  {
    var job := s.tasks.rows[task].job;
    job.status.Started? && job.kind.Import? && (job.dataset.None? || job.dataset.value in s.intake.uploading)
  }

  lemma FailureNeedsRunningUpload(s: State, step: Step, task: nat, holder: Token, deadline: Time)
    requires Held(s, task, holder, deadline) && TellsUploadFailed(s, step, task)
    ensures UploadStillRuns(s, task)
  {
  }

  /** Once a leased job's upload request has ended, it never runs again. */
  lemma UploadStaysEnded(s: State, z: State, task: nat)
    requires Inv(s) && Forward(s, z) && task in s.tasks.rows && task in z.tasks.rows && !UploadStillRuns(s, task)
    requires s.tasks.rows[task].job.status.Started? || s.tasks.rows[task].job.status.CancellationRequested?
    requires var before, after := s.tasks.rows[task].job, z.tasks.rows[task].job;
             after == before || after == before.(status := CancellationRequested)
    ensures !UploadStillRuns(z, task)
  {
    hide StorageOk, RecordsOk, RowsOk, TargetsOk, RunsAgree, EvaluationsAgree, CapacityOk, EnvironmentForward,
      DatasetsForward, RunsForward, EventsForward, ManifestsForward, ArtifactsForward, OnlyFresh, AbortsForward;
  }

  lemma {:induction false} SilentRunsAreUndisturbed(s: State, steps: seq<Step>, task: nat, holder: Token,
                                                    deadline: Time)
    requires Inv(s) && Held(s, task, holder, deadline) && Run(s, steps).env.now < deadline
    requires !UploadStillRuns(s, task) && Silent(steps, task, holder)
    ensures Undisturbed(s, steps, task, holder)
    decreases steps
  {
    if steps != [] {
      var next := Apply(s, steps[0]);
      assert !ByWorker(steps[0], task, holder);
      assert Silent(steps[1..], task, holder) by {
        forall i | 0 <= i < |steps[1..]| ensures !ByWorker(steps[1..][i], task, holder) {
          assert steps[1..][i] == steps[i + 1];
        }
      }
      hide Inv, Forward, Apply, ByWorker, Silent, TellsUploadFailed, UploadStillRuns;
      ClockRuns(s, steps);
      StepKeepsInv(s, steps[0]);
      if TellsUploadFailed(s, steps[0], task) { FailureNeedsRunningUpload(s, steps[0], task, holder, deadline); }
      StepTakesLeaseIff(s, steps[0], task, holder, deadline);
      UploadStaysEnded(s, next, task);
      SilentRunsAreUndisturbed(next, steps[1..], task, holder, deadline);
    }
  }

  /** The one step by which the running upload request takes the lease. */
  lemma TakingStep(s: State, task: nat, holder: Token, deadline: Time) returns (step: Step)
    requires Inv(s) && Held(s, task, holder, deadline) && s.env.now < deadline && UploadStillRuns(s, task)
    ensures !ByWorker(step, task, holder) && TellsUploadFailed(s, step, task)
    ensures Apply(s, step).env == s.env
  {
    hide StorageOk, RecordsOk, RowsOk, TargetsOk, RunsAgree, EvaluationsAgree, CapacityOk;
    var dataset := s.tasks.rows[task].job.dataset;
    step := Admit(if dataset.None? then FailReservationStep(task) else AbortUploadStep(dataset.value));
  }

  /**
   The exact condition: a lease survives every run in which its holder is silent, up to
   its deadline, if and only if its job is not an import whose upload request still runs.
   */
  lemma LeaseSurvivesEveryRunIff(s: State, task: nat, holder: Token, deadline: Time)
    requires Reachable(s) && Held(s, task, holder, deadline) && s.env.now < deadline
    ensures (forall steps: seq<Step> :: Silent(steps, task, holder) && Run(s, steps).env.now < deadline ==>
              Held(Run(s, steps), task, holder, deadline))
            <==> !UploadStillRuns(s, task)
  {
    hide Reachable, Inv, Run, Apply, ByWorker, HeldUntil, TellsUploadFailed, UploadStillRuns, Undisturbed;
    ReachableSatisfiesInv(s);
    if UploadStillRuns(s, task) {
      var step := TakingStep(s, task, holder, deadline);
      StepTakesLeaseIff(s, step, task, holder, deadline);
      RunOne(s, step);
      assert Silent([step], task, holder) && !Held(Run(s, [step]), task, holder, deadline);
    } else {
      forall steps: seq<Step> | Silent(steps, task, holder) && Run(s, steps).env.now < deadline
        ensures Held(Run(s, steps), task, holder, deadline) {
        SilentRunsAreUndisturbed(s, steps, task, holder, deadline);
        UndisturbedLeaseIsKept(s, steps, task, holder, deadline);
      }
    }
  }

  lemma RunOne(s: State, step: Step)
    ensures Run(s, [step]) == Apply(s, step)
  {
    hide Apply;
    assert [step][1..] == [];
    assert Run(s, [step]) == Run(Apply(s, step), []);
  }

  /** A worker takes the lease of a staged import while its upload request still runs. */
  lemma LeasedImport(s: State, task: nat, d: nat)
    requires StorageTheorems.JustStaged(s, task, d)
    ensures var z := Apply(s, Work(StartStep(task, 60, 0)));
            && Held(z, task, s.env.nextId, s.env.now + 60) && z.env.now == s.env.now
            && UploadStillRuns(z, task)
  {
  }

  /** The losing run exists: a job FAILED in the middle of an unexpired lease whose holder never spoke. */
  lemma AnUnexpiredLeaseCanBeLost() returns (s: State, step: Step, holder: Token, deadline: Time)
    ensures Reachable(s) && Held(s, 7, holder, deadline) && Apply(s, step).env.now < deadline
    ensures !ByWorker(step, 7, holder)
    ensures 7 in Apply(s, step).tasks.rows && Apply(s, step).tasks.rows[7].job.status.Failure?
  {
    var first := Initial(Settings(300, 300, 1, 0, 0, 1));
    var a, b, c := Admit(ReserveImportStep(7, 1)), Admit(StageUploadStep(7, Bytes(1, 1, 0))), Work(StartStep(7, 60, 0));
    StorageTheorems.StagingRun(first, 7);
    var staged := Apply(Apply(first, a), b);
    LeasedImport(staged, 7, 0);
    s, holder, deadline := Apply(staged, c), staged.env.nextId, staged.env.now + 60;
    ThreeSteps(first, a, b, c);
    assert Reachable(s);
    hide Reachable, Inv, Apply, UploadStillRuns, TellsUploadFailed, ByWorker, HeldUntil;
    ReachableSatisfiesInv(s);
    step := TakingStep(s, 7, holder, deadline);
    UploadFailureFails(s, step, 7);
  }

  lemma UploadFailureFails(s: State, step: Step, task: nat)
    requires TellsUploadFailed(s, step, task)
    ensures task in Apply(s, step).tasks.rows && Apply(s, step).tasks.rows[task].job.status.Failure?
  {
    UnfencedFailuresComeFromUploads(s, step, task);
    hide Apply, ActOf, Fires;
    StepMovesRows(s, step);
  }

  lemma ThreeSteps(s: State, a: Step, b: Step, c: Step)
    ensures Run(s, [a, b, c]) == Apply(Apply(Apply(s, a), b), c)
  {
    hide Apply;
    var s2 := Apply(Apply(s, a), b);
    assert [a, b, c][1..] == [b, c] && [b, c][1..] == [c] && [c][1..] == [];
    assert Run(s, [a, b, c]) == Run(Apply(s, a), [b, c]) == Run(s2, [c]) == Run(Apply(s2, c), []);
  }
}
