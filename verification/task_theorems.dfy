/** The single-task theorems, lifted to whole runs of the protocol. */
module TaskTheorems {
  import opened Prelude
  import opened JobService
  import opened TaskProtocol
  import opened Tables
  import opened ArtifactService
  import opened Protocol
  import opened Invariants
  import opened ForwardOnly
  import opened TaskRefinement
  import opened Safety

  // ---------------------------------------------------------------- the acts of one task

  function ActFor(s: State, step: Step, task: nat): seq<Timed> {
    var moved := ActOf(s, step);
    if moved.Some? && moved.value.task == task then [Timed(s.env.now, moved.value.act)] else []
  }

  /** What a run does to one task, and when. */
  function Trace(s: State, steps: seq<Step>, task: nat): seq<Timed>
    decreases steps
  {
    if steps == [] then [] else ActFor(s, steps[0], task) + Trace(Apply(s, steps[0]), steps[1..], task)
  }

  /** Job retention does not purge the task during the run. */
  predicate Retains(s: State, steps: seq<Step>, task: nat)
    decreases steps
  {
    task in s.tasks.rows && (steps != [] ==> Retains(Apply(s, steps[0]), steps[1..], task))
  }

  /** A row is registered without a token and without a claim. */
  lemma RegisteredRowsAreUnheld(s: State, step: Step, task: nat)
    requires Registers(step) && task in Apply(s, step).tasks.rows
    ensures if task in s.tasks.rows then Apply(s, step).tasks.rows[task] == s.tasks.rows[task]
            else var row := Apply(s, step).tasks.rows[task];
                 row.job.attemptToken.None? && (row.outbox.Some? ==> row.outbox.value.claimToken.None?)
  {
    hide HasCapacity, ProfileActive, KeyUsed, TaskUsed;
  }

  lemma RegistrationIsElsewhere(s: State, step: Step, task: nat)
    requires Registers(step) && task in s.tasks.rows && task in Apply(s, step).tasks.rows
    ensures ActOf(s, step).None? && Apply(s, step).tasks.rows[task] == s.tasks.rows[task]
  {
    hide HasCapacity, MayAdmit, MayTransform;
    RegisteredRowsAreUnheld(s, step, task);
  }

  lemma StepProjects(s: State, step: Step, task: nat)
    requires task in s.tasks.rows && task in Apply(s, step).tasks.rows
    ensures var acts := ActFor(s, step, task);
            Apply(s, step).tasks.rows[task]
                == (if acts == [] then s.tasks.rows[task] else Applied(s.tasks.rows[task], acts[0].act, s.env.now))
  {
    hide Apply, ActOf, Fires, Perform;
    if Registers(step) {
      RegistrationIsElsewhere(s, step, task);
    } else {
      StepMovesRows(s, step);
    }
  }

  /** Tokens and claims a step takes are drawn at that step. */
  lemma ActsAreFresh(s: State, step: Step)
    ensures var moved := ActOf(s, step);
            moved.Some? ==> (moved.value.act.Start? ==> moved.value.act.token == s.env.nextId)
                            && (moved.value.act.Claim? ==> moved.value.act.claim == s.env.nextId)
  {
    hide Fires, MayPublish, MayPublishProfile, BackoffCeiling;
  }

  predicate FreshFrom(run: seq<Timed>, nextId: nat) {
    forall i | 0 <= i < |run| :: (run[i].act.Start? ==> run[i].act.token >= nextId)
        && (run[i].act.Claim? ==> run[i].act.claim >= nextId)
  }

  predicate Until(run: seq<Timed>, now: Time) {
    forall i | 0 <= i < |run| :: run[i].now <= now
  }

  lemma EnvironmentAdvances(s: State, z: State)
    requires Forward(s, z)
    ensures s.env.now <= z.env.now && s.env.nextId <= z.env.nextId && s.env.settings == z.env.settings
  {
  }

  lemma ClockedLater(run: seq<Timed>, from: Time, earlier: Time)
    requires Clocked(run, from) && earlier <= from
    ensures Clocked(run, earlier)
  {
  }

  /**
   The protocol refines the single-task machine: a retained task's row at the end of
   a run is its row at the start moved by its own acts, at times that never go back and
   with tokens and claims never used before.
   */
  lemma {:induction false} RunProjects(s: State, steps: seq<Step>, task: nat)
    requires Inv(s) && Retains(s, steps, task)
    ensures task in Run(s, steps).tasks.rows
    ensures Run(s, steps).tasks.rows[task] == Ran(s.tasks.rows[task], Trace(s, steps, task))
    ensures Clocked(Trace(s, steps, task), s.env.now) && Until(Trace(s, steps, task), Run(s, steps).env.now)
    ensures FreshFrom(Trace(s, steps, task), s.env.nextId)
    decreases steps
  {
    hide Inv, Forward, Apply, ActOf, Applied;
    if steps != [] {
      var next, rest := Apply(s, steps[0]), steps[1..];
      assert task in next.tasks.rows;
      StepKeepsInv(s, steps[0]);
      RunKeepsInv(next, rest);
      EnvironmentAdvances(s, next);
      EnvironmentAdvances(next, Run(next, rest));
      StepProjects(s, steps[0], task);
      ActsAreFresh(s, steps[0]);
      RunProjects(next, rest, task);
      var acts, later := ActFor(s, steps[0], task), Trace(next, rest, task);
      assert Trace(s, steps, task) == acts + later;
      if acts == [] {
        assert acts + later == later;
        ClockedLater(later, next.env.now, s.env.now);
      } else {
        assert (acts + later)[1..] == later && (acts + later)[0] == acts[0];
        ClockedLater(later, next.env.now, s.env.now);
      }
    }
  }

  lemma RowIsSound(s: State, task: nat)
    requires Inv(s) && task in s.tasks.rows
    ensures Sound(s.tasks.rows[task])
  {
    hide StorageOk, RecordsOk, ImportsOk, TargetsOk, RunsAgree, EvaluationsAgree, CapacityOk, Sound;
  }

  // ---------------------------------------------------------------- fencing

  /** Every call a worker makes on the strength of its attempt token. */
  predicate ByWorker(step: Step, task: nat, token: Token) {
    match step
    case Work(attempt) => !attempt.StartStep? && attempt.task == task && attempt.token == token
    case Profiles(profiling) => !profiling.ComputeProfileStep? && profiling.task == task && profiling.token == token
    case Write(ReserveOutputStep(t, k)) => t == task && k == token
    case Write(ReservePreviewStep(t, k)) => t == task && k == token
    case Write(PublishStep(t, k, _)) => t == task && k == token
    case Write(RecoverStep(t, k)) => t == task && k == token
    case _ => false
  }

  /** A worker whose token is not the row's own changes nothing at all, in any table. */
  lemma ForeignTokenChangesNothing(s: State, step: Step, task: nat, token: Token)
    requires ByWorker(step, task, token)
        && (task in s.tasks.rows ==> s.tasks.rows[task].job.attemptToken != Some(token))
    ensures Apply(s, step) == s
  {
    match step {
      case Work(attempt) => ForeignAttempt(s, attempt);
      case Profiles(profiling) =>
      case Write(writing) =>
      case _ =>
    }
  }

  lemma ForeignAttempt(s: State, attempt: Attempt)
    requires !attempt.StartStep?
    requires attempt.task in s.tasks.rows ==> s.tasks.rows[attempt.task].job.attemptToken != Some(attempt.token)
    ensures AfterWork(s, attempt) == s
  {
  }

  /** Nobody holds the task under `stale`: it is not registered, or held by another token or none. */
  predicate Foreign(s: State, task: nat, stale: Token) {
    task in s.tasks.rows ==> s.tasks.rows[task].job.attemptToken != Some(stale)
  }

  /** An act gives a row a token only by acquiring the job with it. */
  lemma ActDraws(row: Row, act: Act, now: Time, token: Token)
    requires row.job.attemptToken != Some(token) && !Acquires(act, token)
    ensures Applied(row, act, now).job.attemptToken != Some(token)
  {
  }

  lemma StepKeepsForeign(s: State, step: Step, task: nat, stale: Token)
    requires Foreign(s, task, stale) && stale < s.env.nextId
    ensures Foreign(Apply(s, step), task, stale)
  {
    var z := Apply(s, step);
    if task in z.tasks.rows {
      if Registers(step) {
        RegisteredRowsAreUnheld(s, step, task);
      } else {
        hide Apply, ActOf, Fires, Perform, Applied;
        StepMovesRows(s, step);
        ActsAreFresh(s, step);
        var moved := ActOf(s, step);
        if moved.Some? && moved.value.task == task {
          ActDraws(s.tasks.rows[task], moved.value.act, s.env.now, stale);
          AppliedPerforms(s.tasks.rows[task], moved.value.act, s.env.now);
        }
      }
    }
  }

  lemma AppliedPerforms(row: Row, act: Act, now: Time)
    ensures Fires(row, act, now) ==> Applied(row, act, now) == Perform(row, act, now)
  {
    hide Fires, Perform;
  }

  lemma {:induction false} RunKeepsForeign(s: State, steps: seq<Step>, task: nat, stale: Token)
    requires Inv(s) && Foreign(s, task, stale) && stale < s.env.nextId
    ensures Foreign(Run(s, steps), task, stale)
    decreases steps
  {
    hide Inv, Forward, Apply, Foreign;
    if steps != [] {
      StepKeepsInv(s, steps[0]);
      EnvironmentAdvances(s, Apply(s, steps[0]));
      StepKeepsForeign(s, steps[0], task, stale);
      RunKeepsForeign(Apply(s, steps[0]), steps[1..], task, stale);
    }
  }

  /**
   Fencing over whole runs: once a task is not held by `stale`, a token handed out
   earlier, no later call presenting that token changes the store, however many other
   attempts, recoveries, purges and users come between.
   */
  lemma StaleWorkersAreFenced(s: State, steps: seq<Step>, task: nat, stale: Token, call: Step)
    requires Reachable(s) && Foreign(s, task, stale) && stale < s.env.nextId
    requires ByWorker(call, task, stale)
    ensures Apply(Run(s, steps), call) == Run(s, steps)
  {
    hide Reachable, Inv, Apply, Run, Foreign, ByWorker;
    ReachableSatisfiesInv(s);
    RunKeepsForeign(s, steps, task, stale);
    StrangersChangeNothing(Run(s, steps), call, task, stale);
  }

  lemma StrangersChangeNothing(s: State, call: Step, task: nat, stale: Token)
    requires Foreign(s, task, stale) && ByWorker(call, task, stale)
    ensures Apply(s, call) == s
  {
    hide Apply, ByWorker;
    ForeignTokenChangesNothing(s, call, task, stale);
  }

  // ---------------------------------------------------------------- publication of work

  /** A claim taken earlier that its publication no longer carries, or that was never taken. */
  predicate Superseded(s: State, claim: nat) {
    && claim < s.env.nextId
    && (claim in s.tasks.claims && s.tasks.claims[claim].task in s.tasks.rows ==>
          Unclaimed(s.tasks.rows[s.tasks.claims[claim].task], claim))
  }

  predicate Unclaimed(row: Row, claim: nat) {
    row.outbox.Some? ==> row.outbox.value.claimToken != Some(claim)
  }

  lemma ActKeepsUnclaimed(row: Row, act: Act, now: Time, claim: nat)
    requires Unclaimed(row, claim) && (act.Claim? ==> act.claim != claim)
    ensures Unclaimed(Applied(row, act, now), claim)
  {
  }

  /** A claim's record is written once, when its token is drawn. */
  lemma ClaimsAreKept(s: State, step: Step, claim: nat)
    requires claim < s.env.nextId
    ensures claim in Apply(s, step).tasks.claims <==> claim in s.tasks.claims
    ensures claim in s.tasks.claims ==> Apply(s, step).tasks.claims[claim] == s.tasks.claims[claim]
  {
    hide Fires, Perform, HasCapacity, MayAdmit, MayTransform, MayPublish, MayPublishProfile, MayUndo, BackoffCeiling;
  }

  lemma StepKeepsUnclaimed(s: State, step: Step, task: nat, claim: nat)
    requires claim < s.env.nextId && (task in s.tasks.rows ==> Unclaimed(s.tasks.rows[task], claim))
    ensures task in Apply(s, step).tasks.rows ==> Unclaimed(Apply(s, step).tasks.rows[task], claim)
  {
    if task in Apply(s, step).tasks.rows {
      if Registers(step) {
        RegisteredRowsAreUnheld(s, step, task);
      } else {
        hide Apply, ActOf, Fires, Perform, Applied, Unclaimed;
        StepMovesRows(s, step);
        ActsAreFresh(s, step);
        var moved := ActOf(s, step);
        if moved.Some? && moved.value.task == task {
          ActKeepsUnclaimed(s.tasks.rows[task], moved.value.act, s.env.now, claim);
          AppliedPerforms(s.tasks.rows[task], moved.value.act, s.env.now);
        }
      }
    }
  }

  lemma StepKeepsSuperseded(s: State, step: Step, claim: nat)
    requires Inv(s) && Superseded(s, claim)
    ensures Superseded(Apply(s, step), claim)
  {
    hide Inv, Forward, Apply, Unclaimed;
    StepKeepsInv(s, step);
    EnvironmentAdvances(s, Apply(s, step));
    ClaimsAreKept(s, step, claim);
    if claim in s.tasks.claims { StepKeepsUnclaimed(s, step, s.tasks.claims[claim].task, claim); }
  }

  lemma {:induction false} RunKeepsSuperseded(s: State, steps: seq<Step>, claim: nat)
    requires Inv(s) && Superseded(s, claim)
    ensures Superseded(Run(s, steps), claim)
    decreases steps
  {
    hide Inv, Forward, Apply, Superseded;
    if steps != [] {
      StepKeepsInv(s, steps[0]);
      StepKeepsSuperseded(s, steps[0], claim);
      RunKeepsSuperseded(Apply(s, steps[0]), steps[1..], claim);
    }
  }

  /** A superseded dispatcher's acknowledgement changes nothing, in any later store. */
  lemma StaleAcknowledgementsAreFenced(s: State, steps: seq<Step>, claim: nat, backoff: Option<nat>)
    requires Reachable(s) && Superseded(s, claim)
    ensures AcknowledgePublication(Run(s, steps), claim, backoff) == Run(s, steps)
  {
    hide Reachable, Inv, Run, Superseded, AcknowledgePublication;
    ReachableSatisfiesInv(s);
    RunKeepsSuperseded(s, steps, claim);
    SupersededIsRefused(Run(s, steps), claim, backoff);
  }

  lemma SupersededIsRefused(s: State, claim: nat, backoff: Option<nat>)
    requires Superseded(s, claim)
    ensures AcknowledgePublication(s, claim, backoff) == s
  {
    hide BackoffCeiling;
  }

  /** A publication that is waiting, say after a rearm, is published only under a claim taken afterwards. */
  lemma WaitingPublicationNeedsAFreshClaim(s: State, steps: seq<Step>, task: nat) returns (i: nat)
    requires Reachable(s) && Retains(s, steps, task)
    requires s.tasks.rows[task].outbox.Some? && s.tasks.rows[task].outbox.value.status.Waiting?
    requires task in Run(s, steps).tasks.rows && Run(s, steps).tasks.rows[task].outbox.Some?
    requires Run(s, steps).tasks.rows[task].outbox.value.status.Published?
    ensures i < |Trace(s, steps, task)| && Trace(s, steps, task)[i].act.Claim?
    ensures Trace(s, steps, task)[i].act.claim >= s.env.nextId
  {
    hide Reachable, Inv, Run, Fires, Perform, Applied;
    ReachableSatisfiesInv(s);
    RunProjects(s, steps, task);
    var trace := Trace(s, steps, task);
    if forall j | 0 <= j < |trace| :: !trace[j].act.Claim? {
      PublicationNeedsAClaim(s.tasks.rows[task], trace);
    }
    i :| 0 <= i < |trace| && trace[i].act.Claim?;
  }

  // ---------------------------------------------------------------- termination

  /**
   In every run a retained job makes at most `4 * maxAttempts + 3` moves, counts exactly
   the leases it was given, never more than its budget, and once finished stays as it is.
   */
  lemma JobsComeToRest(s: State, steps: seq<Step>, task: nat)
    requires Reachable(s) && Retains(s, steps, task)
    ensures task in Run(s, steps).tasks.rows
    ensures var before, after, trace := s.tasks.rows[task], Run(s, steps).tasks.rows[task], Trace(s, steps, task);
            && CountJobMoves(before, trace) <= 4 * before.job.maxAttempts + 3
            && after.job.attemptCount == before.job.attemptCount + CountAcquisitions(before, trace)
            && after.job.attemptCount <= after.job.maxAttempts == before.job.maxAttempts
            && (before.job.Terminal() ==> after.job == before.job)
  {
    hide Reachable, Inv, Run, Fires, Perform;
    ReachableSatisfiesInv(s);
    RunProjects(s, steps, task);
    RowIsSound(s, task);
    JobMovesAreBounded(s.tasks.rows[task], Trace(s, steps, task));
    if s.tasks.rows[task].job.Terminal() {
      TerminalIsAbsorbing(s.tasks.rows[task], Trace(s, steps, task));
    }
  }

  /**
   Every transition of a task uses up its measure; only a lost publication gives two
   units back. So with finitely many losses every task comes to rest, and by
   `RestIsTerminal` a published one rests only when its job is finished.
   */
  lemma TransitionsUseUpTheMeasure(s: State, steps: seq<Step>, task: nat)
    requires Reachable(s) && Retains(s, steps, task)
    ensures task in Run(s, steps).tasks.rows && Sound(s.tasks.rows[task]) && Sound(Run(s, steps).tasks.rows[task])
    ensures CountAdvances(s.tasks.rows[task], Trace(s, steps, task)) + Measure(Run(s, steps).tasks.rows[task])
            <= Measure(s.tasks.rows[task]) + 2 * CountLosses(s.tasks.rows[task], Trace(s, steps, task))
  {
    hide Reachable, Inv, Run, Fires, Perform, Measure;
    ReachableSatisfiesInv(s);
    RunProjects(s, steps, task);
    RowIsSound(s, task);
    TransitionsAreBounded(s.tasks.rows[task], Trace(s, steps, task));
  }

  /** The scheduler's next call for a task. */
  function MaintenanceStep(s: State, task: nat): Step
    requires task in s.tasks.rows
  {
    match MaintenanceAct(s.tasks.rows[task], s.env.nextId, s.env.settings.outboxClaimTtl)
    case Reconcile => Deliver(ReconcileStep(task))
    case ReconcileCancellation => Deliver(ReconcileCancelledStep(task))
    case _ => Deliver(ClaimStep(task))
  }

  /**
   No enqueued job is stuck: from a deadline that can be computed from its row on, the
   scheduler's next call for it is enabled and moves it.
   */
  lemma NoJobIsStuck(s: State, task: nat)
    requires Reachable(s) && task in s.tasks.rows && s.tasks.rows[task].outbox.Some?
        && !s.tasks.rows[task].job.Terminal()
    requires Deadline(s.tasks.rows[task], s.env.settings.outboxClaimTtl) <= s.env.now
    ensures var z := Apply(s, MaintenanceStep(s, task));
            task in z.tasks.rows && z.tasks.rows[task] != s.tasks.rows[task]
            && z.tasks.rows[task]
                == Applied(s.tasks.rows[task],
                           MaintenanceAct(s.tasks.rows[task], s.env.nextId, s.env.settings.outboxClaimTtl), s.env.now)
  {
    hide Reachable, Inv, Sound;
    ReachableSatisfiesInv(s);
    RowIsSound(s, task);
    MaintenanceIsEnabled(s.tasks.rows[task], s.env.nextId, s.env.settings.outboxClaimTtl, s.env.now);
    MaintenanceIsDispatch(s, task);
  }

  lemma MaintenanceIsDispatch(s: State, task: nat)
    requires task in s.tasks.rows
    requires Fires(s.tasks.rows[task], MaintenanceAct(s.tasks.rows[task], s.env.nextId, s.env.settings.outboxClaimTtl),
                   s.env.now)
    ensures var z := Apply(s, MaintenanceStep(s, task));
            task in z.tasks.rows
            && z.tasks.rows[task]
                == Applied(s.tasks.rows[task],
                           MaintenanceAct(s.tasks.rows[task], s.env.nextId, s.env.settings.outboxClaimTtl), s.env.now)
  {
    var step := MaintenanceStep(s, task);
    hide Fires, Perform;
    DispatchMovesRows(s, step.dispatch);
  }

  // ---------------------------------------------------------------- retention of finished jobs

  lemma FinishedRowStays(row: Row, act: Act, now: Time)
    requires Sound(row) && row.job.Terminal()
    ensures Applied(row, act, now).job == row.job
  {
  }

  lemma OnlyOldRowsAreRemoved(s: State, step: Step, task: nat)
    requires task in s.tasks.rows && task !in Apply(s, step).tasks.rows
    ensures var job := s.tasks.rows[task].job;
            job.Terminal() && job.finishedAt.Some? && s.env.now - job.finishedAt.value > s.env.settings.jobRetention
  {
    if Registers(step) {
      hide HasCapacity, ProfileActive, KeyUsed, TaskUsed;
    } else {
      hide Apply, Fires, Perform, ActOf;
      StepMovesRows(s, step);
    }
  }

  lemma FinishedJobStays(s: State, step: Step, task: nat)
    requires Inv(s) && task in s.tasks.rows && s.tasks.rows[task].job.Terminal() && task in Apply(s, step).tasks.rows
    ensures Apply(s, step).tasks.rows[task].job == s.tasks.rows[task].job
  {
    RowIsSound(s, task);
    StepProjects(s, step, task);
    hide Inv, Apply, Applied, Sound;
    var acts := ActFor(s, step, task);
    if acts != [] { FinishedRowStays(s.tasks.rows[task], acts[0].act, s.env.now); }
  }

  lemma {:induction false} FinishedJobsStay(s: State, steps: seq<Step>, task: nat)
    requires Inv(s) && task in s.tasks.rows && s.tasks.rows[task].job.Terminal()
    requires s.tasks.rows[task].job.finishedAt.Some?
    requires Run(s, steps).env.now <= s.tasks.rows[task].job.finishedAt.value + s.env.settings.jobRetention
    ensures task in Run(s, steps).tasks.rows && Run(s, steps).tasks.rows[task].job == s.tasks.rows[task].job
    decreases steps
  {
    hide Inv, Forward, Apply;
    if steps != [] {
      var next := Apply(s, steps[0]);
      StepKeepsInv(s, steps[0]);
      EnvironmentAdvances(s, next);
      RunKeepsInv(s, steps);
      EnvironmentAdvances(s, Run(s, steps));
      if task !in next.tasks.rows { OnlyOldRowsAreRemoved(s, steps[0], task); }
      assert task in next.tasks.rows;
      FinishedJobStays(s, steps[0], task);
      FinishedJobsStay(next, steps[1..], task);
    }
  }

  /** A finished job can be looked up, unchanged, until its retention is over. */
  lemma FinishedJobsAreRetained(s: State, steps: seq<Step>, task: nat)
    requires Reachable(s) && task in s.tasks.rows && s.tasks.rows[task].job.Terminal()
    requires s.tasks.rows[task].job.finishedAt.Some?
    requires Run(s, steps).env.now <= s.tasks.rows[task].job.finishedAt.value + s.env.settings.jobRetention
    ensures task in Run(s, steps).tasks.rows && Run(s, steps).tasks.rows[task].job == s.tasks.rows[task].job
  {
    hide Reachable, Inv, Run;
    ReachableSatisfiesInv(s);
    FinishedJobsStay(s, steps, task);
  }

  // ---------------------------------------------------------------- agreement

  /** A retained transformation job and its record stand at the same outcome after every commit. */
  lemma RunsNeverDisagree(s: State, task: nat)
    requires Reachable(s) && task in s.tasks.rows && s.tasks.rows[task].job.kind.Transform?
    ensures var job := s.tasks.rows[task].job;
            && job.transformation.Some? && job.transformation.value in s.domain.transformations
            && var record := s.domain.transformations[job.transformation.value];
               && record.task == task
               && (record.Published() <==> job.status.Success?)
               && (record.status.FailedRun? <==> job.status.Failure?)
               && (record.status.CancelledRun? <==> job.status.Cancelled?)
               && (record.status.Admitted? <==> job.OccupiesCapacity())
  {
    hide Reachable, Inv;
    ReachableSatisfiesInv(s);
    AgreementHolds(s, task);
  }

  lemma AgreementHolds(s: State, task: nat)
    requires Inv(s) && task in s.tasks.rows
    ensures var job := s.tasks.rows[task].job;
            && (job.kind.Transform? ==>
                  && job.transformation.Some? && job.transformation.value in s.domain.transformations
                  && s.domain.transformations[job.transformation.value].task == task
                  && Agree(job, s.domain.transformations[job.transformation.value]))
            && (job.kind.Quality? ==> task in s.domain.evaluations && EvaluationAgrees(job, s.domain.evaluations[task]))
  {
    hide StorageOk, RecordsOk, ImportsOk, TargetsOk, CapacityOk, Sound, Agree, EvaluationAgrees;
  }

  /** The same for quality evaluations; evidence is present exactly on success. */
  lemma EvaluationsNeverDisagree(s: State, task: nat)
    requires Reachable(s) && task in s.tasks.rows && s.tasks.rows[task].job.kind.Quality?
    ensures task in s.domain.evaluations
    ensures var job, evaluation := s.tasks.rows[task].job, s.domain.evaluations[task];
            && (evaluation.status.Evaluated? <==> job.status.Success?)
            && (evaluation.status.EvaluationError? <==> job.status.Failure?)
            && (evaluation.status.EvaluationCancelled? <==> job.status.Cancelled?)
            && (evaluation.Open() <==> job.OccupiesCapacity())
            && (job.status.Success? ==> evaluation.passed.Some?)
  {
    hide Reachable, Inv;
    ReachableSatisfiesInv(s);
    AgreementHolds(s, task);
  }

  /** No account ever has more unfinished jobs than its limit. */
  lemma CapacityIsRespected(s: State, owner: nat)
    requires Reachable(s)
    ensures |ActiveTasks(s.tasks.rows, owner)| <= s.env.settings.maxActiveJobs
  {
    hide Reachable, StorageOk, RecordsOk, RowsOk, ImportsOk, TargetsOk, RunsAgree, EvaluationsAgree;
    ReachableSatisfiesInv(s);
  }

  /** A stored profile and the stored dimensions always describe the bytes recorded for the current head. */
  lemma ProfileDescribesHead(s: State, d: nat)
    requires Reachable(s) && d in s.domain.datasets
    ensures s.domain.datasets[d].storedPath in s.storage.snapshots
    ensures var dataset, head := s.domain.datasets[d], s.storage.snapshots[s.domain.datasets[d].storedPath].digest;
            && (dataset.profile.Some? ==> dataset.profile.value.source == head)
            && (dataset.Imported() ==> dataset.rowCount == Some(head.rows) && dataset.columnCount == Some(head.columns))
  {
    hide Reachable, Inv;
    ReachableSatisfiesInv(s);
    DescriptionHolds(s, d);
  }

  lemma DescriptionHolds(s: State, d: nat)
    requires Inv(s) && d in s.domain.datasets
    ensures s.domain.datasets[d].storedPath in s.storage.snapshots
    ensures var dataset, head := s.domain.datasets[d], s.storage.snapshots[s.domain.datasets[d].storedPath].digest;
            && (dataset.profile.Some? ==> dataset.profile.value.source == head)
            && (dataset.Imported() ==> dataset.rowCount == Some(head.rows) && dataset.columnCount == Some(head.columns))
  {
    hide JobsOk, ManifestsOk, FilesOk, VersionsUnique, ArtifactsOk, WritersOk, DoomedOk,
      TransformationsOk, TasksOk, ProfilersOk, LiveOk, LeasesOk, HistoryOk, ReceiptsOk;
  }
}
