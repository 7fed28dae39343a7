/**
 One task: its durable job row together with its publication intent.

 `Act` lists every committed transaction of the job and outbox services that touches
 the pair. Acts carry the values their caller holds (attempt token, claim token, the
 generation captured when the claim was taken); nothing is assumed about which caller
 runs when, so stale workers and stale dispatchers are ordinary acts.
 */
module TaskProtocol {
  import opened Prelude
  import opened JobService

  const DELIVERY_ACK_TIMEOUT_SECONDS := 120

  datatype Publication = Waiting | Dispatching | Published | Withdrawn

  datatype Outbox = Outbox(
    id: nat,
    status: Publication,
    attempts: nat,
    generation: nat,
    claimToken: Option<nat>,
    availableAt: Time,
    claimedAt: Option<Time>,
    publishedAt: Option<Time>,
    failed: bool)              // `last_error` is set: the broker's latest answer was a refusal
  {
    /** The `_due` predicate of the dispatcher. */
    predicate Due(now: Time, claimTtl: nat) {
      || (status.Waiting? && availableAt <= now)
      || (status.Dispatching? && (claimedAt.None? || claimedAt.value <= now - claimTtl))
    }

    predicate AcknowledgementOverdue(now: Time) {
      status.Published? && publishedAt.Some? && publishedAt.value <= now - DELIVERY_ACK_TIMEOUT_SECONDS
    }
  }

  datatype Row = Row(job: Job, outbox: Option<Outbox>)

  datatype Act =
    | Enqueue(dataset: nat, outboxId: nat)
    | Start(token: Token, seconds: int, progress: int)
    | Renew(token: Token, seconds: int, report: Option<int>)
    | Succeed(token: Token)
    | Retry(token: Token)
    | Fail(caller: Option<Token>)
    | RequestCancellation
    | CancelPending
    | CancelByWorker(token: Token)
    | Claim(claim: nat, claimTtl: nat)
    | Acknowledge(outboxId: nat, generation: nat, claim: nat, backoff: Option<nat>)
    | Reconcile
    | ReconcileCancellation

  function Enqueued(id: nat, now: Time): Outbox {
    Outbox(id, Waiting, 0, 1, None, now, None, None, false)
  }

  function Rearmed(box: Outbox, now: Time): Outbox {
    box.(status := Waiting, generation := box.generation + 1, claimToken := None,
         claimedAt := None, publishedAt := None, availableAt := now)
  }

  function Withdraw(box: Option<Outbox>): Option<Outbox> {
    if box.None? then None
    else if box.value.status.Withdrawn? then box
    else Some(box.value.(status := Withdrawn, claimToken := None, claimedAt := None))
  }

  /** Reconciliation applies to lost attempts, unacknowledged deliveries and spent budgets. */
  predicate NeedsRecovery(row: Row, now: Time) {
    || (row.job.status.Started? && row.job.LeaseExpired(now))
    || (row.job.status.Pending? &&
        (row.job.Exhausted() || (row.outbox.Some? && row.outbox.value.AcknowledgementOverdue(now))))
  }

  /** Recovery ends the job when no attempt is left or nothing can be published again. */
  predicate Unrecoverable(row: Row) {
    row.job.Exhausted() || row.outbox.None? || row.outbox.value.status.Withdrawn?
  }

  predicate Fires(row: Row, act: Act, now: Time) {
    match act
    case Enqueue(_, _) =>
      row.job.kind.Import? && row.job.status.Pending? && row.job.dataset.None? && row.outbox.None?
    case Start(_, _, _) => row.job.MayStart(now)
    case Renew(token, _, _) => row.job.OwnsLease(token, now)
    case Succeed(token) => row.job.OwnsLease(token, now)
    case Retry(token) => row.job.MayRetry(token, now) && row.outbox.Some?
    case Fail(caller) => row.job.MayFail(caller, now)
    case RequestCancellation => row.job.Active()
    case CancelPending => row.job.status.Pending?
    case CancelByWorker(token) => row.job.MayCancel(token, now)
    case Claim(_, ttl) => row.outbox.Some? && row.outbox.value.Due(now, ttl)
    case Acknowledge(id, generation, claim, _) =>
      && row.outbox.Some? && row.outbox.value.id == id
      && row.outbox.value.status.Dispatching?
      && row.outbox.value.generation == generation
      && row.outbox.value.claimToken == Some(claim)
    case Reconcile => NeedsRecovery(row, now)
    case ReconcileCancellation => row.job.status.CancellationRequested? && row.job.LeaseExpired(now)
  }

  function Perform(row: Row, act: Act, now: Time): Row
    requires Fires(row, act, now)
  {
    match act
    case Enqueue(dataset, id) => Row(row.job.(dataset := Some(dataset)), Some(Enqueued(id, now)))
    case Start(token, seconds, progress) => row.(job := Acquired(row.job, token, seconds, progress, now))
    case Renew(_, seconds, report) =>
      var job := Renewed(row.job, seconds, now);
      row.(job := if report.Some? then job.(progress := report.value) else job)
    case Succeed(_) => row.(job := Finished(row.job, Success, now))
    case Retry(_) => Row(Requeued(row.job), Some(Rearmed(row.outbox.value, now)))
    case Fail(_) => row.(job := Finished(row.job, Failure, now))
    case RequestCancellation => row.(job := row.job.(status := CancellationRequested))
    case CancelPending => Row(Finished(row.job, Cancelled, now), Withdraw(row.outbox))
    case CancelByWorker(_) => row.(job := Finished(row.job, Cancelled, now))
    case Claim(claim, _) =>
      var box := row.outbox.value;
      row.(outbox := Some(box.(status := Dispatching, claimToken := Some(claim), claimedAt := Some(now),
                               attempts := box.attempts + 1)))
    case Acknowledge(_, _, _, backoff) =>
      var box := row.outbox.value.(claimToken := None, claimedAt := None);
      row.(outbox := Some(
             if backoff.None? then box.(status := Published, publishedAt := Some(now), failed := false)
             else box.(status := Waiting, availableAt := now + backoff.value, failed := true)))
    case Reconcile =>
      if Unrecoverable(row) then Row(Finished(row.job, Failure, now), Withdraw(row.outbox))
      else Row(Requeued(row.job), Some(Rearmed(row.outbox.value, now)))
    case ReconcileCancellation => Row(Finished(row.job, Cancelled, now), Withdraw(row.outbox))
  }

  /** An act whose WHERE clause matches no row changes nothing. */
  function Applied(row: Row, act: Act, now: Time): Row {
    if Fires(row, act, now) then Perform(row, act, now) else row
  }

  // ---------------------------------------------------------------- row invariant

  predicate JobSound(job: Job) {
    && job.attemptCount <= job.maxAttempts
    && (job.status.Pending? ==> job.attemptToken.None? && job.leaseExpiresAt.None? && !job.Exhausted())
    && (job.status.Started? ==> job.attemptToken.Some? && job.leaseExpiresAt.Some?)
    && (job.status.CancellationRequested? ==> job.attemptToken.Some? == job.leaseExpiresAt.Some?)
    && (job.Terminal() <==> job.finishedAt.Some?)
    && (job.Terminal() ==> job.leaseExpiresAt.None?)
  }

  predicate OutboxSound(row: Row) {
    row.outbox.Some? ==>
      var box := row.outbox.value;
      && (box.status.Withdrawn? ==> row.job.Terminal())
      && (box.status.Published? ==> box.publishedAt.Some?)
      && (box.status.Dispatching? <==> box.claimToken.Some?)
      && (box.claimToken.Some? <==> box.claimedAt.Some?)
  }

  predicate Sound(row: Row) {
    JobSound(row.job) && OutboxSound(row)
  }

  lemma ActKeepsSound(row: Row, act: Act, now: Time)
    requires Sound(row)
    ensures Sound(Applied(row, act, now))
  {
  }

  // ---------------------------------------------------------------- runs of one task

  datatype Timed = Timed(now: Time, act: Act)

  /** The database clock never goes backwards. */
  predicate Clocked(run: seq<Timed>, from: Time) {
    run == [] || (from <= run[0].now && Clocked(run[1..], run[0].now))
  }

  function Ran(row: Row, run: seq<Timed>): Row
    decreases run
  {
    if run == [] then row else Ran(Applied(row, run[0].act, run[0].now), run[1..])
  }

  /** The attempt token an act presents as its authority, if it presents one. */
  function Presents(act: Act): Option<Token> {
    match act
    case Renew(token, _, _) => Some(token)
    case Succeed(token) => Some(token)
    case Retry(token) => Some(token)
    case Fail(caller) => caller
    case CancelByWorker(token) => Some(token)
    case _ => None
  }

  predicate Acquires(act: Act, token: Token) {
    act.Start? && act.token == token
  }

  /**
   Fencing: once `stale` is not the row's token, no run that does not acquire it afresh
   gives it back, and no call presenting it at any later time changes the row.
   */
  lemma {:induction false} StaleTokenIsPowerless(row: Row, run: seq<Timed>, stale: Token, act: Act, now: Time)
    requires row.job.attemptToken != Some(stale)
    requires forall i :: 0 <= i < |run| ==> !Acquires(run[i].act, stale)
    requires Presents(act) == Some(stale)
    ensures Ran(row, run).job.attemptToken != Some(stale)
    ensures Applied(Ran(row, run), act, now) == Ran(row, run)
    decreases run
  {
    if run != [] {
      assert !Acquires(run[0].act, stale);
      forall i | 0 <= i < |run[1..]| ensures !Acquires(run[1..][i].act, stale) {
        assert run[1..][i] == run[i + 1];
      }
      StaleTokenIsPowerless(Applied(row, run[0].act, run[0].now), run[1..], stale, act, now);
    }
  }

  predicate HeldUntil(row: Row, holder: Token, deadline: Time) {
    && (row.job.status.Started? || row.job.status.CancellationRequested?)
    && row.job.attemptToken == Some(holder)
    && row.job.leaseExpiresAt == Some(deadline)
  }

  /** An acquired attempt is counted and holds the job for the seconds it asked for, one at the least. */
  lemma AcquisitionLeases(row: Row, token: Token, seconds: int, progress: int, now: Time)
    requires Fires(row, Start(token, seconds, progress), now)
    ensures var after := Applied(row, Start(token, seconds, progress), now);
            && after.job.status.Started? && HeldUntil(after, token, now + Max(1, seconds))
            && after.job.attemptCount == row.job.attemptCount + 1 && after.job.progress == progress
            && after.outbox == row.outbox
  {
  }

  /** A renewal moves the deadline to the seconds it asked for from now, one at the least, and counts no attempt. */
  lemma RenewalExtends(row: Row, token: Token, seconds: int, report: Option<int>, now: Time)
    requires Fires(row, Renew(token, seconds, report), now)
    ensures var after := Applied(row, Renew(token, seconds, report), now);
            && after.job.status.Started? && HeldUntil(after, token, now + Max(1, seconds))
            && after.job.attemptCount == row.job.attemptCount
            && after.job.progress == (if report.Some? then report.value else row.job.progress)
            && after.outbox == row.outbox
  {
  }

  /** What a leased job's row goes through while nobody ends the attempt or asks it to stop. */
  lemma WorkingRowStays(row: Row, act: Act, now: Time, holder: Token, deadline: Time)
    requires row.job.status.Started? && HeldUntil(row, holder, deadline) && now < deadline
    requires act != Fail(None) && !act.RequestCancellation? && (Presents(act) == Some(holder) ==> act.Renew?)
    ensures var after := Applied(row, act, now);
            && after.job.status.Started? && after.job.attemptCount == row.job.attemptCount
            && HeldUntil(after, holder,
                         if act.Renew? && act.token == holder then now + Max(1, act.seconds) else deadline)
  {
  }

  /**
   Before its deadline one thing alone takes a lease from a silent holder: a failure
   recorded with no attempt token, while the job is not already being cancelled.
   */
  lemma LeaseIsTakenIff(row: Row, act: Act, now: Time, holder: Token, deadline: Time)
    requires HeldUntil(row, holder, deadline) && now < deadline && Presents(act) != Some(holder)
    ensures HeldUntil(Applied(row, act, now), holder, deadline) <==> !(act == Fail(None) && row.job.status.Started?)
    ensures act != Fail(None) ==> Applied(row, act, now).job == row.job
                                  || Applied(row, act, now).job == row.job.(status := CancellationRequested)
  {
  }

  /**
   An unexpired lease is never taken by a fenced call: whatever other workers,
   dispatchers, users and maintenance do before the deadline, the holder and its
   deadline stay, and the attempt is not counted again.
   */
  lemma {:induction false} UnexpiredLeaseIsKept(row: Row, run: seq<Timed>, from: Time, holder: Token, deadline: Time)
    requires HeldUntil(row, holder, deadline)
    requires Clocked(run, from)
    requires forall i :: 0 <= i < |run| ==> run[i].now < deadline
    requires forall i :: 0 <= i < |run| ==> Presents(run[i].act) != Some(holder) && run[i].act != Fail(None)
    ensures HeldUntil(Ran(row, run), holder, deadline)
    ensures Ran(row, run).job.attemptCount == row.job.attemptCount
    decreases run
  {
    if run != [] {
      var first := run[0];
      assert first.now < deadline && Presents(first.act) != Some(holder) && first.act != Fail(None);
      forall i | 0 <= i < |run[1..]| ensures run[1..][i].now < deadline && Presents(run[1..][i].act) != Some(holder)
          && run[1..][i].act != Fail(None) {
        assert run[1..][i] == run[i + 1];
      }
      LeaseIsTakenIff(row, first.act, first.now, holder, deadline);
      UnexpiredLeaseIsKept(Applied(row, first.act, first.now), run[1..], first.now, holder, deadline);
    }
  }

  /** Terminal statuses are absorbing, and a finished attempt budget stays within its limit. */
  lemma {:induction false} TerminalIsAbsorbing(row: Row, run: seq<Timed>)
    requires Sound(row) && row.job.Terminal()
    ensures Ran(row, run).job == row.job
    decreases run
  {
    if run != [] {
      ActKeepsSound(row, run[0].act, run[0].now);
      TerminalIsAbsorbing(Applied(row, run[0].act, run[0].now), run[1..]);
    }
  }

  // ---------------------------------------------------------------- no lost wake-up

  /** A claim that is no longer the row's own can never again be acknowledged. */
  lemma {:induction false} StaleClaimIsPowerless(row: Row, run: seq<Timed>, act: Act, now: Time)
    requires act.Acknowledge? && (row.outbox.Some? ==> row.outbox.value.claimToken != Some(act.claim))
    requires forall i :: 0 <= i < |run| ==> !(run[i].act.Claim? && run[i].act.claim == act.claim)
    ensures Applied(Ran(row, run), act, now) == Ran(row, run)
    decreases run
  {
    if run != [] {
      assert !(run[0].act.Claim? && run[0].act.claim == act.claim);
      forall i | 0 <= i < |run[1..]| ensures !(run[1..][i].act.Claim? && run[1..][i].act.claim == act.claim) {
        assert run[1..][i] == run[i + 1];
      }
      StaleClaimIsPowerless(Applied(row, run[0].act, run[0].now), run[1..], act, now);
    }
  }

  /** After a rearm, no acknowledgement taken under an earlier generation changes anything. */
  lemma {:induction false} OldGenerationIsPowerless(row: Row, run: seq<Timed>, act: Act, now: Time)
    requires act.Acknowledge? && row.outbox.Some? && act.generation < row.outbox.value.generation
    ensures Ran(row, run).outbox.Some? && row.outbox.value.generation <= Ran(row, run).outbox.value.generation
    ensures Applied(Ran(row, run), act, now) == Ran(row, run)
    decreases run
  {
    if run != [] {
      OldGenerationIsPowerless(Applied(row, run[0].act, run[0].now), run[1..], act, now);
    }
  }

  /** A waiting publication is published only by a claim taken from then on. */
  lemma PublicationNeedsAClaim(row: Row, run: seq<Timed>)
    requires row.outbox.Some? && row.outbox.value.status.Waiting?
    requires forall i :: 0 <= i < |run| ==> !run[i].act.Claim?
    ensures Ran(row, run).outbox.Some?
    ensures Ran(row, run).outbox.value.status.Waiting? || Ran(row, run).outbox.value.status.Withdrawn?
  {
    WaitingOrWithdrawn(row, run);
  }

  lemma {:induction false} WaitingOrWithdrawn(row: Row, run: seq<Timed>)
    requires row.outbox.Some? && (row.outbox.value.status.Waiting? || row.outbox.value.status.Withdrawn?)
    requires forall i :: 0 <= i < |run| ==> !run[i].act.Claim?
    ensures Ran(row, run).outbox.Some?
    ensures Ran(row, run).outbox.value.status.Waiting? || Ran(row, run).outbox.value.status.Withdrawn?
    decreases run
  {
    if run != [] {
      assert !run[0].act.Claim?;
      forall i | 0 <= i < |run[1..]| ensures !run[1..][i].act.Claim? {
        assert run[1..][i] == run[i + 1];
      }
      WaitingOrWithdrawn(Applied(row, run[0].act, run[0].now), run[1..]);
    }
  }

  /** A withdrawn publication stays exactly as it is. */
  lemma {:induction false} WithdrawalIsFinal(row: Row, run: seq<Timed>)
    requires Sound(row) && row.outbox.Some? && row.outbox.value.status.Withdrawn?
    ensures Ran(row, run) == row
    decreases run
  {
    if run != [] {
      assert Applied(row, run[0].act, run[0].now) == row;
      WithdrawalIsFinal(row, run[1..]);
    }
  }

  // ---------------------------------------------------------------- termination

  function Phase(job: Job): nat {
    match job.status
    case Started => 3
    case Pending => 2
    case CancellationRequested => 1
    case _ => 0
  }

  function JobMeasure(job: Job): nat
    requires job.attemptCount <= job.maxAttempts
  {
    if job.Terminal() then 0 else 4 * (job.maxAttempts - job.attemptCount) + Phase(job)
  }

  function OutboxMeasure(box: Option<Outbox>): nat {
    if box.None? then 3
    else match box.value.status
      case Waiting => 2
      case Dispatching => 1
      case _ => 0
  }

  function Measure(row: Row): nat
    requires Sound(row)
  {
    3 * JobMeasure(row.job) + OutboxMeasure(row.outbox)
  }

  /** Publications the broker did not accept, or accepted without a worker ever starting. */
  predicate Loses(row: Row, act: Act, now: Time) {
    && Fires(row, act, now)
    && ( || (act.Claim? && row.outbox.value.status.Dispatching?)
         || (act.Acknowledge? && act.backoff.Some?)
         || (act.Reconcile? && row.job.status.Pending?))
  }

  /** Everything else that changes the pair, apart from renewing a held lease. */
  predicate Advances(row: Row, act: Act, now: Time) {
    Fires(row, act, now) && !act.Renew? && !Loses(row, act, now)
  }

  lemma ActChangesMeasure(row: Row, act: Act, now: Time)
    requires Sound(row)
    ensures Sound(Applied(row, act, now))
    ensures Advances(row, act, now) ==> Measure(Applied(row, act, now)) < Measure(row)
    ensures Loses(row, act, now) ==> Measure(Applied(row, act, now)) <= Measure(row) + 2
    ensures !Advances(row, act, now) && !Loses(row, act, now) ==> Measure(Applied(row, act, now)) == Measure(row)
  {
  }

  function CountAdvances(row: Row, run: seq<Timed>): nat
    decreases run
  {
    if run == [] then 0
    else (if Advances(row, run[0].act, run[0].now) then 1 else 0)
         + CountAdvances(Applied(row, run[0].act, run[0].now), run[1..])
  }

  function CountLosses(row: Row, run: seq<Timed>): nat
    decreases run
  {
    if run == [] then 0
    else (if Loses(row, run[0].act, run[0].now) then 1 else 0)
         + CountLosses(Applied(row, run[0].act, run[0].now), run[1..])
  }

  /**
   Termination: in every run the number of transitions of a task is bounded by its
   remaining budget plus two for each lost publication. With finitely many losses
   every run therefore comes to rest.
   */
  lemma {:induction false} TransitionsAreBounded(row: Row, run: seq<Timed>)
    requires Sound(row)
    ensures Sound(Ran(row, run))
    ensures CountAdvances(row, run) + Measure(Ran(row, run)) <= Measure(row) + 2 * CountLosses(row, run)
    decreases run
  {
    if run != [] {
      ActChangesMeasure(row, run[0].act, run[0].now);
      TransitionsAreBounded(Applied(row, run[0].act, run[0].now), run[1..]);
    }
  }

  /** A transition of the job itself: its status or its attempt count changes. */
  predicate MovesJob(row: Row, act: Act, now: Time) {
    var after := Applied(row, act, now).job;
    after.status != row.job.status || after.attemptCount != row.job.attemptCount
  }

  function CountJobMoves(row: Row, run: seq<Timed>): nat
    decreases run
  {
    if run == [] then 0
    else (if MovesJob(row, run[0].act, run[0].now) then 1 else 0)
         + CountJobMoves(Applied(row, run[0].act, run[0].now), run[1..])
  }

  predicate AcquiresLease(row: Row, act: Act, now: Time) {
    act.Start? && Fires(row, act, now)
  }

  lemma MoveLowersMeasure(row: Row, act: Act, now: Time)
    requires Sound(row)
    ensures Sound(Applied(row, act, now))
    ensures JobMeasure(Applied(row, act, now).job) + (if MovesJob(row, act, now) then 1 else 0) <= JobMeasure(row.job)
    ensures Applied(row, act, now).job.attemptCount
        == row.job.attemptCount + (if AcquiresLease(row, act, now) then 1 else 0)
    ensures Applied(row, act, now).job.maxAttempts == row.job.maxAttempts
  {
  }

  function CountAcquisitions(row: Row, run: seq<Timed>): nat
    decreases run
  {
    if run == [] then 0
    else (if AcquiresLease(row, run[0].act, run[0].now) then 1 else 0)
         + CountAcquisitions(Applied(row, run[0].act, run[0].now), run[1..])
  }

  /**
   Unconditional bound, lost publications or not: a new job makes at most
   4 * maxAttempts + 2 moves, and its counter records exactly the leases acquired,
   of which there are never more than its budget.
   */
  lemma {:induction false} JobMovesAreBounded(row: Row, run: seq<Timed>)
    requires Sound(row)
    ensures Sound(Ran(row, run))
    ensures CountJobMoves(row, run) + JobMeasure(Ran(row, run).job) <= JobMeasure(row.job)
    ensures Ran(row, run).job.attemptCount == row.job.attemptCount + CountAcquisitions(row, run)
    ensures Ran(row, run).job.attemptCount <= Ran(row, run).job.maxAttempts == row.job.maxAttempts
    decreases run
  {
    if run != [] {
      MoveLowersMeasure(row, run[0].act, run[0].now);
      JobMovesAreBounded(Applied(row, run[0].act, run[0].now), run[1..]);
    }
  }

  // ---------------------------------------------------------------- progress

  /** The latest time by which maintenance alone must be able to move an unfinished task. */
  function Deadline(row: Row, claimTtl: nat): Time
    requires row.outbox.Some?
  {
    var box := row.outbox.value;
    if !row.job.status.Pending? then
      if row.job.leaseExpiresAt.Some? then row.job.leaseExpiresAt.value else 0
    else match box.status
      case Waiting => box.availableAt
      case Dispatching => if box.claimedAt.Some? then box.claimedAt.value + claimTtl else 0
      case _ => if box.publishedAt.Some? then box.publishedAt.value + DELIVERY_ACK_TIMEOUT_SECONDS else 0
  }

  /** The dispatcher's or scheduler's next call for the task. */
  function MaintenanceAct(row: Row, claim: nat, claimTtl: nat): Act {
    if row.job.status.CancellationRequested? then ReconcileCancellation
    else if row.job.status.Started? || (row.outbox.Some? && row.outbox.value.status.Published?) then Reconcile
    else Claim(claim, claimTtl)
  }

  /**
   No unfinished task is stuck: from its deadline on, at every later time, the
   maintenance call fires and changes the pair, without any help from a worker, a user
   or the broker. A job it ends or requeues is withdrawn or due again at once.
   */
  lemma MaintenanceIsEnabled(row: Row, claim: nat, claimTtl: nat, now: Time)
    requires Sound(row) && !row.job.Terminal() && row.outbox.Some?
    requires Deadline(row, claimTtl) <= now
    ensures var act := MaintenanceAct(row, claim, claimTtl);
            var after := Applied(row, act, now);
            && Fires(row, act, now)
            && after != row
            && (act.Claim? ==> after.outbox.value.claimToken == Some(claim))
            && (!act.Claim? ==>
                    after.job.Terminal() || (after.job.status.Pending? && after.outbox.value.Due(now, claimTtl)))
  {
  }

  /**
   Before the deadline of a leased job none of the three maintenance calls touches the
   job, so `Deadline` is not an over-estimate there.
   */
  lemma MaintenanceWaitsForLease(row: Row, claim: nat, claimTtl: nat, now: Time)
    requires Sound(row) && row.outbox.Some?
    requires row.job.status.Started? || row.job.status.CancellationRequested?
    requires row.job.leaseExpiresAt.Some?
    ensures (Applied(row, Reconcile, now).job != row.job || Applied(row, ReconcileCancellation, now).job != row.job)
            <==> Deadline(row, claimTtl) <= now
    ensures Applied(row, Claim(claim, claimTtl), now).job == row.job
  {
  }

  /** From `from` on nothing but a lease renewal can happen to the task. */
  ghost predicate Quiet(row: Row, from: Time) {
    forall act: Act, now: Time :: from <= now ==> !Advances(row, act, now) && !Loses(row, act, now)
  }

  /**
   Together with `TransitionsAreBounded`: the only states in which a published task can
   rest are finished jobs whose publication is delivered or withdrawn.
   */
  lemma RestIsTerminal(row: Row, from: Time)
    requires Sound(row) && row.outbox.Some?
    ensures Quiet(row, from) <==>
            row.job.Terminal() && (row.outbox.value.status.Published? || row.outbox.value.status.Withdrawn?)
  {
    var box := row.outbox.value;
    if !row.job.Terminal() {
      var now := Max(from, Deadline(row, 0));
      MaintenanceIsEnabled(row, 0, 0, now);
      assert !Quiet(row, from) by {
        var act := MaintenanceAct(row, 0, 0);
        assert Advances(row, act, now) || Loses(row, act, now);
      }
    } else if box.status.Waiting? {
      var now := Max(from, box.availableAt);
      assert Advances(row, Claim(0, 0), now);
    } else if box.status.Dispatching? {
      assert Advances(row, Acknowledge(box.id, box.generation, box.claimToken.value, None), from);
    }
  }
}
