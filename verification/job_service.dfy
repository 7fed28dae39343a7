/**
 The durable job row and the guarded single-row updates of `JobService`.

 Every mutator of the service is one UPDATE statement: a WHERE clause over status,
 attempt token, lease deadline and attempt budget, and a set of assignments. Here each
 is a guard (`MayStart`, `OwnsLease`, ...) and the row the assignments leave behind.
 */
module JobService {
  import opened Prelude

  type Time = int
  type Token = nat

  const JOB_LEASE_SECONDS := 360

  datatype Status = Pending | Started | Success | Failure | CancellationRequested | Cancelled

  datatype Kind = Import | ProfileJob | Preview | Transform | Quality | ReportJob

  datatype Job = Job(
    owner: nat,
    dataset: Option<nat>,
    transformation: Option<nat>,
    kind: Kind,
    status: Status,
    progress: int,
    attemptToken: Option<Token>,
    attemptCount: nat,
    maxAttempts: nat,
    leaseExpiresAt: Option<Time>,
    finishedAt: Option<Time>)
  {
    /** Kinds whose outcome is kept in no table of this store: previews and reports. */
    predicate Unrecorded() {
      kind.Preview? || kind.ReportJob?
    }

    predicate Active() {
      status.Pending? || status.Started?
    }

    predicate Terminal() {
      status.Success? || status.Failure? || status.Cancelled?
    }

    predicate OccupiesCapacity() {
      Active() || status.CancellationRequested?
    }

    /** A missing deadline counts as expired wherever the service compares it with the clock. */
    predicate LeaseExpired(now: Time) {
      leaseExpiresAt.None? || leaseExpiresAt.value <= now
    }

    predicate Exhausted() {
      attemptCount >= maxAttempts
    }

    /** The fence shared by renew, progress, succeed and artifact publication. */
    predicate OwnsLease(token: Token, now: Time) {
      status.Started? && attemptToken == Some(token) && !LeaseExpired(now)
    }

    predicate MayStart(now: Time) {
      attemptCount < maxAttempts && (status.Pending? || (status.Started? && LeaseExpired(now)))
    }

    predicate MayRetry(token: Token, now: Time) {
      OwnsLease(token, now) && attemptCount < maxAttempts
    }

    /** `fail` with a token is fenced by it and by the lease; without one only by status. */
    predicate MayFail(token: Option<Token>, now: Time) {
      Active() && (token.Some? ==> attemptToken == token && !LeaseExpired(now))
    }

    /** `cancel` by a worker: its own token and an unexpired lease. */
    predicate MayCancel(token: Token, now: Time) {
      (Active() || status.CancellationRequested? || status.Cancelled?)
      && attemptToken == Some(token) && !LeaseExpired(now)
    }
  }

  function Created(owner: nat, dataset: Option<nat>, transformation: Option<nat>, kind: Kind): Job {
    Job(owner, dataset, transformation, kind, Pending, 0, None, 0,
        if kind.Transform? || kind.Preview? then 3 else 4, None, None)
  }

  function LeaseSeconds(seconds: int): int {
    Max(1, seconds)
  }

  function Acquired(job: Job, token: Token, seconds: int, progress: int, now: Time): Job {
    job.(status := Started, progress := progress, attemptToken := Some(token),
         attemptCount := job.attemptCount + 1, leaseExpiresAt := Some(now + LeaseSeconds(seconds)))
  }

  function Renewed(job: Job, seconds: int, now: Time): Job {
    job.(leaseExpiresAt := Some(now + LeaseSeconds(seconds)))
  }

  function Finished(job: Job, status: Status, now: Time): Job {
    job.(status := status, progress := if status.Success? then 100 else job.progress,
         leaseExpiresAt := None, finishedAt := Some(now))
  }

  /** The assignments shared by `retry` and by lease recovery. */
  function Requeued(job: Job): Job {
    job.(status := Pending, attemptToken := None, leaseExpiresAt := None)
  }

  /** What `start` reports besides the row it leaves. */
  datatype StartResult =
    | Acquisition
    | AlreadyTerminal
    | CancellationPending
    | LeaseUnavailable(retryAfterSeconds: int)
    | BudgetExhausted
    | NotOwner

  function StartOutcome(job: Job, token: Token, seconds: int, now: Time): StartResult {
    if job.MayStart(now) then Acquisition
    else if (job.status.CancellationRequested? || job.Terminal()) && job.attemptToken != Some(token) then NotOwner
    else if job.Terminal() then AlreadyTerminal
    else if job.status.CancellationRequested? then CancellationPending
    else if job.Exhausted() && (job.status.Pending? || job.LeaseExpired(now)) then BudgetExhausted
    else LeaseUnavailable(
           if job.leaseExpiresAt.None? then LeaseSeconds(seconds)
           else Min(LeaseSeconds(seconds), Max(1, job.leaseExpiresAt.value - now + 1)))
  }

  /**
   What `start` answers, told from the row's columns: a job that may be acquired is; a
   finished or stopping one is shown only to the attempt it belongs to; a live lease
   sends the caller away for a while; and a spent budget ends the matter.
   */
  lemma StartIsAnswered(job: Job, token: Token, seconds: int, now: Time)
    ensures var r := StartOutcome(job, token, seconds, now);
            var leased := job.leaseExpiresAt.Some? && job.leaseExpiresAt.value > now;
            match job.status
            case Pending => r == if job.attemptCount < job.maxAttempts then Acquisition else BudgetExhausted
            case Started =>
              if leased then r.LeaseUnavailable?
              else r == if job.attemptCount < job.maxAttempts then Acquisition else BudgetExhausted
            case CancellationRequested => r == if job.attemptToken == Some(token) then CancellationPending else NotOwner
            case _ => r == if job.attemptToken == Some(token) then AlreadyTerminal else NotOwner
  {
  }

  /**
   A worker told to come back later is refused only while somebody else's lease is
   live, and the delay it is given either is a full lease period or ends after the
   deadline that blocked it.
   */
  lemma UnavailableDelayCoversLease(job: Job, token: Token, seconds: int, now: Time)
    ensures StartOutcome(job, token, seconds, now).LeaseUnavailable? <==>
            job.status.Started? && !job.LeaseExpired(now)
    ensures var r := StartOutcome(job, token, seconds, now);
            r.LeaseUnavailable? ==>
              r.retryAfterSeconds >= 1 &&
              (r.retryAfterSeconds == LeaseSeconds(seconds) || job.LeaseExpired(now + r.retryAfterSeconds))
  {
  }
}
