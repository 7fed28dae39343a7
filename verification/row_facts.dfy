/** Job rows and publications, told from their columns. */
module RowFacts {
  import opened Prelude
  import opened JobService
  import opened TaskProtocol

  /** A deadline is set and has not passed. */
  predicate Leased(job: Job, now: Time) {
    job.leaseExpiresAt.Some? && job.leaseExpiresAt.value > now
  }

  predicate WorksUnder(jobs: map<nat, Job>, task: nat, token: Token, now: Time) {
    task in jobs && jobs[task].status.Started? && jobs[task].attemptToken == Some(token) && Leased(jobs[task], now)
  }

  /** Waiting again, with its attempts counted and nobody holding it. */
  function GivenBack(job: Job): Job {
    job.(status := Pending, attemptToken := None, leaseExpiresAt := None)
  }

  function Ended(job: Job, status: Status, now: Time): Job {
    job.(status := status, leaseExpiresAt := None, finishedAt := Some(now))
  }

  /** A publication that starts over: due now, in the next generation, forgetting every claim of the last. */
  predicate StartsOver(before: Outbox, after: Outbox, now: Time) {
    && after.status.Waiting? && after.availableAt == now && after.generation == before.generation + 1
    && after.claimToken.None? && after.claimedAt.None? && after.publishedAt.None?
    && after.id == before.id && after.attempts == before.attempts && after.failed == before.failed
  }

  /** The task's publication, if it has one, is withdrawn and free of claims. */
  function Silenced(outbox: map<nat, Outbox>, task: nat): map<nat, Outbox> {
    if task !in outbox || outbox[task].status.Withdrawn? then outbox
    else outbox[task := outbox[task].(status := Withdrawn, claimToken := None, claimedAt := None)]
  }

  /** The attempt's lease ran out, its delivery was never taken up, or its budget is spent. */
  predicate LostTrack(jobs: map<nat, Job>, outbox: map<nat, Outbox>, now: Time, task: nat) {
    && task in jobs
    && var job := jobs[task];
       || (job.status.Started? && !Leased(job, now))
       || (job.status.Pending? && job.attemptCount >= job.maxAttempts)
       || (job.status.Pending? && task in outbox && outbox[task].status.Published?
           && outbox[task].publishedAt.Some? && now - outbox[task].publishedAt.value >= 120)
  }

  predicate Unfinished(job: Job) {
    job.status.Pending? || job.status.Started? || job.status.CancellationRequested?
  }

  /** A row as its admission leaves it: waiting, unheld, with no attempt counted yet. */
  predicate NewlyAdmitted(job: Job, kind: Kind, owner: nat, dataset: Option<nat>, transformation: Option<nat>) {
    && job.kind == kind && job.owner == owner && job.dataset == dataset && job.transformation == transformation
    && job.status.Pending? && job.progress == 0 && job.attemptToken.None? && job.leaseExpiresAt.None?
    && job.finishedAt.None? && job.attemptCount == 0
    && job.maxAttempts == (if kind == Transform || kind == Preview then 3 else 4)
  }

  /** A publication that the next dispatch pass may claim at once. */
  predicate NewlyEnqueued(box: Outbox, id: nat, now: Time) {
    && box.id == id && box.status.Waiting? && box.availableAt == now && box.attempts == 0 && box.generation == 1
    && box.claimToken.None? && box.claimedAt.None? && box.publishedAt.None? && !box.failed
  }
}
