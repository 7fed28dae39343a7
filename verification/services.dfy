/**
 The services as they run: methods that update the tables in place, each proved to be
 one step, or one sequence of steps, of `Protocol`.

 A method that reports failure has rolled back. What other processes do between two
 transactions of one method is what `Protocol.Run` interleaves; here each method runs
 by itself.
 */
module Services {
  import opened Prelude
  import opened JobService
  import opened TaskProtocol
  import opened Tables
  import opened ArtifactService
  import opened Protocol
  import opened Maintenance
  import opened RetentionTheorems
  import opened Collection
  import opened RowFacts
  import opened Delivery

  /** Each job row with its publication intent. */
  function RowsOf(jobs: map<nat, Job>, outbox: map<nat, Outbox>): map<nat, Row> {
    map t | t in jobs :: Row(jobs[t], if t in outbox then Some(outbox[t]) else None)
  }

  lemma RowsOfUpdate(jobs: map<nat, Job>, outbox: map<nat, Outbox>, task: nat, job: Job, box: Outbox)
    requires task in jobs
    ensures RowsOf(jobs[task := job], outbox)
        == RowsOf(jobs, outbox)[task := Row(job, if task in outbox then Some(outbox[task]) else None)]
    ensures RowsOf(jobs[task := job], outbox[task := box]) == RowsOf(jobs, outbox)[task := Row(job, Some(box))]
    ensures RowsOf(jobs, outbox[task := box]) == RowsOf(jobs, outbox)[task := Row(jobs[task], Some(box))]
  {
  }

  lemma {:induction false} RunConcat(s: State, a: seq<Step>, b: seq<Step>)
    ensures Run(s, a + b) == Run(Run(s, a), b)
    decreases a
  {
    hide Apply;
    if a == [] {
      assert a + b == b;
    } else {
      assert (a + b)[0] == a[0] && (a + b)[1..] == a[1..] + b;
      RunConcat(Apply(s, a[0]), a[1..], b);
    }
  }

  datatype UndoError = DatasetNotFound | KeyReused | NotReady | VersionChanged | NothingToUndo | SnapshotUnavailable

  /** The newest completed transformation of this user whose output is the dataset's file. */
  predicate HeadTransformation(domain: Domain, d: nat, user: nat, x: nat) {
    && d in domain.datasets && x in domain.transformations
    && AtHead(domain, d, user, domain.transformations[x])
    && forall y | y in domain.transformations && AtHead(domain, d, user, domain.transformations[y]) :: y <= x
  }

  predicate AtHead(domain: Domain, d: nat, user: nat, record: Transformation)
    requires d in domain.datasets
  {
    record.dataset == d && record.user == user && record.status.Completed?
    && record.outputPath == domain.datasets[d].storedPath
  }

  /** The file can be restored: its manifest is the dataset's and usable, and its bytes are those recorded. */
  predicate Restorable(storage: Storage, d: nat, path: Path) {
    && path in storage.snapshots && storage.snapshots[path].dataset == d
    && storage.snapshots[path].availability.Available?
    && path in storage.files && storage.files[path] == storage.snapshots[path].digest
  }

  /** What a fresh undo leaves, and what it answers: the dataset as it now is, and the stored receipt. */
  predicate UndoneTo(was: Domain, d: nat, user: nat, version: nat, key: Option<nat>, x: nat, id: nat, domain: Domain,
                     receipt: Receipt)
  {
    && d in was.datasets && d in domain.datasets && x in was.transformations
    && var record, dataset := was.transformations[x], domain.datasets[d];
       && dataset.storedPath == record.inputPath == receipt.snapshot
       && dataset.rowCount == Some(receipt.beforeRows) && dataset.columnCount == Some(receipt.beforeColumns)
       && receipt.beforeRows == record.beforeRows && receipt.beforeColumns == record.beforeColumns
       && receipt.afterRows == record.afterRows && receipt.afterColumns == record.afterColumns
       && receipt.previousVersion == version == was.datasets[d].version
       && receipt.resultVersion == dataset.version == version + 1
       && receipt.transformation == x && receipt.eventId == id
       && dataset.profile.None? && dataset.status.Ready? && !dataset.deleted && dataset.owner == was.datasets[d].owner
       && domain.datasets == was.datasets[d := dataset]
       && domain.transformations == was.transformations[x := record.(status := Undone)]
       && domain.evaluations == was.evaluations && domain.profilers == was.profilers
       && d in domain.events
       && var log, event := if d in was.events then was.events[d] else [], Event(
            id, user, x, UndoEvent, key, UndoRequest(d, version), version, version + 1, record.outputPath,
            record.inputPath, receipt);
          domain.events == was.events[d := log + [event]]
  }

  predicate Owns(domain: Domain, d: nat, user: nat) {
    d in domain.datasets && !domain.datasets[d].deleted && domain.datasets[d].owner == user
  }

  /** Why an undo with an unused key is refused. */
  ghost predicate RefusesUndo(domain: Domain, storage: Storage, d: nat, user: nat, version: nat, e: UndoError)
    requires d in domain.datasets
  {
    var dataset := domain.datasets[d];
    var ready := dataset.status.Ready? || dataset.status.Profiled?;
    match e
    case DatasetNotFound => false
    case KeyReused => false
    case NotReady => !ready
    case VersionChanged => ready && dataset.version != version
    case NothingToUndo => ready && dataset.version == version && forall x :: !HeadTransformation(domain, d, user, x)
    case SnapshotUnavailable =>
      && ready && dataset.version == version
      && exists x :: HeadTransformation(domain, d, user, x)
                     && !Restorable(storage, d, domain.transformations[x].inputPath)
  }

  /** The target check decides whether the undo step is enabled, and for which transformation. */
  lemma UndoIsAllowed(s: State, d: nat, user: nat, version: nat, key: Option<nat>, target: Result<nat, UndoError>)
    requires Owns(s.domain, d, user) && Replay(EventsOf(s, d), user, key).None?
    requires target.Ok? ==> HeadTransformation(s.domain, d, user, target.value)
                            && Restorable(s.storage, d, s.domain.transformations[target.value].inputPath)
                            && s.domain.datasets[d].EnsureReady() && s.domain.datasets[d].version == version
    requires forall e :: target == Err(e) <==> RefusesUndo(s.domain, s.storage, d, user, version, e)
    ensures target.Ok? ==> target.value in s.domain.transformations
                           && MayUndo(s, d, user, version, key, target.value)
                           && AtHead(s.domain, d, user, s.domain.transformations[target.value])
    ensures target.Err? ==> target.error != DatasetNotFound && forall x :: !MayUndo(s, d, user, version, key, x)
  {
    hide Replay;
    forall x | MayUndo(s, d, user, version, key, x)
      ensures HeadTransformation(s.domain, d, user, x)
              && Restorable(s.storage, d, s.domain.transformations[x].inputPath) {
      forall y | y in s.domain.transformations && AtHead(s.domain, d, user, s.domain.transformations[y])
        ensures y <= x {
        assert UndoCandidate(s, d, user, y);
      }
    }
    if target.Ok? {
      forall y | y in s.domain.transformations && UndoCandidate(s, d, user, y) ensures y <= target.value {
        assert AtHead(s.domain, d, user, s.domain.transformations[y]);
      }
    } else {
      assert RefusesUndo(s.domain, s.storage, d, user, version, target.error);
    }
  }

  lemma HeadTransformations(s: State, d: nat, user: nat, newest: Option<nat>)
    requires d in s.domain.datasets
    requires newest.Some? ==> UndoCandidate(s, d, user, newest.value)
    requires forall y | y in s.domain.transformations :: UndoCandidate(s, d, user, y) ==>
               newest.Some? && y <= newest.value
    ensures newest.None? ==> forall x :: !HeadTransformation(s.domain, d, user, x)
    ensures newest.Some? ==> forall x :: HeadTransformation(s.domain, d, user, x) <==> x == newest.value
  {
    forall y | y in s.domain.transformations
      ensures AtHead(s.domain, d, user, s.domain.transformations[y]) <==> UndoCandidate(s, d, user, y) {}
    if newest.Some? { assert HeadTransformation(s.domain, d, user, newest.value); }
  }

  class Database {
    var jobs: map<nat, Job>
    var outbox: map<nat, Outbox>       // by task
    var claims: map<nat, ClaimRecord>
    var domain: Domain
    var storage: Storage
    var intake: Intake
    var env: Environment

    ghost function View(): State
      reads this
    {
      State(env, Tasks(RowsOf(jobs, outbox), claims), domain, storage, intake)
    }

    constructor (settings: Settings)
      ensures View() == Initial(settings)
    {
      jobs, outbox, claims := map[], map[], map[];
      domain := Domain(map[], map[], map[], map[], map[]);
      storage := Storage(map[], map[], map[], map[], {});
      intake := Intake(map[], {}, {});
      env := Environment(settings, 0, 0, {});
    }

    // -------------------------------------------------------------- JobService

    /** `start`: an acquired attempt holds a token drawn for it alone. */
    method Start(task: nat, seconds: int, progress: int) returns (outcome: Option<StartResult>, token: Token)
      modifies this`jobs, this`env
      ensures token == old(env).nextId
      ensures outcome == if task in old(jobs) then Some(StartOutcome(old(jobs)[task], token, seconds, old(env).now))
          else None
      ensures outcome == Some(Acquisition) <==> old(RowFires(View(), task, Act.Start(env.nextId, seconds, progress)))
      ensures View() == if outcome == Some(Acquisition)
                        then AfterAct(old(View()), task,
                                      Act.Start(token, seconds, progress)).(env := old(env).(nextId := token + 1))
                        else old(View())
      ensures outcome == Some(Acquisition) <==>
              task in old(jobs) && var job := old(jobs)[task];
                                   job.attemptCount < job.maxAttempts
                                   && (job.status.Pending? || (job.status.Started? && !Leased(job, env.now)))
      ensures jobs == if outcome == Some(Acquisition)
                      then old(jobs)[task := old(jobs)[task].(
                             status := Started, progress := progress, attemptToken := Some(token),
                             attemptCount := old(jobs)[task].attemptCount + 1,
                             leaseExpiresAt := Some(env.now + Max(1, seconds)))]
                      else old(jobs)
    {
      token := env.nextId;
      if task !in jobs { return None, token; }
      var job := jobs[task];
      outcome := Some(StartOutcome(job, token, seconds, env.now));
      if job.attemptCount < job.maxAttempts
          && (job.status.Pending? || (job.status.Started? && job.LeaseExpired(env.now))) {
        RowsOfUpdate(jobs, outbox, task, Acquired(job, token, seconds, progress, env.now), Enqueued(0, 0));
        jobs := jobs[task := job.(status := Started, progress := progress, attemptToken := Some(token),
                                  attemptCount := job.attemptCount + 1, leaseExpiresAt :=
                                      Some(env.now + LeaseSeconds(seconds)))];
        env := env.(nextId := token + 1);
      }
    }

    /** `ensure_active` (no report) and `progress` under an attempt token. */
    method Renew(task: nat, token: Token, seconds: int, report: Option<int>) returns (ok: bool)
      modifies this`jobs
      ensures ok == old(RowFires(View(), task, Act.Renew(token, seconds, report)))
      ensures View() == AfterAct(old(View()), task, Act.Renew(token, seconds, report))
      ensures ok == WorksUnder(old(jobs), task, token, env.now)
      ensures jobs == if ok
                      then old(jobs)[task := old(jobs)[task].(
                             leaseExpiresAt := Some(env.now + Max(1, seconds)),
                             progress := if report.Some? then report.value else old(jobs)[task].progress)]
                      else old(jobs)
    {
      if task !in jobs || !jobs[task].OwnsLease(token, env.now) { return false; }
      var job := jobs[task].(leaseExpiresAt := Some(env.now + LeaseSeconds(seconds)));
      if report.Some? { job := job.(progress := report.value); }
      RowsOfUpdate(jobs, outbox, task, job, Enqueued(0, 0));
      jobs := jobs[task := job];
      ok := true;
    }

    method Succeed(task: nat, token: Token) returns (ok: bool)
      modifies this`jobs
      ensures ok == old(RowFires(View(), task, Act.Succeed(token)))
      ensures View() == AfterAct(old(View()), task, Act.Succeed(token))
      ensures ok == WorksUnder(old(jobs), task, token, env.now)
      ensures jobs == if ok
                      then old(jobs)[task := old(jobs)[task].(status := Success, progress := 100,
                                                              leaseExpiresAt := None,
                                                              finishedAt := Some(env.now))]
                      else old(jobs)
    {
      if task !in jobs || !jobs[task].OwnsLease(token, env.now) { return false; }
      var job := jobs[task].(status := Success, progress := 100, leaseExpiresAt := None, finishedAt := Some(env.now));
      RowsOfUpdate(jobs, outbox, task, job, Enqueued(0, 0));
      jobs := jobs[task := job];
      ok := true;
    }

    /** `rearm`: a new generation, due at once. */
    method Rearm(task: nat) returns (ok: bool)
      modifies this`outbox
      ensures ok == (task in old(outbox))
      ensures outbox == if ok then old(outbox)[task := Rearmed(old(outbox)[task], env.now)] else old(outbox)
    {
      if task !in outbox { return false; }
      var box := outbox[task];
      outbox := outbox[task := box.(status := Waiting, generation := box.generation + 1, claimToken := None,
                                    claimedAt := None, publishedAt := None, availableAt := env.now)];
      ok := true;
    }

    /** `retry`: the job and its publication intent together, or neither. */
    method Retry(task: nat, token: Token) returns (ok: bool)
      modifies this`jobs, this`outbox
      ensures ok == old(RowFires(View(), task, Act.Retry(token)))
      ensures View() == AfterAct(old(View()), task, Act.Retry(token))
      ensures ok == (task in old(outbox) && WorksUnder(old(jobs), task, token, env.now)
                     && old(jobs)[task].attemptCount < old(jobs)[task].maxAttempts)
      ensures ok ==> && jobs == old(jobs)[task := GivenBack(old(jobs)[task])]
                     && task in outbox && outbox == old(outbox)[task := outbox[task]]
                     && StartsOver(old(outbox)[task], outbox[task], env.now)
      ensures !ok ==> jobs == old(jobs) && outbox == old(outbox)
    {
      if task !in jobs || !jobs[task].OwnsLease(token, env.now)
          || jobs[task].attemptCount >= jobs[task].maxAttempts { return false; }
      var job := jobs[task].(status := Pending, attemptToken := None, leaseExpiresAt := None);
      ok := Rearm(task);
      if ok {
        RowsOfUpdate(jobs, old(outbox), task, job, outbox[task]);
        jobs := jobs[task := job];
      }
    }

    method CloseEvaluation(task: nat, status: EvaluationStatus)
      modifies this`domain
      ensures domain == old(domain).(evaluations := Closed(old(domain).evaluations, task, status))
    {
      if task in domain.evaluations
          && (domain.evaluations[task].status.EvaluationPending? || domain.evaluations[task].status.Running?) {
        domain := domain.(evaluations := domain.evaluations[task := Evaluation(status, None)]);
      }
    }

    /** `fail`, fenced by a token when the caller has one. */
    method Fail(task: nat, token: Option<Token>) returns (ok: bool)
      modifies this`jobs
      ensures ok == old(RowFires(View(), task, Act.Fail(token)))
      ensures View() == AfterAct(old(View()), task, Act.Fail(token))
      ensures ok == (task in old(jobs) && var job := old(jobs)[task];
                                          (job.status.Pending? || job.status.Started?)
                                          && (token.Some? ==> job.attemptToken == token && Leased(job, env.now)))
      ensures jobs == if ok then old(jobs)[task := Ended(old(jobs)[task], Failure, env.now)] else old(jobs)
    {
      if task !in jobs { return false; }
      var job := jobs[task];
      if !job.status.Pending? && !job.status.Started? { return false; }
      if token.Some? && (job.attemptToken != token || job.LeaseExpired(env.now)) { return false; }
      job := job.(status := Failure, leaseExpiresAt := None, finishedAt := Some(env.now));
      RowsOfUpdate(jobs, outbox, task, job, Enqueued(0, 0));
      jobs := jobs[task := job];
      ok := true;
    }

    method RequestCancellation(task: nat) returns (ok: bool)
      modifies this`jobs
      ensures ok == old(RowFires(View(), task, Act.RequestCancellation))
      ensures View() == AfterAct(old(View()), task, Act.RequestCancellation)
      ensures ok == (task in old(jobs) && (old(jobs)[task].status.Pending? || old(jobs)[task].status.Started?))
      ensures jobs == if ok then old(jobs)[task := old(jobs)[task].(status := CancellationRequested)] else old(jobs)
    {
      if task !in jobs || !(jobs[task].status.Pending? || jobs[task].status.Started?) { return false; }
      var job := jobs[task].(status := CancellationRequested);
      RowsOfUpdate(jobs, outbox, task, job, Enqueued(0, 0));
      jobs := jobs[task := job];
      ok := true;
    }

    /** `OutboxService.cancel`. */
    method WithdrawPublication(task: nat)
      modifies this`outbox
      ensures outbox == if task in old(outbox) then old(outbox)[task := Withdraw(Some(old(outbox)[task])).value]
          else old(outbox)
    {
      if task in outbox && !outbox[task].status.Withdrawn? {
        outbox := outbox[task := outbox[task].(status := Withdrawn, claimToken := None, claimedAt := None)];
      } else if task in outbox {
        assert outbox[task := outbox[task]] == outbox;
      }
    }

    /** `cancel_pending` and the withdrawal its caller commits with it. */
    method CancelPending(task: nat) returns (ok: bool)
      modifies this`jobs, this`outbox
      ensures ok == old(RowFires(View(), task, Act.CancelPending))
      ensures View() == AfterAct(old(View()), task, Act.CancelPending)
      ensures ok == (task in old(jobs) && old(jobs)[task].status.Pending?)
      ensures jobs == if ok then old(jobs)[task := Ended(old(jobs)[task], Cancelled, env.now)] else old(jobs)
      ensures outbox == if ok then Silenced(old(outbox), task) else old(outbox)
    {
      if task !in jobs || !jobs[task].status.Pending? { return false; }
      var job := jobs[task].(status := Cancelled, leaseExpiresAt := None, finishedAt := Some(env.now));
      WithdrawPublication(task);
      RowsOfUpdate(jobs, old(outbox), task, job, if task in outbox then outbox[task] else Enqueued(0, 0));
      jobs := jobs[task := job];
      ok := true;
    }

    /** `cancel` by the worker that holds the attempt. */
    method CancelByWorker(task: nat, token: Token) returns (ok: bool)
      modifies this`jobs
      ensures ok == old(RowFires(View(), task, Act.CancelByWorker(token)))
      ensures View() == AfterAct(old(View()), task, Act.CancelByWorker(token))
      ensures ok == (task in old(jobs) && var job := old(jobs)[task];
                                          && !job.status.Success? && !job.status.Failure?
                                          && job.attemptToken == Some(token) && Leased(job, env.now))
      ensures jobs == if ok then old(jobs)[task := Ended(old(jobs)[task], Cancelled, env.now)] else old(jobs)
    {
      if task !in jobs { return false; }
      var job := jobs[task];
      if !(job.Active() || job.status.CancellationRequested? || job.status.Cancelled?) { return false; }
      if job.attemptToken != Some(token) || job.LeaseExpired(env.now) { return false; }
      job := job.(status := Cancelled, leaseExpiresAt := None, finishedAt := Some(env.now));
      RowsOfUpdate(jobs, outbox, task, job, Enqueued(0, 0));
      jobs := jobs[task := job];
      ok := true;
    }

    // -------------------------------------------------------------- OutboxService

    /** First phase of `dispatch`: claim a due publication and commit. */
    method ClaimDue(task: nat) returns (claim: Option<nat>)
      modifies this`outbox, this`claims, this`env
      ensures claim.Some? == old(RowFires(View(), task, Claim(env.nextId, env.settings.outboxClaimTtl)))
      ensures View() == ClaimPublication(old(View()), task)
      ensures claim.Some? == AwaitsDispatch(jobs, old(outbox), old(env), task)
      ensures claim.None? ==> outbox == old(outbox) && claims == old(claims) && env == old(env)
      ensures claim.Some? ==>
                && claim.value == old(env).nextId && env == old(env).(nextId := claim.value + 1)
                && var box := old(outbox)[task];
                   && claims == old(claims)[claim.value := ClaimRecord(task, box.id, box.generation, box.attempts + 1)]
                   && outbox == old(outbox)[task := box.(status := Dispatching, claimToken := claim,
                                                         claimedAt := Some(env.now), attempts := box.attempts + 1)]
    {
      if task !in jobs || task !in outbox { return None; }
      var box := outbox[task];
      var due := (box.status.Waiting? && box.availableAt <= env.now)
                 || (box.status.Dispatching?
                     && (box.claimedAt.None? || box.claimedAt.value <= env.now - env.settings.outboxClaimTtl));
      if !due { return None; }
      claim := Some(env.nextId);
      box := box.(status := Dispatching, claimToken := claim, claimedAt := Some(env.now), attempts := box.attempts + 1);
      RowsOfUpdate(jobs, outbox, task, jobs[task], box);
      outbox := outbox[task := box];
      claims := claims[env.nextId := ClaimRecord(task, box.id, box.generation, box.attempts)];
      env := env.(nextId := env.nextId + 1);
    }

    /** Last phase: record the broker's answer, fenced by generation and claim. */
    method Finalize(claim: nat, backoff: Option<nat>) returns (changed: bool)
      requires claim in claims
      requires backoff.Some? ==>
                 1 <= backoff.value <= BackoffCeiling(claims[claim].attempts, env.settings.outboxMaxRetry)
      modifies this`outbox
      ensures View() == AcknowledgePublication(old(View()), claim, backoff)
      ensures changed == CarriesClaim(jobs, old(outbox), claims, claim)
      ensures outbox == if changed
                        then old(outbox)[claims[claim].task := Answered(old(outbox)[claims[claim].task], backoff,
                                                                        env.now)]
                        else old(outbox)
    {
      hide BackoffCeiling;
      var c := claims[claim];
      if c.task !in jobs || c.task !in outbox { return false; }
      var box := outbox[c.task];
      if box.id != c.outboxId || !box.status.Dispatching? || box.generation != c.generation
          || box.claimToken != Some(claim) { return false; }
      box := box.(claimToken := None, claimedAt := None);
      if backoff.None? {
        box := box.(status := Published, publishedAt := Some(env.now), failed := false);
      } else {
        box := box.(status := Waiting, availableAt := env.now + backoff.value, failed := true);
      }
      RowsOfUpdate(jobs, outbox, c.task, jobs[c.task], box);
      outbox := outbox[c.task := box];
      changed := true;
    }

    /**
     `dispatch`: claim, call the broker, record its answer; `answer` is the delay drawn
     after a refusal. A due publication the broker accepts is PUBLISHED now; one it
     refuses waits, for a second at least and the ceiling at most; any other is left alone.
     */
    method Dispatch(task: nat, answer: Option<nat>) returns (published: bool, refused: bool, ghost steps: seq<Step>)
      modifies this`outbox, this`claims, this`env
      ensures View() == Run(old(View()), steps) && AllDispatch(steps)
      ensures published == (AwaitsDispatch(jobs, old(outbox), old(env), task) && answer.None?)
      ensures refused == (AwaitsDispatch(jobs, old(outbox), old(env), task) && answer.Some?)
      ensures env == old(env).(nextId := env.nextId)
      ensures published || refused ==> task in old(outbox) && task in outbox
      ensures !published && !refused ==> outbox == old(outbox)
      ensures published ==>
                outbox == old(outbox)[task := outbox[task]] && Delivered(old(outbox)[task], outbox[task], env.now)
      ensures refused ==> outbox == old(outbox)[task := outbox[task]]
                          && PutOff(old(outbox)[task], outbox[task], env.now,
                                    BackoffCeiling(outbox[task].attempts, env.settings.outboxMaxRetry))
    {
      hide ClaimPublication, AcknowledgePublication, RowsOf, Fires, BackoffCeiling;
      published, refused := false, false;
      var claim := ClaimDue(task);
      steps := [Deliver(ClaimStep(task))];
      DispatchRuns(old(View()), task, 0, None);
      if claim.Some? {
        var ceiling := BackoffCeiling(claims[claim.value].attempts, env.settings.outboxMaxRetry);
        BackoffIsPositive(claims[claim.value].attempts, env.settings.outboxMaxRetry);
        var delay := if answer.Some?
            then Some(if answer.value < 1 then 1 else if answer.value > ceiling then ceiling else answer.value)
            else None;
        DispatchRuns(old(View()), task, claim.value, delay);
        steps := steps + [Deliver(AcknowledgeStep(claim.value, delay))];
        var changed := Finalize(claim.value, delay);
        published, refused := changed && answer.None?, answer.Some?;
      }
    }

    /**
     `dispatch_pending`: stop at the first candidate that was not published and whose row
     carries an error, which a refusal by the broker leaves there. `answers` holds what
     the broker answers for each candidate; the query returns distinct rows.
     */
    method DispatchPending(candidates: seq<nat>, answers: seq<Option<nat>>)
      returns (published: nat, examined: nat, ghost trace: seq<Step>)
      requires |answers| == |candidates|
      requires forall i, j | 0 <= i < j < |candidates| :: candidates[i] != candidates[j]
      modifies this`outbox, this`claims, this`env
      ensures View() == Run(old(View()), trace) && AllDispatch(trace)
      ensures examined <= |candidates|
          && published == |Accepted(jobs, old(outbox), old(env), candidates[..examined], answers)|
      ensures forall i | 0 <= i < examined ::
                  DispatchedOnce(jobs, old(outbox), old(env), candidates[i], answers[i], outbox)
      ensures forall t | t !in candidates[..examined] :: t in outbox <==> t in old(outbox)
      ensures forall t | t !in candidates[..examined] && t in outbox :: outbox[t] == old(outbox)[t]
      ensures forall i | 0 <= i < examined - 1 :: !EndsPass(jobs, old(outbox), old(env), candidates[i], answers[i])
      ensures examined < |candidates| ==>
                examined > 0 && EndsPass(jobs, old(outbox), old(env), candidates[examined - 1], answers[examined - 1])
    {
      hide Run, RowsOf, AwaitsDispatch, Delivered, PutOff, BackoffCeiling, EndsPass, DispatchedOnce, Accepted;
      ghost var was, start := outbox, env;
      RunNothing(View());
      published, examined, trace := 0, 0, [];
      NoneAccepted(jobs, was, start, candidates, answers);
      while examined < |candidates|
        invariant examined <= |candidates| && View() == Run(old(View()), trace) && AllDispatch(trace)
        invariant env == start.(nextId := env.nextId)
        invariant published == |Accepted(jobs, was, start, candidates[..examined], answers)|
        invariant forall i | 0 <= i < examined :: DispatchedOnce(jobs, was, start, candidates[i], answers[i], outbox)
        invariant forall t | t !in candidates[..examined] :: t in outbox <==> t in was
        invariant forall t | t !in candidates[..examined] && t in outbox :: outbox[t] == was[t]
        invariant forall i | 0 <= i < examined :: !EndsPass(jobs, was, start, candidates[i], answers[i])
      {
        ghost var task, answer, mid := candidates[examined], answers[examined], outbox;
        assert task !in candidates[..examined];
        SameRowAwaits(jobs, was, mid, start, env, task);
        OneMoreAccepted(jobs, was, start, candidates, answers, examined);
        examined := examined + 1;
        ghost var steps;
        var done, refused;
        done, refused, steps := Dispatch(candidates[examined - 1], answers[examined - 1]);
        RunConcat(old(View()), trace, steps);
        trace := trace + steps;
        assert candidates[..examined] == candidates[..examined - 1] + [task];
        DispatchEndsPass(jobs, was, start, env, task, answer, mid, outbox, done, refused);
        forall i | 0 <= i < examined - 1
          ensures DispatchedOnce(jobs, was, start, candidates[i], answers[i], outbox) {
          assert candidates[i] in candidates[..examined - 1];
          OthersStayDispatched(jobs, was, start, candidates[i], answers[i], mid, outbox);
        }
        if done {
          published := published + 1;
        } else if candidates[examined - 1] in outbox && outbox[candidates[examined - 1]].failed {
          break;
        }
      }
    }

    // -------------------------------------------------------------- ArtifactService and SnapshotService

    method ScheduleDelete(path: Path, owner: Option<nat>)
      modifies this`storage
      ensures View() == RequestDeletion(old(View()), path, owner)
    {
      var artifacts := storage.artifacts;
      if path in artifacts {
        artifacts := artifacts[path := artifacts[path].(deletionRequestedAt := Some(env.now))];
      } else {
        artifacts := artifacts[path := Artifact(owner, None, None, None, Reserved, Some(env.now), Some(env.now))];
      }
      storage := storage.(artifacts := artifacts);
    }

    /** First phase of `cleanup`: judge one row under the job and artifact locks, and commit. */
    method Decide(path: Path) returns (paths: set<Path>, condemned: bool)
      modifies this`storage
      ensures View() == Collect(old(View()), path)
      ensures condemned == Collectable(jobs, domain, old(storage), env, path)
      ensures forall p :: p in paths <==> Takes(jobs, domain, old(storage), env, path, p)
      ensures storage.artifacts == if condemned then Marked(old(storage).artifacts, path, Deleting)
          else old(storage).artifacts
      ensures storage == old(storage).(artifacts := storage.artifacts, doomed := old(storage).doomed + paths)
    {
      hide RowsOf, Judge, Referenced, LiveAttempt, Auxiliaries, Unused, BeingWritten, IsScratch;
      if path !in storage.artifacts {
        assert storage.doomed + {} == storage.doomed;
        return {}, false;
      }
      var artifact := storage.artifacts[path];
      var live := artifact.task.Some? && artifact.task.value in jobs
                  && (jobs[artifact.task.value].status.Started?
                      || jobs[artifact.task.value].status.CancellationRequested?)
                  && jobs[artifact.task.value].attemptToken == artifact.attemptToken
                  && !jobs[artifact.task.value].LeaseExpired(env.now);
      LiveAttemptOf(jobs, outbox, artifact, env.now);
      WrittenIsLive(jobs, artifact, env.now);
      var referenced := Referenced(domain.datasets, storage.snapshots, domain.transformations, env.reports, path);
      UnusedIsUnreferenced(domain, storage.snapshots, env.reports, path);
      JudgedByRelease(artifact, live, referenced, env.now);
      forall p ensures p in Auxiliaries(artifact) <==> IsScratch(artifact, p) { AuxiliariesAreScratch(artifact, p); }
      match Judge(artifact, live, referenced, env.now) {
        case Keep =>
          assert storage.doomed + {} == storage.doomed;
          return {}, false;
        case CollectAuxiliaries =>
          paths, condemned := Auxiliaries(artifact), false;
          storage := storage.(doomed := storage.doomed + paths);
        case Condemn =>
          paths, condemned := {path} + Auxiliaries(artifact), true;
          assert storage.doomed + paths == storage.doomed + {path} + Auxiliaries(artifact);
          storage := storage.(artifacts := storage.artifacts[path := artifact.(state := Deleting)],
                              doomed := storage.doomed + paths);
      }
    }

    method UnlinkOne(path: Path)
      requires path in storage.doomed
      modifies this`storage
      ensures View() == Unlink(old(View()), path)
      ensures storage == old(storage).(files := old(storage).files - {path})
    {
      storage := storage.(files := storage.files - {path});
    }

    /** Second phase: remove what was decided; some removals may fail. */
    method UnlinkAll(paths: set<Path>, failing: set<Path>) returns (ghost steps: seq<Step>)
      requires paths <= storage.doomed
      modifies this`storage
      ensures View() == Run(old(View()), steps) && AllCollect(steps)
      ensures storage == old(storage).(files := old(storage).files - (paths - failing))
    {
      hide Run, RowsOf, Unlink, Apply;
      RunNothing(View());
      var left := paths - failing;
      steps := [];
      while left != {}
        invariant left <= paths - failing && View() == Run(old(View()), steps) && AllCollect(steps)
        invariant storage == old(storage).(files := old(storage).files - (paths - failing - left))
        decreases |left|
      {
        var target :| target in left;
        assert paths - failing - (left - {target}) == (paths - failing - left) + {target};
        RemoveOneMore(old(storage).files, paths - failing - left, target);
        UnlinkRuns(old(View()), steps, target);
        steps := steps + [Maintain(UnlinkStep(target))];
        UnlinkOne(target);
        left := left - {target};
      }
    }

    /**
     One candidate of `cleanup`, all phases: what may be collected is removed from disk and
     ends DELETED, or stays DELETING for a later pass if a removal fails. Of a published
     output only the scratch is removed. Everything else is left alone.
     */
    method CollectOne(path: Path, failing: set<Path>)
      returns (paths: set<Path>, condemned: bool, ghost steps: seq<Step>)
      modifies this`storage
      ensures View() == Run(old(View()), steps) && AllCollect(steps)
      ensures condemned == Collectable(jobs, domain, old(storage), env, path)
      ensures forall p :: p in paths <==> Takes(jobs, domain, old(storage), env, path, p)
      ensures storage.files == old(storage).files - (paths - failing)
      ensures storage.artifacts
              == if condemned then Marked(old(storage).artifacts, path, if paths !! failing then Deleted else Deleting)
                 else old(storage).artifacts
      ensures storage.snapshots == old(storage).snapshots && storage.writers == old(storage).writers
    {
      hide Run, RowsOf, Judge, Referenced, LiveAttempt, Collect, Collectable, Tidiable, IsScratch;
      paths, condemned := Decide(path);
      CollectRuns(old(View()), path);
      ghost var unlinks := UnlinkAll(paths, failing);
      steps := [Maintain(CollectStep(path))] + unlinks;
      RunConcat(old(View()), [Maintain(CollectStep(path))], unlinks);
      if condemned {
        CollectableIsKnown(jobs, domain, old(storage), env, path);
        if paths !! failing {
          RunThen(old(View()), steps, Maintain(FinishStep(path)));
          steps := steps + [Maintain(FinishStep(path))];
          storage := storage.(artifacts := storage.artifacts[path := storage.artifacts[path].(state := Deleted)]);
        }
      }
    }

    /**
     `cleanup`: a bounded pass over candidates chosen before any lock was taken. Every
     candidate that may be collected is; no other row changes, and no other file goes.
     */
    method Cleanup(candidates: seq<Path>, failing: set<Path>) returns (ghost trace: seq<Step>)
      modifies this`storage
      ensures View() == Run(old(View()), trace) && AllCollect(trace)
      ensures forall c | c in candidates && Collectable(jobs, domain, old(storage), env, c) ::
                  Collected(old(storage), storage, c, failing)
      ensures storage.artifacts.Keys == old(storage).artifacts.Keys
      ensures forall p | p in old(storage).artifacts
                         && !(p in candidates && Collectable(jobs, domain, old(storage), env, p)) ::
                  storage.artifacts[p] == old(storage).artifacts[p]
      ensures forall p | p in old(storage).files ::
          p in storage.files || p in Taken(jobs, domain, old(storage), env, candidates)
      ensures forall p | p in storage.files :: p in old(storage).files && storage.files[p] == old(storage).files[p]
    {
      hide Run, RowsOf, Collectable, Tidiable, IsScratch, Taken, Collected, Progressed;
      ghost var was := storage;
      RunNothing(View());
      NothingCollected(jobs, domain, was, env, candidates, failing);
      trace := [];
      var i := 0;
      while i < |candidates|
        invariant i <= |candidates| && View() == Run(old(View()), trace) && AllCollect(trace)
        invariant Progressed(jobs, domain, was, env, candidates[..i], failing, storage)
      {
        ghost var mid := storage;
        var paths, condemned;
        ghost var steps;
        paths, condemned, steps := CollectOne(candidates[i], failing);
        RunConcat(old(View()), trace, steps);
        OneMoreCollected(jobs, domain, was, env, candidates, i, failing, mid, storage, paths);
        trace := trace + steps;
        i := i + 1;
      }
      assert candidates[..i] == candidates;
      ProgressIsDone(jobs, domain, was, env, candidates, failing, storage);
    }

    /**
     `expire_history`: the candidates were read before the locks, so each is checked again.
     Exactly those that are dispensable are EXPIRED, with their deletion requested.
     */
    method ExpireHistory(candidates: seq<Path>) returns (expired: nat, ghost trace: seq<Step>)
      modifies this`storage
      ensures View() == Run(old(View()), trace)
      ensures |trace| == |candidates| && forall i | 0 <= i < |trace| :: trace[i] == Maintain(ExpireStep(candidates[i]))
      ensures forall p :: PassedOver(old(View()), candidates, p, View())
      ensures expired == |DispensableAmong(old(View()), candidates)|
    {
      hide Run, RowsOf, PassedOver, Dispensable, DispensableAmong;
      RunNothing(View());
      expired, trace := 0, [];
      assert DispensableAmong(View(), candidates[..0]) == {} by { NoneDispensable(View(), candidates); }
      var i := 0;
      while i < |candidates|
        invariant i <= |candidates| && View() == Run(old(View()), trace)
        invariant |trace| == i && forall j | 0 <= j < i :: trace[j] == Maintain(ExpireStep(candidates[j]))
        invariant expired == |DispensableAmong(old(View()), candidates[..i])|
      {
        assert trace == ExpirySteps(candidates[..i]);
        PassExpiresExactly(old(View()), candidates[..i], candidates[i]);
        OneMoreDispensable(old(View()), candidates, i);
        RunThen(old(View()), trace, Maintain(ExpireStep(candidates[i])));
        trace := trace + [Maintain(ExpireStep(candidates[i]))];
        var done := ExpireOne(candidates[i]);
        if done { expired := expired + 1; }
        i := i + 1;
      }
      assert candidates[..i] == candidates && trace == ExpirySteps(candidates);
      forall p { PassExpiresExactly(old(View()), candidates, p); }
    }

    method ExpireOne(path: Path) returns (expired: bool)
      modifies this`storage
      ensures View() == ExpireSnapshot(old(View()), path)
      ensures expired == old(Dispensable(View(), path))
    {
      hide RowsOf, Recent, Dispensable;
      ExpiryIsExact(View(), path);
      if path !in storage.snapshots || env.settings.snapshotRetention == 0 { return false; }
      var snapshot := storage.snapshots[path];
      if snapshot.dataset !in domain.datasets
          || snapshot.createdAt >= env.now - env.settings.snapshotRetention { return false; }
      var recent := Recent(storage.snapshots, path, env.settings.keepLast);
      var inflight := exists t | t in jobs :: jobs[t].dataset == Some(snapshot.dataset) && jobs[t].OccupiesCapacity();
      InFlightOf(jobs, outbox, snapshot.dataset);
      if snapshot.availability.Expired? || snapshot.pinned || recent || inflight
         || domain.datasets[snapshot.dataset].storedPath == path { return false; }
      storage := storage.(snapshots := storage.snapshots[path := snapshot.(availability := Expired)]);
      ScheduleDelete(path, Some(domain.datasets[snapshot.dataset].owner));
      expired := true;
    }
  
    // -------------------------------------------------------------- maintenance

    /** One job of `reconcile`, read again under its lock. */
    method RecoverRow(task: nat) returns (failed: bool)
      modifies this`jobs, this`outbox
      ensures failed == FailsUnderRecovery(old(View()), task)
      ensures View() == AfterAct(old(View()), task, Act.Reconcile)
      ensures !LostTrack(old(jobs), old(outbox), env.now, task) ==>
                !failed && jobs == old(jobs) && outbox == old(outbox)
      ensures failed <==> LostTrack(old(jobs), old(outbox), env.now, task)
                          && (old(jobs)[task].attemptCount >= old(jobs)[task].maxAttempts
                              || task !in old(outbox) || old(outbox)[task].status.Withdrawn?)
      ensures failed ==> jobs == old(jobs)[task := Ended(old(jobs)[task], Failure, env.now)]
                         && outbox == Silenced(old(outbox), task)
      ensures LostTrack(old(jobs), old(outbox), env.now, task) && !failed ==>
                && jobs == old(jobs)[task := GivenBack(old(jobs)[task])]
                && task in outbox && outbox == old(outbox)[task := outbox[task]]
                && StartsOver(old(outbox)[task], outbox[task], env.now)
    {
      if task !in jobs { return false; }
      var job := jobs[task];
      if job.status.Started? {
        if !job.LeaseExpired(env.now) { return false; }
      } else if !job.status.Pending? {
        return false;
      }
      var exhausted := job.attemptCount >= job.maxAttempts;
      if job.status.Pending? && !exhausted {
        if task !in outbox || !outbox[task].status.Published? || outbox[task].publishedAt.None?
           || outbox[task].publishedAt.value > env.now - DELIVERY_ACK_TIMEOUT_SECONDS { return false; }
      }
      if exhausted || task !in outbox || outbox[task].status.Withdrawn? {
        job := job.(status := Failure, leaseExpiresAt := None, finishedAt := Some(env.now));
        WithdrawPublication(task);
        RowsOfUpdate(jobs, old(outbox), task, job, if task in outbox then outbox[task] else Enqueued(0, 0));
        jobs := jobs[task := job];
        failed := true;
      } else {
        job := job.(status := Pending, attemptToken := None, leaseExpiresAt := None);
        var rearmed := Rearm(task);
        RowsOfUpdate(jobs, old(outbox), task, job, outbox[task]);
        jobs := jobs[task := job];
        failed := false;
      }
    }

    /** `_reconcile_job_target`: bring a finished job's record to the same outcome. */
    method ReconcileTargetOf(task: nat, cancelled: bool)
      requires task in jobs
      modifies this`domain, this`storage
      ensures View() == ReconcileTarget(old(View()), jobs[task], task, cancelled)
    {
      hide RowsOf;
      var job := jobs[task];
      match job.kind {
        case Import =>
          if job.dataset.Some? && job.dataset.value in domain.datasets {
            var d := job.dataset.value;
            var dataset := domain.datasets[d].(status := if cancelled then CancelledImport else FailedImport);
            ScheduleDelete(dataset.storedPath, None);
            if cancelled { dataset := dataset.(deleted := true); }
            domain := domain.(datasets := domain.datasets[d := dataset]);
          }
        case ProfileJob =>
          if job.dataset.Some? && job.dataset.value in domain.datasets
              && domain.datasets[job.dataset.value].status.Profiling? {
            domain := domain.(datasets := WithStatus(domain.datasets, job.dataset.value, Ready));
          }
        case Transform =>
          if job.transformation.Some? && job.transformation.value in domain.transformations {
            var x := job.transformation.value;
            var record := domain.transformations[x];
            if !record.status.Completed? && !record.status.Undone? {
              domain := domain.(
                transformations := domain.transformations[x := record.(status := if cancelled then CancelledRun
                                                                       else FailedRun)],
                datasets := if record.dataset in domain.datasets && domain.datasets[record.dataset].version
                    == record.expectedVersion
                            then WithStatus(domain.datasets, record.dataset, Ready) else domain.datasets);
            }
          }
        case Quality => CloseEvaluation(task, if cancelled then EvaluationCancelled else EvaluationError);
        case _ =>
      }
    }

    /**
     The recovery half of `_reconcile_jobs`: move all rows, then settle the records of
     those that failed. It recovers each job as if alone.
     */
    method RecoverJobs(candidates: seq<nat>) returns (terminal: seq<nat>)
      modifies this
      ensures View() == Run(old(View()), RecoverySteps(candidates))
      ensures terminal == FailedAmong(old(View()), candidates)
    {
      hide RowsOf, ReconcileTarget, FailsUnderRecovery, AfterAct;
      terminal := [];
      var i := 0;
      assert candidates[..0] == [];
      while i < |candidates|
        invariant i <= |candidates|
        invariant View() == RowsMoved(old(View()), candidates[..i])
        invariant terminal == FailedAmong(old(View()), candidates[..i])
      {
        assert candidates[..i + 1][..i] == candidates[..i];
        var failed := RecoverRow(candidates[i]);
        if failed { terminal := terminal + [candidates[i]]; }
        i := i + 1;
      }
      assert candidates[..i] == candidates;
      ghost var moved := View();
      i := 0;
      assert terminal[..0] == [];
      while i < |terminal|
        invariant i <= |terminal|
        invariant View() == AllSettled(moved, terminal[..i])
      {
        assert terminal[..i + 1][..i] == terminal[..i];
        if terminal[i] in jobs {
          JobOfRow(jobs, outbox, terminal[i]);
          ReconcileTargetOf(terminal[i], false);
        } else {
          NoRow(jobs, outbox, terminal[i]);
        }
        i := i + 1;
      }
      assert terminal[..i] == terminal;
      TwoPhasesSettleEachJob(old(View()), candidates);
    }

    /** One requested cancellation whose worker's lease has run out, or which never had one. */
    method CancelExpired(task: nat) returns (cancelled: bool)
      modifies this`jobs, this`outbox, this`domain, this`storage
      ensures cancelled == old(RowFires(View(), task, ReconcileCancellation))
      ensures cancelled == (task in old(jobs) && old(jobs)[task].status.CancellationRequested?
                            && !Leased(old(jobs)[task], env.now))
      ensures jobs == if cancelled then old(jobs)[task := Ended(old(jobs)[task], Cancelled, env.now)] else old(jobs)
      ensures outbox == if cancelled then Silenced(old(outbox), task) else old(outbox)
      ensures View() == ReconcileCancelled(old(View()), task)
    {
      hide RowsOf, ReconcileTarget;
      JobRows(jobs, outbox);
      if task !in jobs || !jobs[task].status.CancellationRequested?
          || !jobs[task].LeaseExpired(env.now) { return false; }
      var job := jobs[task].(status := Cancelled, leaseExpiresAt := None, finishedAt := Some(env.now));
      WithdrawPublication(task);
      RowsOfUpdate(jobs, old(outbox), task, job, if task in outbox then outbox[task] else Enqueued(0, 0));
      jobs := jobs[task := job];
      TargetReadsIdentity(View(), job, old(jobs)[task], task, true);
      ReconcileTargetOf(task, true);
      cancelled := true;
    }

    /** The cancellation half of `_reconcile_jobs`. */
    method CancelJobs(candidates: seq<nat>) returns (terminal: seq<nat>)
      modifies this`jobs, this`outbox, this`domain, this`storage
      ensures View() == Run(old(View()), CancellationSteps(candidates))
      ensures terminal == CancelledAmong(old(View()), candidates)
    {
      hide RowsOf, Run, ReconcileCancelled, RowFires;
      RunNothing(View());
      terminal := [];
      var i := 0;
      assert candidates[..0] == [] && CancellationSteps(candidates[..0]) == [];
      while i < |candidates|
        invariant i <= |candidates|
        invariant View() == Run(old(View()), CancellationSteps(candidates[..i]))
        invariant terminal == CancelledAmong(old(View()), candidates[..i])
      {
        OneMoreCancellation(old(View()), candidates, i);
        var done := CancelExpired(candidates[i]);
        if done { terminal := terminal + [candidates[i]]; }
        i := i + 1;
      }
      assert candidates[..i] == candidates;
    }

    /** `_reconcile_jobs`: recovery, then cancellation, in one transaction. */
    method ReconcileJobs(candidates: seq<nat>, cancellations: seq<nat>) returns (terminal: seq<nat>)
      modifies this
      ensures View() == Run(old(View()), RecoverySteps(candidates) + CancellationSteps(cancellations))
      ensures terminal == FailedAmong(old(View()), candidates)
                          + CancelledAmong(Run(old(View()), RecoverySteps(candidates)), cancellations)
    {
      hide RowsOf, Run, RecoverySteps, CancellationSteps, FailedAmong, CancelledAmong;
      RunConcat(View(), RecoverySteps(candidates), CancellationSteps(cancellations));
      var failed := RecoverJobs(candidates);
      var cancelled := CancelJobs(cancellations);
      terminal := failed + cancelled;
    }

    /** `remove_expired_job_history`: finished rows past their retention, with their intents. */
    method RemoveExpiredJobs(candidates: seq<nat>) returns (deleted: nat, ghost trace: seq<Step>)
      modifies this`jobs, this`outbox
      ensures View() == Run(old(View()), trace)
      ensures |trace| == |candidates| && forall i | 0 <= i < |trace| :: trace[i] == Maintain(PurgeStep(candidates[i]))
    {
      hide Run, RowsOf;
      RunNothing(View());
      deleted, trace := 0, [];
      var i := 0;
      while i < |candidates|
        invariant i <= |candidates| && View() == Run(old(View()), trace)
        invariant |trace| == i && forall j | 0 <= j < i :: trace[j] == Maintain(PurgeStep(candidates[j]))
      {
        RunThen(old(View()), trace, Maintain(PurgeStep(candidates[i])));
        trace := trace + [Maintain(PurgeStep(candidates[i]))];
        var task := candidates[i];
        PurgedRow(jobs, outbox, task);
        if task in jobs && jobs[task].Terminal() && jobs[task].finishedAt.Some?
           && jobs[task].finishedAt.value < env.now - env.settings.jobRetention {
          jobs, outbox := jobs - {task}, outbox - {task};
          deleted := deleted + 1;
        }
        i := i + 1;
      }
    }
  
    // -------------------------------------------------------------- undo

    /** `replay`: the stored receipt of an undo key, oldest first. */
    method FindReceipt(log: seq<Event>, actor: nat, key: Option<nat>) returns (event: Option<Event>)
      ensures event == Replay(log, actor, key)
    {
      event := None;
      if key.None? { return; }
      var i := 0;
      while i < |log|
        invariant i <= |log| && Replay(log, actor, key) == Replay(log[i..], actor, key)
      {
        if log[i].kind.UndoEvent? && log[i].actor == actor && log[i].idempotencyKey == key { return Some(log[i]); }
        assert log[i..][1..] == log[i + 1..];
        i := i + 1;
      }
    }

    /** The newest completed transformation whose output is the head, as `ORDER BY id DESC` finds it. */
    method NewestCandidate(d: nat, user: nat) returns (x: Option<nat>)
      ensures x.Some? ==> UndoCandidate(View(), d, user, x.value)
      ensures forall y | y in domain.transformations :: UndoCandidate(View(), d, user, y) ==> x.Some? && y <= x.value
    {
      hide RowsOf;
      x := None;
      if d !in domain.datasets { return; }
      var left := domain.transformations.Keys;
      while left != {}
        invariant left <= domain.transformations.Keys
        invariant x.Some? ==> UndoCandidate(View(), d, user, x.value)
        invariant forall y | y in domain.transformations && y !in left :: UndoCandidate(View(), d, user, y) ==>
                x.Some? && y <= x.value
        decreases |left|
      {
        var y :| y in left;
        var record := domain.transformations[y];
        if record.dataset == d && record.user == user && record.status.Completed?
           && record.outputPath == domain.datasets[d].storedPath && (x.None? || x.value < y) {
          x := Some(y);
        }
        left := left - {y};
      }
    }

    /** What an undo would undo, or why it must refuse: the checks under the locks, in their order. */
    method UndoTarget(d: nat, user: nat, version: nat) returns (target: Result<nat, UndoError>)
      requires d in domain.datasets
      ensures target.Ok? ==> HeadTransformation(domain, d, user, target.value)
                             && Restorable(storage, d, domain.transformations[target.value].inputPath)
                             && domain.datasets[d].EnsureReady() && domain.datasets[d].version == version
      ensures forall e :: target == Err(e) <==> RefusesUndo(domain, storage, d, user, version, e)
    {
      hide RowsOf;
      var dataset := domain.datasets[d];
      if !dataset.EnsureReady() { return Err(NotReady); }
      if dataset.version != version { return Err(VersionChanged); }
      var newest := NewestCandidate(d, user);
      HeadTransformations(View(), d, user, newest);
      hide HeadTransformation;
      if newest.None? { return Err(NothingToUndo); }
      var path := domain.transformations[newest.value].inputPath;
      if path !in storage.snapshots || storage.snapshots[path].dataset != d
         || storage.snapshots[path].availability.Expired?
         || path !in storage.files || storage.files[path] != storage.snapshots[path].digest {
        return Err(SnapshotUnavailable);
      }
      target := Ok(newest.value);
    }

    /** The undo itself: head, record and event in one commit. */
    method ApplyUndo(d: nat, user: nat, version: nat, key: Option<nat>, x: nat) returns (receipt: Receipt)
      requires MayUndo(View(), d, user, version, key, x)
      modifies this`domain, this`env
      ensures View() == Undo(old(View()), d, user, version, key, x)
      ensures UndoneTo(old(domain), d, user, version, key, x, old(env).nextId, domain, receipt)
    {
      hide RowsOf, Replay;
      var dataset, record := domain.datasets[d], domain.transformations[x];
      var log := if d in domain.events then domain.events[d] else [];
      var event := UndoEventOf(x, record, env.nextId, user, version, key);
      domain := domain.(
        transformations := domain.transformations[x := record.(status := Undone)],
        datasets := domain.datasets[d := dataset.(
          storedPath := record.inputPath, rowCount := Some(record.beforeRows),
          columnCount := Some(record.beforeColumns),
          version := dataset.version + 1, profile := None, status := Ready)],
        events := domain.events[d := log + [event]]);
      env := env.(nextId := env.nextId + 1);
      receipt := event.receipt;
    }

    /**
     `undo_last`: replay a used key, or restore the input of the newest transformation of
     the head. A refusal changes nothing, and names the first check that failed.
     */
    method UndoLast(d: nat, user: nat, version: nat, key: Option<nat>) returns (r: Result<Receipt, UndoError>)
      modifies this`domain, this`env
      ensures r.Ok? ==>
                || (exists x :: && MayUndo(old(View()), d, user, version, key, x)
                                && View() == Undo(old(View()), d, user, version, key, x)
                                && HeadTransformation(old(domain), d, user, x)
                                && UndoneTo(old(domain), d, user, version, key, x, old(env).nextId, domain, r.value))
                || (&& View() == old(View())
                    && Replay(EventsOf(old(View()), d), user, key).Some?
                    && Replay(EventsOf(old(View()), d), user, key).value.fingerprint == UndoRequest(d, version)
                    && r.value == Replay(EventsOf(old(View()), d), user, key).value.receipt)
      ensures r.Err? ==> View() == old(View()) && forall x :: !MayUndo(old(View()), d, user, version, key, x)
      ensures r == Err(DatasetNotFound) <==> !Owns(old(domain), d, user)
      ensures Owns(old(domain), d, user) ==>
                var found := Replay(EventsOf(old(View()), d), user, key);
                if found.Some?
                then r == if found.value.fingerprint == UndoRequest(d, version) then Ok(found.value.receipt)
                          else Err(KeyReused)
                else forall e :: r == Err(e) <==> RefusesUndo(old(domain), storage, d, user, version, e)
    {
      hide RowsOf, Replay, HeadTransformation, Restorable, RefusesUndo, UndoneTo, Undo;
      if d !in domain.datasets || domain.datasets[d].deleted
          || domain.datasets[d].owner != user { return Err(DatasetNotFound); }
      var log := if d in domain.events then domain.events[d] else [];
      var found := FindReceipt(log, user, key);
      if found.Some? {
        if found.value.fingerprint != UndoRequest(d, version) { return Err(KeyReused); }
        return Ok(found.value.receipt);
      }
      hide MayUndo;
      var target := UndoTarget(d, user, version);
      UndoIsAllowed(View(), d, user, version, key, target);
      if target.Err? { return Err(target.error); }
      var receipt := ApplyUndo(d, user, version, key, target.value);
      r := Ok(receipt);
    }

    // -------------------------------------------------------------- one transformation attempt

    /** `ArtifactService.reserve` for the attempt's own output, committed before any byte is written. */
    method ReserveFor(task: nat, token: Token) returns (final: Option<Path>)
      modifies this`storage, this`env
      ensures View() == ReserveOutput(old(View()), task, token)
      ensures final.Some? ==> final.value in storage.writers && !storage.writers[final.value].finished
      ensures final.None? ==> View() == old(View())
    {
      hide RowsOf;
      JobRows(jobs, outbox);
      if task !in jobs || !jobs[task].OwnsLease(token, env.now) || !jobs[task].kind.Transform? { return None; }
      var job := jobs[task];
      if job.transformation.None? || job.transformation.value !in domain.transformations { return None; }
      if domain.transformations[job.transformation.value].Published() { return None; }
      var path, temporary := Output(env.nextId), Temporary(env.nextId + 1);
      storage := storage.(
        artifacts := storage.artifacts[path := Artifact(Some(job.owner), Some(task), Some(token), Some(temporary),
                                                        Reserved,
                                                        Some(env.now + Max(900, 900)), None)],
        writers := storage.writers[path := Writer(temporary, task, token, job.transformation, false)]);
      env := env.(nextId := env.nextId + 2);
      final := Some(path);
    }

    /** Every check of the final transaction, under the job, dataset and artifact locks. */
    method MayPublishOutput(task: nat, token: Token, final: Path) returns (ok: bool)
      ensures ok == MayPublish(View(), task, token, final)
      ensures ok ==> task in jobs
    {
      hide RowsOf;
      JobRows(jobs, outbox);
      if task !in jobs || !jobs[task].OwnsLease(token, env.now) || !jobs[task].kind.Transform? { return false; }
      var job := jobs[task];
      if job.transformation.None? || job.transformation.value !in domain.transformations { return false; }
      var record := domain.transformations[job.transformation.value];
      var d := record.dataset;
      if final !in storage.writers || storage.writers[final].finished
          || storage.writers[final].transformation != job.transformation { return false; }
      if storage.writers[final].temporary !in storage.files { return false; }
      if d !in domain.datasets || domain.datasets[d].deleted || domain.datasets[d].version != record.expectedVersion
         || domain.datasets[d].storedPath != record.inputPath { return false; }
      if record.status.Completed? || record.status.Undone? || record.status.CancelledRun? { return false; }
      if record.inputPath !in storage.snapshots || final !in storage.artifacts { return false; }
      var artifact := storage.artifacts[final];
      ok := artifact.task == Some(task) && artifact.owner == Some(job.owner) && artifact.state.Reserved?
          && artifact.attemptToken == Some(token);
    }

    /** The artifact becomes LIVE, the file gets its final name and its manifest. */
    method CommitOutput(final: Path, d: nat, version: nat) returns (output: Bytes)
      requires final in storage.writers && final in storage.artifacts
          && storage.writers[final].temporary in storage.files
      modifies this`storage
      ensures var was, temporary := old(storage), old(storage).writers[final].temporary;
              && output == was.files[temporary]
              && storage == was.(
                   artifacts := was.artifacts[final := was.artifacts[final].(state := Live, expiresAt := None)],
                   files := (was.files - {temporary})[final := output],
                   writers := was.writers[final := was.writers[final].(finished := true)],
                   snapshots := was.snapshots[final := Snapshot(d, version, output, Available, false, env.now)])
    {
      var temporary := storage.writers[final].temporary;
      output := storage.files[temporary];
      storage := storage.(artifacts := storage.artifacts[final := storage.artifacts[final].(state := Live,
          expiresAt := None)]);
      storage := storage.(files := (storage.files - {temporary})[final := output],
                          writers := storage.writers[final := storage.writers[final].(finished := true)]);
      storage := storage.(snapshots := storage.snapshots[final := Snapshot(d, version, output, Available, false,
                                                                           env.now)]);
    }

    /** The head, the record and the event. */
    method MoveHead(x: nat, final: Path, source: Bytes, output: Bytes)
      requires x in domain.transformations && domain.transformations[x].dataset in domain.datasets
      modifies this`domain, this`env
      ensures var was, record := old(domain), old(domain).transformations[x];
              var d := record.dataset;
              domain == was.(
                datasets := was.datasets[d := was.datasets[d].(
                  storedPath := final, rowCount := Some(output.rows), columnCount := Some(output.columns),
                  profile := None, version := record.expectedVersion + 1, status := Ready)],
                transformations := was.transformations[x := record.(
                  outputPath := final, status := Completed, beforeRows := source.rows, afterRows := output.rows,
                  beforeColumns := source.columns, afterColumns := output.columns)],
                events := was.events[d := (if d in was.events then was.events[d]
                                           else []) + [TransformationEvent(x, record, old(env).nextId, final, source,
                                                                        output)]])
      ensures env == old(env).(nextId := old(env).nextId + 1)
    {
      var record := domain.transformations[x];
      var d := record.dataset;
      var event := TransformationEvent(x, record, env.nextId, final, source, output);
      env := env.(nextId := env.nextId + 1);
      domain := domain.(datasets := domain.datasets[d := domain.datasets[d].(
        storedPath := final, rowCount := Some(output.rows), columnCount := Some(output.columns),
        profile := None, version := record.expectedVersion + 1, status := Ready)]);
      domain := domain.(transformations := domain.transformations[x := record.(
        outputPath := final, status := Completed, beforeRows := source.rows, afterRows := output.rows,
        beforeColumns := source.columns, afterColumns := output.columns)]);
      domain := domain.(events := domain.events[d := (if d in domain.events then domain.events[d] else []) + [event]]);
    }

    /** The worker's final transaction: everything that publication changes, or nothing. */
    method PublishOutput(task: nat, token: Token, final: Path) returns (ok: bool)
      modifies this`jobs, this`domain, this`storage, this`env
      ensures ok == MayPublish(old(View()), task, token, final)
      ensures View() == Publish(old(View()), task, token, final)
    {
      hide RowsOf, TransformationEvent, MayPublish, Fires, Perform;
      ok := MayPublishOutput(task, token, final);
      if !ok { return; }
      JobRows(jobs, outbox);
      PublishFinds(View(), task, token, final);
      var job := jobs[task];
      var x := job.transformation.value;
      var record := domain.transformations[x];
      var source := storage.snapshots[record.inputPath].digest;
      var output := CommitOutput(final, record.dataset, record.expectedVersion + 1);
      MoveHead(x, final, source, output);
      SucceedsOn(old(View()), View(), task, token);
      var succeeded := Succeed(task, token);
    }

    /** The worker gives up: `fail`, and its transformation with it. */
    method FailTransform(task: nat, token: Token) returns (ok: bool)
      requires task in jobs && jobs[task].kind.Transform?
      modifies this`jobs, this`domain, this`storage
      ensures ok == old(RowFires(View(), task, Act.Fail(Some(token))))
      ensures View() == FailJob(old(View()), task, token)
    {
      hide RowsOf;
      JobRows(jobs, outbox);
      var job := jobs[task];
      ghost var s := View();
      ok := Fail(task, Some(token));
      if !ok { return; }
      if job.transformation.None? || job.transformation.value !in domain.transformations { return; }
      var x := job.transformation.value;
      var record := domain.transformations[x];
      if record.status.Completed? || record.status.Undone? { return; }
      storage := storage.(artifacts := AbandonAttempt(storage.artifacts, task, token, env.now));
      var datasets := domain.datasets;
      if record.dataset in datasets && datasets[record.dataset].version == record.expectedVersion
         && datasets[record.dataset].storedPath == record.inputPath {
        datasets := WithStatus(datasets, record.dataset, Ready);
      }
      domain := domain.(transformations := domain.transformations[x := record.(status := FailedRun)],
                        datasets := datasets);
    }

    /** The worker's failure can be retried: job, publication intent and record in one commit. */
    method RetryTransform(task: nat, token: Token) returns (ok: bool)
      requires task in jobs && jobs[task].kind.Transform?
      modifies this`jobs, this`outbox, this`domain
      ensures ok == old(RowFires(View(), task, Act.Retry(token)))
      ensures View() == RetryJob(old(View()), task, token)
    {
      hide RowsOf;
      JobRows(jobs, outbox);
      var job := jobs[task];
      ok := Retry(task, token);
      if !ok { return; }
      if job.transformation.None? || job.transformation.value !in domain.transformations { return; }
      var x := job.transformation.value;
      var record := domain.transformations[x];
      var datasets := domain.datasets;
      if record.dataset in datasets && datasets[record.dataset].version == record.expectedVersion {
        datasets := WithStatus(datasets, record.dataset, Transforming);
      }
      domain := domain.(transformations := domain.transformations[x := record.(status := Admitted)],
                        datasets := datasets);
    }

    method WriteTemporary(final: Path, content: Bytes)
      requires final in storage.writers && !storage.writers[final].finished
      modifies this`storage
      ensures View() == WriteScratch(old(View()), final, old(storage).writers[final].temporary, content)
      ensures storage.writers == old(storage).writers
    {
      storage := storage.(files := storage.files[storage.writers[final].temporary := content]);
    }

    method DropOutput(final: Path)
      modifies this`storage
      ensures View() == DropTemporary(old(View()), final)
    {
      if final in storage.writers && !storage.writers[final].finished {
        storage := storage.(files := storage.files - {storage.writers[final].temporary},
                            writers := storage.writers[final := storage.writers[final].(finished := true)]);
      }
    }

    // -------------------------------------------------------------- routes

    /** `cancel_job`, first transaction: withdraw waiting work with its record. */
    method WithdrawJob(task: nat) returns (withdrawn: bool)
      modifies this`jobs, this`outbox, this`domain, this`storage
      ensures withdrawn == old(RowFires(View(), task, Act.CancelPending))
      ensures View() == CancelWaiting(old(View()), task)
    {
      hide RowsOf;
      JobRows(jobs, outbox);
      if task !in jobs { return false; }
      var job := jobs[task];
      withdrawn := CancelPending(task);
      if !withdrawn { return; }
      match job.kind {
        case Import =>
          if job.dataset.Some? && job.dataset.value in domain.datasets {
            var d := job.dataset.value;
            storage := storage.(doomed := storage.doomed + {domain.datasets[d].storedPath});
            domain := domain.(datasets := domain.datasets[d := domain.datasets[d].(status := CancelledImport,
                deleted := true)]);
          }
        case ProfileJob =>
          if job.dataset.Some? && job.dataset.value in domain.datasets {
            domain := domain.(datasets := WithStatus(domain.datasets, job.dataset.value, Ready));
          }
        case Transform =>
          if job.transformation.Some? && job.transformation.value in domain.transformations {
            var x := job.transformation.value;
            var record := domain.transformations[x];
            var datasets := domain.datasets;
            if record.dataset in datasets && datasets[record.dataset].version == record.expectedVersion {
              datasets := WithStatus(datasets, record.dataset, Ready);
            }
            domain := domain.(transformations := domain.transformations[x := record.(status := CancelledRun)],
                              datasets := datasets);
          }
        case Quality => CloseEvaluation(task, EvaluationCancelled);
        case _ =>
      }
    }

    /**
     `cancel_job`: one transaction, or two. A cancelled job is left as it is; a job that
     has finished otherwise is reported as such.
     */
    method CancelJobRoute(task: nat) returns (accepted: bool, ghost steps: seq<Step>)
      modifies this`jobs, this`outbox, this`domain, this`storage
      ensures View() == Run(old(View()), steps)
      ensures steps == [] || steps == [Ask(CancelWaitingStep(task))]
              || steps == [Ask(CancelWaitingStep(task)), Ask(RequestStopStep(task))]
      ensures accepted <==> task in old(jobs) && !old(jobs)[task].status.Success? && !old(jobs)[task].status.Failure?
      ensures accepted ==> task in jobs && (jobs[task].status.Cancelled? || jobs[task].status.CancellationRequested?)
      ensures !accepted ==> View() == old(View())
    {
      hide RowsOf, Run, CancelWaiting, RequestStop;
      RunNothing(View());
      JobRows(jobs, outbox);
      steps := [];
      if task !in jobs || jobs[task].status.Success? || jobs[task].status.Failure? { return false, steps; }
      accepted := true;
      if jobs[task].status.Cancelled? { return; }
      CancellationRuns(View(), task);
      var withdrawn := WithdrawJob(task);
      steps := [Ask(CancelWaitingStep(task))];
      WaitingOnly(old(View()), task);
      JobRows(jobs, outbox);
      if withdrawn {
        assert View().tasks.rows[task].job.status.Cancelled?;
        return;
      }
      steps := [Ask(CancelWaitingStep(task)), Ask(RequestStopStep(task))];
      if jobs[task].status.CancellationRequested? {
        StopOnly(View(), task);
        return;
      }
      StopOnly(View(), task);
      var requested := RequestCancellation(task);
      JobRows(jobs, outbox);
    }

    /** Jobs of the account that occupy its capacity, counted one row at a time. */
    method ActiveCount(owner: nat) returns (count: nat)
      ensures count == |ActiveTasks(View().tasks.rows, owner)|
    {
      var left, active: set<nat> := jobs.Keys, {};
      while left != {}
        invariant left <= jobs.Keys
        invariant active == set t | t in jobs && t !in left && jobs[t].owner == owner && jobs[t].OccupiesCapacity()
        decreases |left|
      {
        var t :| t in left;
        left := left - {t};
        if jobs[t].owner == owner
            && (jobs[t].status.Pending? || jobs[t].status.Started? || jobs[t].status.CancellationRequested?) {
          active := active + {t};
        }
      }
      assert active == ActiveTasks(View().tasks.rows, owner);
      count := |active|;
    }

    /** `transform`: record, job and publication intent in one commit, or nothing. */
    method TransformRoute(task: nat, d: nat, user: nat, version: nat, key: nat, operation: int) returns (admitted: bool)
      modifies this`jobs, this`outbox, this`domain, this`env
      ensures admitted == MayTransform(old(View()), task, d, user, version, key)
      ensures View() == AdmitTransformation(old(View()), task, d, user, version, key, operation)
    {
      hide RowsOf, ActiveTasks;
      JobRows(jobs, outbox);
      if task in jobs || d !in domain.datasets || domain.datasets[d].deleted
          || domain.datasets[d].owner != user { return false; }
      if KeyUsed(domain.transformations, d, user, key) || TaskUsed(domain.transformations, task) { return false; }
      var dataset := domain.datasets[d];
      if !dataset.EnsureReady() || dataset.version != version { return false; }
      var active := ActiveCount(user);
      if active >= env.settings.maxActiveJobs { return false; }
      var x, box := env.nextId, Enqueued(env.nextId + 1, env.now);
      var rows, columns := OrZero(dataset.rowCount), OrZero(dataset.columnCount);
      domain := domain.(
        transformations := domain.transformations[x := Transformation(
          d, user, operation, key, version, dataset.storedPath, Prepared(env.nextId + 2), Admitted, task,
          rows, rows, columns, columns)],
        datasets := domain.datasets[d := dataset.(status := Transforming)]);
      NewRowOf(jobs, outbox, task, Created(user, Some(d), Some(x), Transform), box);
      jobs := jobs[task := Created(user, Some(d), Some(x), Transform)];
      outbox := outbox[task := box];
      env := env.(nextId := env.nextId + 3);
      admitted := true;
    }
  }

  lemma RemoveOneMore<K, V>(m: map<K, V>, removed: set<K>, k: K)
    ensures m - removed - {k} == m - (removed + {k})
  {
  }

  lemma JobRows(jobs: map<nat, Job>, outbox: map<nat, Outbox>)
    ensures RowsOf(jobs, outbox).Keys == jobs.Keys
    ensures forall t | t in jobs ::
        RowsOf(jobs, outbox)[t] == Row(jobs[t], if t in outbox then Some(outbox[t]) else None)
  {
  }

  lemma NewRowOf(jobs: map<nat, Job>, outbox: map<nat, Outbox>, task: nat, job: Job, box: Outbox)
    ensures RowsOf(jobs[task := job], outbox[task := box]) == RowsOf(jobs, outbox)[task := Row(job, Some(box))]
  {
  }

  lemma JobOfRow(jobs: map<nat, Job>, outbox: map<nat, Outbox>, task: nat)
    requires task in jobs
    ensures task in RowsOf(jobs, outbox) && RowsOf(jobs, outbox)[task].job == jobs[task]
  {
  }

  lemma NoRow(jobs: map<nat, Job>, outbox: map<nat, Outbox>, task: nat)
    requires task !in jobs
    ensures task !in RowsOf(jobs, outbox)
  {
  }

  lemma PurgedRow(jobs: map<nat, Job>, outbox: map<nat, Outbox>, task: nat)
    ensures task in RowsOf(jobs, outbox) <==> task in jobs
    ensures task in jobs ==> RowsOf(jobs, outbox)[task].job == jobs[task]
    ensures RowsOf(jobs - {task}, outbox - {task}) == RowsOf(jobs, outbox) - {task}
  {
  }

  lemma UnlinkRuns(s: State, steps: seq<Step>, path: Path)
    ensures Run(s, steps + [Maintain(UnlinkStep(path))]) == Unlink(Run(s, steps), path)
  {
    hide Run, Unlink;
    RunThen(s, steps, Maintain(UnlinkStep(path)));
  }

  lemma CollectRuns(s: State, path: Path)
    ensures Run(s, [Maintain(CollectStep(path))]) == Collect(s, path)
  {
    hide Collect;
    RunThen(s, [], Maintain(CollectStep(path)));
    assert [] + [Maintain(CollectStep(path))] == [Maintain(CollectStep(path))];
  }

  lemma InFlightOf(jobs: map<nat, Job>, outbox: map<nat, Outbox>, d: nat)
    ensures InFlight(RowsOf(jobs, outbox), d) <==> exists t | t in jobs ::
            jobs[t].dataset == Some(d) && jobs[t].OccupiesCapacity()
  {
    var rows := RowsOf(jobs, outbox);
    assert rows.Keys == jobs.Keys && forall t | t in jobs :: rows[t].job == jobs[t];
  }

  /** What withdrawing does to the row; what it leaves alone when the job is not waiting. */
  lemma WaitingOnly(s: State, task: nat)
    requires task in s.tasks.rows
    ensures task in CancelWaiting(s, task).tasks.rows
    ensures if s.tasks.rows[task].job.status.Pending?
            then CancelWaiting(s, task).tasks.rows[task].job.status.Cancelled?
            else CancelWaiting(s, task) == s
  {
  }

  lemma StopOnly(s: State, task: nat)
    ensures RequestStop(s, task) == AfterAct(s, task, Act.RequestCancellation)
    ensures task in s.tasks.rows && s.tasks.rows[task].job.status.CancellationRequested? ==> RequestStop(s, task) == s
    ensures task in s.tasks.rows && s.tasks.rows[task].job.Active() ==>
              task in RequestStop(s, task).tasks.rows
              && RequestStop(s, task).tasks.rows[task].job.status.CancellationRequested?
  {
  }

  lemma CancellationRuns(s: State, task: nat)
    ensures Run(s, [Ask(CancelWaitingStep(task))]) == CancelWaiting(s, task)
    ensures Run(s, [Ask(CancelWaitingStep(task)), Ask(RequestStopStep(task))])
            == RequestStop(CancelWaiting(s, task), task)
  {
    hide CancelWaiting, RequestStop;
    var a, b := Ask(CancelWaitingStep(task)), Ask(RequestStopStep(task));
    RunThen(s, [], a);
    RunThen(s, [a], b);
    assert [] + [a] == [a] && [a] + [b] == [a, b];
  }

  /** What the publication checks establish about the tables. */
  lemma PublishFinds(s: State, task: nat, token: Token, final: Path)
    requires MayPublish(s, task, token, final)
    ensures task in s.tasks.rows && RowFires(s, task, Act.Succeed(token))
    ensures s.tasks.rows[task].job.transformation.Some?
        && s.tasks.rows[task].job.transformation.value in s.domain.transformations
    ensures var record := s.domain.transformations[s.tasks.rows[task].job.transformation.value];
            && record.inputPath in s.storage.snapshots && record.dataset in s.domain.datasets
            && s.domain.datasets[record.dataset].version == record.expectedVersion
    ensures final in s.storage.writers && final in s.storage.artifacts
        && s.storage.writers[final].temporary in s.storage.files
  {
    hide Fires;
  }

  /** The same rows and clock: the same acts apply. */
  lemma SucceedsOn(s: State, z: State, task: nat, token: Token)
    requires z.tasks == s.tasks && z.env.now == s.env.now
    ensures RowFires(z, task, Act.Succeed(token)) == RowFires(s, task, Act.Succeed(token))
    ensures RowFires(s, task, Act.Succeed(token)) ==>
              OnRow(z, task, Act.Succeed(token)).tasks == OnRow(s, task, Act.Succeed(token)).tasks
  {
    hide Fires, Perform;
  }

  predicate AllCollect(steps: seq<Step>) {
    forall i | 0 <= i < |steps| ::
        steps[i].Maintain? && (steps[i].upkeep.CollectStep? || steps[i].upkeep.UnlinkStep?
                               || steps[i].upkeep.FinishStep?)
  }

  lemma LiveAttemptOf(jobs: map<nat, Job>, outbox: map<nat, Outbox>, artifact: Artifact, now: Time)
    ensures LiveAttempt(RowsOf(jobs, outbox), artifact, now) <==>
            artifact.task.Some? && artifact.task.value in jobs
            && (jobs[artifact.task.value].status.Started? || jobs[artifact.task.value].status.CancellationRequested?)
            && jobs[artifact.task.value].attemptToken == artifact.attemptToken
            && !jobs[artifact.task.value].LeaseExpired(now)
  {
  }

  predicate AllDispatch(steps: seq<Step>) {
    forall i | 0 <= i < |steps| ::
        steps[i].Deliver? && (steps[i].dispatch.ClaimStep? || steps[i].dispatch.AcknowledgeStep?)
  }

  lemma RunNothing(s: State)
    ensures Run(s, []) == s
  {
  }

  lemma DispatchRuns(s: State, task: nat, claim: nat, answer: Option<nat>)
    ensures Run(s, [Deliver(ClaimStep(task))]) == ClaimPublication(s, task)
    ensures Run(s, [Deliver(ClaimStep(task))] + [Deliver(AcknowledgeStep(claim, answer))])
            == AcknowledgePublication(ClaimPublication(s, task), claim, answer)
  {
    hide ClaimPublication, AcknowledgePublication;
    RunThen(s, [], Deliver(ClaimStep(task)));
    assert [] + [Deliver(ClaimStep(task))] == [Deliver(ClaimStep(task))];
    RunThen(s, [Deliver(ClaimStep(task))], Deliver(AcknowledgeStep(claim, answer)));
  }
}
