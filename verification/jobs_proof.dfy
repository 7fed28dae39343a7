/** A job and its own domain record move together: `Moved` captures it, and keeps the invariant. */
module JobsProof {
  import opened Prelude
  import opened JobService
  import opened TaskProtocol
  import opened Tables
  import opened ArtifactService
  import opened Protocol
  import opened Invariants
  import opened StorageProof

  /** Datasets changed only in status, never into or out of the imported ones, and never back to a retained one. */
  ghost predicate Restated(before: map<nat, Dataset>, after: map<nat, Dataset>) {
    && before.Keys == after.Keys
    && forall d | d in before ::
      && after[d] == before[d].(status := after[d].status, deleted := after[d].deleted)
      && (before[d].Imported() <==> after[d].Imported())
      && (after[d].Retained() ==> before[d].Retained())
      && (after[d].deleted ==> after[d].status.CancelledImport?)
  }

  /** Besides imported datasets, only the job's own staged dataset may change. */
  ghost predicate OwnDataset(job: Job, before: map<nat, Dataset>, after: map<nat, Dataset>) {
    && Restated(before, after)
    && forall d | d in before && after[d] != before[d] ::
      (before[d].Imported() && after[d].Imported()) || (job.kind.Import? && job.dataset == Some(d))
  }

  ghost predicate OwnRun(job: Job, after: Job, a: map<nat, Transformation>, b: map<nat, Transformation>) {
    if job.kind.Transform? && job.transformation.Some? && job.transformation.value in a then
      var x := job.transformation.value;
      || (x in b && b == a[x := a[x].(status := b[x].status)] && !a[x].Published() && !b[x].Published()
          && Agree(after, b[x])
          && (b[x].status.Admitted? ==> a[x].status.Admitted?))
      || (b == a && Agree(after, a[x]))
    else b == a
  }

  /** Transformations changed only in status, and never into or out of the published ones. */
  ghost predicate Restatused(a: map<nat, Transformation>, b: map<nat, Transformation>) {
    && a.Keys == b.Keys
    && forall x | x in a ::
      && b[x] == a[x].(status := b[x].status)
      && (b[x].status != a[x].status ==>
              !a[x].Published() && !b[x].Published() && (b[x].status.Admitted? ==> a[x].status.Admitted?))
  }

  ghost predicate OwnEvaluation(task: nat, job: Job, after: Job, a: map<nat, Evaluation>, b: map<nat, Evaluation>) {
    if job.kind.Quality? then task in b && b == a[task := b[task]] && EvaluationAgrees(after, b[task])
    else b == a
  }

  ghost predicate OwnImport(job: Job, datasets: map<nat, Dataset>) {
    job.kind.Import? && job.dataset.Some? && job.dataset.value in datasets && job.OccupiesCapacity() ==>
      !datasets[job.dataset.value].Imported() && datasets[job.dataset.value].Retained()
  }

  // ---------------------------------------------------------------- one job moves

  lemma MoveKeepsRows(rows: map<nat, Row>, task: nat, act: Act, now: Time, nextId: nat, issued: nat)
    requires RowsOk(rows, nextId) && issued >= nextId
    requires task in rows && Fires(rows[task], act, now)
    requires act.Start? ==> act.token < issued
    requires act.Claim? ==> act.claim < issued
    ensures RowsOk(rows[task := Perform(rows[task], act, now)], issued)
  {
    ActKeepsSound(rows[task], act, now);
    ActKeepsTokens(rows[task], act, now, nextId, issued);
    hide Fires, Perform, Sound;
  }

  lemma ActKeepsTokens(row: Row, act: Act, now: Time, nextId: nat, issued: nat)
    requires Fires(row, act, now) && issued >= nextId
    requires row.job.attemptToken.Some? ==> row.job.attemptToken.value < nextId
    requires row.outbox.Some? && row.outbox.value.claimToken.Some? ==> row.outbox.value.claimToken.value < nextId
    requires act.Start? ==> act.token < issued
    requires act.Claim? ==> act.claim < issued
    ensures var after := Perform(row, act, now);
            && (after.job.attemptToken.Some? ==> after.job.attemptToken.value < issued)
            && (after.outbox.Some? && after.outbox.value.claimToken.Some? ==>
                after.outbox.value.claimToken.value < issued)
            && after.job.kind == row.job.kind && after.job.transformation == row.job.transformation
            && after.job.owner == row.job.owner
            && (!act.Enqueue? ==> after.job.dataset == row.job.dataset)
            && (act.Enqueue? ==> row.job.kind.Import? && after.job.dataset == Some(act.dataset))
            && (after.job.OccupiesCapacity() ==> row.job.OccupiesCapacity())
  {
  }

  /** What no act changes. */
  ghost predicate SameIdentity(a: Job, b: Job) {
    && a.kind == b.kind && a.owner == b.owner && a.dataset == b.dataset && a.transformation == b.transformation
    && (b.OccupiesCapacity() ==> a.OccupiesCapacity())
  }

  lemma MoveKeepsImports(rows: map<nat, Row>, a: map<nat, Dataset>, b: map<nat, Dataset>, uploads: map<nat, Upload>,
                         task: nat, after: Row)
    requires ImportsOk(rows, a, uploads) && task in rows && SameIdentity(rows[task].job, after.job)
    requires OwnDataset(rows[task].job, a, b) && OwnImport(after.job, b)
    ensures ImportsOk(rows[task := after], b, uploads)
  {
  }

  lemma MoveKeepsTargets(rows: map<nat, Row>, a: map<nat, Dataset>, b: map<nat, Dataset>,
                         transformations: map<nat, Transformation>,
                         after: map<nat, Transformation>, profilers: map<Token, Profiler>, task: nat, moved: Row)
    requires TargetsOk(rows, transformations, profilers, a) && task in rows && SameIdentity(rows[task].job, moved.job)
    requires Restated(a, b) && Restatused(transformations, after)
    ensures TargetsOk(rows[task := moved], after, profilers, b)
  {
  }

  lemma MoveKeepsRuns(rows: map<nat, Row>, a: map<nat, Transformation>, b: map<nat, Transformation>, task: nat,
                      after: Row)
    requires RunsAgree(rows, a) && task in rows && SameIdentity(rows[task].job, after.job)
    requires OwnRun(rows[task].job, after.job, a, b)
    ensures RunsAgree(rows[task := after], b)
  {
    hide Agree;
  }

  lemma MoveKeepsEvaluations(rows: map<nat, Row>, a: map<nat, Evaluation>, b: map<nat, Evaluation>,
                             task: nat, after: Row)
    requires EvaluationsAgree(rows, a) && task in rows && SameIdentity(rows[task].job, after.job)
    requires OwnEvaluation(task, rows[task].job, after.job, a, b)
    ensures EvaluationsAgree(rows[task := after], b)
  {
    hide EvaluationAgrees;
  }

  lemma MoveKeepsCapacity(rows: map<nat, Row>, limit: nat, task: nat, after: Row)
    requires CapacityOk(rows, limit) && task in rows
    requires after.job.owner == rows[task].job.owner
        && (after.job.OccupiesCapacity() ==> rows[task].job.OccupiesCapacity())
    ensures CapacityOk(rows[task := after], limit)
  {
    var moved := rows[task := after];
    forall owner: nat ensures |ActiveTasks(moved, owner)| <= limit {
      var a, b := ActiveTasks(rows, owner), ActiveTasks(moved, owner);
      assert b <= a;
      SubsetSize(b, a);
      assert |a| <= limit;
    }
  }

  lemma {:induction false} SubsetSize<T>(a: set<T>, b: set<T>)
    requires a <= b
    ensures |a| <= |b|
  {
    if a != {} {
      var e :| e in a;
      SubsetSize(a - {e}, b - {e});
    }
  }

  ghost predicate Moved(s: State, task: nat, act: Act, z: State) {
    && RowFires(s, task, act) && !act.Enqueue?
    && var before := s.tasks.rows[task];
       var after := Perform(before, act, s.env.now);
       && z.tasks.rows == s.tasks.rows[task := after]
       && z.env.settings == s.env.settings && z.env.now == s.env.now && z.env.nextId >= s.env.nextId
       && (act.Start? ==> s.env.nextId <= act.token < z.env.nextId)
       && (act.Claim? ==> s.env.nextId <= act.claim < z.env.nextId)
       && OwnDataset(before.job, s.domain.datasets, z.domain.datasets)
       && OwnImport(after.job, z.domain.datasets)
       && OwnRun(before.job, after.job, s.domain.transformations, z.domain.transformations)
       && OwnEvaluation(task, before.job, after.job, s.domain.evaluations, z.domain.evaluations)
       && z.domain.profilers == s.domain.profilers && z.domain.events == s.domain.events
       && z.intake.uploads == s.intake.uploads
  }

  lemma MovedKeepsJobs(s: State, task: nat, act: Act, z: State)
    requires JobsOk(s) && Moved(s, task, act, z)
    ensures JobsOk(z)
  {
    var before := s.tasks.rows[task];
    var after := Perform(before, act, s.env.now);
    assert before.job.attemptToken.Some? ==> before.job.attemptToken.value < s.env.nextId by {
      assert RowsOk(s.tasks.rows, s.env.nextId);
    }
    assert before.outbox.Some? && before.outbox.value.claimToken.Some? ==>
        before.outbox.value.claimToken.value < s.env.nextId by {
      assert RowsOk(s.tasks.rows, s.env.nextId);
    }
    ActKeepsTokens(before, act, s.env.now, s.env.nextId, z.env.nextId);
    assert SameIdentity(before.job, after.job);
    hide RowsOk, ImportsOk, TargetsOk, RunsAgree, EvaluationsAgree, CapacityOk, Fires, Perform,
      OwnDataset, OwnImport, OwnRun, OwnEvaluation, SameIdentity, Restated, Restatused;
    MoveKeepsRows(s.tasks.rows, task, act, s.env.now, s.env.nextId, z.env.nextId);
    MoveKeepsImports(s.tasks.rows, s.domain.datasets, z.domain.datasets, s.intake.uploads, task, after);
    OwnFacts(before.job, after.job, s.domain.datasets, z.domain.datasets, s.domain.transformations,
             z.domain.transformations);
    MoveKeepsTargets(s.tasks.rows, s.domain.datasets, z.domain.datasets, s.domain.transformations,
                     z.domain.transformations,
                     s.domain.profilers, task, after);
    MoveKeepsRuns(s.tasks.rows, s.domain.transformations, z.domain.transformations, task, after);
    MoveKeepsEvaluations(s.tasks.rows, s.domain.evaluations, z.domain.evaluations, task, after);
    MoveKeepsCapacity(s.tasks.rows, s.env.settings.maxActiveJobs, task, after);
  }

  lemma OwnFacts(job: Job, after: Job, a: map<nat, Dataset>, b: map<nat, Dataset>, x: map<nat, Transformation>,
                 y: map<nat, Transformation>)
    requires OwnDataset(job, a, b) && OwnRun(job, after, x, y)
    ensures Restated(a, b) && Restatused(x, y)
  {
    hide Agree;
  }
}
