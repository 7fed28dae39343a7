/**
 The maintenance transaction moves every recoverable job row first and settles the
 domain records of the failed ones afterwards; then it completes requested cancellations
 one job at a time. `TwoPhasesSettleEachJob` proves that the first half is the same as
 recovering the jobs one at a time.
 */
module Maintenance {
  import opened Prelude
  import opened JobService
  import opened TaskProtocol
  import opened Tables
  import opened ArtifactService
  import opened Protocol

  /** The task's row after an act, if its WHERE clause matches. */
  function AfterAct(s: State, task: nat, act: Act): State {
    if RowFires(s, task, act) then OnRow(s, task, act) else s
  }

  predicate FailsUnderRecovery(s: State, task: nat) {
    RowFires(s, task, Reconcile) && Unrecoverable(s.tasks.rows[task])
  }

  /** First phase, over candidates in order. */
  function RowsMoved(s: State, candidates: seq<nat>): State
    decreases candidates
  {
    if candidates == [] then s
    else
      var last := |candidates| - 1;
      AfterAct(RowsMoved(s, candidates[..last]), candidates[last], Reconcile)
  }

  /** The jobs the first phase ended as failures. */
  function FailedAmong(s: State, candidates: seq<nat>): (failed: seq<nat>)
    decreases candidates
  {
    if candidates == [] then []
    else
      var last := |candidates| - 1;
      FailedAmong(s, candidates[..last])
      + if FailsUnderRecovery(RowsMoved(s, candidates[..last]), candidates[last]) then [candidates[last]] else []
  }

  function SettleOne(s: State, task: nat): State {
    if task in s.tasks.rows then ReconcileTarget(s, s.tasks.rows[task].job, task, false) else s
  }

  /** Second phase, over the failed jobs in order. */
  function AllSettled(s: State, failed: seq<nat>): State
    decreases failed
  {
    if failed == [] then s
    else
      var last := |failed| - 1;
      SettleOne(AllSettled(s, failed[..last]), failed[last])
  }

  function RecoverySteps(candidates: seq<nat>): seq<Step> {
    seq(|candidates|, i requires 0 <= i < |candidates| => Deliver(ReconcileStep(candidates[i])))
  }

  /** Settling a record touches neither job rows nor the clock. */
  lemma SettleOneKeepsTasks(s: State, task: nat)
    ensures SettleOne(s, task).tasks == s.tasks && SettleOne(s, task).env == s.env
  {
  }

  lemma {:induction false} AllSettledKeepsTasks(s: State, failed: seq<nat>)
    ensures AllSettled(s, failed).tasks == s.tasks && AllSettled(s, failed).env == s.env
    decreases failed
  {
    hide SettleOne;
    if failed != [] {
      var last := |failed| - 1;
      AllSettledKeepsTasks(s, failed[..last]);
      SettleOneKeepsTasks(AllSettled(s, failed[..last]), failed[last]);
    }
  }

  lemma RecoveryKeepsIdentity(row: Row, now: Time)
    requires Fires(row, Reconcile, now)
    ensures var a, b := row.job, Perform(row, Reconcile, now).job;
            a.kind == b.kind && a.dataset == b.dataset && a.transformation == b.transformation
  {
  }

  /** Which record settles, and how, depends on the job's identity alone. */
  lemma TargetReadsIdentity(s: State, a: Job, b: Job, task: nat, cancelled: bool)
    requires a.kind == b.kind && a.dataset == b.dataset && a.transformation == b.transformation
    ensures ReconcileTarget(s, a, task, cancelled) == ReconcileTarget(s, b, task, cancelled)
  {
  }

  /** Settling a record ignores every job row but its own job's identity, which it is given. */
  lemma TargetIgnoresRows(s: State, rows: map<nat, Row>, job: Job, task: nat)
    ensures ReconcileTarget(s.(tasks := s.tasks.(rows := rows)), job, task, false)
            == ReconcileTarget(s, job, task, false).(tasks := s.tasks.(rows := rows))
  {
  }

  /** Moving one job's row and settling another job's record commute. */
  lemma SettleOneCommutes(s: State, task: nat, moved: nat)
    requires RowFires(s, moved, Reconcile)
    ensures RowFires(SettleOne(s, task), moved, Reconcile)
    ensures SettleOne(OnRow(s, moved, Reconcile), task) == OnRow(SettleOne(s, task), moved, Reconcile)
  {
    RecoveryKeepsIdentity(s.tasks.rows[moved], s.env.now);
    SettleOneKeepsTasks(s, task);
    hide Fires, Perform, ReconcileTarget;
    if task in s.tasks.rows {
      var z := OnRow(s, moved, Reconcile);
      TargetReadsIdentity(s, s.tasks.rows[task].job, z.tasks.rows[task].job, task, false);
      TargetIgnoresRows(s, z.tasks.rows, z.tasks.rows[task].job, task);
    }
  }

  lemma {:induction false} AllSettledCommutes(s: State, failed: seq<nat>, moved: nat)
    requires RowFires(s, moved, Reconcile)
    ensures RowFires(AllSettled(s, failed), moved, Reconcile)
    ensures AllSettled(OnRow(s, moved, Reconcile), failed) == OnRow(AllSettled(s, failed), moved, Reconcile)
    decreases failed
  {
    hide SettleOne, Fires, Perform;
    if failed != [] {
      var last := |failed| - 1;
      AllSettledCommutes(s, failed[..last], moved);
      SettleOneCommutes(AllSettled(s, failed[..last]), failed[last], moved);
    }
  }

  /** Recovering one more job, on top of both phases for the earlier ones. */
  lemma RecoverOneMore(s: State, failed: seq<nat>, task: nat)
    ensures ReconcileJob(AllSettled(s, failed), task)
            == AllSettled(AfterAct(s, task, Reconcile), failed + if FailsUnderRecovery(s, task) then [task] else [])
  {
    AllSettledKeepsTasks(s, failed);
    if RowFires(s, task, Reconcile) {
      AllSettledCommutes(s, failed, task);
      RecoveryKeepsIdentity(s.tasks.rows[task], s.env.now);
      hide AllSettled, Fires, Perform, Unrecoverable;
      var before, after := AllSettled(s, failed), OnRow(s, task, Reconcile);
      if FailsUnderRecovery(s, task) {
        AppendSettles(after, failed, task);
        SameTargetAfterMove(before, task);
      } else {
        assert failed + [] == failed;
      }
    } else {
      assert failed + [] == failed;
    }
  }

  lemma AppendSettles(s: State, failed: seq<nat>, task: nat)
    ensures AllSettled(s, failed + [task]) == SettleOne(AllSettled(s, failed), task)
  {
    assert (failed + [task])[..|failed|] == failed;
  }

  lemma SameTargetAfterMove(s: State, task: nat)
    requires RowFires(s, task, Reconcile)
    ensures SettleOne(OnRow(s, task, Reconcile), task)
            == ReconcileTarget(OnRow(s, task, Reconcile), s.tasks.rows[task].job, task, false)
  {
    RecoveryKeepsIdentity(s.tasks.rows[task], s.env.now);
    hide Fires, Perform;
  }

  function CancellationSteps(candidates: seq<nat>): seq<Step> {
    seq(|candidates|, i requires 0 <= i < |candidates| => Deliver(ReconcileCancelledStep(candidates[i])))
  }

  /** The requested cancellations that a pass over `candidates` completes. */
  function CancelledAmong(s: State, candidates: seq<nat>): (cancelled: seq<nat>)
    decreases candidates
  {
    if candidates == [] then []
    else
      var earlier, last := candidates[..|candidates| - 1], candidates[|candidates| - 1];
      CancelledAmong(s, earlier)
      + if RowFires(Run(s, CancellationSteps(earlier)), last, ReconcileCancellation) then [last] else []
  }

  lemma OneMoreCancellation(s: State, candidates: seq<nat>, i: nat)
    requires i < |candidates|
    ensures Run(s, CancellationSteps(candidates[..i + 1]))
            == ReconcileCancelled(Run(s, CancellationSteps(candidates[..i])), candidates[i])
    ensures CancelledAmong(s, candidates[..i + 1])
            == CancelledAmong(s, candidates[..i])
               + if RowFires(Run(s, CancellationSteps(candidates[..i])), candidates[i], ReconcileCancellation)
                 then [candidates[i]] else []
  {
    hide ReconcileCancelled, RowFires;
    var step := Deliver(ReconcileCancelledStep(candidates[i]));
    assert candidates[..i + 1][..i] == candidates[..i];
    assert CancellationSteps(candidates[..i + 1]) == CancellationSteps(candidates[..i]) + [step];
    RunThen(s, CancellationSteps(candidates[..i]), step);
  }

  lemma {:induction false} RunThen(s: State, steps: seq<Step>, last: Step)
    ensures Run(s, steps + [last]) == Apply(Run(s, steps), last)
    decreases steps
  {
    hide Apply;
    if steps == [] {
      assert (steps + [last])[1..] == [];
    } else {
      assert (steps + [last])[0] == steps[0] && (steps + [last])[1..] == steps[1..] + [last];
      RunThen(Apply(s, steps[0]), steps[1..], last);
    }
  }

  /** Two phases over any candidates are the same as recovering each job in turn. */
  lemma {:induction false} TwoPhasesSettleEachJob(s: State, candidates: seq<nat>)
    ensures Run(s, RecoverySteps(candidates)) == AllSettled(RowsMoved(s, candidates), FailedAmong(s, candidates))
    decreases candidates
  {
    hide ReconcileJob, AfterAct, FailsUnderRecovery;
    if candidates == [] {
      assert RecoverySteps(candidates) == [];
    } else {
      var last := |candidates| - 1;
      var step := Deliver(ReconcileStep(candidates[last]));
      TwoPhasesSettleEachJob(s, candidates[..last]);
      assert RecoverySteps(candidates) == RecoverySteps(candidates[..last]) + [step];
      RunThen(s, RecoverySteps(candidates[..last]), step);
      RecoverOneMore(RowsMoved(s, candidates[..last]), FailedAmong(s, candidates[..last]), candidates[last]);
    }
  }
}
