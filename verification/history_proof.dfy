/** Publication pushes onto a dataset's history, undo pops it: both keep jobs and records consistent. */
module HistoryProof {
  import opened Prelude
  import opened JobService
  import opened TaskProtocol
  import opened Tables
  import opened ArtifactService
  import opened Protocol
  import opened Invariants
  import opened StorageProof
  import opened JobsProof
  import opened RecordsProof
  import opened MovesProof
  import opened IntakeProof
  import opened UpkeepProof

  // ---------------------------------------------------------------- one log

  lemma PushedStack(log: seq<Event>, event: Event)
    requires event.kind.TransformEvent?
    ensures Stack(log + [event]) == Stack(log) + [event.transformation]
  {
    assert (log + [event])[..|log|] == log;
  }

  lemma PoppedStack(log: seq<Event>, event: Event)
    requires event.kind.UndoEvent? && Stack(log) != []
    ensures Stack(log + [event]) == Stack(log)[..|Stack(log)| - 1]
  {
    assert (log + [event])[..|log|] == log;
  }

  /** The event records one version step from the head it found to the head it left. */
  ghost predicate Continues(event: Event, dataset: Dataset, head: Dataset) {
    && event.previousVersion == dataset.version && event.resultVersion == dataset.version + 1
    && event.inputPath == dataset.storedPath && event.outputPath == head.storedPath
    && head.version == dataset.version + 1
  }

  lemma ContinuesLog(log: seq<Event>, staged: Path, event: Event, dataset: Dataset, head: Dataset)
    requires LogOk(log, staged) && dataset.version == |log| + 1
    requires dataset.storedPath == (if log == [] then staged else log[|log| - 1].outputPath)
    requires Continues(event, dataset, head)
    ensures LogOk(log + [event], staged)
  {
    var longer := log + [event];
    forall i | 0 < i < |longer| ensures longer[i].inputPath == longer[i - 1].outputPath {
      assert longer[i - 1] == log[i - 1];
      assert longer[i] == if i < |log| then log[i] else event;
    }
  }

  lemma PushKeepsStack(stack: seq<nat>, d: nat, a: map<nat, Transformation>, staged: Path,
                      x: nat, record: Transformation)
    requires StackOk(stack, d, a, staged)
    requires x in a && !a[x].Published() && record.dataset == d && record.status.Completed?
    requires record.inputPath == Top(stack, a, staged)
    ensures StackOk(stack + [x], d, a[x := record], staged)
    ensures Top(stack + [x], a[x := record], staged) == record.outputPath
  {
    assert forall i | 0 <= i < |stack| :: stack[i] != x;
    PushKeepsLinks(stack, d, a, staged, x, record);
    hide Linked;
    var b, longer := a[x := record], stack + [x];
    forall y | y in b && b[y].dataset == d && b[y].status.Completed? ensures y in longer {
      if y == x { assert longer[|stack|] == x; } else { assert y in stack; }
    }
  }

  lemma PushKeepsLinks(stack: seq<nat>, d: nat, a: map<nat, Transformation>, staged: Path,
                      x: nat, record: Transformation)
    requires Linked(stack, d, a, staged) && forall i | 0 <= i < |stack| :: stack[i] != x
    requires record.dataset == d && record.status.Completed? && record.inputPath == Top(stack, a, staged)
    ensures Linked(stack + [x], d, a[x := record], staged)
  {
    var b, longer := a[x := record], stack + [x];
    forall i | 0 < i < |longer| ensures b[longer[i]].inputPath == b[longer[i - 1]].outputPath {
      assert longer[i - 1] == stack[i - 1];
      if i < |stack| { assert longer[i] == stack[i]; }
    }
  }

  lemma PushKeepsHistory(d: nat, dataset: Dataset, log: seq<Event>, a: map<nat, Transformation>, staged: Path,
                         x: nat, record: Transformation, event: Event, head: Dataset)
    requires HistoryOf(d, dataset, log, a, staged)
    requires x in a && !a[x].Published() && record.dataset == d && record.status.Completed?
    requires record.inputPath == dataset.storedPath && record.outputPath == head.storedPath
    requires event.kind.TransformEvent? && event.transformation == x && Continues(event, dataset, head)
    ensures HistoryOf(d, head, log + [event], a[x := record], staged)
  {
    PushedStack(log, event);
    ContinuesLog(log, staged, event, dataset, head);
    PushKeepsStack(Stack(log), d, a, staged, x, record);
    hide LogOk, StackOk, Stack, Top;
  }

  lemma PopKeepsStack(stack: seq<nat>, d: nat, a: map<nat, Transformation>, staged: Path, record: Transformation)
    requires StackOk(stack, d, a, staged) && stack != []
    requires var x := stack[|stack| - 1]; record == a[x].(status := Undone)
    ensures var x, shorter := stack[|stack| - 1], stack[..|stack| - 1];
            StackOk(shorter, d, a[x := record], staged) && Top(shorter, a[x := record], staged) == record.inputPath
  {
    var x, shorter := stack[|stack| - 1], stack[..|stack| - 1];
    var b := a[x := record];
    assert forall i | 0 <= i < |shorter| :: shorter[i] == stack[i] && stack[i] != x;
    forall y | y in b && b[y].dataset == d && b[y].status.Completed? ensures y in shorter {
      assert y in stack && y != x;
    }
  }

  lemma PopKeepsHistory(d: nat, dataset: Dataset, log: seq<Event>, a: map<nat, Transformation>, staged: Path,
                        x: nat, record: Transformation, event: Event, head: Dataset)
    requires HistoryOf(d, dataset, log, a, staged)
    requires Stack(log) != [] && Stack(log)[|Stack(log)| - 1] == x && x in a && record == a[x].(status := Undone)
    requires record.inputPath == head.storedPath
    requires event.kind.UndoEvent? && Continues(event, dataset, head)
    ensures HistoryOf(d, head, log + [event], a[x := record], staged)
  {
    PoppedStack(log, event);
    ContinuesLog(log, staged, event, dataset, head);
    PopKeepsStack(Stack(log), d, a, staged, record);
    hide LogOk, StackOk, Stack, Top;
  }

  /** A transformation of another dataset does not matter to a history. */
  lemma OtherRunKeepsHistory(e: nat, dataset: Dataset, log: seq<Event>, a: map<nat, Transformation>, staged: Path,
                             x: nat, record: Transformation)
    requires HistoryOf(e, dataset, log, a, staged)
    requires x in a && a[x].dataset == record.dataset != e
    ensures HistoryOf(e, dataset, log, a[x := record], staged)
  {
    OtherRunKeepsStack(Stack(log), e, a, staged, x, record);
    hide LogOk, StackOk, Stack, Top;
  }

  lemma OtherRunKeepsStack(stack: seq<nat>, e: nat, a: map<nat, Transformation>, staged: Path, x: nat,
                           record: Transformation)
    requires StackOk(stack, e, a, staged)
    requires x in a && a[x].dataset == record.dataset != e
    ensures StackOk(stack, e, a[x := record], staged) && Top(stack, a[x := record], staged) == Top(stack, a, staged)
  {
    assert forall i | 0 <= i < |stack| :: stack[i] != x;
  }

  /** One dataset's log grew by one event, about one of its own transformations. */
  lemma OneLogKeepsHistory(datasets: map<nat, Dataset>, events: map<nat, seq<Event>>, a: map<nat, Transformation>,
                           uploads: map<nat, Upload>,
                           d: nat, head: Dataset, log: seq<Event>, x: nat, record: Transformation)
    requires HistoryOk(datasets, events, a, uploads)
    requires d in datasets && x in a && a[x].dataset == record.dataset == d
    requires d in uploads && HistoryOf(d, head, log, a[x := record], uploads[d].path)
    ensures HistoryOk(datasets[d := head], events[d := log], a[x := record], uploads)
  {
    forall e | e in datasets && e != d ensures HistoryOf(e, datasets[e], events[e], a[x := record], uploads[e].path) {
      OtherRunKeepsHistory(e, datasets[e], events[e], a, uploads[e].path, x, record);
    }
    hide HistoryOf;
  }

  /** An event that is not an undo under a used key keeps receipts unique. */
  lemma AppendKeepsReceipts(events: map<nat, seq<Event>>, d: nat, event: Event)
    requires ReceiptsOk(events) && d in events
    requires event.kind.UndoEvent? ==>
               event.fingerprint == UndoRequest(d, event.previousVersion)
                   && Replay(events[d], event.actor, event.idempotencyKey).None?
    ensures ReceiptsOk(events[d := events[d] + [event]])
  {
    var log := events[d];
    assert LogReceiptsOk(d, log);
    if event.kind.UndoEvent? && event.idempotencyKey.Some? {
      ReplayMisses(log, event.actor, event.idempotencyKey.value);
    }
    assert LogReceiptsOk(d, log + [event]);
    hide LogReceiptsOk;
  }

  lemma {:induction false} ReplayMisses(log: seq<Event>, actor: nat, key: nat)
    requires Replay(log, actor, Some(key)).None?
    ensures forall i | 0 <= i < |log| :: !UndoReceiptFor(log[i], actor, key)
  {
    if log != [] {
      ReplayMisses(log[1..], actor, key);
      forall i | 0 <= i < |log| ensures !UndoReceiptFor(log[i], actor, key) {
        if i > 0 { assert log[1..][i - 1] == log[i]; }
      }
    }
  }

  /** What undo selects under the locks is exactly the top of the dataset's stack. */
  lemma UndoCandidateIsTop(d: nat, dataset: Dataset, log: seq<Event>, a: map<nat, Transformation>, staged: Path,
                           snapshots: map<Path, Snapshot>, writers: map<Path, Writer>, nextId: nat, x: nat)
    requires HistoryOf(d, dataset, log, a, staged) && TransformationsOk(a, snapshots, writers, nextId)
        && staged !in writers
    requires x in a && a[x].dataset == d && a[x].status.Completed? && a[x].outputPath == dataset.storedPath
    ensures Stack(log) != [] && Stack(log)[|Stack(log)| - 1] == x
  {
    var stack := Stack(log);
    hide LogOk;
    assert x in stack && OutputOk(x, a[x], snapshots, writers);
    assert stack != [];
    var y := stack[|stack| - 1];
    assert OutputOk(y, a[y], snapshots, writers);
  }
}
