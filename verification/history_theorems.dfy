/** The event log as a faithful history, and undo as a stack. */
module HistoryTheorems {
  import opened Prelude
  import opened JobService
  import opened TaskProtocol
  import opened Tables
  import opened ArtifactService
  import opened Protocol
  import opened Invariants
  import opened ForwardOnly
  import opened HistoryProof
  import opened PublicationProof
  import opened UndoProof
  import opened Safety
  import opened StorageTheorems

  // ---------------------------------------------------------------- replaying a log

  datatype Position = Position(path: Path, version: nat)

  /** Follow a log event by event; a gap in versions or a jump in paths stops the replay. */
  function Replayed(log: seq<Event>, from: Position): Option<Position> {
    if log == [] then Some(from)
    else if log[0].previousVersion != from.version || log[0].resultVersion != from.version + 1
        || log[0].inputPath != from.path then None
    else Replayed(log[1..], Position(log[0].outputPath, log[0].resultVersion))
  }

  lemma {:induction false} LinkedLogReplays(log: seq<Event>, from: Position)
    requires forall i | 0 <= i < |log| ::
            log[i].previousVersion == from.version + i && log[i].resultVersion == from.version + i + 1
    requires log != [] ==> log[0].inputPath == from.path
    requires forall i | 0 < i < |log| :: log[i].inputPath == log[i - 1].outputPath
    ensures Replayed(log, from)
        == Some(Position(if log == [] then from.path else log[|log| - 1].outputPath, from.version + |log|))
  {
    if log != [] {
      var rest := log[1..];
      forall i | 0 < i < |rest| ensures rest[i].inputPath == rest[i - 1].outputPath {
        assert rest[i] == log[i + 1] && rest[i - 1] == log[i];
      }
      if rest != [] { assert rest[0] == log[1] && log[1].inputPath == log[0].outputPath; }
      LinkedLogReplays(rest, Position(log[0].outputPath, log[0].resultVersion));
    }
  }

  lemma HistoryHolds(s: State, d: nat)
    requires Inv(s) && d in s.domain.datasets
    ensures d in s.intake.uploads && d in s.domain.events
    ensures HistoryOf(d, s.domain.datasets[d], s.domain.events[d], s.domain.transformations, s.intake.uploads[d].path)
  {
    hide StorageOk, JobsOk, HistoryOf;
    assert d in s.domain.events.Keys;
  }

  /**
   The log is the dataset's whole history: gapless from version 1, each event starting
   where the one before it ended, and replaying it over the imported path gives
   exactly the current version and stored path.
   */
  lemma LogIsFaithful(s: State, d: nat)
    requires Reachable(s) && d in s.domain.datasets
    ensures d in s.intake.uploads && d in s.domain.events
    ensures Replayed(s.domain.events[d], Position(s.intake.uploads[d].path, 1))
            == Some(Position(s.domain.datasets[d].storedPath, s.domain.datasets[d].version))
  {
    hide Reachable, Inv;
    ReachableSatisfiesInv(s);
    HistoryHolds(s, d);
    hide Stack, StackOk, Top;
    LinkedLogReplays(s.domain.events[d], Position(s.intake.uploads[d].path, 1));
  }

  /** The log is append-only, and the version counts it: so no version is ever published twice. */
  lemma LogOnlyGrows(s: State, steps: seq<Step>, d: nat)
    requires Reachable(s) && d in s.domain.datasets && d in s.domain.events
    ensures var z := Run(s, steps);
            && d in z.domain.datasets && d in z.domain.events
            && s.domain.events[d] <= z.domain.events[d]
            && z.domain.datasets[d].version
               == s.domain.datasets[d].version + |z.domain.events[d]| - |s.domain.events[d]|
  {
    hide Reachable, Inv, Forward, Run;
    ReachableRunsForward(s, steps);
    GrowsForward(s, Run(s, steps), d);
    HistoryHolds(s, d);
    HistoryHolds(Run(s, steps), d);
  }

  lemma GrowsForward(s: State, z: State, d: nat)
    requires Forward(s, z) && d in s.domain.datasets && d in s.domain.events
    ensures d in z.domain.datasets && d in z.domain.events && s.domain.events[d] <= z.domain.events[d]
    ensures s.domain.datasets[d].Imported() ==> z.domain.datasets[d].Imported()
  {
    hide RunsForward, ManifestsForward, ArtifactsForward, OnlyFresh, IntakeForward, AbortsForward;
  }

  // ---------------------------------------------------------------- the stack

  /**
   The completed, not undone transformations of a dataset are exactly the stack its log
   leaves, each reading what the one below it wrote, from the staged file to the head.
   */
  lemma CompletedFormOneChain(s: State, d: nat)
    requires Reachable(s) && d in s.domain.datasets
    ensures d in s.domain.events && d in s.intake.uploads
    ensures var stack, a := Stack(s.domain.events[d]), s.domain.transformations;
            && (forall x :: x in stack <==> x in a && a[x].dataset == d && a[x].status.Completed?)
            && (forall i, j | 0 <= i < j < |stack| :: stack[i] != stack[j])
            && (forall i | 0 < i < |stack| :: a[stack[i]].inputPath == a[stack[i - 1]].outputPath)
            && (stack != [] ==> a[stack[0]].inputPath == s.intake.uploads[d].path)
            && s.domain.datasets[d].storedPath
               == if stack == [] then s.intake.uploads[d].path else a[stack[|stack| - 1]].outputPath
  {
    hide Reachable, Inv, Stack;
    ReachableSatisfiesInv(s);
    HistoryHolds(s, d);
    hide LogOk;
    var stack := Stack(s.domain.events[d]);
    forall x | x in stack
      ensures x in s.domain.transformations && s.domain.transformations[x].dataset == d
          && s.domain.transformations[x].status.Completed? {
      var i :| 0 <= i < |stack| && stack[i] == x;
    }
  }

  /** Publication pushes its transformation, and moves the head to its output. */
  lemma PublishPushes(s: State, task: nat, token: Token, final: Path)
    requires Reachable(s) && MayPublish(s, task, token, final)
    ensures var z, x := Publish(s, task, token, final), s.tasks.rows[task].job.transformation.value;
            var d := s.domain.transformations[x].dataset;
            && d in s.domain.events && d in z.domain.events && d in z.domain.datasets
            && Stack(z.domain.events[d]) == Stack(s.domain.events[d]) + [x]
            && z.domain.datasets[d].storedPath == final
            && z.domain.datasets[d].version == s.domain.datasets[d].version + 1
  {
    hide Reachable, Inv, Fires, Perform;
    ReachableSatisfiesInv(s);
    var x := s.tasks.rows[task].job.transformation.value;
    var d := s.domain.transformations[x].dataset;
    HistoryHolds(s, d);
    PushedStack(s.domain.events[d], Publish(s, task, token, final).domain.events[d][|s.domain.events[d]|]);
    hide Stack, HistoryOf;
  }

  /** A successful undo pops exactly the top: the newest transformation not yet undone. */
  lemma UndoPops(s: State, d: nat, user: nat, version: nat, key: Option<nat>, x: nat)
    requires Reachable(s) && MayUndo(s, d, user, version, key, x)
    ensures var z := Undo(s, d, user, version, key, x);
            && d in s.domain.events && d in z.domain.events && d in z.domain.datasets
            && Stack(s.domain.events[d]) == Stack(z.domain.events[d]) + [x]
            && z.domain.datasets[d].storedPath == s.domain.transformations[x].inputPath
            && z.domain.datasets[d].version == s.domain.datasets[d].version + 1
  {
    hide Reachable, Inv, Replay;
    ReachableSatisfiesInv(s);
    HistoryHolds(s, d);
    TopOfStack(s, d, x);
    var event := UndoEventOf(x, s.domain.transformations[x], s.env.nextId, user, version, key);
    PoppedStack(s.domain.events[d], event);
    hide Stack, HistoryOf;
  }

  lemma TopOfStack(s: State, d: nat, x: nat)
    requires Inv(s) && d in s.domain.datasets && d in s.domain.events && x in s.domain.transformations
    requires s.domain.transformations[x].dataset == d && s.domain.transformations[x].status.Completed?
    requires s.domain.transformations[x].outputPath == s.domain.datasets[d].storedPath
    ensures Stack(s.domain.events[d]) != [] && Stack(s.domain.events[d])[|Stack(s.domain.events[d])| - 1] == x
  {
    hide Inv, Stack, HistoryOf, TransformationsOk;
    HistoryHolds(s, d);
    DatasetsAreLogged(s, d);
    TransformationsHold(s);
    UndoCandidateIsTop(d, s.domain.datasets[d], s.domain.events[d], s.domain.transformations, s.intake.uploads[d].path,
                       s.storage.snapshots, s.storage.writers, s.env.nextId, x);
  }

  lemma TransformationsHold(s: State)
    requires Inv(s)
    ensures TransformationsOk(s.domain.transformations, s.storage.snapshots, s.storage.writers, s.env.nextId)
  {
    hide TransformationsOk, StorageOk, JobsOk;
  }

  /** Whatever happened in between, equal stacks mean the same head with the same dimensions. */
  lemma EqualStacksEqualHeads(s: State, steps: seq<Step>, d: nat)
    requires Reachable(s) && d in s.domain.datasets && s.domain.datasets[d].Imported()
    requires d in s.domain.events && d in Run(s, steps).domain.events
    requires Stack(Run(s, steps).domain.events[d]) == Stack(s.domain.events[d])
    ensures d in Run(s, steps).domain.datasets
    ensures var a, b := s.domain.datasets[d], Run(s, steps).domain.datasets[d];
            a.storedPath == b.storedPath && a.rowCount == b.rowCount && a.columnCount == b.columnCount
  {
    hide Reachable, Inv, Forward, Run, Stack;
    ReachableRunsForward(s, steps);
    var z := Run(s, steps);
    GrowsForward(s, z, d);
    SameStackSameHead(s, z, d);
  }

  lemma SameStackSameHead(s: State, z: State, d: nat)
    requires Inv(s) && Inv(z) && Forward(s, z) && d in s.domain.datasets && d in z.domain.datasets
        && s.domain.datasets[d].Imported()
    requires z.domain.datasets[d].Imported()
    requires d in s.domain.events && d in z.domain.events && Stack(z.domain.events[d]) == Stack(s.domain.events[d])
    ensures var a, b := s.domain.datasets[d], z.domain.datasets[d];
            a.storedPath == b.storedPath && a.rowCount == b.rowCount && a.columnCount == b.columnCount
  {
    hide Inv, Stack;
    HistoryHolds(s, d);
    HistoryHolds(z, d);
    HeadDimensions(s, d);
    HeadDimensions(z, d);
    hide EventsForward, ArtifactsForward, OnlyFresh, AbortsForward, LogOk, DatasetsForward;
    var stack := Stack(s.domain.events[d]);
    if stack != [] {
      assert stack[|stack| - 1] in s.domain.transformations && s.domain.transformations[stack[|stack| - 1]].Published();
    }
  }

  lemma HeadDimensions(s: State, d: nat)
    requires Inv(s) && d in s.domain.datasets && s.domain.datasets[d].Imported()
    ensures s.domain.datasets[d].storedPath in s.storage.snapshots
    ensures var head := s.storage.snapshots[s.domain.datasets[d].storedPath].digest;
            s.domain.datasets[d].rowCount == Some(head.rows) && s.domain.datasets[d].columnCount == Some(head.columns)
  {
    HeadsHaveManifest(s, d);
    assert DescriptionsOk(s.domain.datasets, s.storage.snapshots);
  }

  lemma HeadsHaveManifest(s: State, d: nat)
    requires Inv(s) && d in s.domain.datasets
    ensures s.domain.datasets[d].storedPath in s.storage.snapshots
  {
    assert HeadsOk(s.domain.datasets, s.storage.snapshots, s.intake.uploads, s.env.nextId);
  }

  predicate AllOfKind(events: seq<Event>, kind: EventKind) {
    forall i | 0 <= i < |events| :: events[i].kind == kind
  }

  lemma {:induction false} PushesStack(log: seq<Event>, pushes: seq<Event>)
    requires AllOfKind(pushes, TransformEvent)
    ensures Stack(log) <= Stack(log + pushes) && |Stack(log + pushes)| == |Stack(log)| + |pushes|
    decreases pushes
  {
    if pushes == [] {
      assert log + pushes == log;
    } else {
      var last, before := pushes[|pushes| - 1], pushes[..|pushes| - 1];
      PushesStack(log, before);
      assert log + pushes == (log + before) + [last];
      PushedStack(log + before, last);
    }
  }

  lemma {:induction false} PopsStack(log: seq<Event>, pops: seq<Event>)
    requires AllOfKind(pops, UndoEvent) && |pops| <= |Stack(log)|
    ensures Stack(log + pops) == Stack(log)[..|Stack(log)| - |pops|]
    decreases pops
  {
    if pops == [] {
      assert log + pops == log;
    } else {
      var last, before := pops[|pops| - 1], pops[..|pops| - 1];
      PopsStack(log, before);
      assert log + pops == (log + before) + [last];
      PoppedStack(log + before, last);
    }
  }

  /**
   Round trip: k publications followed by k undos, however the rest of the system
   interleaves with them, restore the path and both dimensions; only the version
   remembers, having grown by 2k.
   */
  lemma UndoRestores(s: State, steps: seq<Step>, d: nat, pushes: seq<Event>, pops: seq<Event>)
    requires Reachable(s) && d in s.domain.datasets && s.domain.datasets[d].Imported()
    requires d in s.domain.events && d in Run(s, steps).domain.events
    requires Run(s, steps).domain.events[d] == s.domain.events[d] + pushes + pops
    requires AllOfKind(pushes, TransformEvent) && AllOfKind(pops, UndoEvent) && |pushes| == |pops|
    ensures d in Run(s, steps).domain.datasets
    ensures var a, b := s.domain.datasets[d], Run(s, steps).domain.datasets[d];
            && a.storedPath == b.storedPath && a.rowCount == b.rowCount && a.columnCount == b.columnCount
            && b.version == a.version + 2 * |pushes|
  {
    hide Reachable, Run, Stack;
    LogOnlyGrows(s, steps, d);
    PushesStack(s.domain.events[d], pushes);
    PopsStack(s.domain.events[d] + pushes, pops);
    assert Stack(Run(s, steps).domain.events[d]) == Stack(s.domain.events[d]);
    EqualStacksEqualHeads(s, steps, d);
  }

  // ---------------------------------------------------------------- receipts

  lemma {:induction false} ReplayIgnoresLater(log: seq<Event>, more: seq<Event>, actor: nat, key: Option<nat>)
    requires Replay(log, actor, key).Some?
    ensures Replay(log + more, actor, key) == Replay(log, actor, key)
  {
    assert log != [];
    assert (log + more)[0] == log[0] && (log + more)[1..] == log[1..] + more;
    if !UndoReceiptFor(log[0], actor, key.value) {
      ReplayIgnoresLater(log[1..], more, actor, key);
    }
  }

  lemma {:induction false} ReplayFindsNew(log: seq<Event>, event: Event, actor: nat, key: nat)
    requires Replay(log, actor, Some(key)).None? && UndoReceiptFor(event, actor, key)
    ensures Replay(log + [event], actor, Some(key)) == Some(event)
  {
    if log == [] {
      assert log + [event] == [event];
    } else {
      assert (log + [event])[0] == log[0] && (log + [event])[1..] == log[1..] + [event];
      ReplayFindsNew(log[1..], event, actor, key);
    }
  }

  lemma ReplayGrows(a: seq<Event>, b: seq<Event>, actor: nat, key: Option<nat>)
    requires a <= b && Replay(a, actor, key).Some?
    ensures Replay(b, actor, key) == Replay(a, actor, key)
  {
    assert b == a + b[|a|..];
    ReplayIgnoresLater(a, b[|a|..], actor, key);
  }

  /**
   One key, one effect: after an undo under a key succeeded, every later request with
   that key, at any version and after any amount of further work, finds the same
   receipt and changes nothing.
   */
  lemma UndoTakesEffectOnce(s: State, d: nat, user: nat, version: nat, key: nat, x: nat, steps: seq<Step>, again: nat,
                            y: nat)
    requires Reachable(s) && MayUndo(s, d, user, version, Some(key), x)
    ensures var z := Run(Undo(s, d, user, version, Some(key), x), steps);
            && Replay(EventsOf(z, d), user, Some(key))
               == Some(UndoEventOf(x, s.domain.transformations[x], s.env.nextId, user, version, Some(key)))
            && Undo(z, d, user, again, Some(key), y) == z
  {
    hide Reachable, Inv, Forward, Run, Replay;
    ReachableSatisfiesInv(s);
    HistoryHolds(s, d);
    var event := UndoEventOf(x, s.domain.transformations[x], s.env.nextId, user, version, Some(key));
    ReplayFindsNew(s.domain.events[d], event, user, key);
    var first := Undo(s, d, user, version, Some(key), x);
    assert d in first.domain.events && first.domain.events[d] == s.domain.events[d] + [event]
        && d in first.domain.datasets;
    hide Undo, MayUndo;
    UndoKeepsInv(s, d, user, version, Some(key), x);
    RunKeepsInv(first, steps);
    GrowsForward(first, Run(first, steps), d);
    ReplayGrows(first.domain.events[d], Run(first, steps).domain.events[d], user, Some(key));
    UsedKeyChangesNothing(Run(first, steps), d, user, again, Some(key), y);
  }

  lemma UsedKeyChangesNothing(s: State, d: nat, user: nat, version: nat, key: Option<nat>, x: nat)
    requires Replay(EventsOf(s, d), user, key).Some?
    ensures Undo(s, d, user, version, key, x) == s
  {
    hide Replay;
  }

  /** Every dataset's log holds at most one undo for each actor and key. */
  lemma ReceiptsAreUnique(s: State, d: nat, i: nat, j: nat)
    requires Reachable(s) && d in s.domain.events && i < |s.domain.events[d]| && j < |s.domain.events[d]|
    requires s.domain.events[d][i].kind.UndoEvent? && s.domain.events[d][j].kind.UndoEvent?
    requires s.domain.events[d][i].actor == s.domain.events[d][j].actor
    requires s.domain.events[d][i].idempotencyKey == s.domain.events[d][j].idempotencyKey != None
    ensures i == j
  {
    hide Reachable, Inv;
    ReachableSatisfiesInv(s);
    UniqueInLog(s, d, i, j);
  }

  lemma UniqueInLog(s: State, d: nat, i: nat, j: nat)
    requires Inv(s) && d in s.domain.events && i < |s.domain.events[d]| && j < |s.domain.events[d]|
    requires s.domain.events[d][i].kind.UndoEvent? && s.domain.events[d][j].kind.UndoEvent?
    requires s.domain.events[d][i].actor == s.domain.events[d][j].actor
    requires s.domain.events[d][i].idempotencyKey == s.domain.events[d][j].idempotencyKey != None
    ensures i == j
  {
    assert ReceiptsOk(s.domain.events);
    assert LogReceiptsOk(d, s.domain.events[d]);
  }
}
