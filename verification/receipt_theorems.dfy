/**
 What the stored receipts say. Every event of a log, and the receipt it stores for
 replay, describes the transformation, the revision and the files it is about.
 */
module ReceiptTheorems {
  import opened Prelude
  import opened JobService
  import opened TaskProtocol
  import opened Tables
  import opened ArtifactService
  import opened Protocol
  import opened Invariants
  import opened ForwardOnly
  import opened Safety

  /** The event is the history of its transformation's request: published, or later undone. */
  ghost predicate MatchesRequest(e: Event, d: nat, record: Transformation) {
    && record.dataset == d && record.Published()
    && match e.kind
       case TransformEvent =>
         && e.inputPath == record.inputPath && e.outputPath == record.outputPath
         && e.actor == record.user && e.idempotencyKey == Some(record.idempotencyKey)
         && e.previousVersion == record.expectedVersion
         && e.fingerprint == TransformRequest(d, record.expectedVersion, record.operation)
       case UndoEvent =>
         && e.inputPath == record.outputPath && e.outputPath == record.inputPath
         && e.actor == record.user && e.fingerprint == UndoRequest(d, e.previousVersion)
  }

  /** The receipt names its event and revision, and the sizes of the files before and after the transformation. */
  ghost predicate ReceiptDescribes(e: Event, record: Transformation, snapshots: map<Path, Snapshot>) {
    && e.receipt.eventId == e.id && e.receipt.transformation == e.transformation
    && e.receipt.previousVersion == e.previousVersion && e.receipt.resultVersion == e.resultVersion
    && e.resultVersion == e.previousVersion + 1
    && e.receipt.snapshot == e.outputPath
    && record.inputPath in snapshots && record.outputPath in snapshots
    && e.receipt.beforeRows == snapshots[record.inputPath].digest.rows
    && e.receipt.beforeColumns == snapshots[record.inputPath].digest.columns
    && e.receipt.afterRows == snapshots[record.outputPath].digest.rows
    && e.receipt.afterColumns == snapshots[record.outputPath].digest.columns
  }

  ghost predicate EventDescribes(e: Event, d: nat, transformations: map<nat, Transformation>,
                                 snapshots: map<Path, Snapshot>, nextId: nat) {
    && e.id < nextId && e.transformation in transformations
    && MatchesRequest(e, d, transformations[e.transformation])
    && ReceiptDescribes(e, transformations[e.transformation], snapshots)
  }

  ghost predicate LogDescribes(log: seq<Event>, d: nat, transformations: map<nat, Transformation>,
                               snapshots: map<Path, Snapshot>, nextId: nat) {
    forall i | 0 <= i < |log| :: EventDescribes(log[i], d, transformations, snapshots, nextId)
  }

  /** No two events of the store share an identifier. */
  ghost predicate IdsDistinct(events: map<nat, seq<Event>>) {
    forall d, i, e, j | d in events && 0 <= i < |events[d]| && e in events && 0 <= j < |events[e]| ::
      events[d][i].id == events[e][j].id ==> d == e && i == j
  }

  ghost predicate Described(s: State) {
    && (forall d | d in s.domain.events ::
          LogDescribes(s.domain.events[d], d, s.domain.transformations, s.storage.snapshots, s.env.nextId))
    && IdsDistinct(s.domain.events)
  }

  // ---------------------------------------------------------------- every step keeps it

  lemma EventStaysDescribed(e: Event, d: nat, s: State, z: State)
    requires Forward(s, z)
    requires EventDescribes(e, d, s.domain.transformations, s.storage.snapshots, s.env.nextId)
    ensures EventDescribes(e, d, z.domain.transformations, z.storage.snapshots, z.env.nextId)
  {
    hide DatasetsForward, EventsForward, ArtifactsForward, OnlyFresh, IntakeForward, AbortsForward;
  }

  lemma SameEventsStayDescribed(s: State, z: State)
    requires Described(s) && Forward(s, z) && z.domain.events == s.domain.events
    ensures Described(z)
  {
    hide EventDescribes, Forward;
    forall d | d in z.domain.events
      ensures LogDescribes(z.domain.events[d], d, z.domain.transformations, z.storage.snapshots, z.env.nextId) {
      LogStaysDescribed(s, z, d);
    }
  }

  lemma LogStaysDescribed(s: State, z: State, d: nat)
    requires Described(s) && Forward(s, z) && d in s.domain.events
    ensures LogDescribes(s.domain.events[d], d, z.domain.transformations, z.storage.snapshots, z.env.nextId)
  {
    hide EventDescribes, Forward, IdsDistinct;
    var log := s.domain.events[d];
    assert LogDescribes(log, d, s.domain.transformations, s.storage.snapshots, s.env.nextId);
    forall i | 0 <= i < |log|
      ensures EventDescribes(log[i], d, z.domain.transformations, z.storage.snapshots, z.env.nextId) {
      EventStaysDescribed(log[i], d, s, z);
    }
  }

  lemma FreshIdIsDistinct(s: State, d: nat, event: Event)
    requires Described(s) && d in s.domain.events && event.id == s.env.nextId
    ensures IdsDistinct(s.domain.events[d := s.domain.events[d] + [event]])
  {
    hide MatchesRequest, ReceiptDescribes;
    forall e, i | e in s.domain.events
        && 0 <= i < |s.domain.events[e]| ensures s.domain.events[e][i].id < s.env.nextId {
      assert LogDescribes(s.domain.events[e], e, s.domain.transformations, s.storage.snapshots, s.env.nextId);
    }
  }

  /** One event appended with a fresh identifier. */
  lemma AppendedEventStaysDescribed(s: State, z: State, d: nat, event: Event)
    requires Described(s) && Forward(s, z) && d in s.domain.events && event.id == s.env.nextId
    requires z.domain.events == s.domain.events[d := s.domain.events[d] + [event]]
    requires EventDescribes(event, d, z.domain.transformations, z.storage.snapshots, z.env.nextId)
    ensures Described(z)
  {
    FreshIdIsDistinct(s, d, event);
    hide EventDescribes, Forward, IdsDistinct, Described;
    forall e | e in z.domain.events
      ensures LogDescribes(z.domain.events[e], e, z.domain.transformations, z.storage.snapshots, z.env.nextId) {
      LogStaysDescribed(s, z, e);
    }
    DescribedFromLogs(z);
  }

  lemma DescribedFromLogs(z: State)
    requires IdsDistinct(z.domain.events)
    requires forall e | e in z.domain.events ::
               LogDescribes(z.domain.events[e], e, z.domain.transformations, z.storage.snapshots, z.env.nextId)
    ensures Described(z)
  {
  }

  lemma AdmissionKeepsEvents(s: State, step: Admission)
    requires !step.StageUploadStep?
    ensures AfterAdmission(s, step).domain.events == s.domain.events
  {
    hide Fires, Perform, HasCapacity, MayAdmit, MayTransform, OwnImportJob;
  }

  lemma WorkKeepsEvents(s: State, step: Attempt)
    ensures AfterWork(s, step).domain.events == s.domain.events
  {
    hide Fires, Perform, AbandonAttempt, ScheduleDelete;
  }

  lemma WritingKeepsEvents(s: State, step: Writing)
    requires !step.PublishStep?
    ensures AfterWriting(s, step).domain.events == s.domain.events
  {
    hide Fires, Perform, AbandonAttempt, ScheduleDelete;
  }

  lemma DispatchKeepsEvents(s: State, step: Dispatch)
    ensures AfterDispatch(s, step).domain.events == s.domain.events
  {
    hide Fires, Perform, ScheduleDelete, BackoffCeiling;
  }

  lemma UpkeepKeepsEvents(s: State, step: Upkeep)
    ensures AfterUpkeep(s, step).domain.events == s.domain.events
  {
    hide MayExpire, Referenced, LiveAttempt, Judge, ScheduleDelete;
  }

  /** Three steps touch the logs: staging opens one, publication and undo each append an event. */
  lemma OtherStepsKeepEvents(s: State, step: Step)
    requires !(step.Admit? && step.admission.StageUploadStep?) && !(step.Write? && step.writing.PublishStep?)
    requires !(step.Ask? && step.request.UndoStep?)
    ensures Apply(s, step).domain.events == s.domain.events
  {
    hide AfterAdmission, AfterWork, AfterWriting, AfterDispatch, AfterUpkeep;
    match step {
      case Tick(_) =>
      case Admit(admission) => AdmissionKeepsEvents(s, admission);
      case Work(attempt) => WorkKeepsEvents(s, attempt);
      case Profiles(_) => hide Fires, Perform, MayPublishProfile;
      case Write(writing) => WritingKeepsEvents(s, writing);
      case Ask(_) => hide Fires, Perform;
      case Deliver(dispatch) => DispatchKeepsEvents(s, dispatch);
      case Maintain(upkeep) => UpkeepKeepsEvents(s, upkeep);
    }
  }

  lemma StagedLogIsEmpty(s: State, task: nat, content: Bytes)
    ensures var z := StageUpload(s, task, content);
            z.domain.events == s.domain.events || z.domain.events == s.domain.events[s.env.nextId := []]
  {
    hide Fires, Perform;
  }

  lemma OpenedLogStaysDescribed(s: State, z: State, d: nat)
    requires Described(s) && Forward(s, z) && z.domain.events == s.domain.events[d := []]
    ensures Described(z)
  {
    hide EventDescribes, Forward;
    forall e | e in z.domain.events
      ensures LogDescribes(z.domain.events[e], e, z.domain.transformations, z.storage.snapshots, z.env.nextId) {
      if e != d { LogStaysDescribed(s, z, e); }
    }
  }

  /** The event and receipt of a publication, whose source and output have these manifests. */
  lemma PublicationEventDescribes(x: nat, record: Transformation, id: nat, final: Path, source: Snapshot,
                                  output: Snapshot, snapshots: map<Path, Snapshot>)
    requires record.inputPath in snapshots && snapshots[record.inputPath] == source
    requires final in snapshots && snapshots[final] == output
    ensures var event := TransformationEvent(x, record, id, final, source.digest, output.digest);
            var published := record.(outputPath := final, status := Completed,
                                     beforeRows := source.digest.rows, afterRows := output.digest.rows,
                                     beforeColumns := source.digest.columns, afterColumns := output.digest.columns);
            && event.id == id && event.transformation == x
            && MatchesRequest(event, record.dataset, published) && ReceiptDescribes(event, published, snapshots)
  {
  }

  /** What publication does to the tables its event is about. */
  lemma PublicationWritesEvent(s: State, task: nat, token: Token, final: Path)
    requires MayPublish(s, task, token, final) && final !in s.storage.snapshots
    ensures s.tasks.rows[task].job.transformation.Some?
        && s.tasks.rows[task].job.transformation.value in s.domain.transformations
    ensures var z, x := Publish(s, task, token, final), s.tasks.rows[task].job.transformation.value;
            var record := s.domain.transformations[x];
            && record.dataset in s.domain.datasets
            && record.inputPath in s.storage.snapshots && final in z.storage.snapshots
            && record.inputPath in z.storage.snapshots
            && var source, output := z.storage.snapshots[record.inputPath], z.storage.snapshots[final];
               && z.env.nextId == s.env.nextId + 1
               && z.domain.transformations
                  == s.domain.transformations[x := record.(
                       outputPath := final, status := Completed, beforeRows := source.digest.rows,
                       afterRows := output.digest.rows, beforeColumns := source.digest.columns,
                       afterColumns := output.digest.columns)]
               && z.domain.events
                  == s.domain.events[record.dataset := EventsOf(s, record.dataset)
                         + [TransformationEvent(x, record, s.env.nextId, final, source.digest, output.digest)]]
  {
    hide Fires, Perform, TransformationEvent, EventsOf;
  }

  /** The recorded dimensions are those of the files. */
  lemma RunKnowsItsFiles(s: State, x: nat)
    requires Inv(s) && x in s.domain.transformations && s.domain.transformations[x].Published()
    ensures var record, snapshots := s.domain.transformations[x], s.storage.snapshots;
            && record.inputPath in snapshots && record.outputPath in snapshots
            && record.beforeRows == snapshots[record.inputPath].digest.rows
            && record.beforeColumns == snapshots[record.inputPath].digest.columns
            && record.afterRows == snapshots[record.outputPath].digest.rows
            && record.afterColumns == snapshots[record.outputPath].digest.columns
  {
    hide StorageOk, JobsOk, TasksOk, DescriptionsOk, ProfilersOk, LiveOk, LeasesOk, HistoryOk, ReceiptsOk;
  }

  /** The event and receipt of an undo, of a transformation that knows its files. */
  lemma UndoEventDescribes(x: nat, record: Transformation, id: nat, version: nat, key: Option<nat>,
                           snapshots: map<Path, Snapshot>)
    requires record.Published() && record.inputPath in snapshots && record.outputPath in snapshots
    requires record.beforeRows == snapshots[record.inputPath].digest.rows
        && record.beforeColumns == snapshots[record.inputPath].digest.columns
        && record.afterRows == snapshots[record.outputPath].digest.rows
        && record.afterColumns == snapshots[record.outputPath].digest.columns
    ensures var event := UndoEventOf(x, record, id, record.user, version, key);
            && event.id == id && event.transformation == x && event.previousVersion == version
            && MatchesRequest(event, record.dataset, record.(status := Undone))
            && ReceiptDescribes(event, record.(status := Undone), snapshots)
  {
  }

  /** What undo does to the tables its event is about. */
  lemma UndoWritesEvent(s: State, d: nat, user: nat, version: nat, key: Option<nat>, x: nat)
    requires MayUndo(s, d, user, version, key, x)
    ensures x in s.domain.transformations && d in s.domain.datasets
    ensures var z, record := Undo(s, d, user, version, key, x), s.domain.transformations[x];
            && record.dataset == d && record.user == user && record.Published() && s.domain.datasets[d].version
                == version
            && z.env.nextId == s.env.nextId + 1 && z.storage == s.storage
            && z.domain.transformations == s.domain.transformations[x := record.(status := Undone)]
            && z.domain.events
               == s.domain.events[d := EventsOf(s, d) + [UndoEventOf(x, record, s.env.nextId, user, version, key)]]
            && d in z.domain.datasets
            && z.domain.datasets[d].version == version + 1 && z.domain.datasets[d].storedPath == record.inputPath
            && z.domain.datasets[d].rowCount == Some(record.beforeRows)
            && z.domain.datasets[d].columnCount == Some(record.beforeColumns)
  {
    hide Replay, UndoEventOf, EventsOf;
  }

  lemma KnownDatasetsHaveLogs(s: State, d: nat)
    requires Inv(s) && d in s.domain.datasets
    ensures d in s.domain.events
  {
    hide StorageOk, JobsOk, TransformationsOk, TasksOk, DescriptionsOk, ProfilersOk, LiveOk, LeasesOk, ReceiptsOk,
      HistoryOf;
    assert d in s.domain.events.Keys;
  }

  lemma LogOf(s: State, d: nat)
    requires Inv(s) && d in s.domain.datasets
    ensures d in s.domain.events && EventsOf(s, d) == s.domain.events[d]
  {
    hide Inv;
    KnownDatasetsHaveLogs(s, d);
  }

  lemma PublishKeepsDescribed(s: State, task: nat, token: Token, final: Path, z: State)
    requires Inv(s) && Described(s) && z == Publish(s, task, token, final) && Forward(s, z)
    ensures Described(z)
  {
    hide Inv, Forward, Described, Fires;
    if MayPublish(s, task, token, final) {
      FinalIsUnrecorded(s, task, token, final);
      PublicationWritesEvent(s, task, token, final);
      hide Publish, MayPublish, MatchesRequest, ReceiptDescribes, TransformationEvent, EventsOf;
      var x := s.tasks.rows[task].job.transformation.value;
      var record := s.domain.transformations[x];
      var source, output := z.storage.snapshots[record.inputPath], z.storage.snapshots[final];
      LogOf(s, record.dataset);
      PublicationEventDescribes(x, record, s.env.nextId, final, source, output, z.storage.snapshots);
      AppendedEventStaysDescribed(s, z, record.dataset, TransformationEvent(x, record, s.env.nextId, final,
                                                                            source.digest, output.digest));
    }
  }

  lemma FinalIsUnrecorded(s: State, task: nat, token: Token, final: Path)
    requires Inv(s) && MayPublish(s, task, token, final)
    ensures final !in s.storage.snapshots
  {
    hide Fires, HeadsOk, ManifestsOk, FilesOk, VersionsUnique, ArtifactsOk, DoomedOk, JobsOk, RecordsOk, HeadUnmoved;
  }

  lemma UndoKeepsDescribed(s: State, d: nat, user: nat, version: nat, key: Option<nat>, x: nat, z: State)
    requires Inv(s) && Described(s) && z == Undo(s, d, user, version, key, x) && Forward(s, z)
    ensures Described(z)
  {
    hide Inv, Forward, Described, Replay;
    if MayUndo(s, d, user, version, key, x) {
      UndoWritesEvent(s, d, user, version, key, x);
      hide Undo, MayUndo, MatchesRequest, ReceiptDescribes, UndoEventOf, EventsOf;
      var record := s.domain.transformations[x];
      RunKnowsItsFiles(s, x);
      LogOf(s, d);
      UndoEventDescribes(x, record, s.env.nextId, version, key, s.storage.snapshots);
      AppendedEventStaysDescribed(s, z, d, UndoEventOf(x, record, s.env.nextId, user, version, key));
    }
  }

  lemma StageKeepsDescribed(s: State, task: nat, content: Bytes, z: State)
    requires Described(s) && z == StageUpload(s, task, content) && Forward(s, z)
    ensures Described(z)
  {
    StagedLogIsEmpty(s, task, content);
    hide StageUpload, Described, Forward;
    if z.domain.events == s.domain.events {
      SameEventsStayDescribed(s, z);
    } else {
      OpenedLogStaysDescribed(s, z, s.env.nextId);
    }
  }

  lemma StepKeepsDescribed(s: State, step: Step)
    requires Inv(s) && Described(s)
    ensures Described(Apply(s, step))
  {
    StepKeepsInv(s, step);
    hide Inv, Forward, Described, StageUpload, Publish, Undo;
    if step.Admit? && step.admission.StageUploadStep? {
      StageKeepsDescribed(s, step.admission.task, step.admission.content, Apply(s, step));
    } else if step.Write? && step.writing.PublishStep? {
      PublishKeepsDescribed(s, step.writing.task, step.writing.token, step.writing.final, Apply(s, step));
    } else if step.Ask? && step.request.UndoStep? {
      var r := step.request;
      UndoKeepsDescribed(s, r.dataset, r.user, r.version, r.key, r.transformation, Apply(s, step));
    } else {
      OtherStepsKeepEvents(s, step);
      SameEventsStayDescribed(s, Apply(s, step));
    }
  }

  lemma {:induction false} RunKeepsDescribed(s: State, steps: seq<Step>)
    requires Inv(s) && Described(s)
    ensures Described(Run(s, steps))
    decreases steps
  {
    hide Inv, Forward, Described, Apply;
    if steps != [] {
      StepKeepsInv(s, steps[0]);
      StepKeepsDescribed(s, steps[0]);
      RunKeepsDescribed(Apply(s, steps[0]), steps[1..]);
    }
  }

  /** In every reachable store every event, and the receipt stored in it, describes what happened. */
  lemma EventsDescribe(s: State)
    requires Reachable(s)
    ensures Described(s)
  {
    var settings: Settings, steps: seq<Step> :| s == Run(Initial(settings), steps);
    InitialSatisfiesInv(settings);
    assert Described(Initial(settings));
    hide Inv, Run, Described;
    RunKeepsDescribed(Initial(settings), steps);
  }

  /**
   What an undo answers: a fresh receipt is about the dataset as the call leaves it, and
   is the receipt that its event stores for every replay.
   */
  lemma FreshReceiptIsTheDataset(s: State, d: nat, user: nat, version: nat, key: Option<nat>, x: nat)
    requires Reachable(s) && MayUndo(s, d, user, version, key, x)
    ensures var z := Undo(s, d, user, version, key, x);
            && d in z.domain.datasets && d in z.domain.events && z.domain.events[d] != []
            && var receipt, dataset := z.domain.events[d][|z.domain.events[d]| - 1].receipt, z.domain.datasets[d];
               && receipt.previousVersion == version && receipt.resultVersion == dataset.version == version + 1
               && receipt.snapshot == dataset.storedPath && receipt.transformation == x
               && dataset.rowCount == Some(receipt.beforeRows) && dataset.columnCount == Some(receipt.beforeColumns)
  {
    hide Inv, Reachable, Replay;
    ReachableSatisfiesInv(s);
    UndoWritesEvent(s, d, user, version, key, x);
    hide Undo, MayUndo, EventsOf;
    RunKnowsItsFiles(s, x);
    UndoEventDescribes(x, s.domain.transformations[x], s.env.nextId, version, key, s.storage.snapshots);
    var log := EventsOf(s, d) + [UndoEventOf(x, s.domain.transformations[x], s.env.nextId, user, version, key)];
    assert log[|log| - 1] == UndoEventOf(x, s.domain.transformations[x], s.env.nextId, user, version, key);
  }

  /** What a replay answers: the receipt of the one undo of that revision, whatever happened since. */
  lemma ReplayedReceiptIsTheRevision(s: State, d: nat, user: nat, version: nat, key: Option<nat>)
    requires Reachable(s) && Replay(EventsOf(s, d), user, key).Some?
    requires Replay(EventsOf(s, d), user, key).value.fingerprint == UndoRequest(d, version)
    ensures var event := Replay(EventsOf(s, d), user, key).value;
            && event.kind.UndoEvent? && event.actor == user && event.idempotencyKey == key
            && event.receipt.previousVersion == version && event.receipt.resultVersion == version + 1
            && event.receipt.eventId == event.id
            && event.transformation in s.domain.transformations
            && var record := s.domain.transformations[event.transformation];
               && event.receipt.snapshot == record.inputPath && record.inputPath in s.storage.snapshots
               && event.receipt.beforeRows == s.storage.snapshots[record.inputPath].digest.rows
               && event.receipt.beforeColumns == s.storage.snapshots[record.inputPath].digest.columns
  {
    hide Reachable;
    EventsDescribe(s);
    var n := ReplayIsStored(EventsOf(s, d), user, key);
    assert d in s.domain.events;
    assert LogDescribes(s.domain.events[d], d, s.domain.transformations, s.storage.snapshots, s.env.nextId);
    assert EventDescribes(s.domain.events[d][n], d, s.domain.transformations, s.storage.snapshots, s.env.nextId);
  }

  lemma {:induction false} ReplayIsStored(log: seq<Event>, actor: nat, key: Option<nat>) returns (n: nat)
    requires Replay(log, actor, key).Some?
    ensures key.Some? && n < |log| && log[n] == Replay(log, actor, key).value
        && UndoReceiptFor(log[n], actor, key.value)
  {
    if UndoReceiptFor(log[0], actor, key.value) {
      n := 0;
    } else {
      var rest := ReplayIsStored(log[1..], actor, key);
      n := rest + 1;
    }
  }
}
