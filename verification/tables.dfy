/**
 The shared store: one map per database table, the files on disk, and what processes
 hold in memory between transactions.

 Identifiers drawn from `uuid4` or a sequence come from the counter `nextId`, so they
 are distinct. `artifacts` is keyed by its unique `final_path`, `snapshots` by its
 stored path.
 */
module Tables {
  import opened Prelude
  import opened JobService
  import opened TaskProtocol

  datatype Path =
    | Output(id: nat)          // a staged upload or one attempt's final path
    | Prepared(id: nat)        // the placeholder recorded at admission; never written
    | Temporary(id: nat)
    | Spill(id: nat)
    | ReportFile(id: nat)

  /** File content, and the two dimensions that inspection reads from it. */
  datatype Bytes = Bytes(rows: nat, columns: nat, content: int)

  /** The profile document is a function of the bytes it was computed from. */
  datatype Profile = Profile(source: Bytes)

  datatype DatasetStatus =
    | Queued | Processing | Ready | Profiling | Profiled | Transforming | FailedImport | CancelledImport

  datatype Dataset = Dataset(
    owner: nat,
    storedPath: Path,
    status: DatasetStatus,
    version: nat,
    rowCount: Option<nat>,
    columnCount: Option<nat>,
    profile: Option<Profile>,
    deleted: bool)
  {
    /** Neither failed nor cancelled: the statuses whose path the collector must keep. */
    predicate Retained() {
      !status.FailedImport? && !status.CancelledImport? && !deleted
    }

    predicate Imported() {
      status.Ready? || status.Profiling? || status.Profiled? || status.Transforming?
    }

    predicate EnsureReady() {
      status.Ready? || status.Profiled?
    }
  }

  datatype TransformationStatus = Admitted | Completed | Undone | FailedRun | CancelledRun

  datatype Transformation = Transformation(
    dataset: nat,
    user: nat,
    operation: int,
    idempotencyKey: nat,
    expectedVersion: nat,
    inputPath: Path,
    outputPath: Path,
    status: TransformationStatus,
    task: nat,
    beforeRows: nat,
    afterRows: nat,
    beforeColumns: nat,
    afterColumns: nat)
  {
    predicate Published() {
      status.Completed? || status.Undone?
    }
  }

  datatype Availability = Available | Expired

  datatype Snapshot = Snapshot(
    dataset: nat,
    version: nat,
    digest: Bytes,
    availability: Availability,
    pinned: bool,
    createdAt: Time)

  datatype ArtifactState = Reserved | Live | Deleting | Deleted

  datatype Artifact = Artifact(
    owner: Option<nat>,
    task: Option<nat>,
    attemptToken: Option<Token>,
    temporaryPath: Option<Path>,
    state: ArtifactState,
    expiresAt: Option<Time>,
    deletionRequestedAt: Option<Time>)

  /** The digest of a canonical request; distinct requests have distinct digests. */
  datatype Fingerprint =
    | TransformRequest(dataset: nat, expectedVersion: nat, operation: int)
    | UndoRequest(dataset: nat, expectedVersion: nat)

  datatype EventKind = TransformEvent | UndoEvent

  /** What the caller is answered, now and at every replay: the dimensions are the transformation's. */
  datatype Receipt = Receipt(
    eventId: nat,
    transformation: nat,
    previousVersion: nat,
    resultVersion: nat,
    beforeRows: nat,
    afterRows: nat,
    beforeColumns: nat,
    afterColumns: nat,
    snapshot: Path)

  datatype Event = Event(
    id: nat,
    actor: nat,
    transformation: nat,
    kind: EventKind,
    idempotencyKey: Option<nat>,
    fingerprint: Fingerprint,
    previousVersion: nat,
    resultVersion: nat,
    inputPath: Path,
    outputPath: Path,
    receipt: Receipt)

  datatype EvaluationStatus = EvaluationPending | Running | Evaluated | EvaluationError | EvaluationCancelled

  datatype Evaluation = Evaluation(status: EvaluationStatus, passed: Option<bool>)
  {
    predicate Open() {
      status.EvaluationPending? || status.Running?
    }
  }

  /** What a dispatcher remembers between its claim commit and its acknowledgement. */
  datatype ClaimRecord = ClaimRecord(task: nat, outboxId: nat, generation: nat, attempts: nat)

  /** One output-writing attempt, known by its reservation's final path. */
  datatype Writer = Writer(temporary: Path, task: nat, token: Token, transformation: Option<nat>, finished: bool)

  /** A profiling attempt: the head it captured and, once computed, the result. */
  datatype Profiler = Profiler(dataset: nat, version: nat, path: Path, result: Option<Profile>)

  datatype Upload = Upload(path: Path, task: nat)

  datatype Settings = Settings(
    outboxClaimTtl: nat,
    outboxMaxRetry: nat,
    maxActiveJobs: nat,
    jobRetention: nat,
    snapshotRetention: nat,
    keepLast: nat)

  datatype Environment = Environment(
    settings: Settings,
    now: Time,
    nextId: nat,
    reports: set<Path>)        // file paths of completed reports

  datatype Tasks = Tasks(
    rows: map<nat, Row>,
    claims: map<nat, ClaimRecord>)

  datatype Domain = Domain(
    datasets: map<nat, Dataset>,
    transformations: map<nat, Transformation>,
    events: map<nat, seq<Event>>,
    evaluations: map<nat, Evaluation>,
    profilers: map<Token, Profiler>)

  datatype Storage = Storage(
    snapshots: map<Path, Snapshot>,
    artifacts: map<Path, Artifact>,
    files: map<Path, Bytes>,
    writers: map<Path, Writer>,
    doomed: set<Path>)         // unlinks some process has already decided to perform

  datatype Intake = Intake(
    uploads: map<nat, Upload>, // where and by which task each dataset was staged
    uploading: set<nat>,       // upload requests that have not yet learned their commit's outcome
    aborted: set<nat>)         // upload requests that were told their commit failed

  datatype State = State(env: Environment, tasks: Tasks, domain: Domain, storage: Storage, intake: Intake)

  function Initial(settings: Settings): State {
    State(Environment(settings, 0, 0, {}), Tasks(map[], map[]), Domain(map[], map[], map[], map[], map[]),
          Storage(map[], map[], map[], map[], {}), Intake(map[], {}, {}))
  }
}
