/** What never goes back: the facts about a store that every later store keeps. */
module ForwardOnly {
  import opened Prelude
  import opened JobService
  import opened Tables
  import opened Protocol

  /** RESERVED, then LIVE or not, then DELETING and DELETED in rotation. */
  predicate Later(a: ArtifactState, b: ArtifactState) {
    a.Reserved? || (a.Live? && !b.Reserved?) || ((a.Deleting? || a.Deleted?) && (b.Deleting? || b.Deleted?))
  }

  ghost predicate DatasetsForward(a: map<nat, Dataset>, b: map<nat, Dataset>) {
    forall d | d in a ::
      && d in b && b[d].owner == a[d].owner && b[d].version >= a[d].version
      && (b[d].Retained() ==> a[d].Retained()) && (a[d].Imported() ==> b[d].Imported())
  }

  ghost predicate ManifestsForward(a: map<Path, Snapshot>, b: map<Path, Snapshot>) {
    forall p | p in a ::
      && p in b && b[p].dataset == a[p].dataset && b[p].version == a[p].version && b[p].digest == a[p].digest
      && b[p].createdAt == a[p].createdAt
      && (a[p].availability.Expired? ==> b[p].availability.Expired?)
  }

  ghost predicate ArtifactsForward(a: map<Path, Artifact>, b: map<Path, Artifact>) {
    forall p | p in a ::
      && p in b && b[p].task == a[p].task && b[p].attemptToken == a[p].attemptToken && b[p].temporaryPath
          == a[p].temporaryPath
      && Later(a[p].state, b[p].state)
  }

  /** Manifests are recorded only for fresh paths and for paths still RESERVED; rows only for fresh or recorded ones. */
  ghost predicate OnlyFresh(a: Storage, nextId: nat, b: Storage) {
    && (forall p | p in b.snapshots && p !in a.snapshots ::
          p.Output? && (p.id >= nextId || (p in a.artifacts && a.artifacts[p].state.Reserved?)))
    && (forall p | p in b.artifacts && p !in a.artifacts :: p.id >= nextId || p.Prepared? || p in b.snapshots)
  }

  ghost predicate EventsForward(a: map<nat, seq<Event>>, b: map<nat, seq<Event>>) {
    forall d | d in a :: d in b && a[d] <= b[d]
  }

  predicate SameRequest(a: Transformation, b: Transformation) {
    && a.dataset == b.dataset && a.user == b.user && a.operation == b.operation && a.idempotencyKey == b.idempotencyKey
    && a.expectedVersion == b.expectedVersion && a.inputPath == b.inputPath && a.task == b.task
  }

  ghost predicate RunsForward(a: map<nat, Transformation>, b: map<nat, Transformation>) {
    forall x | x in a ::
      && x in b && SameRequest(a[x], b[x])
      && (a[x].Published() ==> b[x].Published() && b[x] == a[x].(status := b[x].status))
      && (a[x].status.Undone? ==> b[x].status.Undone?)
      && (b[x].status.Admitted? ==> a[x].status.Admitted?)
  }

  /** An upload request ends once: acknowledged or aborted. */
  ghost predicate IntakeForward(a: Intake, b: Intake) {
    && (forall d | d in a.uploads :: d in b.uploads && b.uploads[d] == a.uploads[d])
    && a.aborted <= b.aborted
    && (forall d | d in b.uploading && d in a.uploads :: d in a.uploading)
    && (forall d | d in b.aborted && d in a.uploads && d !in a.uploading :: d in a.aborted)
  }

  /** An aborted upload's staged path is one its handler has decided to unlink. */
  ghost predicate AbortsForward(a: Intake, b: Intake, doomed: set<Path>) {
    forall d | d in b.aborted && d !in a.aborted :: d in b.uploads && b.uploads[d].path in doomed
  }

  ghost predicate EnvironmentForward(a: Environment, b: Environment) {
    a.settings == b.settings && a.now <= b.now && a.nextId <= b.nextId
  }

  ghost predicate Forward(s: State, z: State) {
    && EnvironmentForward(s.env, z.env)
    && DatasetsForward(s.domain.datasets, z.domain.datasets)
    && RunsForward(s.domain.transformations, z.domain.transformations)
    && EventsForward(s.domain.events, z.domain.events)
    && ManifestsForward(s.storage.snapshots, z.storage.snapshots)
    && ArtifactsForward(s.storage.artifacts, z.storage.artifacts)
    && OnlyFresh(s.storage, s.env.nextId, z.storage)
    && s.storage.doomed <= z.storage.doomed
    && IntakeForward(s.intake, z.intake)
    && AbortsForward(s.intake, z.intake, z.storage.doomed)
  }

  lemma ForwardIsReflexive(s: State)
    ensures Forward(s, s)
  {
  }

  lemma DatasetsForwardIsTransitive(a: map<nat, Dataset>, b: map<nat, Dataset>, c: map<nat, Dataset>)
    requires DatasetsForward(a, b) && DatasetsForward(b, c)
    ensures DatasetsForward(a, c)
  {
  }

  lemma RunsForwardIsTransitive(a: map<nat, Transformation>, b: map<nat, Transformation>, c: map<nat, Transformation>)
    requires RunsForward(a, b) && RunsForward(b, c)
    ensures RunsForward(a, c)
  {
  }

  lemma EventsForwardIsTransitive(a: map<nat, seq<Event>>, b: map<nat, seq<Event>>, c: map<nat, seq<Event>>)
    requires EventsForward(a, b) && EventsForward(b, c)
    ensures EventsForward(a, c)
  {
  }

  lemma StorageForwardIsTransitive(a: Storage, b: Storage, c: Storage)
    requires ManifestsForward(a.snapshots, b.snapshots) && ManifestsForward(b.snapshots, c.snapshots)
    requires ArtifactsForward(a.artifacts, b.artifacts) && ArtifactsForward(b.artifacts, c.artifacts)
    ensures ManifestsForward(a.snapshots, c.snapshots) && ArtifactsForward(a.artifacts, c.artifacts)
  {
  }

  lemma OnlyFreshIsTransitive(a: Storage, b: Storage, c: Storage, nextId: nat, issued: nat)
    requires OnlyFresh(a, nextId, b) && OnlyFresh(b, issued, c) && issued >= nextId
    requires ManifestsForward(a.snapshots, b.snapshots) && ManifestsForward(b.snapshots, c.snapshots)
    requires ArtifactsForward(a.artifacts, b.artifacts) && ArtifactsForward(b.artifacts, c.artifacts)
    ensures OnlyFresh(a, nextId, c)
  {
  }

  lemma ForwardIsTransitive(a: State, b: State, c: State)
    requires Forward(a, b) && Forward(b, c)
    ensures Forward(a, c)
  {
    DatasetsForwardIsTransitive(a.domain.datasets, b.domain.datasets, c.domain.datasets);
    RunsForwardIsTransitive(a.domain.transformations, b.domain.transformations, c.domain.transformations);
    EventsForwardIsTransitive(a.domain.events, b.domain.events, c.domain.events);
    StorageForwardIsTransitive(a.storage, b.storage, c.storage);
    OnlyFreshIsTransitive(a.storage, b.storage, c.storage, a.env.nextId, b.env.nextId);
    hide DatasetsForward, RunsForward, EventsForward, ManifestsForward, ArtifactsForward, OnlyFresh;
  }
}
