/**
 What the collector may take, told from the tables alone: which rows it must end
 DELETED, which files it must remove, and what it must leave alone.
 */
module Collection {
  import opened Prelude
  import opened JobService
  import opened Tables
  import opened ArtifactService

  /** A worker still writes under the reservation: its job is leased to this attempt, and the lease lasts. */
  predicate BeingWritten(jobs: map<nat, Job>, artifact: Artifact, now: Time) {
    && artifact.task.Some? && artifact.task.value in jobs
    && var job := jobs[artifact.task.value];
       && (job.status.Started? || job.status.CancellationRequested?) && job.attemptToken == artifact.attemptToken
       && job.leaseExpiresAt.Some? && job.leaseExpiresAt.value > now
  }

  predicate GivenUp(dataset: Dataset) {
    dataset.deleted || dataset.status.FailedImport? || dataset.status.CancelledImport?
  }

  /** No dataset, manifest, transformation or completed report has a use for the path. */
  predicate Unused(domain: Domain, snapshots: map<Path, Snapshot>, reports: set<Path>, path: Path) {
    var expired := path in snapshots && snapshots[path].availability.Expired?;
    && (forall d | d in domain.datasets && domain.datasets[d].storedPath == path :: GivenUp(domain.datasets[d]))
    && (path in snapshots && !expired && snapshots[path].dataset in domain.datasets ==>
          GivenUp(domain.datasets[snapshots[path].dataset]))
    && (forall x | x in domain.transformations && domain.transformations[x].inputPath == path ::
          expired && !domain.transformations[x].status.Admitted?)
    && (forall x | x in domain.transformations && domain.transformations[x].outputPath == path ::
          expired || !(domain.transformations[x].status.Completed? || domain.transformations[x].status.Undone?))
    && path !in reports
  }

  /** Deletion was requested or has begun, or the reservation ran out. */
  predicate UpForDeletion(artifact: Artifact, now: Time) {
    || artifact.state.Deleting? || artifact.state.Deleted? || artifact.deletionRequestedAt.Some?
    || (artifact.state.Reserved? && (artifact.expiresAt.None? || artifact.expiresAt.value <= now))
  }

  /** The temporary file of an attempt, or its spill directory. */
  predicate IsScratch(artifact: Artifact, path: Path) {
    && artifact.temporaryPath.Some?
    && var temporary := artifact.temporaryPath.value;
       path == temporary || (temporary.Temporary? && path == Spill(temporary.id))
  }

  /** The row's paths may be removed: nobody writes or uses them, and they were given up. */
  predicate Collectable(jobs: map<nat, Job>, domain: Domain, storage: Storage, env: Environment, path: Path) {
    && path in storage.artifacts && !BeingWritten(jobs, storage.artifacts[path], env.now)
    && Unused(domain, storage.snapshots, env.reports, path) && UpForDeletion(storage.artifacts[path], env.now)
  }

  /** The row is published and stays so; its attempt is over, and only its scratch may be removed. */
  predicate Tidiable(jobs: map<nat, Job>, domain: Domain, storage: Storage, env: Environment, path: Path) {
    && path in storage.artifacts && storage.artifacts[path].state.Live?
    && !BeingWritten(jobs, storage.artifacts[path], env.now) && !Collectable(jobs, domain, storage, env, path)
  }

  /** The files that go when this row is considered. */
  predicate Takes(jobs: map<nat, Job>, domain: Domain, storage: Storage, env: Environment, path: Path, file: Path) {
    || (Collectable(jobs, domain, storage, env, path) && file == path)
    || ((Collectable(jobs, domain, storage, env, path) || Tidiable(jobs, domain, storage, env, path))
        && path in storage.artifacts && IsScratch(storage.artifacts[path], file))
  }

  function Marked(artifacts: map<Path, Artifact>, path: Path, state: ArtifactState): map<Path, Artifact> {
    if path in artifacts then artifacts[path := artifacts[path].(state := state)] else artifacts
  }

  /** Files whose removal fails leave the row DELETING. */
  ghost predicate Sticks(artifact: Artifact, path: Path, failing: set<Path>) {
    path in failing || exists p | p in failing :: IsScratch(artifact, p)
  }

  /** A collected row: its final, temporary and spill paths are off the disk, as far as they could be removed. */
  ghost predicate Collected(was: Storage, storage: Storage, path: Path, failing: set<Path>) {
    && path in was.artifacts && path in storage.artifacts
    && storage.artifacts[path]
       == was.artifacts[path].(state := if Sticks(was.artifacts[path], path, failing) then Deleting else Deleted)
    && (path !in storage.files || path in failing)
    && forall p | p in storage.files && p !in failing :: !IsScratch(was.artifacts[path], p)
  }

  // ---------------------------------------------------------------- the collector's own tests, told this way

  lemma AuxiliariesAreScratch(artifact: Artifact, path: Path)
    ensures path in Auxiliaries(artifact) <==> IsScratch(artifact, path)
  {
  }

  lemma WrittenIsLive(jobs: map<nat, Job>, artifact: Artifact, now: Time)
    ensures BeingWritten(jobs, artifact, now) <==>
            artifact.task.Some? && artifact.task.value in jobs
            && (jobs[artifact.task.value].status.Started? || jobs[artifact.task.value].status.CancellationRequested?)
            && jobs[artifact.task.value].attemptToken == artifact.attemptToken
            && !jobs[artifact.task.value].LeaseExpired(now)
  {
  }

  lemma UnusedIsUnreferenced(domain: Domain, snapshots: map<Path, Snapshot>, reports: set<Path>, path: Path)
    ensures Unused(domain, snapshots, reports, path)
            <==> !Referenced(domain.datasets, snapshots, domain.transformations, reports, path)
  {
  }

  lemma JudgedByRelease(artifact: Artifact, live: bool, referenced: bool, now: Time)
    ensures Judge(artifact, live, referenced, now).Condemn? <==> !live && !referenced && UpForDeletion(artifact, now)
    ensures Judge(artifact, live, referenced, now).CollectAuxiliaries? <==>
            !live && artifact.state.Live? && (referenced || artifact.deletionRequestedAt.None?)
  {
  }

  lemma CollectableIsKnown(jobs: map<nat, Job>, domain: Domain, storage: Storage, env: Environment, path: Path)
    requires Collectable(jobs, domain, storage, env, path)
    ensures path in storage.artifacts
  {
  }

  // ---------------------------------------------------------------- a pass

  /** Every file that goes when these rows are considered. */
  ghost function Taken(jobs: map<nat, Job>, domain: Domain, storage: Storage, env: Environment, candidates: seq<Path>)
    : iset<Path>
  {
    iset c, file | c in candidates && Takes(jobs, domain, storage, env, c, file) :: file
  }

  /** How far a pass has come when it has considered `done`. */
  ghost predicate Progressed(jobs: map<nat, Job>, domain: Domain, was: Storage, env: Environment, done: seq<Path>,
                             failing: set<Path>, storage: Storage)
  {
    && storage.snapshots == was.snapshots && storage.artifacts.Keys == was.artifacts.Keys
    && (forall p | p in was.artifacts ::
          if p in done && Collectable(jobs, domain, was, env, p) then Collected(was, storage, p, failing)
          else storage.artifacts[p] == was.artifacts[p])
    && (forall p | p in was.files :: p in storage.files || exists c | c in done :: Takes(jobs, domain, was, env, c, p))
    && (forall p | p in storage.files :: p in was.files && storage.files[p] == was.files[p])
  }

  lemma NothingCollected(jobs: map<nat, Job>, domain: Domain, was: Storage, env: Environment, candidates: seq<Path>,
                         failing: set<Path>)
    ensures Progressed(jobs, domain, was, env, candidates[..0], failing, was)
  {
  }

  lemma ProgressIsDone(jobs: map<nat, Job>, domain: Domain, was: Storage, env: Environment, candidates: seq<Path>,
                       failing: set<Path>, storage: Storage)
    requires Progressed(jobs, domain, was, env, candidates, failing, storage)
    ensures forall c | c in candidates && Collectable(jobs, domain, was, env, c) ::
        Collected(was, storage, c, failing)
    ensures storage.artifacts.Keys == was.artifacts.Keys
    ensures forall p | p in was.artifacts && !(p in candidates && Collectable(jobs, domain, was, env, p)) ::
        storage.artifacts[p] == was.artifacts[p]
    ensures forall p | p in was.files :: p in storage.files || p in Taken(jobs, domain, was, env, candidates)
    ensures forall p | p in storage.files :: p in was.files && storage.files[p] == was.files[p]
  {
    hide Collected, Tidiable, IsScratch, Unused, BeingWritten, UpForDeletion;
    forall c | c in candidates && Collectable(jobs, domain, was, env, c) ensures c in was.artifacts {
      CollectableIsKnown(jobs, domain, was, env, c);
    }
    hide Collectable;
  }

  /** A row keeps its verdict while the pass works on it and on others. */
  lemma VerdictStays(jobs: map<nat, Job>, domain: Domain, was: Storage, env: Environment, storage: Storage, path: Path)
    requires storage.snapshots == was.snapshots && storage.artifacts.Keys == was.artifacts.Keys
    requires path in was.artifacts ==>
               || storage.artifacts[path] == was.artifacts[path]
               || (Collectable(jobs, domain, was, env, path)
                   && (storage.artifacts[path] == was.artifacts[path].(state := Deleting)
                       || storage.artifacts[path] == was.artifacts[path].(state := Deleted)))
    ensures Collectable(jobs, domain, storage, env, path) <==> Collectable(jobs, domain, was, env, path)
    ensures Tidiable(jobs, domain, storage, env, path) <==> Tidiable(jobs, domain, was, env, path)
    ensures forall p :: Takes(jobs, domain, storage, env, path, p) <==> Takes(jobs, domain, was, env, path, p)
  {
    hide Unused;
  }

  /** The row just considered. */
  lemma ThisRowIsCollected(was: Storage, mid: Storage, storage: Storage, path: Path, failing: set<Path>,
                           paths: set<Path>)
    requires path in was.artifacts && path in mid.artifacts
    requires mid.artifacts[path] == was.artifacts[path] || Collected(was, mid, path, failing)
    requires forall p :: p in paths <==> p == path || IsScratch(was.artifacts[path], p)
    requires storage.files == mid.files - (paths - failing)
    requires storage.artifacts == Marked(mid.artifacts, path, if paths !! failing then Deleted else Deleting)
    ensures Collected(was, storage, path, failing)
  {
    hide IsScratch;
    assert paths !! failing <==> !Sticks(was.artifacts[path], path, failing);
  }

  /** A row collected before stays so while others are considered. */
  lemma OtherRowStaysCollected(was: Storage, mid: Storage, storage: Storage, path: Path, other: Path,
                               failing: set<Path>, removed: set<Path>)
    requires Collected(was, mid, other, failing) && other != path
    requires storage.files == mid.files - removed
    requires other in storage.artifacts && storage.artifacts[other] == mid.artifacts[other]
    ensures Collected(was, storage, other, failing)
  {
    hide IsScratch, Sticks;
  }

  lemma FilesAfterOneMore(jobs: map<nat, Job>, domain: Domain, was: Storage, env: Environment, done: seq<Path>,
                          path: Path, mid: Storage, storage: Storage, removed: set<Path>)
    requires forall p | p in was.files :: p in mid.files || exists c | c in done :: Takes(jobs, domain, was, env, c, p)
    requires forall p | p in mid.files :: p in was.files && mid.files[p] == was.files[p]
    requires forall p | p in removed :: Takes(jobs, domain, was, env, path, p)
    requires storage.files == mid.files - removed
    ensures forall p | p in was.files ::
        p in storage.files || exists c | c in done + [path] :: Takes(jobs, domain, was, env, c, p)
    ensures forall p | p in storage.files :: p in was.files && storage.files[p] == was.files[p]
  {
    hide Takes;
    forall p | p in was.files && p !in storage.files
      ensures exists c | c in done + [path] :: Takes(jobs, domain, was, env, c, p) {
      if p in removed {
        assert path in done + [path];
      } else {
        var c :| c in done && Takes(jobs, domain, was, env, c, p);
        assert c in done + [path];
      }
    }
  }

  lemma TakesOf(jobs: map<nat, Job>, domain: Domain, was: Storage, env: Environment, path: Path, p: Path)
    requires Collectable(jobs, domain, was, env, path)
    ensures path in was.artifacts
    ensures Takes(jobs, domain, was, env, path, p) <==> p == path || IsScratch(was.artifacts[path], p)
  {
  }

  lemma OneMoreCollected(jobs: map<nat, Job>, domain: Domain, was: Storage, env: Environment, candidates: seq<Path>,
                         i: nat, failing: set<Path>, mid: Storage, storage: Storage, paths: set<Path>)
    requires i < |candidates| && Progressed(jobs, domain, was, env, candidates[..i], failing, mid)
    requires forall p :: p in paths <==> Takes(jobs, domain, mid, env, candidates[i], p)
    requires storage.files == mid.files - (paths - failing) && storage.snapshots == mid.snapshots
    requires storage.artifacts
             == if Collectable(jobs, domain, mid, env, candidates[i])
                then Marked(mid.artifacts, candidates[i], if paths !! failing then Deleted else Deleting)
                else mid.artifacts
    ensures Progressed(jobs, domain, was, env, candidates[..i + 1], failing, storage)
  {
    var path, done := candidates[i], candidates[..i];
    assert candidates[..i + 1] == done + [path];
    RowKeepsVerdict(jobs, domain, was, env, done, failing, mid, path);
    hide Takes, Collectable;
    FilesAfterOneMore(jobs, domain, was, env, done, path, mid, storage, paths - failing);
    var collects := Collectable(jobs, domain, was, env, path);
    if collects { forall p { TakesOf(jobs, domain, was, env, path, p); } }
    hide Collected, IsScratch;
    forall p | p in was.artifacts
      ensures p in storage.artifacts
      ensures if p in done + [path] && Collectable(jobs, domain, was, env, p) then Collected(was, storage, p, failing)
              else storage.artifacts[p] == was.artifacts[p] {
      if p == path {
        if collects { ThisRowIsCollected(was, mid, storage, path, failing, paths); }
      } else if p in done && Collectable(jobs, domain, was, env, p) {
        OtherRowStaysCollected(was, mid, storage, path, p, failing, paths - failing);
      }
    }
    assert storage.artifacts.Keys == was.artifacts.Keys;
  }

  lemma RowKeepsVerdict(jobs: map<nat, Job>, domain: Domain, was: Storage, env: Environment, done: seq<Path>,
                        failing: set<Path>, mid: Storage, path: Path)
    requires Progressed(jobs, domain, was, env, done, failing, mid)
    ensures Collectable(jobs, domain, mid, env, path) <==> Collectable(jobs, domain, was, env, path)
    ensures forall p :: Takes(jobs, domain, mid, env, path, p) <==> Takes(jobs, domain, was, env, path, p)
  {
    hide Unused, BeingWritten, UpForDeletion, IsScratch, Collectable, Tidiable, Takes, Sticks;
    VerdictStays(jobs, domain, was, env, mid, path);
  }
}
