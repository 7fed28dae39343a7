/** What history retention takes out of use, when, and what it must keep. */
module RetentionTheorems {
  import opened Prelude
  import opened JobService
  import opened TaskProtocol
  import opened Tables
  import opened ArtifactService
  import opened Protocol
  import opened Invariants
  import opened ForwardOnly
  import opened Safety
  import JobsProof

  /** Expiry reads only the manifests above a version, and removes none that matters. */
  lemma ExpiryKeepsNewer(snapshots: map<Path, Snapshot>, path: Path, q: Path, keepLast: nat)
    requires path in snapshots && q in snapshots && snapshots[path].availability.Available?
        && !Recent(snapshots, path, keepLast)
    requires q != path
    ensures var after := snapshots[path := snapshots[path].(availability := Expired)];
            Recent(after, q, keepLast) <==> Recent(snapshots, q, keepLast)
  {
    var after := snapshots[path := snapshots[path].(availability := Expired)];
    var d, v := snapshots[q].dataset, snapshots[q].version;
    var a, b := NewerAvailable(snapshots, d, v), NewerAvailable(after, d, v);
    assert b == a - {path};
    if path in a {
      var above := NewerAvailable(snapshots, d, snapshots[path].version);
      assert above <= b && above <= a;
      JobsProof.SubsetSize(above, b);
      JobsProof.SubsetSize(above, a);
    } else {
      assert b == a;
    }
  }

  /**
   A successful expiry takes exactly one manifest out of use: not pinned, not a head,
   not of a dataset with a job in flight, and not among the newest `keepLast`. Which
   manifests are among the newest does not change, so a pass over stale candidates
   keeps that guarantee for every dataset.
   */
  lemma ExpiryIsSelective(s: State, path: Path, q: Path)
    requires ExpireSnapshot(s, path) != s && q in s.storage.snapshots
    ensures var z := ExpireSnapshot(s, path);
            && path in s.storage.snapshots && q in z.storage.snapshots
            && !s.storage.snapshots[path].pinned && s.storage.snapshots[path].availability.Available?
            && !InFlight(s.tasks.rows, s.storage.snapshots[path].dataset)
            && s.domain.datasets[s.storage.snapshots[path].dataset].storedPath != path
            && !Recent(s.storage.snapshots, path, s.env.settings.keepLast)
            && (q != path ==> z.storage.snapshots[q] == s.storage.snapshots[q])
            && (Recent(z.storage.snapshots, q, s.env.settings.keepLast) <==> Recent(s.storage.snapshots, q,
                s.env.settings.keepLast))
            && path in z.storage.artifacts && z.storage.artifacts[path].deletionRequestedAt.Some?
  {
    hide InFlight, NewerAvailable;
    if q != path {
      ExpiryKeepsNewer(s.storage.snapshots, path, q, s.env.settings.keepLast);
    }
  }

  function ExpirySteps(candidates: seq<Path>): seq<Step> {
    seq(|candidates|, i requires 0 <= i < |candidates| => Maintain(ExpireStep(candidates[i])))
  }

  /** What a pass must leave alone in the store it started from. */
  predicate Protected(s: State, path: Path) {
    && path in s.storage.snapshots && s.storage.snapshots[path].availability.Available?
    && ( || Recent(s.storage.snapshots, path, s.env.settings.keepLast)
         || s.storage.snapshots[path].pinned
         || InFlight(s.tasks.rows, s.storage.snapshots[path].dataset)
         || (s.storage.snapshots[path].dataset in s.domain.datasets
             && s.domain.datasets[s.storage.snapshots[path].dataset].storedPath == path))
  }

  lemma ExpiryKeepsProtected(s: State, candidate: Path, path: Path)
    requires Protected(s, path)
    ensures var z := ExpireSnapshot(s, candidate);
            && z.tasks == s.tasks && z.domain == s.domain && z.env == s.env
            && path in z.storage.snapshots && z.storage.snapshots[path] == s.storage.snapshots[path]
            && Protected(z, path)
  {
    hide InFlight, NewerAvailable;
    if MayExpire(s, candidate) {
      assert candidate != path;
      ExpiryKeepsNewer(s.storage.snapshots, candidate, path, s.env.settings.keepLast);
    }
  }

  /**
   Retention safety of a whole pass, over any candidates however stale: the newest
   `keepLast` available manifests of every dataset, pinned ones, heads, and everything
   of a dataset with a job in flight come out exactly as they went in.
   */
  lemma {:induction false} RetentionPassIsSafe(s: State, candidates: seq<Path>, path: Path)
    requires Protected(s, path)
    ensures var z := Run(s, ExpirySteps(candidates));
            path in z.storage.snapshots && z.storage.snapshots[path] == s.storage.snapshots[path] && Protected(z, path)
    decreases candidates
  {
    ProtectedIsRecorded(s, path);
    hide Protected, ExpireSnapshot;
    if candidates == [] {
      assert ExpirySteps(candidates) == [];
    } else {
      var step, rest := Maintain(ExpireStep(candidates[0])), candidates[1..];
      assert ExpirySteps(candidates)[0] == step && ExpirySteps(candidates)[1..] == ExpirySteps(rest);
      assert Apply(s, step) == ExpireSnapshot(s, candidates[0]);
      hide Apply;
      ExpiryKeepsProtected(s, candidates[0], path);
      RetentionPassIsSafe(Apply(s, step), rest, path);
    }
  }

  lemma ProtectedIsRecorded(s: State, path: Path)
    requires Protected(s, path)
    ensures path in s.storage.snapshots
  {
  }

  // ---------------------------------------------------------------- retention while everything else runs

  ghost predicate AvailableIn(s: State, path: Path) {
    path in s.storage.snapshots && s.storage.snapshots[path].availability.Available?
  }

  lemma AdmissionExpiresNothing(s: State, step: Admission, path: Path)
    requires AvailableIn(s, path)
    ensures AvailableIn(AfterAdmission(s, step), path)
  {
    hide Fires, Perform, HasCapacity, MayAdmit, MayTransform, OwnImportJob;
  }

  lemma WorkExpiresNothing(s: State, step: Attempt)
    ensures AfterWork(s, step).storage.snapshots == s.storage.snapshots
  {
    hide Fires, Perform, AbandonAttempt, ScheduleDelete;
  }

  lemma WritingExpiresNothing(s: State, step: Writing, path: Path)
    requires AvailableIn(s, path)
    ensures AvailableIn(AfterWriting(s, step), path)
  {
    hide Fires, Perform, MayPublish, AbandonAttempt, ScheduleDelete;
    match step {
      case PublishStep(t, token, final) =>
        if MayPublish(s, t, token, final) { PublishAddsManifest(s, t, token, final, path); }
      case _ =>
    }
  }

  lemma PublishAddsManifest(s: State, task: nat, token: Token, final: Path, path: Path)
    requires AvailableIn(s, path)
    ensures AvailableIn(Publish(s, task, token, final), path)
  {
    hide Fires, Perform, EventsOf, TransformationEvent;
  }

  lemma DispatchExpiresNothing(s: State, step: Dispatch)
    ensures AfterDispatch(s, step).storage.snapshots == s.storage.snapshots
  {
    hide Fires, Perform, ScheduleDelete, BackoffCeiling;
  }

  lemma RequestExpiresNothing(s: State, step: Request, path: Path)
    requires AvailableIn(s, path)
    ensures AvailableIn(AfterRequest(s, step), path)
  {
    hide Fires, Perform, MayUndo;
  }

  /** Only its own expiry, under all the checks, takes a manifest out of use. */
  lemma UpkeepExpiresIff(s: State, step: Upkeep, path: Path)
    requires AvailableIn(s, path)
    ensures AvailableIn(AfterUpkeep(s, step), path) <==> !(step == ExpireStep(path) && MayExpire(s, path))
  {
    hide MayExpire, Referenced, LiveAttempt, Judge, ScheduleDelete;
  }

  lemma StepExpiresIff(s: State, step: Step, path: Path)
    requires AvailableIn(s, path)
    ensures AvailableIn(Apply(s, step), path) <==> !(step == Maintain(ExpireStep(path)) && MayExpire(s, path))
  {
    hide AfterAdmission, AfterWork, AfterWriting, AfterRequest, AfterDispatch, AfterUpkeep, MayExpire;
    match step {
      case Tick(_) =>
      case Admit(admission) => AdmissionExpiresNothing(s, admission, path);
      case Work(attempt) => WorkExpiresNothing(s, attempt);
      case Profiles(_) => hide Fires, Perform, MayPublishProfile;
      case Write(writing) => WritingExpiresNothing(s, writing, path);
      case Ask(request) => RequestExpiresNothing(s, request, path);
      case Deliver(dispatch) => DispatchExpiresNothing(s, dispatch);
      case Maintain(upkeep) => UpkeepExpiresIff(s, upkeep, path);
    }
  }

  lemma ProtectedMayNotExpire(s: State, path: Path)
    requires Protected(s, path)
    ensures !MayExpire(s, path)
  {
    hide InFlight, NewerAvailable;
  }

  /** Each time a pass considers the manifest for expiry during the run, it is protected at that moment. */
  predicate ProtectedWhenConsidered(s: State, steps: seq<Step>, path: Path)
    decreases steps
  {
    steps != [] ==>
      && (steps[0] == Maintain(ExpireStep(path)) ==> Protected(s, path))
      && ProtectedWhenConsidered(Apply(s, steps[0]), steps[1..], path)
  }

  /**
   Retention safety of passes in the middle of everything else. Any steps may stand
   between a pass's candidates, other passes included. A manifest that is recent, pinned,
   a head, or of a dataset with a job in flight at each moment a pass considers it comes
   out available, with the content it had.
   */
  lemma RetentionIsSafe(s: State, steps: seq<Step>, path: Path)
    requires Reachable(s) && AvailableIn(s, path) && ProtectedWhenConsidered(s, steps, path)
    ensures AvailableIn(Run(s, steps), path)
    ensures var before, after := s.storage.snapshots[path], Run(s, steps).storage.snapshots[path];
            after == before.(pinned := after.pinned)
  {
    hide Reachable, Inv, Run, AvailableIn, ProtectedWhenConsidered;
    ReachableRunsForward(s, steps);
    StaysAvailable(s, steps, path);
    SameManifest(s, Run(s, steps), path);
  }

  lemma SameManifest(s: State, z: State, path: Path)
    requires Forward(s, z) && AvailableIn(s, path) && AvailableIn(z, path)
    ensures var before, after := s.storage.snapshots[path], z.storage.snapshots[path];
            after == before.(pinned := after.pinned)
  {
    hide DatasetsForward, RunsForward, EventsForward, ArtifactsForward, OnlyFresh, IntakeForward, AbortsForward;
  }

  lemma {:induction false} StaysAvailable(s: State, steps: seq<Step>, path: Path)
    requires AvailableIn(s, path) && ProtectedWhenConsidered(s, steps, path)
    ensures AvailableIn(Run(s, steps), path)
    decreases steps
  {
    hide Apply, AvailableIn, Protected, MayExpire;
    if steps != [] {
      if steps[0] == Maintain(ExpireStep(path)) { ProtectedMayNotExpire(s, path); }
      StepExpiresIff(s, steps[0], path);
      StaysAvailable(Apply(s, steps[0]), steps[1..], path);
    }
  }

  /** The manifests of a dataset that can still be used. */
  ghost function Usable(s: State, d: nat): set<Path> {
    set p | p in s.storage.snapshots && s.storage.snapshots[p].dataset == d
        && s.storage.snapshots[p].availability.Available?
  }

  lemma UsableIsAvailable(s: State, d: nat, path: Path)
    ensures path in Usable(s, d) <==> AvailableIn(s, path) && s.storage.snapshots[path].dataset == d
    ensures path in Usable(s, d) ==> path in s.storage.snapshots
  {
  }

  /** An expiry leaves the newest `keepLast`, so at least that many. */
  lemma ExpiryLeavesEnough(s: State, path: Path, d: nat)
    requires MayExpire(s, path) && s.storage.snapshots[path].dataset == d
    ensures |Usable(s, d) - {path}| >= s.env.settings.keepLast
  {
    hide InFlight;
    var newer := NewerAvailable(s.storage.snapshots, d, s.storage.snapshots[path].version);
    assert newer <= Usable(s, d) - {path};
    JobsProof.SubsetSize(newer, Usable(s, d) - {path});
  }

  lemma ManifestStays(s: State, z: State, path: Path)
    requires Forward(s, z) && path in s.storage.snapshots
    ensures path in z.storage.snapshots && z.storage.snapshots[path].dataset == s.storage.snapshots[path].dataset
  {
    hide DatasetsForward, RunsForward, EventsForward, ArtifactsForward, OnlyFresh, IntakeForward, AbortsForward;
  }

  lemma StepLeavesEnough(s: State, step: Step, d: nat)
    requires Inv(s)
    ensures |Usable(Apply(s, step), d)| >= Min(|Usable(s, d)|, s.env.settings.keepLast)
  {
    hide Inv, Forward, Apply, MayExpire, Usable, AvailableIn;
    StepKeepsInv(s, step);
    var z := Apply(s, step);
    var kept := if step.Maintain? && step.upkeep.ExpireStep? && MayExpire(s, step.upkeep.path)
                then Usable(s, d) - {step.upkeep.path} else Usable(s, d);
    forall p | p in kept ensures p in Usable(z, d) {
      UsableIsAvailable(s, d, p);
      StepExpiresIff(s, step, p);
      ManifestStays(s, z, p);
      UsableIsAvailable(z, d, p);
    }
    JobsProof.SubsetSize(kept, Usable(z, d));
    if kept != Usable(s, d) {
      UsableIsAvailable(s, d, step.upkeep.path);
      ExpiryLeavesEnough(s, step.upkeep.path, d);
    }
  }

  lemma {:induction false} RunLeavesEnough(s: State, steps: seq<Step>, d: nat)
    requires Inv(s)
    ensures |Usable(Run(s, steps), d)| >= Min(|Usable(s, d)|, s.env.settings.keepLast)
    decreases steps
  {
    hide Inv, Forward, Apply, Usable;
    if steps != [] {
      StepKeepsInv(s, steps[0]);
      SettingsStay(s, Apply(s, steps[0]));
      StepLeavesEnough(s, steps[0], d);
      RunLeavesEnough(Apply(s, steps[0]), steps[1..], d);
    }
  }

  lemma SettingsStay(s: State, z: State)
    requires Forward(s, z)
    ensures z.env.settings == s.env.settings
  {
  }

  /** However passes interleave, a dataset that has `keepLast` usable versions never has fewer. */
  lemma EnoughVersionsStay(s: State, steps: seq<Step>, d: nat)
    requires Reachable(s)
    ensures |Usable(Run(s, steps), d)| >= Min(|Usable(s, d)|, s.env.settings.keepLast)
  {
    hide Reachable, Inv, Run, Usable;
    ReachableSatisfiesInv(s);
    RunLeavesEnough(s, steps, d);
  }

  // ---------------------------------------------------------------- age

  /**
   Old history that nothing protects: recorded more than the retention period ago, not
   pinned, not a head, of a dataset whose jobs have all finished, and with `keepLast`
   newer usable versions.
   */
  predicate Dispensable(s: State, path: Path) {
    && path in s.storage.snapshots
    && var manifest, settings := s.storage.snapshots[path], s.env.settings;
       && manifest.availability.Available? && !manifest.pinned
       && settings.snapshotRetention > 0 && s.env.now - manifest.createdAt > settings.snapshotRetention
       && manifest.dataset in s.domain.datasets && s.domain.datasets[manifest.dataset].storedPath != path
       && (forall t | t in s.tasks.rows && s.tasks.rows[t].job.dataset == Some(manifest.dataset) ::
             s.tasks.rows[t].job.Terminal())
       && settings.keepLast
          <= |set p | p in s.storage.snapshots && s.storage.snapshots[p].dataset == manifest.dataset
                      && s.storage.snapshots[p].availability.Available?
                          && s.storage.snapshots[p].version > manifest.version|
  }

  lemma ExpiryIsExact(s: State, path: Path)
    ensures MayExpire(s, path) <==> Dispensable(s, path)
  {
    if path in s.storage.snapshots {
      var manifest := s.storage.snapshots[path];
      assert NewerAvailable(s.storage.snapshots, manifest.dataset, manifest.version)
          == set p | p in s.storage.snapshots && s.storage.snapshots[p].dataset == manifest.dataset
                     && s.storage.snapshots[p].availability.Available?
                         && s.storage.snapshots[p].version > manifest.version;
    }
  }

  /** Expiry of dispensable history: the manifest is EXPIRED and the deletion of its bytes is requested now. */
  lemma DispensableExpires(s: State, path: Path)
    ensures var z := Apply(s, Maintain(ExpireStep(path)));
            if Dispensable(s, path) then
              && path in z.storage.snapshots && path in z.storage.artifacts
              && z.storage.snapshots == s.storage.snapshots[path := s.storage.snapshots[path].(availability := Expired)]
              && z.storage.artifacts[path].deletionRequestedAt == Some(s.env.now)
              && (forall p | p in s.storage.artifacts && p != path ::
                    p in z.storage.artifacts && z.storage.artifacts[p] == s.storage.artifacts[p])
              && z.tasks == s.tasks && z.domain == s.domain && z.env == s.env
            else z == s
  {
    ExpiryIsExact(s, path);
    hide MayExpire, Dispensable;
  }

  /** Expiring one manifest does not change whether another is dispensable. */
  lemma OthersStayDispensable(s: State, path: Path, other: Path)
    requires other != path
    ensures var z := Apply(s, Maintain(ExpireStep(path)));
            && (Dispensable(z, other) <==> Dispensable(s, other))
            && (other in z.storage.snapshots <==> other in s.storage.snapshots)
            && (other in s.storage.snapshots ==> z.storage.snapshots[other] == s.storage.snapshots[other])
  {
    var z := Apply(s, Maintain(ExpireStep(path)));
    DispensableExpires(s, path);
    ExpiryIsExact(s, path);
    ExpiryIsExact(s, other);
    ExpiryIsExact(z, other);
    hide Dispensable, Apply, InFlight, NewerAvailable;
    if Dispensable(s, path) && other in s.storage.snapshots {
      ExpiryKeepsNewer(s.storage.snapshots, path, other, s.env.settings.keepLast);
    }
  }

  /** The candidates a pass takes out of use. */
  function DispensableAmong(s: State, candidates: seq<Path>): set<Path> {
    set p | p in candidates && Dispensable(s, p)
  }

  lemma NoneDispensable(s: State, candidates: seq<Path>)
    ensures DispensableAmong(s, candidates[..0]) == {}
  {
  }

  lemma OneMoreDispensable(s: State, candidates: seq<Path>, i: nat)
    requires i < |candidates|
    ensures |DispensableAmong(s, candidates[..i + 1])| == |DispensableAmong(s, candidates[..i])|
        + if candidates[i] !in candidates[..i] && Dispensable(s, candidates[i]) then 1 else 0
  {
    hide Dispensable;
    assert candidates[..i + 1] == candidates[..i] + [candidates[i]];
    var before, after := DispensableAmong(s, candidates[..i]), DispensableAmong(s, candidates[..i + 1]);
    assert after == before + if candidates[i] !in candidates[..i] && Dispensable(s, candidates[i]) then {candidates[i]}
                             else {};
  }

  lemma ExpiredIsNotDispensable(s: State, path: Path)
    requires Dispensable(s, path)
    ensures path in s.storage.snapshots && !Dispensable(Apply(s, Maintain(ExpireStep(path))), path)
  {
    DispensableExpires(s, path);
    hide Apply;
  }

  /** What a pass by itself leaves of one manifest. */
  ghost predicate PassedOver(s: State, candidates: seq<Path>, path: Path, z: State) {
    && (path in z.storage.snapshots <==> path in s.storage.snapshots)
    && (path in s.storage.snapshots ==>
          if path in candidates && Dispensable(s, path)
          then && z.storage.snapshots[path] == s.storage.snapshots[path].(availability := Expired)
               && path in z.storage.artifacts && z.storage.artifacts[path].deletionRequestedAt == Some(s.env.now)
          else z.storage.snapshots[path] == s.storage.snapshots[path])
  }

  /**
   A whole pass by itself, told from the tables: exactly the dispensable candidates are
   EXPIRED with their deletion requested, and every other manifest is as it was.
   */
  lemma {:induction false} PassExpiresExactly(s: State, candidates: seq<Path>, path: Path)
    ensures PassedOver(s, candidates, path, Run(s, ExpirySteps(candidates)))
    ensures Run(s, ExpirySteps(candidates)).env == s.env
    ensures Dispensable(Run(s, ExpirySteps(candidates)), path) <==> Dispensable(s, path) && path !in candidates
    ensures path in s.storage.artifacts && s.storage.artifacts[path].deletionRequestedAt == Some(s.env.now) ==>
              var z := Run(s, ExpirySteps(candidates));
              path in z.storage.artifacts && z.storage.artifacts[path].deletionRequestedAt == Some(s.env.now)
    decreases candidates
  {
    hide Dispensable, Apply;
    if candidates == [] {
      assert ExpirySteps(candidates) == [];
    } else {
      var first, rest := candidates[0], candidates[1..];
      var step := Maintain(ExpireStep(first));
      assert ExpirySteps(candidates)[0] == step && ExpirySteps(candidates)[1..] == ExpirySteps(rest);
      var next := Apply(s, step);
      DispensableExpires(s, first);
      PassExpiresExactly(next, rest, path);
      assert Run(s, ExpirySteps(candidates)) == Run(next, ExpirySteps(rest));
      hide Run, ExpirySteps;
      if path != first {
        OthersStayDispensable(s, first, path);
        assert path in candidates <==> path in rest;
      } else if Dispensable(s, path) {
        ExpiredIsNotDispensable(s, path);
        assert path in next.storage.artifacts && next.storage.artifacts[path].deletionRequestedAt == Some(next.env.now);
      }
    }
  }

  ghost predicate DatedNow(s: State, path: Path, z: State) {
    path !in s.storage.snapshots && path in z.storage.snapshots ==>
      var manifest := z.storage.snapshots[path];
      manifest.createdAt == s.env.now && manifest.availability.Available? && !manifest.pinned
  }

  lemma AdmissionDates(s: State, step: Admission, path: Path)
    ensures DatedNow(s, path, AfterAdmission(s, step))
  {
    hide Fires, Perform, HasCapacity, MayAdmit, MayTransform, OwnImportJob;
  }

  lemma WritingDates(s: State, step: Writing, path: Path)
    ensures DatedNow(s, path, AfterWriting(s, step))
  {
    hide Fires, Perform, MayPublish, AbandonAttempt, ScheduleDelete, EventsOf, TransformationEvent;
  }

  lemma UpkeepDates(s: State, step: Upkeep, path: Path)
    ensures DatedNow(s, path, AfterUpkeep(s, step))
  {
    hide InFlight, NewerAvailable, Referenced, LiveAttempt, Judge, ScheduleDelete;
  }

  lemma RequestDates(s: State, step: Request, path: Path)
    ensures DatedNow(s, path, AfterRequest(s, step))
  {
    hide Fires, Perform, MayUndo;
  }

  /** A manifest is dated when it is recorded, and starts out usable and unpinned. */
  lemma NewManifestsAreDated(s: State, step: Step, path: Path)
    ensures DatedNow(s, path, Apply(s, step))
  {
    hide AfterAdmission, AfterWork, AfterWriting, AfterRequest, AfterDispatch, AfterUpkeep;
    match step {
      case Tick(_) =>
      case Admit(admission) => AdmissionDates(s, admission, path);
      case Work(attempt) => WorkExpiresNothing(s, attempt);
      case Profiles(_) => hide Fires, Perform, MayPublishProfile;
      case Write(writing) => WritingDates(s, writing, path);
      case Ask(request) => RequestDates(s, request, path);
      case Deliver(dispatch) => DispatchExpiresNothing(s, dispatch);
      case Maintain(upkeep) => UpkeepDates(s, upkeep, path);
    }
  }

  /** No step of any run changes the date. */
  lemma DatesStay(s: State, steps: seq<Step>, path: Path)
    requires Reachable(s) && path in s.storage.snapshots
    ensures path in Run(s, steps).storage.snapshots
    ensures Run(s, steps).storage.snapshots[path].createdAt == s.storage.snapshots[path].createdAt
  {
    hide Reachable, Inv, Run, EnvironmentForward, DatasetsForward, RunsForward, EventsForward, ArtifactsForward,
      OnlyFresh, IntakeForward, AbortsForward;
    ReachableRunsForward(s, steps);
  }

  /** The retention period of a manifest has not passed, or nothing is ever expired. */
  predicate Young(s: State, path: Path)
    requires path in s.storage.snapshots
  {
    s.env.settings.snapshotRetention == 0
    || s.env.now <= s.storage.snapshots[path].createdAt + s.env.settings.snapshotRetention
  }

  lemma YoungMayNotExpire(s: State, path: Path)
    requires path in s.storage.snapshots && Young(s, path)
    ensures !MayExpire(s, path)
  {
    ExpiryIsExact(s, path);
    hide MayExpire;
  }

  lemma YoungBefore(s: State, z: State, path: Path)
    requires Forward(s, z) && path in s.storage.snapshots && path in z.storage.snapshots && Young(z, path)
    ensures Young(s, path)
  {
    hide DatasetsForward, RunsForward, EventsForward, ArtifactsForward, OnlyFresh, IntakeForward, AbortsForward;
  }

  lemma {:induction false} YoungRunKeeps(s: State, steps: seq<Step>, path: Path)
    requires Inv(s) && AvailableIn(s, path)
    requires path in Run(s, steps).storage.snapshots && Young(Run(s, steps), path)
    ensures AvailableIn(Run(s, steps), path)
    decreases steps
  {
    hide Inv, Forward, Apply, MayExpire, Young;
    if steps != [] {
      RunKeepsInv(s, steps);
      YoungBefore(s, Run(s, steps), path);
      YoungMayNotExpire(s, path);
      StepKeepsInv(s, steps[0]);
      StepExpiresIff(s, steps[0], path);
      YoungRunKeeps(Apply(s, steps[0]), steps[1..], path);
    }
  }

  /**
   The retention period itself: over any run, whatever passes it holds, a usable manifest
   stays usable until its period is over, and for good if retention is switched off.
   */
  lemma YoungStaysAvailable(s: State, steps: seq<Step>, path: Path)
    requires Reachable(s) && AvailableIn(s, path)
    requires var settings := s.env.settings;
             settings.snapshotRetention == 0
             || Run(s, steps).env.now <= s.storage.snapshots[path].createdAt + settings.snapshotRetention
    ensures AvailableIn(Run(s, steps), path)
  {
    hide Reachable, Inv, Run, Forward;
    ReachableRunsForward(s, steps);
    DatesStay(s, steps, path);
    SettingsStay(s, Run(s, steps));
    YoungRunKeeps(s, steps, path);
  }

  /** EXPIRED is permanent, and an expired manifest is never again a head. */
  lemma ExpiryIsPermanent(s: State, steps: seq<Step>, path: Path)
    requires Reachable(s) && path in s.storage.snapshots && s.storage.snapshots[path].availability.Expired?
    ensures var z := Run(s, steps);
            && path in z.storage.snapshots && z.storage.snapshots[path].availability.Expired?
                && !z.storage.snapshots[path].pinned
            && z.storage.snapshots[path].digest == s.storage.snapshots[path].digest
            && forall d | d in z.domain.datasets :: z.domain.datasets[d].storedPath != path
  {
    hide Reachable, Run, Inv, Forward;
    ReachableRunsForward(s, steps);
    ExpiredForGood(s, Run(s, steps), path);
  }

  lemma ExpiredForGood(s: State, z: State, path: Path)
    requires Inv(z) && Forward(s, z) && path in s.storage.snapshots && s.storage.snapshots[path].availability.Expired?
    ensures path in z.storage.snapshots && z.storage.snapshots[path].availability.Expired?
        && !z.storage.snapshots[path].pinned
    ensures z.storage.snapshots[path].digest == s.storage.snapshots[path].digest
    ensures forall d | d in z.domain.datasets :: z.domain.datasets[d].storedPath != path
  {
    hide JobsOk, RecordsOk, FilesOk, VersionsUnique, ArtifactsOk, WritersOk, DoomedOk,
      DatasetsForward, RunsForward, EventsForward, ArtifactsForward, OnlyFresh, IntakeForward, AbortsForward;
  }
}
