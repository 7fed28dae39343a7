/** Profiling keeps the invariant although it computes with no lock held. */
module ProfileProof {
  import opened Prelude
  import opened JobService
  import opened TaskProtocol
  import opened Tables
  import opened ArtifactService
  import opened Protocol
  import opened Invariants
  import opened StorageProof
  import opened JobsProof
  import opened RecordsProof
  import opened MovesProof
  import opened IntakeProof

  lemma ProfilersKeepInv(s: State, token: Token, p: Profiler)
    requires Inv(s)
    requires PlacedTarget(s, p.dataset) && p.path in s.storage.snapshots
    requires p.result.Some? ==> p.result.value.source == s.storage.snapshots[p.path].digest
    ensures Inv(s.(domain := s.domain.(profilers := s.domain.profilers[token := p])))
  {
    hide HeadsOk, ManifestsOk, FilesOk, VersionsUnique, ArtifactsOk, WritersOk, DoomedOk,
      RowsOk, ImportsOk, RunsAgree, EvaluationsAgree, CapacityOk,
      TransformationsOk, TasksOk, DescriptionsOk, LiveOk, LeasesOk, HistoryOk, ReceiptsOk;
  }

  lemma ComputeProfileKeepsInv(s: State, token: Token)
    requires Inv(s)
    ensures Inv(ComputeProfile(s, token))
  {
    var z := ComputeProfile(s, token);
    if z != s {
      assert TargetsOk(s.tasks.rows, s.domain.transformations, s.domain.profilers, s.domain.datasets);
      assert ProfilersOk(s.domain.profilers, s.storage.snapshots);
      assert FilesOk(s.storage.files, s.storage.snapshots, s.domain.datasets, s.intake.uploads, s.intake.aborted);
      hide Inv;
      ProfilersKeepInv(s, token, z.domain.profilers[token]);
    }
  }

  /** The state of `BeginProfile` before the attempt's captured head is remembered. */
  function ProfileBegun(s: State, task: nat, token: Token, d: nat): State
    requires RowFires(s, task, Renew(token, JOB_LEASE_SECONDS, Some(15))) && d in s.domain.datasets
  {
    OnRow(s, task, Renew(token, JOB_LEASE_SECONDS,
                         Some(15))).(domain := s.domain.(datasets := WithStatus(s.domain.datasets, d, Profiling)))
  }

  lemma ProfileBegunMoves(s: State, task: nat, token: Token, d: nat)
    requires Placed(s, task) && RowFires(s, task, Renew(token, JOB_LEASE_SECONDS, Some(15)))
    requires s.tasks.rows[task].job.kind.ProfileJob? && s.tasks.rows[task].job.dataset == Some(d)
    ensures PlacedTarget(s, d)
    ensures var z := ProfileBegun(s, task, token, d);
            Moved(s, task, Renew(token, JOB_LEASE_SECONDS, Some(15)), z) && Releases(s, z)
  {
    var act := Renew(token, JOB_LEASE_SECONDS, Some(15));
    ActSets(s.tasks.rows[task], act, s.env.now);
    hide Fires, Perform, Sound, Settled, Moved, Releases;
    ProfileSettles(OnRow(s, task, act), task, s.tasks.rows[task].job, Perform(s.tasks.rows[task], act, s.env.now).job,
                   WithStatus(s.domain.datasets, d, Profiling));
    SettledMoves(s, task, act, ProfileBegun(s, task, token, d));
  }

  lemma BeginProfileCases(s: State, task: nat, token: Token)
    requires Placed(s, task) && BeginProfile(s, task, token) != s
    ensures var z, job := BeginProfile(s, task, token), s.tasks.rows[task].job;
            && job.kind.ProfileJob? && job.dataset.Some? && job.dataset.value in s.domain.datasets
            && (|| (RowFires(s, task, Succeed(token)) && z == OnRow(s, task, Succeed(token)))
                || (RowFires(s, task, Renew(token, JOB_LEASE_SECONDS, Some(15)))
                    && var d := job.dataset.value;
                       z == ProfileBegun(s, task, token, d).(domain := ProfileBegun(s, task, token, d).domain.(
                              profilers := s.domain.profilers[token := Profiler(d, s.domain.datasets[d].version,
                                  s.domain.datasets[d].storedPath, None)]))))
  {
    hide Perform, Sound;
  }

  lemma BeginProfileKeepsInv(s: State, task: nat, token: Token)
    requires Inv(s)
    ensures Inv(BeginProfile(s, task, token))
  {
    hide Inv, Placed, Moved, Releases;
    if BeginProfile(s, task, token) != s {
      assert task in s.tasks.rows;
      hide BeginProfile, Fires, Perform;
      InvPlaces(s, task);
      BeginProfileCases(s, task, token);
      var z, job := BeginProfile(s, task, token), s.tasks.rows[task].job;
      var d := job.dataset.value;
      if RowFires(s, task, Succeed(token)) && z == OnRow(s, task, Succeed(token)) {
        PlacedProfileHasNoRun(s, task);
        RowMoves(s, task, Succeed(token));
        MoveKeepsInv(s, task, Succeed(token), z);
      } else {
        ProfileBegunMoves(s, task, token, d);
        var begun := ProfileBegun(s, task, token, d);
        MoveKeepsInv(s, task, Renew(token, JOB_LEASE_SECONDS, Some(15)), begun);
        HeadHasManifest(s, d);
        ProfilersKeepInv(begun, token,
                         Profiler(d, s.domain.datasets[d].version, s.domain.datasets[d].storedPath, None));
      }
    }
  }

  lemma PlacedProfileHasNoRun(s: State, task: nat)
    requires Placed(s, task) && !s.tasks.rows[task].job.kind.Transform?
    ensures s.tasks.rows[task].job.transformation.None?
  {
  }

  lemma HeadHasManifest(s: State, d: nat)
    requires Inv(s) && d in s.domain.datasets
    ensures s.domain.datasets[d].storedPath in s.storage.snapshots
  {
  }

  // ---------------------------------------------------------------- publication of a profile

  /** Nothing but profile documents changed. */
  ghost predicate Redescribed(a: map<nat, Dataset>, b: map<nat, Dataset>) {
    a.Keys == b.Keys && forall d | d in a :: b[d] == a[d].(profile := b[d].profile)
  }

  lemma RedescribedKeepsHeads(a: map<nat, Dataset>, b: map<nat, Dataset>, snapshots: map<Path, Snapshot>,
                              uploads: map<nat, Upload>, nextId: nat)
    requires Redescribed(a, b) && HeadsOk(a, snapshots, uploads, nextId)
    ensures SameHeads(a, b)
  {
  }

  lemma RedescribedKeepsJobs(a: map<nat, Dataset>, b: map<nat, Dataset>, rows: map<nat, Row>, uploads: map<nat, Upload>,
                             transformations: map<nat, Transformation>, profilers: map<Token, Profiler>)
    requires Redescribed(a, b) && ImportsOk(rows, a, uploads) && TargetsOk(rows, transformations, profilers, a)
    ensures ImportsOk(rows, b, uploads) && TargetsOk(rows, transformations, profilers, b)
  {
  }

  lemma RedescribedKeepsDescriptions(a: map<nat, Dataset>, snapshots: map<Path, Snapshot>, d: nat,
                                     profile: Option<Profile>)
    requires DescriptionsOk(a, snapshots) && d in a && a[d].storedPath in snapshots
    requires profile.Some? ==> profile.value.source == snapshots[a[d].storedPath].digest
    ensures DescriptionsOk(a[d := a[d].(profile := profile)], snapshots)
  {
  }

  lemma RedescribedKeepsRest(s: State, z: State)
    requires JobsOk(s) && RecordsOk(s) && Redescribed(s.domain.datasets, z.domain.datasets)
    requires z == s.(domain := s.domain.(datasets := z.domain.datasets))
    requires DescriptionsOk(z.domain.datasets, s.storage.snapshots)
    requires HistoryOk(z.domain.datasets, s.domain.events, s.domain.transformations, s.intake.uploads)
    ensures JobsOk(z) && RecordsOk(z)
  {
    assert z.domain.datasets.Keys == s.domain.datasets.Keys;
    hide RowsOk, ImportsOk, TargetsOk, RunsAgree, EvaluationsAgree, CapacityOk, Redescribed,
      TransformationsOk, TasksOk, DescriptionsOk, ProfilersOk, LiveOk, LeasesOk, HistoryOk, ReceiptsOk;
    RedescribedKeepsJobs(s.domain.datasets, z.domain.datasets, s.tasks.rows, s.intake.uploads, s.domain.transformations,
                         s.domain.profilers);
  }

  lemma DescribedKeepsInv(s: State, d: nat, profile: Option<Profile>)
    requires Inv(s) && d in s.domain.datasets && s.domain.datasets[d].storedPath in s.storage.snapshots
    requires profile.Some? ==> profile.value.source == s.storage.snapshots[s.domain.datasets[d].storedPath].digest
    ensures Inv(s.(domain := s.domain.(datasets := s.domain.datasets[d := s.domain.datasets[d].(profile := profile)])))
  {
    hide HeadsOk, ManifestsOk, FilesOk, VersionsUnique, ArtifactsOk, WritersOk, DoomedOk, JobsOk,
      TransformationsOk, TasksOk, DescriptionsOk, ProfilersOk, LiveOk, LeasesOk, HistoryOk, ReceiptsOk, SameHeads;
    var datasets := s.domain.datasets[d := s.domain.datasets[d].(profile := profile)];
    assert Redescribed(s.domain.datasets, datasets);
    hide Redescribed;
    RedescribedKeepsHeads(s.domain.datasets, datasets, s.storage.snapshots, s.intake.uploads, s.env.nextId);
    SameHeadsKeepsStorage(s, datasets);
    RedescribedKeepsDescriptions(s.domain.datasets, s.storage.snapshots, d, profile);
    RedatingKeepsHistory(s.domain.datasets, s.domain.events, s.domain.transformations, s.intake.uploads,
                         d, datasets[d]);
    RedescribedKeepsRest(s, s.(domain := s.domain.(datasets := datasets)));
  }

  /** The state of `PublishProfile` before the document itself is stored. */
  function ProfileStored(s: State, task: nat, token: Token, d: nat): State
    requires RowFires(s, task, Succeed(token)) && d in s.domain.datasets
  {
    OnRow(s, task, Succeed(token)).(domain := s.domain.(datasets := WithStatus(s.domain.datasets, d, Profiled)))
  }

  lemma ProfiledMoves(s: State, task: nat, token: Token, d: nat)
    requires Placed(s, task) && RowFires(s, task, Succeed(token))
    requires s.tasks.rows[task].job.kind.ProfileJob? && s.tasks.rows[task].job.dataset == Some(d)
    ensures d in s.domain.datasets
    ensures var z := ProfileStored(s, task, token, d);
            Moved(s, task, Succeed(token), z) && Releases(s, z)
  {
    ActSets(s.tasks.rows[task], Succeed(token), s.env.now);
    hide Fires, Perform, Sound, Settled, Moved, Releases;
    ProfileSettles(OnRow(s, task, Succeed(token)), task, s.tasks.rows[task].job,
                   Perform(s.tasks.rows[task], Succeed(token), s.env.now).job,
                   WithStatus(s.domain.datasets, d, Profiled));
    SettledMoves(s, task, Succeed(token), ProfileStored(s, task, token, d));
  }

  /** What the publishing transaction finds: a result computed from the bytes of the unmoved head. */
  lemma PublishProfileCases(s: State, task: nat, token: Token)
    requires MayPublishProfile(s, task, token)
    ensures token in s.domain.profilers && RowFires(s, task, Succeed(token)) && s.tasks.rows[task].job.kind.ProfileJob?
    ensures var p := s.domain.profilers[token];
            && p.dataset in s.domain.datasets && p.result.Some? && s.tasks.rows[task].job.dataset == Some(p.dataset)
            && s.domain.datasets[p.dataset].storedPath == p.path
            && var z := ProfileStored(s, task, token, p.dataset);
               p.dataset in z.domain.datasets
               && PublishProfile(s, task, token)
                  == z.(domain := z.domain.(datasets :=
                         z.domain.datasets[p.dataset := z.domain.datasets[p.dataset].(profile := p.result)]))
  {
    hide Fires, Perform;
  }

  lemma CapturedHead(s: State, token: Token)
    requires Inv(s) && token in s.domain.profilers
    ensures var p := s.domain.profilers[token];
            p.path in s.storage.snapshots
                && (p.result.Some? ==> p.result.value.source == s.storage.snapshots[p.path].digest)
  {
  }

  lemma PublishProfileKeepsInv(s: State, task: nat, token: Token)
    requires Inv(s)
    ensures Inv(PublishProfile(s, task, token))
  {
    hide Inv, Placed, Moved, Releases, Fires, Perform;
    if MayPublishProfile(s, task, token) {
      PublishProfileCases(s, task, token);
      hide MayPublishProfile, PublishProfile;
      CapturedHead(s, token);
      var p := s.domain.profilers[token];
      InvPlaces(s, task);
      PlacedProfileHasNoRun(s, task);
      ProfiledMoves(s, task, token, p.dataset);
      var z := ProfileStored(s, task, token, p.dataset);
      MoveKeepsInv(s, task, Succeed(token), z);
      DescribedKeepsInv(z, p.dataset, p.result);
    }
  }
}
