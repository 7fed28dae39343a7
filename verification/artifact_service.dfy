/** Reservations, deletion requests and the collector's decisions (`ArtifactService`). */
module ArtifactService {
  import opened Prelude
  import opened JobService
  import opened TaskProtocol
  import opened Tables

  const MINIMUM_RESERVATION_SECONDS := 900

  function Reservation(owner: nat, task: nat, token: Token, temporary: Path, leaseSeconds: int, now: Time): Artifact {
    Artifact(Some(owner), Some(task), Some(token), Some(temporary), Reserved,
             Some(now + Max(MINIMUM_RESERVATION_SECONDS, leaseSeconds)), None)
  }

  /** `schedule_delete`: mark the path's row, inserting an expired reservation when it has none. */
  function ScheduleDelete(artifacts: map<Path, Artifact>, path: Path, owner: Option<nat>, now: Time)
    : map<Path, Artifact>
  {
    artifacts[path := if path in artifacts
                      then artifacts[path].(deletionRequestedAt := Some(now))
                      else Artifact(owner, None, None, None, Reserved, Some(now), Some(now))]
  }

  predicate BelongsToAttempt(artifact: Artifact, task: nat, token: Token) {
    artifact.task == Some(task) && artifact.attemptToken == Some(token) && artifact.state.Reserved?
  }

  /** `abandon_attempt`: only the unpublished paths of exactly this attempt. */
  function AbandonAttempt(artifacts: map<Path, Artifact>, task: nat, token: Token, now: Time): map<Path, Artifact> {
    map path | path in artifacts ::
      if BelongsToAttempt(artifacts[path], task, token)
      then artifacts[path].(deletionRequestedAt := Some(now))
      else artifacts[path]
  }

  /** The reachability test over datasets, manifests, transformations and reports. */
  predicate Referenced(datasets: map<nat, Dataset>, snapshots: map<Path, Snapshot>,
                       transformations: map<nat, Transformation>, reports: set<Path>, path: Path)
  {
    || (exists d | d in datasets :: datasets[d].storedPath == path && datasets[d].Retained())
    || (path in snapshots && snapshots[path].availability.Available?
        && snapshots[path].dataset in datasets && datasets[snapshots[path].dataset].Retained())
    || (var historical := path !in snapshots || !snapshots[path].availability.Expired?;
        exists x | x in transformations ::
          || (transformations[x].inputPath == path && (historical || transformations[x].status.Admitted?))
          || (transformations[x].outputPath == path && transformations[x].Published() && historical))
    || path in reports
  }

  /** The reservation's own attempt still holds an unexpired lease. */
  predicate LiveAttempt(rows: map<nat, Row>, artifact: Artifact, now: Time) {
    && artifact.task.Some? && artifact.task.value in rows
    && var job := rows[artifact.task.value].job;
       && (job.status.Started? || job.status.CancellationRequested?)
       && job.attemptToken == artifact.attemptToken
       && !job.LeaseExpired(now)
  }

  datatype Verdict = Keep | CollectAuxiliaries | Condemn

  /** The collector's decision for one row, taken and committed before anything is unlinked. */
  function Judge(artifact: Artifact, liveAttempt: bool, referenced: bool, now: Time): Verdict {
    var auxiliariesOnly := artifact.state.Live? && (referenced || artifact.deletionRequestedAt.None?);
    if liveAttempt then Keep
    else if referenced && !auxiliariesOnly then Keep
    else if artifact.state.Reserved? && artifact.deletionRequestedAt.None?
            && artifact.expiresAt.Some? && artifact.expiresAt.value > now then Keep
    else if auxiliariesOnly then CollectAuxiliaries
    else Condemn
  }

  /** The temporary file and spill directory derived from a reservation. */
  function Auxiliaries(artifact: Artifact): set<Path> {
    if artifact.temporaryPath.None? then {} else Scratch(artifact.temporaryPath.value)
  }

  function Scratch(temporary: Path): set<Path> {
    if temporary.Temporary? then {temporary, Spill(temporary.id)} else {temporary}
  }
}
