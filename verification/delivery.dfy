/**
 What a dispatch pass must do, told from the tables alone: which publications are
 delivered, which are put off and for how long, and where the pass stops.
 */
module Delivery {
  import opened Prelude
  import opened JobService
  import opened TaskProtocol
  import opened Tables
  import opened Protocol

  /** A job's publication waits and its time has come, or its dispatcher's claim is stale. */
  predicate AwaitsDispatch(jobs: map<nat, Job>, outbox: map<nat, Outbox>, env: Environment, task: nat) {
    && task in jobs && task in outbox
    && var box := outbox[task];
       || (box.status.Waiting? && box.availableAt <= env.now)
       || (box.status.Dispatching?
           && (box.claimedAt.None? || env.now - box.claimedAt.value >= env.settings.outboxClaimTtl))
  }

  /** The publication still stands as the claim left it. */
  predicate CarriesClaim(jobs: map<nat, Job>, outbox: map<nat, Outbox>, claims: map<nat, ClaimRecord>, claim: nat)
    requires claim in claims
  {
    var c := claims[claim];
    && c.task in jobs && c.task in outbox && outbox[c.task].id == c.outboxId && outbox[c.task].status.Dispatching?
    && outbox[c.task].generation == c.generation && outbox[c.task].claimToken == Some(claim)
  }

  function Answered(box: Outbox, backoff: Option<nat>, now: Time): Outbox {
    var free := box.(claimToken := None, claimedAt := None);
    if backoff.None? then free.(status := Published, publishedAt := Some(now), failed := false)
    else free.(status := Waiting, availableAt := now + backoff.value, failed := true)
  }

  /** Published at this moment, in the same generation, free of any claim. */
  predicate Delivered(before: Outbox, after: Outbox, now: Time) {
    && after.status.Published? && after.publishedAt == Some(now) && !after.failed
    && after.claimToken.None? && after.claimedAt.None? && after.attempts == before.attempts + 1
    && after.id == before.id && after.generation == before.generation && after.availableAt == before.availableAt
  }

  /** Waiting again, in the same generation, due between a second and `ceiling` seconds from now. */
  predicate PutOff(before: Outbox, after: Outbox, now: Time, ceiling: int) {
    && after.status.Waiting? && now + 1 <= after.availableAt <= now + ceiling && after.failed
    && after.claimToken.None? && after.claimedAt.None? && after.attempts == before.attempts + 1
    && after.id == before.id && after.generation == before.generation && after.publishedAt == before.publishedAt
  }

  /** The ceiling doubles with each attempt from one second on, up to the eighth and up to the configured limit. */
  lemma BackoffDoubles(attempts: nat, maxRetry: nat)
    ensures BackoffCeiling(0, maxRetry) == 1
    ensures attempts < 8 && maxRetry >= 1 ==>
              BackoffCeiling(attempts + 1, maxRetry) == Min(2 * BackoffCeiling(attempts, maxRetry), maxRetry)
    ensures attempts >= 8 ==> BackoffCeiling(attempts, maxRetry) == BackoffCeiling(8, maxRetry)
    ensures maxRetry == 0 ==> BackoffCeiling(attempts, maxRetry) == 1
  {
  }

  lemma BackoffIsPositive(attempts: nat, maxRetry: nat)
    ensures BackoffCeiling(attempts, maxRetry) >= 1
  {
  }

  /** What became of one candidate's publication. */
  ghost predicate DispatchedOnce(jobs: map<nat, Job>, was: map<nat, Outbox>, env: Environment, task: nat,
                                 answer: Option<nat>, outbox: map<nat, Outbox>)
  {
    if AwaitsDispatch(jobs, was, env, task) then
      && task in was && task in outbox
      && if answer.None? then Delivered(was[task], outbox[task], env.now)
         else PutOff(was[task], outbox[task], env.now,
                     BackoffCeiling(outbox[task].attempts, env.settings.outboxMaxRetry))
    else (task in outbox <==> task in was) && (task in outbox ==> outbox[task] == was[task])
  }

  /** The pass stops here: the candidate was not published and an error stands in its row. */
  predicate EndsPass(jobs: map<nat, Job>, was: map<nat, Outbox>, env: Environment, task: nat, answer: Option<nat>) {
    if AwaitsDispatch(jobs, was, env, task) then answer.Some? else task in was && was[task].failed
  }

  /** Which of the candidates examined so far were due and accepted by the broker. */
  function Accepted(jobs: map<nat, Job>, was: map<nat, Outbox>, env: Environment, examined: seq<nat>,
                    answers: seq<Option<nat>>): set<nat>
    requires |examined| <= |answers|
  {
    set i | 0 <= i < |examined| && AwaitsDispatch(jobs, was, env, examined[i]) && answers[i].None?
  }

  lemma NoneAccepted(jobs: map<nat, Job>, was: map<nat, Outbox>, env: Environment, candidates: seq<nat>,
                     answers: seq<Option<nat>>)
    requires |answers| == |candidates|
    ensures Accepted(jobs, was, env, candidates[..0], answers) == {}
  {
  }

  lemma OneMoreAccepted(jobs: map<nat, Job>, was: map<nat, Outbox>, env: Environment, candidates: seq<nat>,
                        answers: seq<Option<nat>>, i: nat)
    requires i < |candidates| == |answers|
    ensures |Accepted(jobs, was, env, candidates[..i + 1], answers)|
            == |Accepted(jobs, was, env, candidates[..i], answers)|
               + if AwaitsDispatch(jobs, was, env, candidates[i]) && answers[i].None? then 1 else 0
  {
    hide AwaitsDispatch;
    var before, after := Accepted(jobs, was, env, candidates[..i], answers),
                         Accepted(jobs, was, env, candidates[..i + 1], answers);
    assert after == before + if AwaitsDispatch(jobs, was, env, candidates[i]) && answers[i].None? then {i} else {};
  }

  lemma SameRowAwaits(jobs: map<nat, Job>, was: map<nat, Outbox>, outbox: map<nat, Outbox>, start: Environment,
                      env: Environment, task: nat)
    requires env == start.(nextId := env.nextId)
    requires (task in outbox <==> task in was) && (task in was ==> outbox[task] == was[task])
    ensures AwaitsDispatch(jobs, outbox, env, task) <==> AwaitsDispatch(jobs, was, start, task)
  {
  }

  /** After one dispatch the pass stops exactly at an unpublished candidate whose row carries an error. */
  lemma DispatchEndsPass(jobs: map<nat, Job>, was: map<nat, Outbox>, start: Environment, env: Environment, task: nat,
                         answer: Option<nat>, mid: map<nat, Outbox>, outbox: map<nat, Outbox>, published: bool,
                         refused: bool)
    requires env == start.(nextId := env.nextId)
    requires (task in mid <==> task in was) && (task in was ==> mid[task] == was[task])
    requires published == (AwaitsDispatch(jobs, was, start, task) && answer.None?)
    requires refused == (AwaitsDispatch(jobs, was, start, task) && answer.Some?)
    requires !published && !refused ==> outbox == mid
    requires published || refused ==> task in mid && task in outbox
    requires published ==> Delivered(mid[task], outbox[task], env.now)
    requires refused ==> PutOff(mid[task], outbox[task], env.now,
                                BackoffCeiling(outbox[task].attempts, env.settings.outboxMaxRetry))
    ensures DispatchedOnce(jobs, was, start, task, answer, outbox)
    ensures EndsPass(jobs, was, start, task, answer) <==> !published && task in outbox && outbox[task].failed
  {
    hide AwaitsDispatch, BackoffCeiling;
  }

  lemma OthersStayDispatched(jobs: map<nat, Job>, was: map<nat, Outbox>, env: Environment, task: nat,
                             answer: Option<nat>, mid: map<nat, Outbox>, outbox: map<nat, Outbox>)
    requires DispatchedOnce(jobs, was, env, task, answer, mid)
    requires (task in outbox <==> task in mid) && (task in mid ==> outbox[task] == mid[task])
    ensures DispatchedOnce(jobs, was, env, task, answer, outbox)
  {
    hide AwaitsDispatch, BackoffCeiling, Delivered, PutOff;
  }
}
