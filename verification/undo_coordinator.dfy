/**
 The browser's undo coordinator: it keeps one intention for each dataset, with the key
 and the revision of the first click, until the undo is known to have been applied and
 shown, or to have been refused.
 */
module UndoCoordination {
  import opened Prelude
  import opened Tables

  /** What the pending promise of an intention is waiting for. */
  datatype Phase = Idle | Executing(generation: nat) | Refreshing

  datatype Intent = Intent(dataset: nat, expectedVersion: nat, key: nat, receipt: Option<Receipt>, synchronized: bool,
                           phase: Phase)

  /** `intents` holds every intention object ever made; `current` is the coordinator's map to them. */
  datatype Client = Client(intents: seq<Intent>, current: map<nat, nat>, generation: nat, nextKey: nat)

  datatype Click = Joined(i: nat) | Resolved(receipt: Receipt) | Sends(i: nat) | OnlyRefreshes(i: nat)

  datatype Reply = Accepted(receipt: Receipt) | Ambiguous | Refused

  ghost predicate Coherent(c: Client) {
    && (forall d | d in c.current :: c.current[d] < |c.intents| && c.intents[c.current[d]].dataset == d)
    && (forall i | 0 <= i < |c.intents| ::
          && c.intents[i].key < c.nextKey
          && (c.intents[i].phase.Executing? ==> c.intents[i].receipt.None?)
          && (c.intents[i].phase.Refreshing? ==> c.intents[i].receipt.Some?)
          && (c.intents[i].synchronized ==> c.intents[i].receipt.Some?))
    && (forall i, j | 0 <= i < j < |c.intents| :: c.intents[i].key < c.intents[j].key)
  }

  /** A click needs a new intention when there is none, or the last one is done and the shown revision moved on. */
  predicate Starts(c: Client, d: nat, version: nat) {
    d !in c.current || c.current[d] >= |c.intents|
    || (c.intents[c.current[d]].synchronized && version != c.intents[c.current[d]].expectedVersion)
  }

  function WithIntent(c: Client, d: nat, version: nat): (r: Client)
    ensures d in r.current && r.current[d] < |r.intents|
  {
    if Starts(c, d, version)
    then c.(intents := c.intents + [Intent(d, version, c.nextKey, None, false, Idle)],
            current := c.current[d := |c.intents|], nextKey := c.nextKey + 1)
    else c
  }

  function Clicked(c: Client, d: nat, version: nat): (Client, Click) {
    var r := WithIntent(c, d, version);
    var i := r.current[d];
    var intent := r.intents[i];
    if !intent.phase.Idle? then (r, Joined(i))
    else if intent.synchronized && intent.receipt.Some? then (r, Resolved(intent.receipt.value))
    else if intent.receipt.None? then
         (r.(intents := r.intents[i := intent.(phase := Executing(r.generation))]), Sends(i))
    else (r.(intents := r.intents[i := intent.(phase := Refreshing)]), OnlyRefreshes(i))
  }

  /** The outcome of `execute` for one intention. */
  function Answered(c: Client, i: nat, reply: Reply): Client {
    if i >= |c.intents| || !c.intents[i].phase.Executing? then c
    else
      var intent := c.intents[i];
      match reply
      case Accepted(receipt) =>
        c.(intents := c.intents[i := intent.(receipt := Some(receipt),
                                             phase := if intent.phase.generation == c.generation then Refreshing
                                                 else Idle)])
      case Ambiguous => c.(intents := c.intents[i := intent.(phase := Idle)])
      case Refused =>
        c.(intents := c.intents[i := intent.(phase := Idle)],
           current := if intent.dataset in c.current && c.current[intent.dataset] == i then c.current - {intent.dataset}
               else c.current)
  }

  /** The outcome of `synchronize` for one intention. */
  function Refreshed(c: Client, i: nat, ok: bool): Client {
    if i >= |c.intents| || !c.intents[i].phase.Refreshing? then c
    else c.(intents := c.intents[i := c.intents[i].(phase := Idle, synchronized := c.intents[i].synchronized || ok)])
  }

  function WasReset(c: Client): Client {
    c.(current := map[], generation := c.generation + 1)
  }

  class UndoCoordinator {
    var intents: seq<Intent>
    var current: map<nat, nat>
    var generation: nat
    var nextKey: nat

    ghost function View(): Client
      reads this
    {
      Client(intents, current, generation, nextKey)
    }

    constructor (firstKey: nat)
      ensures View() == Client([], map[], 0, firstKey) && Coherent(View())
    {
      intents, current, generation, nextKey := [], map[], 0, firstKey;
    }

    /** `run`, up to the point where its promise is returned. */
    method Run(d: nat, version: nat) returns (click: Click)
      requires Coherent(View())
      modifies this
      ensures Coherent(View()) && (View(), click) == Clicked(old(View()), d, version)
    {
      ClickKeepsCoherent(View(), d, version);
      if d !in current || (intents[current[d]].synchronized && version != intents[current[d]].expectedVersion) {
        current := current[d := |intents|];
        intents := intents + [Intent(d, version, nextKey, None, false, Idle)];
        nextKey := nextKey + 1;
      }
      var i := current[d];
      var intent := intents[i];
      if !intent.phase.Idle? { return Joined(i); }
      if intent.synchronized && intent.receipt.Some? { return Resolved(intent.receipt.value); }
      if intent.receipt.None? {
        intents := intents[i := intent.(phase := Executing(generation))];
        return Sends(i);
      }
      intents := intents[i := intent.(phase := Refreshing)];
      click := OnlyRefreshes(i);
    }

    /** The continuation after `execute` returned or threw. */
    method Settle(i: nat, reply: Reply)
      requires Coherent(View()) && i < |intents| && intents[i].phase.Executing?
      modifies this
      ensures Coherent(View()) && View() == Answered(old(View()), i, reply)
    {
      AnsweredKeepsCoherent(View(), i, reply);
      var intent := intents[i];
      match reply {
        case Accepted(receipt) =>
          var started := intent.phase.generation;
          intents := intents[i := intent.(receipt := Some(receipt), phase := if started == generation then Refreshing
                                          else Idle)];
        case Ambiguous =>
          intents := intents[i := intent.(phase := Idle)];
        case Refused =>
          if intent.dataset in current && current[intent.dataset] == i { current := current - {intent.dataset}; }
          intents := intents[i := intent.(phase := Idle)];
      }
    }

    /** The continuation after `synchronize`. */
    method Refresh(i: nat, ok: bool)
      requires Coherent(View()) && i < |intents| && intents[i].phase.Refreshing?
      modifies this
      ensures Coherent(View()) && View() == Refreshed(old(View()), i, ok)
    {
      if ok { intents := intents[i := intents[i].(synchronized := true)]; }
      intents := intents[i := intents[i].(phase := Idle)];
      assert View() == Refreshed(old(View()), i, ok);
    }

    method Reset()
      requires Coherent(View())
      modifies this
      ensures Coherent(View()) && View() == WasReset(old(View()))
    {
      generation := generation + 1;
      current := map[];
    }

    /** Is there an undo to finish, so that no click of the dataset's button can begin another? */
    method NeedsRecovery(d: nat) returns (needed: bool)
      requires Coherent(View())
      ensures needed <==> forall version: nat :: ReusesIntention(View(), d, version)
      ensures !needed ==> exists version: nat ::
                  |Clicked(View(), d, version).0.intents| == |intents| + 1
    {
      needed := d in current && !intents[current[d]].synchronized;
      RecoveryOrNewClick(View(), d);
    }
  }

  /** A click at this displayed revision joins, resends or refreshes the existing intention as it stands. */
  predicate ReusesIntention(c: Client, d: nat, version: nat) {
    && d in c.current && c.current[d] < |c.intents|
    && var (after, click) := Clicked(c, d, version);
       var i := c.current[d];
       && click in {Joined(i), Sends(i), OnlyRefreshes(i)}
       && |after.intents| == |c.intents| && after.current == c.current && after.nextKey == c.nextKey
       && after.intents[i].key == c.intents[i].key && after.intents[i].expectedVersion == c.intents[i].expectedVersion
  }

  lemma RecoveryOrNewClick(c: Client, d: nat)
    requires Coherent(c)
    ensures if d in c.current && !c.intents[c.current[d]].synchronized
            then forall version: nat :: ReusesIntention(c, d, version)
            else exists version: nat ::
                !ReusesIntention(c, d, version) && |Clicked(c, d, version).0.intents| == |c.intents| + 1
  {
    if d !in c.current || c.intents[c.current[d]].synchronized {
      var version := if d in c.current then c.intents[c.current[d]].expectedVersion + 1 else 0;
      assert !ReusesIntention(c, d, version) && |Clicked(c, d, version).0.intents| == |c.intents| + 1;
    }
  }

  // ---------------------------------------------------------------- what each event means for the next click

  /** A click that begins a new intention: for the revision shown, under a key never used. */
  predicate BeginsAnew(c: Client, d: nat, version: nat) {
    && Clicked(c, d, version).1 == Sends(|c.intents|)
    && var after := Clicked(c, d, version).0;
       && after == c.(intents := after.intents, current := c.current[d := |c.intents|], nextKey := c.nextKey + 1)
       && after.intents == c.intents + [Intent(d, version, c.nextKey, None, false, Executing(c.generation))]
  }

  /** The click with no intention behind it, and the click after a completed undo, begin anew. */
  lemma ClickBeginsAnew(c: Client, d: nat, version: nat)
    requires Coherent(c)
    requires d !in c.current
             || (c.intents[c.current[d]].synchronized && version != c.intents[c.current[d]].expectedVersion)
    ensures BeginsAnew(c, d, version)
  {
  }

  /** The click while a request or a refresh is pending joins it; while neither is, it picks up where that one ended. */
  lemma ClickPicksUp(c: Client, d: nat, version: nat)
    requires Coherent(c) && d in c.current
    requires !c.intents[c.current[d]].synchronized || version == c.intents[c.current[d]].expectedVersion
    ensures var i, intent := c.current[d], c.intents[c.current[d]];
            var (after, click) := Clicked(c, d, version);
            if !intent.phase.Idle? then click == Joined(i) && after == c
            else if intent.receipt.None?
            then click == Sends(i) && after == c.(intents := c.intents[i := intent.(phase := Executing(c.generation))])
            else if intent.synchronized then click == Resolved(intent.receipt.value) && after == c
            else click == OnlyRefreshes(i) && after == c.(intents := c.intents[i := intent.(phase := Refreshing)])
  {
  }

  /**
   A successful refresh finishes the undo: a click at the old revision is answered with
   the receipt, and a click at any other begins a new undo. After a failed one the next
   click refreshes again.
   */
  lemma RefreshFinishes(c: Client, i: nat, version: nat)
    requires Coherent(c) && i < |c.intents| && c.intents[i].phase.Refreshing?
    requires c.intents[i].dataset in c.current && c.current[c.intents[i].dataset] == i
    requires !c.intents[i].synchronized
    ensures var done, failed, intent := Refreshed(c, i, true), Refreshed(c, i, false), c.intents[i];
            && Coherent(done) && Coherent(failed)
            && (if version == intent.expectedVersion
                then Clicked(done, intent.dataset, version) == (done, Resolved(intent.receipt.value))
                else BeginsAnew(done, intent.dataset, version))
            && Clicked(failed, intent.dataset, version).1 == OnlyRefreshes(i)
            && done.intents[i].receipt == failed.intents[i].receipt == intent.receipt
  {
    RefreshedKeepsCoherent(c, i, true);
    RefreshedKeepsCoherent(c, i, false);
    var done, failed, d := Refreshed(c, i, true), Refreshed(c, i, false), c.intents[i].dataset;
    if version == c.intents[i].expectedVersion { ClickPicksUp(done, d, version); }
    else { ClickBeginsAnew(done, d, version); }
    ClickPicksUp(failed, d, version);
  }

  /**
   What an answer means for the next click: acceptance goes on to the refresh, or leaves
   it to the next click if the workspace was reset meanwhile; uncertainty sends the same
   request again; a refusal forgets the intention.
   */
  lemma AnswerDecides(c: Client, i: nat, receipt: Receipt, version: nat)
    requires Coherent(c) && i < |c.intents| && c.intents[i].phase.Executing?
    requires c.intents[i].dataset in c.current && c.current[c.intents[i].dataset] == i
    ensures var intent, accepted := c.intents[i], Answered(c, i, Accepted(receipt));
            && accepted.intents[i].receipt == Some(receipt) && !accepted.intents[i].synchronized
            && accepted.current == c.current
            && Clicked(accepted, intent.dataset, version).1
               == if intent.phase.generation == c.generation then Joined(i) else OnlyRefreshes(i)
    ensures var intent, ambiguous := c.intents[i], Answered(c, i, Ambiguous);
            && Clicked(ambiguous, intent.dataset, version).1 == Sends(i)
            && ambiguous.intents[i].key == intent.key && ambiguous.intents[i].expectedVersion == intent.expectedVersion
    ensures var intent, refused := c.intents[i], Answered(c, i, Refused);
            BeginsAnew(refused, intent.dataset, version)
  {
    AnsweredKeepsCoherent(c, i, Accepted(receipt));
    AnsweredKeepsCoherent(c, i, Ambiguous);
    AnsweredKeepsCoherent(c, i, Refused);
    var d := c.intents[i].dataset;
    ClickPicksUp(Answered(c, i, Accepted(receipt)), d, version);
    ClickPicksUp(Answered(c, i, Ambiguous), d, version);
    ClickBeginsAnew(Answered(c, i, Refused), d, version);
  }

  /** After a reset every dataset's next click begins anew, and answers to earlier requests are not shown. */
  lemma ResetForgets(c: Client, d: nat, version: nat, i: nat, receipt: Receipt)
    requires Coherent(c)
    requires i < |c.intents| && c.intents[i].phase.Executing? && c.intents[i].phase.generation <= c.generation
    ensures BeginsAnew(WasReset(c), d, version)
    ensures Answered(WasReset(c), i, Accepted(receipt)).intents[i].phase.Idle?
  {
    ClickBeginsAnew(WasReset(c), d, version);
  }

  // ---------------------------------------------------------------- what the coordinator keeps

  lemma ClickKeepsCoherent(c: Client, d: nat, version: nat)
    requires Coherent(c)
    ensures Coherent(Clicked(c, d, version).0)
  {
    NewIntentKeepsCoherent(c, d, version);
    var r := WithIntent(c, d, version);
    hide Coherent, WithIntent;
    ActivationKeepsCoherent(r, r.current[d]);
  }

  lemma NewIntentKeepsCoherent(c: Client, d: nat, version: nat)
    requires Coherent(c)
    ensures Coherent(WithIntent(c, d, version))
  {
  }

  lemma ActivationKeepsCoherent(c: Client, i: nat)
    requires Coherent(c) && i < |c.intents|
    ensures c.intents[i].receipt.None? ==>
        Coherent(c.(intents := c.intents[i := c.intents[i].(phase := Executing(c.generation))]))
    ensures c.intents[i].receipt.Some? ==> Coherent(c.(intents := c.intents[i := c.intents[i].(phase := Refreshing)]))
  {
  }

  lemma AnsweredKeepsCoherent(c: Client, i: nat, reply: Reply)
    requires Coherent(c)
    ensures Coherent(Answered(c, i, reply))
  {
  }

  lemma RefreshedKeepsCoherent(c: Client, i: nat, ok: bool)
    requires Coherent(c)
    ensures Coherent(Refreshed(c, i, ok))
  {
  }

  /** Later clients hold the same intentions, each still asking for the same thing; a receipt is never replaced. */
  ghost predicate KeepsRequests(a: Client, b: Client) {
    && |a.intents| <= |b.intents| && a.nextKey <= b.nextKey
    && forall i | 0 <= i < |a.intents| ::
      && b.intents[i].dataset == a.intents[i].dataset && b.intents[i].expectedVersion == a.intents[i].expectedVersion
      && b.intents[i].key == a.intents[i].key
      && (a.intents[i].receipt.Some? ==> b.intents[i].receipt == a.intents[i].receipt)
  }

  lemma ClickKeepsRequests(c: Client, d: nat, version: nat)
    ensures KeepsRequests(c, Clicked(c, d, version).0)
  {
  }

  lemma AnsweredKeepsRequests(c: Client, i: nat, reply: Reply)
    requires Coherent(c)
    ensures KeepsRequests(c, Answered(c, i, reply))
  {
  }

  lemma RefreshedKeepsRequests(c: Client, i: nat, ok: bool)
    ensures KeepsRequests(c, Refreshed(c, i, ok)) && KeepsRequests(c, WasReset(c))
  {
  }

  lemma ClientStepsKeepRequests(c: Client, d: nat, version: nat, i: nat, reply: Reply, ok: bool)
    requires Coherent(c)
    ensures KeepsRequests(c, Clicked(c, d, version).0) && KeepsRequests(c, Answered(c, i, reply))
    ensures KeepsRequests(c, Refreshed(c, i, ok)) && KeepsRequests(c, WasReset(c))
  {
    hide Coherent, KeepsRequests, Clicked, Answered, Refreshed, WasReset;
    ClickKeepsRequests(c, d, version);
    AnsweredKeepsRequests(c, i, reply);
    RefreshedKeepsRequests(c, i, ok);
  }
}

/**
 The coordinator and the server together, over a network that may lose, delay and
 repeat every request and every answer, while the rest of the protocol runs.
 */
module UndoEndToEnd {
  import opened Prelude
  import opened Tables
  import opened Protocol
  import opened Invariants
  import opened ForwardOnly
  import opened Safety
  import opened HistoryTheorems
  import opened ReceiptTheorems
  import opened UndoCoordination

  /** `answers` holds every receipt the server has sent for an intention, delivered or not. */
  datatype System = System(server: State, client: Client, user: nat, answers: set<(nat, Receipt)>)

  datatype Happening =
    | ClickOn(dataset: nat, version: nat)
    | Arrives(i: nat, candidate: nat)          // some copy of an intention's request reaches the server
    | Answers(i: nat, reply: Reply)            // what the browser learns of it, if it learns anything
    | Refreshes(i: nat, ok: bool)
    | Resets
    | Elsewhere(step: Step)                    // everything else the server does

  /** The server's answer to an undo request: the receipt stored under its key for the same request, if any. */
  function AnswerTo(server: State, intent: Intent, user: nat): Option<Receipt> {
    var found := Replay(EventsOf(server, intent.dataset), user, Some(intent.key));
    if found.Some? && found.value.fingerprint == UndoRequest(intent.dataset, intent.expectedVersion)
        then Some(found.value.receipt) else None
  }

  function Next(y: System, happening: Happening): System {
    match happening
    case ClickOn(d, version) => y.(client := Clicked(y.client, d, version).0)
    case Arrives(i, x) =>
      if i >= |y.client.intents| then y
      else
        var intent := y.client.intents[i];
        var server := Undo(y.server, intent.dataset, y.user, intent.expectedVersion, Some(intent.key), x);
        var answer := AnswerTo(server, intent, y.user);
        y.(server := server, answers := if answer.Some? then y.answers + {(i, answer.value)} else y.answers)
    case Answers(i, reply) =>
      if reply.Accepted? && (i, reply.receipt) !in y.answers then y else y.(client := Answered(y.client, i, reply))
    case Refreshes(i, ok) => y.(client := Refreshed(y.client, i, ok))
    case Resets => y.(client := WasReset(y.client))
    case Elsewhere(step) => y.(server := Apply(y.server, step))
  }

  function Evolved(y: System, happenings: seq<Happening>): System
    decreases happenings
  {
    if happenings == [] then y else Evolved(Next(y, happenings[0]), happenings[1..])
  }

  /** Every answer is the receipt the server still stores for that intention's own request. */
  ghost predicate Honest(y: System) {
    forall i, r | (i, r) in y.answers ::
      i < |y.client.intents| && AnswerTo(y.server, y.client.intents[i], y.user) == Some(r)
  }

  ghost predicate SystemOk(y: System) {
    Inv(y.server) && Described(y.server) && Coherent(y.client) && Honest(y)
  }

  lemma AnswersPersist(a: State, b: State, intent: Intent, user: nat)
    requires Forward(a, b) && AnswerTo(a, intent, user).Some?
    ensures AnswerTo(b, intent, user) == AnswerTo(a, intent, user)
  {
    hide DatasetsForward, RunsForward, ManifestsForward, ArtifactsForward, OnlyFresh, IntakeForward,
      AbortsForward, Replay;
    if intent.dataset in a.domain.events {
      ReplayGrows(a.domain.events[intent.dataset], b.domain.events[intent.dataset], user, Some(intent.key));
    } else {
      EmptyReplay(user, Some(intent.key));
    }
  }

  lemma EmptyReplay(user: nat, key: Option<nat>)
    ensures Replay([], user, key).None?
  {
  }

  lemma ServerMovesKeepHonest(y: System, server: State)
    requires Honest(y) && Forward(y.server, server)
    ensures Honest(y.(server := server))
  {
    hide AnswerTo, Forward;
    forall i, r | (i, r) in y.answers ensures AnswerTo(server, y.client.intents[i], y.user) == Some(r) {
      AnswersPersist(y.server, server, y.client.intents[i], y.user);
    }
  }

  lemma ClientMovesKeepHonest(y: System, client: Client)
    requires Honest(y) && KeepsRequests(y.client, client)
    ensures Honest(y.(client := client))
  {
    hide Replay;
  }

  lemma HappeningKeepsOk(y: System, happening: Happening)
    requires SystemOk(y)
    ensures SystemOk(Next(y, happening)) && KeepsRequests(y.client, Next(y, happening).client)
  {
    hide Inv, Described, Forward, Apply, Undo, AnswerTo, Coherent, Honest, KeepsRequests, Clicked, Answered, Refreshed,
      WasReset;
    ClientStepsKeepRequests(y.client, 0, 0, 0, Ambiguous, true);
    SameRequests(y.client);
    match happening {
      case ClickOn(d, version) =>
        ClickKeepsCoherent(y.client, d, version);
        ClientStepsKeepRequests(y.client, d, version, 0, Ambiguous, true);
        ClientMovesKeepHonest(y, Clicked(y.client, d, version).0);
      case Arrives(i, x) =>
        if i < |y.client.intents| { ArrivalKeepsOk(y, i, x); }
      case Answers(i, reply) =>
        AnsweredKeepsCoherent(y.client, i, reply);
        ClientStepsKeepRequests(y.client, 0, 0, i, reply, true);
        ClientMovesKeepHonest(y, Answered(y.client, i, reply));
      case Refreshes(i, ok) =>
        RefreshedKeepsCoherent(y.client, i, ok);
        ClientStepsKeepRequests(y.client, 0, 0, i, Ambiguous, ok);
        ClientMovesKeepHonest(y, Refreshed(y.client, i, ok));
      case Resets =>
        ResetKeepsCoherent(y.client);
        ClientMovesKeepHonest(y, WasReset(y.client));
      case Elsewhere(step) =>
        StepKeepsInv(y.server, step);
        StepKeepsDescribed(y.server, step);
        ServerMovesKeepHonest(y, Apply(y.server, step));
    }
  }

  lemma SameRequests(c: Client)
    ensures KeepsRequests(c, c)
  {
  }

  lemma ResetKeepsCoherent(c: Client)
    requires Coherent(c)
    ensures Coherent(WasReset(c))
  {
  }

  lemma ArrivalKeepsOk(y: System, i: nat, x: nat)
    requires SystemOk(y) && i < |y.client.intents|
    ensures SystemOk(Next(y, Arrives(i, x)))
  {
    hide Inv, Described, Forward, Apply, Undo, AnswerTo, Coherent;
    var intent := y.client.intents[i];
    var step := Ask(UndoStep(intent.dataset, y.user, intent.expectedVersion, Some(intent.key), x));
    var server := Undo(y.server, intent.dataset, y.user, intent.expectedVersion, Some(intent.key), x);
    assert Apply(y.server, step) == server by { UndoIsAStep(y.server, step.request); }
    StepKeepsInv(y.server, step);
    StepKeepsDescribed(y.server, step);
    ServerMovesKeepHonest(y, server);
  }

  lemma UndoIsAStep(s: State, request: Request)
    requires request.UndoStep?
    ensures Apply(s, Ask(request))
        == Undo(s, request.dataset, request.user, request.version, request.key, request.transformation)
  {
    hide Undo;
  }

  lemma KeepsRequestsIsTransitive(a: Client, b: Client, c: Client)
    requires KeepsRequests(a, b) && KeepsRequests(b, c)
    ensures KeepsRequests(a, c)
  {
  }

  lemma {:induction false} EvolutionKeepsOk(y: System, happenings: seq<Happening>)
    requires SystemOk(y)
    ensures SystemOk(Evolved(y, happenings)) && KeepsRequests(y.client, Evolved(y, happenings).client)
    decreases happenings
  {
    SameRequests(y.client);
    hide SystemOk, Next, KeepsRequests;
    if happenings != [] {
      HappeningKeepsOk(y, happenings[0]);
      EvolutionKeepsOk(Next(y, happenings[0]), happenings[1..]);
      KeepsRequestsIsTransitive(y.client, Next(y, happenings[0]).client, Evolved(y, happenings).client);
    }
  }

  /** The system arose from a coordinator just created, before any click, in front of some reachable server. */
  ghost predicate Arises(y: System) {
    exists server: State, firstKey: nat, happenings: seq<Happening> ::
      Reachable(server) && y == Evolved(System(server, Client([], map[], 0, firstKey), y.user, {}), happenings)
  }

  lemma ArisingIsOk(y: System)
    requires Arises(y)
    ensures SystemOk(y)
  {
    hide Reachable, Evolved, Inv;
    var server: State, firstKey: nat, happenings: seq<Happening> :|
      Reachable(server) && y == Evolved(System(server, Client([], map[], 0, firstKey), y.user, {}), happenings);
    ReachableSatisfiesInv(server);
    EventsDescribe(server);
    hide Described;
    EvolutionKeepsOk(System(server, Client([], map[], 0, firstKey), y.user, {}), happenings);
  }

  // ---------------------------------------------------------------- one click, one effect

  /** The stored undo event behind an answer: made for exactly this revision. */
  lemma AnswerIsAnEvent(y: System, i: nat, r: Receipt) returns (n: nat)
    requires SystemOk(y) && (i, r) in y.answers
    ensures i < |y.client.intents| && y.client.intents[i].dataset in y.server.domain.events
    ensures var log := y.server.domain.events[y.client.intents[i].dataset];
            && n < |log| && UndoReceiptFor(log[n], y.user, y.client.intents[i].key)
            && log[n].previousVersion == y.client.intents[i].expectedVersion && log[n].receipt == r
  {
    hide Inv, Coherent;
    var intent := y.client.intents[i];
    var log := EventsOf(y.server, intent.dataset);
    n := ReplayedAt(log, y.user, intent.key);
    UndoFingerprints(y.server, intent.dataset, n);
  }

  lemma {:induction false} ReplayedAt(log: seq<Event>, actor: nat, key: nat) returns (n: nat)
    requires Replay(log, actor, Some(key)).Some?
    ensures n < |log| && log[n] == Replay(log, actor, Some(key)).value && UndoReceiptFor(log[n], actor, key)
  {
    if UndoReceiptFor(log[0], actor, key) {
      n := 0;
    } else {
      var rest := ReplayedAt(log[1..], actor, key);
      n := rest + 1;
    }
  }

  lemma UndoFingerprints(s: State, d: nat, n: nat)
    requires Inv(s) && d in s.domain.events && n < |s.domain.events[d]| && s.domain.events[d][n].kind.UndoEvent?
    ensures s.domain.events[d][n].fingerprint == UndoRequest(d, s.domain.events[d][n].previousVersion)
  {
    assert ReceiptsOk(s.domain.events);
    assert LogReceiptsOk(d, s.domain.events[d]);
  }

  lemma VersionsOfLog(s: State, d: nat, n: nat)
    requires Inv(s) && d in s.domain.events && n < |s.domain.events[d]|
    ensures s.domain.events[d][n].previousVersion == n + 1 && s.domain.events[d][n].resultVersion == n + 2
  {
    assert HistoryOk(s.domain.datasets, s.domain.events, s.domain.transformations, s.intake.uploads);
    assert d in s.domain.events.Keys && d in s.domain.datasets;
    assert LogOk(s.domain.events[d], s.intake.uploads[d].path);
  }

  lemma ReceiptOfLog(s: State, d: nat, n: nat)
    requires Described(s) && d in s.domain.events && n < |s.domain.events[d]|
    ensures var event := s.domain.events[d][n];
            && event.receipt.eventId == event.id
            && event.receipt.previousVersion == event.previousVersion
            && event.receipt.resultVersion == event.previousVersion + 1
  {
    hide MatchesRequest;
    assert LogDescribes(s.domain.events[d], d, s.domain.transformations, s.storage.snapshots, s.env.nextId);
    assert EventDescribes(s.domain.events[d][n], d, s.domain.transformations, s.storage.snapshots, s.env.nextId);
  }

  /**
   One effect for one intention: however often its request was sent, repeated, lost or
   answered, all its answers are the same receipt, and exactly one event of the log,
   the one that took the observed revision to the next, carries its key.
   */
  lemma OneEffectPerIntention(y: System, i: nat, r: Receipt, again: Receipt, m: nat)
    requires Arises(y) && (i, r) in y.answers && (i, again) in y.answers
    ensures again == r && i < |y.client.intents| && y.client.intents[i].dataset in y.server.domain.events
    ensures var intent, log := y.client.intents[i], y.server.domain.events[y.client.intents[i].dataset];
            && 1 <= intent.expectedVersion <= |log|
            && log[intent.expectedVersion - 1].receipt == r
            && r.previousVersion == intent.expectedVersion && r.resultVersion == intent.expectedVersion + 1
            && r.eventId == log[intent.expectedVersion - 1].id
            && (m < |log| && UndoReceiptFor(log[m], y.user, intent.key) ==> m == intent.expectedVersion - 1)
  {
    hide Arises, Inv, Described, Coherent;
    ArisingIsOk(y);
    var n := AnswerIsAnEvent(y, i, r);
    var intent := y.client.intents[i];
    var log := y.server.domain.events[intent.dataset];
    VersionsOfLog(y.server, intent.dataset, n);
    ReceiptOfLog(y.server, intent.dataset, n);
    if m < |log| && UndoReceiptFor(log[m], y.user, intent.key) {
      UniqueInLog(y.server, intent.dataset, m, n);
    }
  }

  /** Two intentions for the same dataset and revision never both take effect. */
  lemma OneEffectPerRevision(y: System, i: nat, j: nat, r: Receipt, q: Receipt)
    requires Arises(y) && (i, r) in y.answers && (j, q) in y.answers
    requires i < |y.client.intents| && j < |y.client.intents|
    requires y.client.intents[i].dataset == y.client.intents[j].dataset
    requires y.client.intents[i].expectedVersion == y.client.intents[j].expectedVersion
    ensures i == j && r == q
  {
    hide Arises, Inv, Described;
    ArisingIsOk(y);
    var m := AnswerIsAnEvent(y, i, r);
    var n := AnswerIsAnEvent(y, j, q);
    VersionsOfLog(y.server, y.client.intents[i].dataset, m);
    VersionsOfLog(y.server, y.client.intents[i].dataset, n);
    assert y.client.intents[i].key == y.client.intents[j].key;
  }

  /** Neither finished nor given up: no reset, no refusal of it, no successful refresh of it. */
  predicate LeavesOpen(happening: Happening, i: nat) {
    && !happening.Resets?
    && !(happening.Answers? && happening.i == i && happening.reply.Refused?)
    && !(happening.Refreshes? && happening.i == i && happening.ok)
  }

  ghost predicate OpenIntention(c: Client, d: nat, i: nat) {
    d in c.current && c.current[d] == i < |c.intents| && c.intents[i].dataset == d && !c.intents[i].synchronized
  }

  lemma StepKeepsOpen(y: System, happening: Happening, d: nat, i: nat)
    requires Coherent(y.client) && OpenIntention(y.client, d, i) && LeavesOpen(happening, i)
    ensures OpenIntention(Next(y, happening).client, d, i)
  {
    hide Undo, Apply, AnswerTo;
  }

  lemma StepKeepsOpenHere(y: System, happening: Happening, d: nat, i: nat)
    requires SystemOk(y) && OpenIntention(y.client, d, i) && LeavesOpen(happening, i)
    ensures OpenIntention(Next(y, happening).client, d, i)
  {
    hide Inv, Honest;
    StepKeepsOpen(y, happening, d, i);
  }

  lemma {:induction false} RunKeepsOpen(y: System, happenings: seq<Happening>, d: nat, i: nat)
    requires SystemOk(y) && OpenIntention(y.client, d, i)
    requires forall k | 0 <= k < |happenings| :: LeavesOpen(happenings[k], i)
    ensures SystemOk(Evolved(y, happenings)) && OpenIntention(Evolved(y, happenings).client, d, i)
    ensures KeepsRequests(y.client, Evolved(y, happenings).client)
    decreases happenings
  {
    SameRequests(y.client);
    hide SystemOk, OpenIntention, KeepsRequests, Next, LeavesOpen;
    if happenings != [] {
      assert LeavesOpen(happenings[0], i);
      StepKeepsOpenHere(y, happenings[0], d, i);
      HappeningKeepsOk(y, happenings[0]);
      forall k | 0 <= k < |happenings[1..]| ensures LeavesOpen(happenings[1..][k], i) {
        assert happenings[1..][k] == happenings[k + 1];
      }
      RunKeepsOpen(Next(y, happenings[0]), happenings[1..], d, i);
      KeepsRequestsIsTransitive(y.client, Next(y, happenings[0]).client, Evolved(y, happenings).client);
    }
  }

  /**
   Until it is shown, refused or dropped with the whole workspace, an intention stays the
   one behind its dataset's button: every click at any displayed revision joins, resends
   or refreshes it, with the original key and revision, and creates no other.
   */
  lemma ClicksReuseTheOpenIntention(y: System, happenings: seq<Happening>, d: nat, i: nat, version: nat)
    requires Arises(y) && OpenIntention(y.client, d, i)
    requires forall k | 0 <= k < |happenings| :: LeavesOpen(happenings[k], i)
    ensures var c := Evolved(y, happenings).client;
            && OpenIntention(c, d, i) && ReusesIntention(c, d, version)
            && c.intents[i].key == y.client.intents[i].key
            && c.intents[i].expectedVersion == y.client.intents[i].expectedVersion
  {
    hide Arises, Evolved, Inv, Described, Honest, LeavesOpen;
    ArisingIsOk(y);
    RunKeepsOpen(y, happenings, d, i);
    RecoveryOrNewClick(Evolved(y, happenings).client, d);
  }
}
