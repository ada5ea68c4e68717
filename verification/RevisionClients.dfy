/**
 Clients sharing one revision store. A client reads the newest revision and creates in two separate steps,
 so any number of other clients may create in between.
 */
module RevisionClients {
  import opened Wrappers
  import opened Text
  import opened Revisions

  /** What a client holds between its read and its create; seen is the whole chain as it stood at the read. */
  datatype Client = Idle | HasRead(kind: string, aggregateID: string, parentID: string, rollbackOf: string, seen: seq<string>)

  /** One create as it happened: the chain the client had read, and the chain before and after. */
  datatype Commit = Commit(input: CreateInput, seen: seq<string>, before: seq<string>, later: seq<string>, result: Result<Revision, Error>)

  datatype System = System(store: Store, clients: map<nat, Client>, log: seq<Commit>)

  datatype Event =
    | ReadNext(client: nat, kind: string, aggregateID: string)
    | ReadRollback(client: nat, kind: string, aggregateID: string, targetID: string)
    | Create(client: nat, schemaVersion: string, payload: Payload, evidenceIDs: set<string>, actor: string, at: nat)

  function ClientOf(sys: System, client: nat): Client {
    if client in sys.clients then sys.clients[client] else Idle
  }

  function Reading(sys: System, kind: string, aggregateID: string, rollbackOf: string): Client {
    HasRead(kind, aggregateID, sys.store.LatestID(kind, aggregateID), rollbackOf, sys.store.Chain(kind, aggregateID))
  }

  function Step(digests: Digests, sys: System, event: Event): System {
    match event
    case ReadNext(c, kind, aggregateID) =>
      sys.(clients := sys.clients[c := Reading(sys, kind, aggregateID, "")])
    case ReadRollback(c, kind, aggregateID, targetID) =>
      if RollbackTarget(sys.store, kind, aggregateID, targetID) && sys.store.Chain(kind, aggregateID) != []
      then sys.(clients := sys.clients[c := Reading(sys, kind, aggregateID, targetID)])
      else sys
    case Create(c, schemaVersion, payload, evidenceIDs, actor, at) =>
      match ClientOf(sys, c)
      case Idle => sys
      case HasRead(kind, aggregateID, parentID, rollbackOf, seen) =>
        var input := CreateInput(kind, aggregateID, parentID, rollbackOf, schemaVersion, payload, evidenceIDs, actor, at);
        var (store, result) := Created(digests, sys.store, input);
        var commit := Commit(input, seen, sys.store.Chain(kind, aggregateID), store.Chain(kind, aggregateID), result);
        System(store, sys.clients[c := Idle], sys.log + [commit])
  }

  function Run(digests: Digests, sys: System, events: seq<Event>): System
    decreases |events|
  {
    if events == [] then sys else Run(digests, Step(digests, sys, events[0]), events[1..])
  }

  lemma {:induction false} RunGoesOn(digests: Digests, sys: System, events: seq<Event>, next: Event)
    ensures Run(digests, sys, []) == sys && Run(digests, sys, events + [next]) == Step(digests, Run(digests, sys, events), next)
    decreases |events|
  {
    hide Step;
    if events == [] {
      assert events + [next] == [next];
    } else {
      assert (events + [next])[1..] == events[1..] + [next];
      RunGoesOn(digests, Step(digests, sys, events[0]), events[1..], next);
    }
  }

  const START := System(EMPTY, map[], [])

  /** A waiting client's parent is the end of what it saw, and the chain has only grown since. */
  ghost predicate Remembers(sys: System, client: Client) {
    client.HasRead? ==>
      && client.seen <= sys.store.Chain(client.kind, client.aggregateID)
      && client.parentID == (if client.seen == [] then "" else client.seen[|client.seen| - 1])
  }

  /**
   A create that changed its chain appended one revision directly after the chain its client had read, and a
   create whose chain had moved on since failed and changed nothing.
   */
  ghost predicate LandsWhereRead(commit: Commit) {
    && (commit.seen != commit.before ==> commit.result.Err?)
    && (commit.result.Err? ==> commit.later == commit.before)
    && (commit.later != commit.before ==>
          && commit.result.Ok?
          && commit.later == commit.seen + [commit.result.value.id]
          && commit.result.value.parentID == (if commit.seen == [] then "" else commit.seen[|commit.seen| - 1])
          && commit.result.value.number == |commit.seen| + 1)
  }

  /** A successful create keeps its predecessor newest or adds to it; a successful rollback adds exactly one. */
  ghost predicate RollbackAppends(commit: Commit) {
    commit.result.Ok? && commit.input.rollbackOf != "" ==> |commit.later| == |commit.before| + 1
  }

  ghost predicate Invariant(digests: Digests, sys: System) {
    && Valid(digests, sys.store)
    && (forall c :: c in sys.clients ==> Remembers(sys, sys.clients[c]))
    && (forall k :: 0 <= k < |sys.log| ==> LandsWhereRead(sys.log[k]))
  }

  /** When the parent a client remembers is still newest, the chain is exactly the one it saw. */
  lemma StaleReadsConflict(digests: Digests, sys: System, client: Client)
    requires Valid(digests, sys.store) && client.HasRead? && Remembers(sys, client)
    requires client.parentID == sys.store.LatestID(client.kind, client.aggregateID)
    ensures client.seen == sys.store.Chain(client.kind, client.aggregateID)
  {
    var key := ChainKey(client.kind, client.aggregateID);
    var chain, seen := sys.store.ChainAt(key), client.seen;
    if chain != [] {
      NoEmptyIDs(digests, sys.store, key, |chain| - 1);
      assert seen != [];
      assert chain[|seen| - 1] == seen[|seen| - 1];
      ChainIDsAreDistinct(digests, sys.store, key, |seen| - 1, |chain| - 1);
    }
  }

  lemma CreateStepKeepsInvariant(digests: Digests, sys: System, event: Event)
    requires Invariant(digests, sys) && event.Create? && ClientOf(sys, event.client).HasRead?
    ensures Invariant(digests, Step(digests, sys, event))
    ensures Extends(sys.store, Step(digests, sys, event).store)
  {
    hide Valid;
    var client := ClientOf(sys, event.client);
    var input := CreateInput(client.kind, client.aggregateID, client.parentID, client.rollbackOf,
                             event.schemaVersion, event.payload, event.evidenceIDs, event.actor, event.at);
    var next := Step(digests, sys, event);
    CreateKeepsValid(digests, sys.store, input);
    if Admissible(sys.store, input) {
      StaleReadsConflict(digests, sys, client);
    }
    assert LandsWhereRead(next.log[|sys.log|]);
    forall c | c in next.clients ensures Remembers(next, next.clients[c]) {
      if c != event.client {
        var other := sys.clients[c];
        assert Remembers(sys, other);
        if other.HasRead? {
          assert sys.store.ChainAt(ChainKey(other.kind, other.aggregateID)) <= next.store.ChainAt(ChainKey(other.kind, other.aggregateID));
        }
      }
    }
  }

  lemma StepKeepsInvariant(digests: Digests, sys: System, event: Event)
    requires Invariant(digests, sys)
    ensures Invariant(digests, Step(digests, sys, event))
    ensures Extends(sys.store, Step(digests, sys, event).store)
  {
    if event.Create? && ClientOf(sys, event.client).HasRead? {
      CreateStepKeepsInvariant(digests, sys, event);
    } else {
      hide Valid;
    }
  }

  lemma {:induction false} RunKeepsInvariant(digests: Digests, sys: System, events: seq<Event>)
    requires Invariant(digests, sys)
    ensures Invariant(digests, Run(digests, sys, events))
    ensures Extends(sys.store, Run(digests, sys, events).store)
    ensures sys.log <= Run(digests, sys, events).log
    decreases |events|
  {
    hide Invariant;
    if events != [] {
      StepKeepsInvariant(digests, sys, events[0]);
      RunKeepsInvariant(digests, Step(digests, sys, events[0]), events[1..]);
    }
  }

  /**
   Over every interleaving: no append lands anywhere but directly after the revision its client read, chains
   never fork, and nothing appended is ever lost.
   */
  lemma ConcurrentClientsNeverLoseUpdates(digests: Digests, before: seq<Event>, after: seq<Event>)
    ensures var mid := Run(digests, START, before);
      var end := Run(digests, mid, after);
      && Valid(digests, end.store)
      && Extends(mid.store, end.store)
      && forall k :: 0 <= k < |end.log| ==> LandsWhereRead(end.log[k])
  {
    RunKeepsInvariant(digests, START, before);
    RunKeepsInvariant(digests, Run(digests, START, before), after);
  }

  /** With collision-free IDs every successful rollback in every run grows its chain by exactly one. */
  lemma {:induction false} SuccessfulRollbacksAppend(digests: Digests, sys: System, events: seq<Event>)
    requires CollisionFree(digests) && Invariant(digests, sys)
    requires forall k :: 0 <= k < |sys.log| ==> RollbackAppends(sys.log[k])
    ensures forall k :: 0 <= k < |Run(digests, sys, events).log| ==> RollbackAppends(Run(digests, sys, events).log[k])
    decreases |events|
  {
    if events != [] {
      var event := events[0];
      var next := Step(digests, sys, event);
      StepKeepsInvariant(digests, sys, event);
      if event.Create? && ClientOf(sys, event.client).HasRead? {
        var client := ClientOf(sys, event.client);
        var input := CreateInput(client.kind, client.aggregateID, client.parentID, client.rollbackOf,
                                 event.schemaVersion, event.payload, event.evidenceIDs, event.actor, event.at);
        hide Valid, Created;
        if input.rollbackOf != "" && Created(digests, sys.store, input).1.Ok? {
          RollbackGrowsByOne(digests, sys.store, input);
        }
        assert next.log == sys.log + [next.log[|sys.log|]];
        assert RollbackAppends(next.log[|sys.log|]);
      }
      SuccessfulRollbacksAppend(digests, next, events[1..]);
    }
  }

  /** What a successful create returns says what its client asked to have said, whether it was appended or there already. */
  predicate SaysWhatWasAsked(commit: Commit) {
    commit.result.Ok? ==>
      && Json(commit.result.value.payload) == commit.input.payload
      && commit.result.value.schemaVersion == commit.input.schemaVersion
      && commit.result.value.evidenceIDs == commit.input.evidenceIDs
  }

  /**
   A client that nobody disturbs between its read and its create gets what it asked for: a well-formed edit, or a rollback
   to a revision of the chain, is there afterwards, and the client has let go of what it read.
   */
  lemma UndisturbedClientsSucceed(digests: Digests, sys: System, read: Event, create: Event, kind: string, aggregateID: string)
    requires Telling(digests) && Valid(digests, sys.store) && create.Create? && create.client == read.client
    requires read == ReadNext(create.client, kind, aggregateID)
      || (read.ReadRollback? && read.kind == kind && read.aggregateID == aggregateID && read.targetID != ""
          && read.targetID in sys.store.byID && sys.store.byID[read.targetID].kind == kind
          && sys.store.byID[read.targetID].aggregateID == aggregateID)
    requires !Blank(kind) && !Blank(aggregateID) && !Blank(create.schemaVersion) && !Blank(create.actor)
    requires create.payload.Json? && create.at != 0
    ensures var after := Run(digests, sys, [read, create]);
      && |after.log| == |sys.log| + 1 && after.log[..|sys.log|] == sys.log
      && after.clients == sys.clients[create.client := Idle]
      && var commit := after.log[|sys.log|];
         && commit.result.Ok? && commit.seen == commit.before == sys.store.Chain(kind, aggregateID)
         && commit.result.value.payload == create.payload.text && commit.result.value.schemaVersion == create.schemaVersion
         && commit.result.value.evidenceIDs == create.evidenceIDs
         && (read.ReadRollback? ==>
               && commit.result.value.rollbackOf == read.targetID
               && commit.later == commit.before + [commit.result.value.id])
  {
    hide Step, Valid, Telling;
    assert [read, create] == [read] + [create] && [] + [read] == [read];
    RunGoesOn(digests, sys, [read], create);
    RunGoesOn(digests, sys, [], read);
    ReadsAreTaken(digests, sys, read, kind, aggregateID);
    UndisturbedCreatesSucceed(digests, Step(digests, sys, read), create);
  }

  /** A read keeps the chain as it stands, and its newest revision as the parent. */
  lemma ReadsAreTaken(digests: Digests, sys: System, read: Event, kind: string, aggregateID: string)
    requires Valid(digests, sys.store)
    requires (read.ReadNext? && read.kind == kind && read.aggregateID == aggregateID)
      || (read.ReadRollback? && read.kind == kind && read.aggregateID == aggregateID
          && read.targetID in sys.store.byID && sys.store.byID[read.targetID].kind == kind
          && sys.store.byID[read.targetID].aggregateID == aggregateID)
    ensures var chain := sys.store.Chain(kind, aggregateID);
      Step(digests, sys, read) == System(sys.store, sys.clients[read.client :=
        HasRead(kind, aggregateID, if chain == [] then "" else chain[|chain| - 1],
                if read.ReadRollback? then read.targetID else "", chain)], sys.log)
  {
    if read.ReadRollback? {
      StoredRevisionsHaveChains(digests, sys.store, read.targetID);
    }
    hide Valid;
  }

  /** A rollback to a revision that is not there, or is another aggregate's, is not even read for. */
  lemma ForeignRollbacksAreRefused(digests: Digests, sys: System, read: Event)
    requires read.ReadRollback?
    requires read.targetID in sys.store.byID ==>
      sys.store.byID[read.targetID].kind != read.kind || sys.store.byID[read.targetID].aggregateID != read.aggregateID
    ensures Step(digests, sys, read) == sys
  {
  }

  /** A create whose client read the chain as it still stands succeeds. */
  lemma UndisturbedCreatesSucceed(digests: Digests, sys: System, create: Event)
    requires Telling(digests) && Valid(digests, sys.store) && create.Create? && create.client in sys.clients
    requires var client := sys.clients[create.client];
      && client.HasRead? && client.seen == sys.store.Chain(client.kind, client.aggregateID)
      && client.parentID == (if client.seen == [] then "" else client.seen[|client.seen| - 1])
      && !Blank(client.kind) && !Blank(client.aggregateID)
      && (client.rollbackOf != "" ==>
            && client.rollbackOf in sys.store.byID && sys.store.byID[client.rollbackOf].kind == client.kind
            && sys.store.byID[client.rollbackOf].aggregateID == client.aggregateID)
    requires !Blank(create.schemaVersion) && !Blank(create.actor) && create.payload.Json? && create.at != 0
    ensures var after, client := Step(digests, sys, create), sys.clients[create.client];
      && after.clients == sys.clients[create.client := Idle]
      && |after.log| == |sys.log| + 1 && after.log[..|sys.log|] == sys.log
      && var commit := after.log[|sys.log|];
         && commit.result.Ok? && commit.seen == commit.before == client.seen
         && commit.result.value.payload == create.payload.text && commit.result.value.schemaVersion == create.schemaVersion
         && commit.result.value.evidenceIDs == create.evidenceIDs
         && (client.rollbackOf != "" ==>
               commit.result.value.rollbackOf == client.rollbackOf && commit.later == commit.before + [commit.result.value.id])
  {
    hide Valid, Telling, Created, Blank;
    var client := sys.clients[create.client];
    NoEditIsLost(digests, sys.store, CreateInput(client.kind, client.aggregateID, client.parentID, client.rollbackOf,
                 create.schemaVersion, create.payload, create.evidenceIDs, create.actor, create.at));
  }

  lemma StoredRevisionsHaveChains(digests: Digests, s: Store, id: string)
    requires Valid(digests, s) && id in s.byID
    ensures s.Chain(s.byID[id].kind, s.byID[id].aggregateID) != []
  {
    assert Placed(s, id);
  }

  /** With digests free of collisions no client is ever told its edit is there when it is not. */
  lemma {:induction false} SuccessesSayWhatWasAsked(digests: Digests, sys: System, events: seq<Event>)
    requires Telling(digests) && Invariant(digests, sys)
    requires forall k :: 0 <= k < |sys.log| ==> SaysWhatWasAsked(sys.log[k])
    ensures forall k :: 0 <= k < |Run(digests, sys, events).log| ==> SaysWhatWasAsked(Run(digests, sys, events).log[k])
    decreases |events|
  {
    if events != [] {
      var next := Step(digests, sys, events[0]);
      StepKeepsInvariant(digests, sys, events[0]);
      if events[0].Create? && ClientOf(sys, events[0].client).HasRead? {
        CreatesSayWhatWasAsked(digests, sys, events[0]);
      }
      hide Invariant, Telling, SaysWhatWasAsked;
      SuccessesSayWhatWasAsked(digests, next, events[1..]);
    }
  }

  lemma CreatesSayWhatWasAsked(digests: Digests, sys: System, event: Event)
    requires Telling(digests) && Invariant(digests, sys) && event.Create? && ClientOf(sys, event.client).HasRead?
    ensures var log := Step(digests, sys, event).log;
      |log| == |sys.log| + 1 && log[..|sys.log|] == sys.log && SaysWhatWasAsked(log[|sys.log|])
  {
    var client := ClientOf(sys, event.client);
    var input := CreateInput(client.kind, client.aggregateID, client.parentID, client.rollbackOf,
                             event.schemaVersion, event.payload, event.evidenceIDs, event.actor, event.at);
    hide Valid, Telling, Created;
    NoEditIsLost(digests, sys.store, input);
  }
}
