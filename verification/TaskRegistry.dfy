/** The provider's own task registry: idempotent creation by job ID, polling, cancellation and callbacks. */
module TaskRegistry {
  import opened Wrappers
  import opened Text
  import opened ProviderContract

  datatype Request = Request(jobID: string, runID: string, inputHash: string, model: string, amountMicros: int, simulation: string)

  datatype Response = Response(
    jobID: string,
    runID: string,
    upstreamTaskID: string,
    requestID: string,
    state: JobStatus,
    progress: int,
    model: string,
    actualMicros: int,
    artifacts: seq<string>,
    error: Option<ErrorCode>)

  datatype Task = Task(
    request: Request,
    requestHash: string,
    response: Response,
    polls: nat,
    callbackIDs: set<string>,
    callbackSeq: int)

  datatype Callback = Callback(callbackID: string, sequence: int, state: JobStatus)

  /** The registry's digests: of a whole request, and of a job ID with its input hash. */
  datatype Digests = Digests(request: Request -> string, task: (string, string) -> string)

  function ScenarioError(simulation: string): Option<ErrorCode> {
    if simulation in {"", "success", "slow_success", "recovery", "timeout", "cancel_race", "duplicate_callback"} then None
    else if simulation == "unauthorized" then Some(Unauthenticated)
    else if simulation == "forbidden" then Some(Forbidden)
    else if simulation == "rate_limited" then Some(RateLimited)
    else if simulation == "quota_exhausted" then Some(QuotaExceeded)
    else if simulation == "budget_exceeded" then Some(BudgetExceeded)
    else if simulation == "content_blocked" then Some(ContentBlocked)
    else if simulation == "provider_unavailable" then Some(Unavailable)
    else if simulation == "region_unavailable" then Some(RegionUnavailable)
    else if simulation == "model_unavailable" then Some(ModelUnavailable)
    else Some(InvalidRequest)
  }

  function NewTask(digests: Digests, request: Request): Task {
    var sum := digests.task(request.jobID, request.inputHash);
    Task(request, digests.request(request),
         Response(request.jobID, request.runID, "mock-task-" + sum, "mock-request-" + sum,
                  if request.simulation == "timeout" then Unknown else Queued, 0, request.model,
                  if request.amountMicros < 125 then request.amountMicros else 125, [], None),
         0, {}, 0)
  }

  /**
   Creation under one job ID, whose entry is task if it has one. valid says whether the request is well formed,
   and key is its idempotency header.
   */
  function Created(digests: Digests, task: Option<Task>, valid: bool, key: string, request: Request)
    : (Option<Task>, Result<Response, ErrorCode>)
  {
    if !valid || Blank(key) || key != request.jobID then (task, Err(InvalidRequest))
    else if ScenarioError(request.simulation).Some? then (task, Err(ScenarioError(request.simulation).value))
    else if task.Some? then
      (task, if task.value.requestHash != digests.request(request) then Err(ConflictCode) else Ok(task.value.response))
    else (Some(NewTask(digests, request)), Ok(NewTask(digests, request).response))
  }

  /** Completion commits an artifact; artifact is what the store returned, or None if it failed. */
  function Completed(task: Task, artifact: Option<string>): Task {
    if task.response.state == Succeeded && task.response.artifacts != [] then task
    else if artifact.None? then task.(response := task.response.(state := Unknown, error := Some(Unavailable)))
    else task.(response := task.response.(state := Succeeded, progress := 100, artifacts := [artifact.value], error := None))
  }

  function Got(task: Option<Task>, artifact: Option<string>): (Option<Task>, Result<Response, ErrorCode>) {
    if task.None? then (None, Err(NotFound))
    else if task.value.response.state.Terminal() || task.value.response.state == Unknown then (task, Ok(task.value.response))
    else
      var polled := task.value.(polls := task.value.polls + 1);
      var next := if polled.request.simulation in {"slow_success", "recovery"} && polled.polls == 1
        then polled.(response := polled.response.(state := Running, progress := 50))
        else Completed(polled, artifact);
      (Some(next), Ok(next.response))
  }

  function CancelledTask(task: Option<Task>, artifact: Option<string>): (Option<Task>, Result<Response, ErrorCode>) {
    if task.None? then (None, Err(NotFound))
    else
      var next := if task.value.request.simulation == "cancel_race" then Completed(task.value, artifact)
        else if task.value.response.state.Terminal() then task.value
        else task.value.(response := task.value.response.(state := Cancelled, progress := 0));
      (Some(next), Ok(next.response))
  }

  /** The boolean says whether the callback took effect. */
  function CalledBack(task: Option<Task>, callback: Callback, artifact: Option<string>): (Option<Task>, Result<bool, ErrorCode>) {
    if callback.callbackID == "" || callback.sequence < 1 then (task, Err(InvalidRequest))
    else if task.None? then (None, Err(InvalidRequest))
    else if callback.callbackID in task.value.callbackIDs then (task, Ok(false))
    else
      var noted := task.value.(callbackIDs := task.value.callbackIDs + {callback.callbackID});
      if callback.sequence <= noted.callbackSeq || noted.response.state.Terminal() then (Some(noted), Ok(false))
      else
        var moved := noted.(callbackSeq := callback.sequence, response := noted.response.(state := callback.state));
        (Some(if callback.state == Succeeded then Completed(moved, artifact) else moved), Ok(true))
  }

  // ---- What every request keeps ----

  datatype Event =
    | Create(valid: bool, key: string, request: Request)
    | Get(artifact: Option<string>)
    | Cancel(artifact: Option<string>)
    | Call(callback: Callback, artifact: Option<string>)

  function Next(digests: Digests, task: Option<Task>, event: Event): Option<Task> {
    match event
    case Create(valid, key, request) => Created(digests, task, valid, key, request).0
    case Get(artifact) => Got(task, artifact).0
    case Cancel(artifact) => CancelledTask(task, artifact).0
    case Call(callback, artifact) => CalledBack(task, callback, artifact).0
  }

  function Run(digests: Digests, task: Option<Task>, events: seq<Event>): Option<Task>
    decreases |events|
  {
    if events == [] then task else Run(digests, Next(digests, task, events[0]), events[1..])
  }

  lemma {:induction false} RunGoesOn(digests: Digests, task: Option<Task>, events: seq<Event>, next: Event)
    ensures Run(digests, task, []) == task && Run(digests, task, events + [next]) == Next(digests, Run(digests, task, events), next)
    decreases |events|
  {
    hide Next;
    if events == [] {
      assert events + [next] == [next];
    } else {
      assert (events + [next])[1..] == events[1..] + [next];
      RunGoesOn(digests, Next(digests, task, events[0]), events[1..], next);
    }
  }

  /** A success is always backed by an artifact. */
  predicate Honest(task: Option<Task>) {
    task.Some? && task.value.response.state == Succeeded ==> task.value.response.artifacts != []
  }

  /** A task, once there, stays, with the same request and upstream identity; a success is final. */
  predicate Lasts(task: Option<Task>, later: Option<Task>) {
    task.Some? ==>
      && later.Some?
      && later.value.request == task.value.request && later.value.requestHash == task.value.requestHash
      && later.value.response.jobID == task.value.response.jobID
      && later.value.response.runID == task.value.response.runID
      && later.value.response.model == task.value.response.model
      && later.value.response.actualMicros == task.value.response.actualMicros
      && later.value.response.upstreamTaskID == task.value.response.upstreamTaskID
      && later.value.response.requestID == task.value.response.requestID
      && task.value.callbackIDs <= later.value.callbackIDs
      && task.value.callbackSeq <= later.value.callbackSeq
      && (task.value.response.state == Succeeded ==> later.value.response == task.value.response)
  }

  lemma EventsLast(digests: Digests, task: Option<Task>, event: Event)
    requires Honest(task)
    ensures Honest(Next(digests, task, event)) && Lasts(task, Next(digests, task, event))
  {
    hide ScenarioError, Completed;
    match event {
      case Create(_, _, _) =>
      case Get(artifact) => if task.Some? { CompletionLasts(task.value.(polls := task.value.polls + 1), artifact); }
      case Cancel(artifact) => if task.Some? { CompletionLasts(task.value, artifact); }
      case Call(callback, artifact) =>
        if task.Some? {
          var moved := task.value.(callbackIDs := task.value.callbackIDs + {callback.callbackID}, callbackSeq := callback.sequence,
                                   response := task.value.response.(state := callback.state));
          CompletionLasts(moved, artifact);
        }
    }
  }

  /** Completion is honest, changes nothing about a task's identity, and nothing at all about an honest success. */
  lemma CompletionLasts(task: Task, artifact: Option<string>)
    ensures Honest(Some(Completed(task, artifact)))
    ensures Honest(Some(task)) ==> Lasts(Some(task), Some(Completed(task, artifact)))
    ensures var was, now := task.response, Completed(task, artifact).response;
      && now == was.(state := now.state, progress := now.progress, artifacts := now.artifacts, error := now.error)
      && Completed(task, artifact) == task.(response := now)
  {
  }

  lemma LastingComposes(a: Option<Task>, b: Option<Task>, c: Option<Task>)
    requires Lasts(a, b) && Lasts(b, c)
    ensures Lasts(a, c)
  {
  }

  /** Whether this event makes a task out of nothing. */
  predicate Creates(digests: Digests, task: Option<Task>, event: Event) {
    task.None? && Next(digests, task, event).Some?
  }

  function Creations(digests: Digests, task: Option<Task>, events: seq<Event>): nat
    decreases |events|
  {
    if events == [] then 0
    else (if Creates(digests, task, events[0]) then 1 else 0) + Creations(digests, Next(digests, task, events[0]), events[1..])
  }

  lemma {:induction false} CreationsAddUp(digests: Digests, task: Option<Task>, events: seq<Event>, next: Event)
    ensures Creations(digests, task, []) == 0
    ensures Creations(digests, task, events + [next])
         == Creations(digests, task, events) + (if Creates(digests, Run(digests, task, events), next) then 1 else 0)
    decreases |events|
  {
    hide Next, Creates;
    if events == [] {
      assert events + [next] == [next];
    } else {
      assert (events + [next])[1..] == events[1..] + [next];
      CreationsAddUp(digests, Next(digests, task, events[0]), events[1..], next);
    }
  }

  /** Whatever requests arrive for one job ID, at most one task is ever created, and it is never lost or replaced. */
  lemma {:induction false} OneTaskPerJob(digests: Digests, task: Option<Task>, events: seq<Event>)
    requires Honest(task)
    ensures Creations(digests, task, events) <= (if task.Some? then 0 else 1)
    ensures Honest(Run(digests, task, events)) && Lasts(task, Run(digests, task, events))
    decreases |events|
  {
    if events != [] {
      hide Next;
      var next := Next(digests, task, events[0]);
      EventsLast(digests, task, events[0]);
      OneTaskPerJob(digests, next, events[1..]);
      LastingComposes(task, next, Run(digests, task, events));
    }
  }

  /** Repeating the request that made a task returns that task's own response and changes nothing. */
  lemma RepeatedCreateReplays(digests: Digests, request: Request, events: seq<Event>)
    requires ScenarioError(request.simulation).None? && !Blank(request.jobID)
    ensures var task := Run(digests, Created(digests, None, true, request.jobID, request).0, events);
      && task.Some?
      && Created(digests, task, true, request.jobID, request) == (task, Ok(task.value.response))
  {
    OneTaskPerJob(digests, Some(NewTask(digests, request)), events);
  }

  /** A callback that takes effect is new, is noted, and raises the sequence number. */
  lemma CallbacksAreOrdered(task: Option<Task>, callback: Callback, artifact: Option<string>)
    ensures var (next, r) := CalledBack(task, callback, artifact);
      r == Ok(true) ==>
        && callback.callbackID !in task.value.callbackIDs && callback.callbackID in next.value.callbackIDs
        && task.value.callbackSeq < callback.sequence == next.value.callbackSeq
  {
  }

  predicate Applies(task: Option<Task>, event: Event) {
    event.Call? && CalledBack(task, event.callback, event.artifact).1 == Ok(true)
  }

  /** The callbacks that take effect, in order. */
  function Applied(digests: Digests, task: Option<Task>, events: seq<Event>): seq<Callback>
    decreases |events|
  {
    if events == [] then []
    else
      (if Applies(task, events[0]) then [events[0].callback] else [])
      + Applied(digests, Next(digests, task, events[0]), events[1..])
  }

  /** The callback comes after everything the task has seen. */
  predicate IsNews(task: Option<Task>, callback: Callback) {
    task.Some? ==> callback.callbackID !in task.value.callbackIDs && task.value.callbackSeq < callback.sequence
  }

  /** Over any run the callbacks in effect have different IDs and rising sequence numbers. */
  lemma {:induction false} CallbacksApplyOnceInOrder(digests: Digests, task: Option<Task>, events: seq<Event>)
    requires Honest(task)
    ensures var applied := Applied(digests, task, events);
      && (forall c :: c in applied ==> IsNews(task, c))
      && (forall i, k :: 0 <= i < k < |applied| ==>
            applied[i].callbackID != applied[k].callbackID && applied[i].sequence < applied[k].sequence)
    decreases |events|
  {
    hide Next, CalledBack, Lasts, IsNews, Applies;
    if events != [] {
      var next := Next(digests, task, events[0]);
      EventsLast(digests, task, events[0]);
      OldNews(task, next);
      CallbacksApplyOnceInOrder(digests, next, events[1..]);
      var rest := Applied(digests, next, events[1..]);
      if Applies(task, events[0]) {
        AppliedCallbacksAreNews(digests, task, events[0]);
        assert Applied(digests, task, events) == [events[0].callback] + rest;
        assert forall k :: 0 <= k < |rest| ==> IsNews(next, rest[k]);
      } else {
        assert Applied(digests, task, events) == rest;
      }
    }
  }

  lemma OldNews(task: Option<Task>, later: Option<Task>)
    requires Lasts(task, later)
    ensures forall c: Callback :: IsNews(later, c) ==> IsNews(task, c)
  {
  }

  lemma AppliedCallbacksAreNews(digests: Digests, task: Option<Task>, event: Event)
    requires Applies(task, event)
    ensures event.Call? && IsNews(task, event.callback)
    ensures forall c: Callback :: IsNews(Next(digests, task, event), c) ==>
              c.callbackID != event.callback.callbackID && event.callback.sequence < c.sequence
  {
    CallbacksAreOrdered(task, event.callback, event.artifact);
  }

  // ---- What each request comes to ----

  /** Nine simulations refuse, each with its own code. */
  lemma SimulationsRefuse()
    ensures ScenarioError("unauthorized") == Some(Unauthenticated) && ScenarioError("forbidden") == Some(Forbidden)
    ensures ScenarioError("rate_limited") == Some(RateLimited) && ScenarioError("quota_exhausted") == Some(QuotaExceeded)
    ensures ScenarioError("budget_exceeded") == Some(BudgetExceeded) && ScenarioError("content_blocked") == Some(ContentBlocked)
    ensures ScenarioError("provider_unavailable") == Some(Unavailable)
    ensures ScenarioError("region_unavailable") == Some(RegionUnavailable)
    ensures ScenarioError("model_unavailable") == Some(ModelUnavailable)
  {
  }

  /** Any other simulation either accepts the request, or is unknown and makes it invalid. */
  lemma OtherSimulations(simulation: string)
    ensures ScenarioError(simulation).None? <==>
      simulation in {"", "success", "slow_success", "recovery", "timeout", "cancel_race", "duplicate_callback"}
    ensures ScenarioError(simulation) == Some(InvalidRequest) || ScenarioError(simulation).None? || simulation in
      {"unauthorized", "forbidden", "rate_limited", "quota_exhausted", "budget_exceeded", "content_blocked",
       "provider_unavailable", "region_unavailable", "model_unavailable"}
  {
  }

  /** A task is made only by a well-formed request under its own job ID, and starts queued, or unknown after a timeout. */
  lemma CreationsAreAnswered(digests: Digests, task: Option<Task>, valid: bool, key: string, request: Request)
    ensures var (next, r) := Created(digests, task, valid, key, request);
      if !valid || Blank(key) || key != request.jobID then next == task && r == Err(InvalidRequest)
      else if request.simulation !in {"", "success", "slow_success", "recovery", "timeout", "cancel_race", "duplicate_callback"} then
        next == task && r.Err? && ScenarioError(request.simulation) == Some(r.error)
      else if task.Some? then
        && next == task
        && r == (if task.value.requestHash == digests.request(request) then Ok(task.value.response) else Err(ConflictCode))
      else
        && next.Some? && r == Ok(next.value.response)
        && next.value.request == request && next.value.requestHash == digests.request(request)
        && next.value.polls == 0 && next.value.callbackIDs == {} && next.value.callbackSeq == 0
        && var response := r.value;
           && response.jobID == request.jobID && response.runID == request.runID && response.model == request.model
           && response.state == (if request.simulation == "timeout" then Unknown else Queued)
           && response.progress == 0 && response.artifacts == [] && response.error.None?
           && response.upstreamTaskID == "mock-task-" + digests.task(request.jobID, request.inputHash)
           && response.requestID == "mock-request-" + digests.task(request.jobID, request.inputHash)
           && response.actualMicros <= 125 && response.actualMicros <= request.amountMicros
           && (response.actualMicros == 125 || response.actualMicros == request.amountMicros)
  {
  }

  /** Only the state, the progress, the artifacts and the error of the response, and the poll count, may differ. */
  predicate SameTask(task: Task, later: Task) {
    && later == task.(polls := later.polls, response := later.response)
    && later.response == task.response.(state := later.response.state, progress := later.response.progress,
                                        artifacts := later.response.artifacts, error := later.response.error)
  }

  /** The response of a task whose artifact was stored, or could not be. */
  predicate Stored(response: Response, artifact: Option<string>) {
    if artifact.Some? then
      response.state == Succeeded && response.progress == 100 && response.artifacts == [artifact.value] && response.error.None?
    else response.state == Unknown && response.error == Some(Unavailable)
  }

  /** A poll moves a task that is queued, running or waiting for action: a slow one halfway first, any other to its artifact. */
  lemma PollsMove(task: Task, artifact: Option<string>)
    ensures var (next, r) := Got(Some(task), artifact);
      && next.Some? && r == Ok(next.value.response) && SameTask(task, next.value)
      && (if task.response.state in {Succeeded, Failed, Cancelled, Unknown} then next.value == task
          else if task.request.simulation in {"slow_success", "recovery"} && task.polls == 0 then
            && next.value.polls == 1 && next.value.response.state == Running && next.value.response.progress == 50
            && next.value.response.artifacts == task.response.artifacts && next.value.response.error == task.response.error
          else next.value.polls == task.polls + 1 && Stored(next.value.response, artifact))
  {
  }

  /** A cancellation ends a task that is not over, unless the race has it succeed; a success it finds stays. */
  lemma CancellationsEnd(task: Task, artifact: Option<string>)
    requires Honest(Some(task))
    ensures var (next, r) := CancelledTask(Some(task), artifact);
      && next.Some? && r == Ok(next.value.response) && SameTask(task, next.value) && next.value.polls == task.polls
      && (if task.response.state == Succeeded then next.value == task
          else if task.request.simulation == "cancel_race" then Stored(next.value.response, artifact)
          else if task.response.state in {Failed, Cancelled} then next.value == task
          else
            && next.value.response.state == Cancelled && next.value.response.progress == 0
            && next.value.response.artifacts == task.response.artifacts && next.value.response.error == task.response.error)
  {
  }

  /** A callback takes effect exactly if it is well formed, new, later than the last and about a task that is not over. */
  lemma CallbacksMove(task: Task, callback: Callback, artifact: Option<string>)
    ensures var (next, r) := CalledBack(Some(task), callback, artifact);
      var wellFormed := callback.callbackID != "" && callback.sequence >= 1;
      var applies := wellFormed && callback.callbackID !in task.callbackIDs && task.callbackSeq < callback.sequence
        && task.response.state !in {Succeeded, Failed, Cancelled};
      && (r.Err? <==> !wellFormed) && (r.Ok? ==> (r.value <==> applies))
      && next.Some? && next.value.request == task.request && next.value.polls == task.polls
      && next.value.callbackIDs == (if wellFormed then task.callbackIDs + {callback.callbackID} else task.callbackIDs)
      && next.value.callbackSeq == (if applies then callback.sequence else task.callbackSeq)
      && (!applies ==> next.value.response == task.response)
      && (applies && callback.state != Succeeded ==> next.value.response == task.response.(state := callback.state))
      && (applies && callback.state == Succeeded && task.response.artifacts == [] ==> Stored(next.value.response, artifact))
      && (applies && callback.state == Succeeded && task.response.artifacts != [] ==>
            next.value.response == task.response.(state := Succeeded))
  {
  }

  // ---- The server ----

  // Whatever the artifact store does.

  lemma PollingLasts(digests: Digests, task: Option<Task>)
    requires Honest(task)
    ensures forall artifact :: Honest(Got(task, artifact).0) && Lasts(task, Got(task, artifact).0)
  {
    hide Got, Honest, Lasts;
    forall artifact ensures Honest(Got(task, artifact).0) && Lasts(task, Got(task, artifact).0) {
      EventsLast(digests, task, Get(artifact));
    }
  }

  lemma CancellingLasts(digests: Digests, task: Option<Task>)
    requires Honest(task)
    ensures forall artifact :: Honest(CancelledTask(task, artifact).0) && Lasts(task, CancelledTask(task, artifact).0)
  {
    hide CancelledTask, Honest, Lasts;
    forall artifact ensures Honest(CancelledTask(task, artifact).0) && Lasts(task, CancelledTask(task, artifact).0) {
      EventsLast(digests, task, Cancel(artifact));
    }
  }

  lemma CallingLasts(digests: Digests, task: Option<Task>, callback: Callback)
    requires Honest(task)
    ensures forall artifact :: Honest(CalledBack(task, callback, artifact).0) && Lasts(task, CalledBack(task, callback, artifact).0)
  {
    hide CalledBack, Honest, Lasts;
    forall artifact ensures Honest(CalledBack(task, callback, artifact).0) && Lasts(task, CalledBack(task, callback, artifact).0) {
      EventsLast(digests, task, Call(callback, artifact));
    }
  }

  class Server {
    const digests: Digests
    var jobs: map<string, Task>

    constructor (digests: Digests)
      ensures Valid() && jobs == map[] && this.digests == digests
    {
      this.digests := digests;
      jobs := map[];
    }

    function Lookup(id: string): Option<Task>
      reads this
    {
      if id in jobs then Some(jobs[id]) else None
    }

    ghost predicate Valid()
      reads this
    {
      forall id :: id in jobs ==> Honest(Some(jobs[id]))
    }

    /** The one entry under id is now this; no other entry has changed and none is gone. */
    twostate predicate Only(id: string, task: Option<Task>)
      reads this
    {
      Lookup(id) == task && forall other :: other != id ==> Lookup(other) == old(Lookup(other))
    }

    /** The artifact store may keep the payload under some digest, or fail. */
    method Put() returns (artifact: Option<string>)
    {
      artifact := *;
    }

    method CreateJob(valid: bool, key: string, request: Request) returns (r: Result<Response, ErrorCode>)
      requires Valid()
      modifies this
      ensures Valid() && Lasts(old(Lookup(request.jobID)), Lookup(request.jobID))
      ensures (Lookup(request.jobID), r) == Created(digests, old(Lookup(request.jobID)), valid, key, request)
      ensures Only(request.jobID, Lookup(request.jobID))
    {
      EventsLast(digests, Lookup(request.jobID), Create(valid, key, request));
      if !valid || Blank(key) || key != request.jobID {
        return Err(InvalidRequest);
      }
      if ScenarioError(request.simulation).Some? {
        return Err(ScenarioError(request.simulation).value);
      }
      var requestHash := digests.request(request);
      if request.jobID in jobs {
        if jobs[request.jobID].requestHash != requestHash {
          return Err(ConflictCode);
        }
        return Ok(jobs[request.jobID].response);
      }
      var state := Queued;
      if request.simulation == "timeout" {
        state := Unknown;
      }
      var sum := digests.task(request.jobID, request.inputHash);
      var actual := 125;
      if request.amountMicros < actual {
        actual := request.amountMicros;
      }
      var response := Response(request.jobID, request.runID, "mock-task-" + sum, "mock-request-" + sum, state, 0,
                               request.model, actual, [], None);
      jobs := jobs[request.jobID := Task(request, requestHash, response, 0, {}, 0)];
      r := Ok(response);
    }

    method Complete(id: string) returns (ghost artifact: Option<string>)
      requires id in jobs
      modifies this
      ensures jobs == old(jobs)[id := Completed(old(jobs)[id], artifact)]
    {
      var record := jobs[id];
      if record.response.state == Succeeded && record.response.artifacts != [] {
        artifact := None;
        return;
      }
      var stored := Put();
      artifact := stored;
      if stored.None? {
        jobs := jobs[id := record.(response := record.response.(state := Unknown, error := Some(Unavailable)))];
        return;
      }
      jobs := jobs[id := record.(response := record.response.(state := Succeeded, progress := 100,
                                                              artifacts := [stored.value], error := None))];
    }

    method GetJob(id: string) returns (r: Result<Response, ErrorCode>, ghost artifact: Option<string>)
      requires Valid()
      modifies this
      ensures Valid() && Lasts(old(Lookup(id)), Lookup(id))
      ensures (Lookup(id), r) == Got(old(Lookup(id)), artifact)
      ensures Only(id, Lookup(id))
    {
      PollingLasts(digests, Lookup(id));
      artifact := None;
      if id !in jobs {
        return Err(NotFound), artifact;
      }
      if !jobs[id].response.state.Terminal() && jobs[id].response.state != Unknown {
        jobs := jobs[id := jobs[id].(polls := jobs[id].polls + 1)];
        if jobs[id].request.simulation in {"slow_success", "recovery"} && jobs[id].polls == 1 {
          jobs := jobs[id := jobs[id].(response := jobs[id].response.(state := Running, progress := 50))];
        } else {
          artifact := Complete(id);
        }
      }
      r := Ok(jobs[id].response);
    }

    method CancelJob(id: string) returns (r: Result<Response, ErrorCode>, ghost artifact: Option<string>)
      requires Valid()
      modifies this
      ensures Valid() && Lasts(old(Lookup(id)), Lookup(id))
      ensures (Lookup(id), r) == CancelledTask(old(Lookup(id)), artifact)
      ensures Only(id, Lookup(id))
    {
      CancellingLasts(digests, Lookup(id));
      artifact := None;
      if id !in jobs {
        return Err(NotFound), artifact;
      }
      if jobs[id].request.simulation == "cancel_race" {
        artifact := Complete(id);
        return Ok(jobs[id].response), artifact;
      }
      if !jobs[id].response.state.Terminal() {
        jobs := jobs[id := jobs[id].(response := jobs[id].response.(state := Cancelled, progress := 0))];
      }
      r := Ok(jobs[id].response);
    }

    method ApplyCallback(id: string, callback: Callback) returns (r: Result<bool, ErrorCode>, ghost artifact: Option<string>)
      requires Valid()
      modifies this
      ensures Valid() && Lasts(old(Lookup(id)), Lookup(id))
      ensures (Lookup(id), r) == CalledBack(old(Lookup(id)), callback, artifact)
      ensures Only(id, Lookup(id))
    {
      CallingLasts(digests, Lookup(id), callback);
      artifact := None;
      if callback.callbackID == "" || callback.sequence < 1 {
        return Err(InvalidRequest), artifact;
      }
      if id !in jobs {
        return Err(InvalidRequest), artifact;
      }
      if callback.callbackID in jobs[id].callbackIDs {
        return Ok(false), artifact;
      }
      jobs := jobs[id := jobs[id].(callbackIDs := jobs[id].callbackIDs + {callback.callbackID})];
      if callback.sequence <= jobs[id].callbackSeq || jobs[id].response.state.Terminal() {
        return Ok(false), artifact;
      }
      jobs := jobs[id := jobs[id].(callbackSeq := callback.sequence, response := jobs[id].response.(state := callback.state))];
      if callback.state == Succeeded {
        // The state is already Succeeded here, so completion turns only on whether artifacts are there.
        artifact := Complete(id);
      }
      r := Ok(true);
    }
  }
}
