/**
 The crash, retry, pause and cancellation protocol around one paid provider job.

 The durable state is the run's ledger and the provider's registry entry for the run's job ID. Workers execute the
 two activities one atomic step at a time: a database transaction, or one exchange with the provider. Between any
 two steps a worker may crash, operators may pause, cancel or resume the run, and the provider's task may move on
 by itself. A request that reaches the provider takes effect in the step that sends it, but its reply may be lost.
 */
module PaidJob {
  import opened Wrappers
  import opened Text
  import P = ProviderContract
  import R = TaskRegistry
  import L = PaidLedger

  /** What is fixed for a run. valid: the request is well formed; cost: what a response says about money. */
  datatype Dispatch = Dispatch(digests: R.Digests, request: R.Request, valid: bool, cost: R.Response -> L.Cost)

  /** Where a worker stands: its next step is the one its name asks for. */
  datatype Worker =
    | Submitting(reconcileOnly: bool)
    | Intended
    | Answered(response: R.Response, polled: bool)
    | Polling
    | Doubtful
    | Finished(response: R.Response)
    | NothingPrepared
    | Cancelling
    | CancelAnswered(result: L.Cancellation, answer: Option<R.Response>)
    | CancelCompleted(result: L.Cancellation)

  /** A request is answered, or takes effect with its reply lost, or never arrives. */
  datatype Network = Delivered | ReplyLost | NeverArrived

  /** Everything outside the worker's control in one step. aborted: the database transaction does not commit. */
  datatype Chance = Chance(network: Network, artifact: Option<string>, aborted: bool, history: bool)

  /** What one worker step does. */
  datatype Effect = Effect(
    ledger: L.Ledger,
    task: Option<R.Task>,
    worker: Option<Worker>,
    posted: bool,
    returned: bool,
    verdict: Option<L.Cancellation>)

  datatype Plant = Plant(
    ledger: L.Ledger,
    task: Option<R.Task>,
    workers: map<nat, Worker>,
    posts: nat,
    creations: nat,
    returned: bool,
    verdict: Option<L.Cancellation>)

  function Initial(amount: nat): Plant {
    Plant(L.Fresh(amount), None, map[], 0, 0, false, None)
  }

  // ---- The activities' own decisions ----

  /** Whether a failed submit may still have created a task. */
  predicate SubmissionMayExist(code: Option<P.ErrorCode>) {
    code in {None, Some(P.Unavailable), Some(P.Timeout)}
  }

  function ProviderObservation(response: R.Response): L.Observation {
    L.Observation(
      match response.state
      case Queued => L.Running
      case Running => L.Running
      case RequiresAction => L.RequiresAction
      case Succeeded => L.Running
      case _ => L.Unknown,
      response.upstreamTaskID, response.requestID)
  }

  /** The response is about the dispatched job. */
  predicate Matches(d: Dispatch, response: R.Response) {
    response.jobID == d.request.jobID && response.runID == d.request.runID && response.model == d.request.model
  }

  const DOUBT := L.Observation(L.Unknown, "", "")
  const NO_REMOTE_TASK := L.Cancellation(L.Cancelled, true, "", "", L.NO_COST)
  const NOT_CONFIRMED := L.Cancellation(L.Unknown, false, "", "", L.NO_COST)

  function CompletionOf(d: Dispatch, response: R.Response): L.Completion {
    L.Completion(response.upstreamTaskID, response.requestID, d.cost(response))
  }

  /** What a provider's answer to a cancellation means. */
  function CancellationOf(d: Dispatch, response: R.Response): L.Cancellation {
    var unknown := NOT_CONFIRMED.(upstreamTaskID := response.upstreamTaskID, requestID := response.requestID);
    match response.state
    case Succeeded => if response.artifacts != [] then unknown.(state := L.Succeeded) else unknown
    case Cancelled => unknown.(state := L.Cancelled, cost := d.cost(response))
    case Failed => unknown.(state := L.Failed, cost := d.cost(response))
    case _ => unknown
  }

  // ---- Worker steps ----

  /** Nothing durable happens and the worker stops. */
  function Stopped(ledger: L.Ledger, task: Option<R.Task>): Effect {
    Effect(ledger, task, None, false, false, None)
  }

  /** Asks the registry for the job's entry; any failure leaves the outcome in doubt. */
  function Asked(ledger: L.Ledger, task: Option<R.Task>, polled: bool, chance: Chance): Effect {
    if chance.network == NeverArrived then Stopped(ledger, task).(worker := Some(Doubtful))
    else
      var (next, r) := R.Got(task, chance.artifact);
      Stopped(ledger, next).(worker := Some(if chance.network == Delivered && r.Ok? then Answered(r.value, polled) else Doubtful))
  }

  /** Sends the paid request. */
  function Posted(d: Dispatch, ledger: L.Ledger, task: Option<R.Task>, chance: Chance): Effect {
    if chance.network == NeverArrived then Stopped(ledger, task).(worker := Some(Doubtful), posted := true)
    else
      var (next, r) := R.Created(d.digests, task, d.valid, d.request.jobID, d.request);
      var worker := if chance.network == ReplyLost then Some(Doubtful)
        else if r.Ok? then Some(Answered(r.value, false))
        else if SubmissionMayExist(Some(r.error)) then Some(Doubtful)
        else None;
      Stopped(ledger, next).(worker := worker, posted := true)
  }

  /** Freezes what the provider answered and decides how to go on. */
  function Noted(d: Dispatch, ledger: L.Ledger, task: Option<R.Task>, response: R.Response, polled: bool): Effect {
    var (next, ok) := L.Observed(ledger, ProviderObservation(response));
    if !Matches(d, response) || !ok then Stopped(ledger, task)
    else if polled && response.state == P.RequiresAction then Stopped(next, task)
    else if !response.state.Terminal() then Stopped(next, task).(worker := Some(Polling))
    else if response.state == P.Succeeded && response.artifacts != [] then Stopped(next, task).(worker := Some(Finished(response)))
    else Stopped(next, task)
  }

  /** Asks the provider to cancel and reads its answer. */
  function AskedToCancel(d: Dispatch, ledger: L.Ledger, task: Option<R.Task>, chance: Chance): Effect {
    if chance.network == NeverArrived then Stopped(ledger, task).(worker := Some(CancelAnswered(NOT_CONFIRMED, None)))
    else
      var (next, r) := R.CancelledTask(task, chance.artifact);
      if chance.network == ReplyLost then Stopped(ledger, next).(worker := Some(CancelAnswered(NOT_CONFIRMED, None)))
      else if r.Err? then
        Stopped(ledger, next).(worker := Some(CancelAnswered(if r.error == P.NotFound then NO_REMOTE_TASK else NOT_CONFIRMED, None)))
      else if !Matches(d, r.value) then Stopped(ledger, next)
      else Stopped(ledger, next).(worker := Some(CancelAnswered(CancellationOf(d, r.value), Some(r.value))))
  }

  function Recorded(ledger: L.Ledger, task: Option<R.Task>, result: L.Cancellation, history: bool): Effect {
    var (next, ok) := L.CancellationRecorded(ledger, result, history);
    Stopped(next, task).(verdict := if ok then Some(result) else None)
  }

  function Acted(d: Dispatch, ledger: L.Ledger, task: Option<R.Task>, worker: Worker, chance: Chance): Effect {
    match worker
    case Submitting(reconcileOnly) =>
      if reconcileOnly then Asked(ledger, task, false, chance)
      else
        var (next, ok) := L.Observed(ledger, DOUBT);
        if chance.aborted || !ok then Stopped(ledger, task) else Stopped(next, task).(worker := Some(Intended))
    case Intended => Posted(d, ledger, task, chance)
    case Answered(response, polled) =>
      if chance.aborted then Stopped(ledger, task) else Noted(d, ledger, task, response, polled)
    case Polling => Asked(ledger, task, true, chance)
    case Doubtful => if chance.aborted then Stopped(ledger, task) else Stopped(L.Observed(ledger, DOUBT).0, task)
    case Finished(response) =>
      var (next, ok) := L.CompletedJob(ledger, CompletionOf(d, response));
      if chance.aborted then Stopped(ledger, task) else Stopped(next, task).(returned := ok)
    case NothingPrepared =>
      if chance.aborted then Stopped(ledger, task) else Recorded(ledger, task, NO_REMOTE_TASK, chance.history)
    case Cancelling => AskedToCancel(d, ledger, task, chance)
    case CancelAnswered(result, answer) =>
      if chance.aborted then Stopped(ledger, task)
      else if result.state == L.Succeeded && answer.Some? then
        var (next, ok) := L.CompletedJob(ledger, CompletionOf(d, answer.value));
        Stopped(next, task).(worker := if ok then Some(CancelCompleted(result)) else None)
      else Recorded(ledger, task, result, chance.history)
    case CancelCompleted(result) =>
      if chance.aborted then Stopped(ledger, task) else Recorded(ledger, task, result, chance.history)
  }

  // ---- Steps of the whole plant ----

  datatype Step =
    | StartExecute(id: nat)
    | StartCancel(id: nat)
    | Act(id: nat, chance: Chance)
    | Crash(id: nat)
    | Finalize(success: bool)
    | Operate(control: L.Control)
    | Upstream(event: R.Event)

  function Next(d: Dispatch, s: Plant, step: Step): Plant {
    match step
    case StartExecute(id) =>
      var (ledger, prepared) := L.Prepared(s.ledger);
      if id in s.workers || prepared.None? then s
      else s.(ledger := ledger, workers := s.workers[id := Submitting(prepared.value)])
    case StartCancel(id) =>
      if id in s.workers then s
      else s.(workers := s.workers[id := if s.ledger.job.Some? then Cancelling else NothingPrepared])
    case Act(id, chance) =>
      if id !in s.workers then s
      else
        var e := Acted(d, s.ledger, s.task, s.workers[id], chance);
        Plant(e.ledger, e.task,
              if e.worker.Some? then s.workers[id := e.worker.value] else s.workers - {id},
              s.posts + (if e.posted then 1 else 0),
              s.creations + (if s.task.None? && e.task.Some? then 1 else 0),
              s.returned || e.returned,
              if e.verdict.Some? then e.verdict else s.verdict)
    case Crash(id) => s.(workers := s.workers - {id})
    case Finalize(success) => s.(ledger := L.Finalized(s.ledger, success).0)
    case Operate(control) => s.(ledger := L.Controlled(s.ledger, control).0)
    case Upstream(event) =>
      if event.Create? then s else s.(task := R.Next(d.digests, s.task, event))
  }

  function Run(d: Dispatch, s: Plant, steps: seq<Step>): Plant
    decreases |steps|
  {
    if steps == [] then s else Run(d, Next(d, s, steps[0]), steps[1..])
  }

  /** Attempts do not overlap, and the workflow gives its verdict on a run only after an execution has returned to it. */
  predicate Orderly(s: Plant, step: Step) {
    match step
    case StartExecute(_) => s.workers == map[]
    case StartCancel(_) => s.workers == map[]
    case Finalize(_) => s.returned
    case _ => true
  }

  predicate OrderlyRun(d: Dispatch, s: Plant, steps: seq<Step>)
    decreases |steps|
  {
    steps == [] || (Orderly(s, steps[0]) && OrderlyRun(d, Next(d, s, steps[0]), steps[1..]))
  }

  // ---- What every run keeps, even when attempts overlap ----

  /** The response was given by this task, and if it announced success it still stands. */
  predicate Told(response: R.Response, task: Option<R.Task>) {
    && task.Some?
    && response.upstreamTaskID == task.value.response.upstreamTaskID
    && response.requestID == task.value.response.requestID
    && (response.state == P.Succeeded ==> task.value.response == response)
  }

  predicate JobSucceeded(ledger: L.Ledger) {
    ledger.job.Some? && ledger.job.value.state == L.Succeeded
  }

  /** Any upstream identity in the ledger is the provider's, and a recorded success is a success there. */
  predicate Linked(ledger: L.Ledger, task: Option<R.Task>) {
    ledger.job.Some? ==>
      && (ledger.job.value.upstreamTaskID != "" ==>
            task.Some? && ledger.job.value.upstreamTaskID == task.value.response.upstreamTaskID)
      && (ledger.job.value.requestID != "" ==> task.Some? && ledger.job.value.requestID == task.value.response.requestID)
      && (JobSucceeded(ledger) ==> task.Some? && task.value.response.state == P.Succeeded)
  }

  predicate Knows(d: Dispatch, worker: Worker, ledger: L.Ledger, task: Option<R.Task>) {
    match worker
    case Answered(response, _) => Told(response, task)
    case Finished(response) => Told(response, task) && response.state == P.Succeeded
    case CancelAnswered(result, None) => result in {NO_REMOTE_TASK, NOT_CONFIRMED}
    case CancelAnswered(result, Some(response)) => Told(response, task) && result == CancellationOf(d, response)
    case CancelCompleted(result) => result.state == L.Succeeded && !result.noRemoteTask && JobSucceeded(ledger)
    case _ => true
  }

  ghost predicate Sound(ledger: L.Ledger, task: Option<R.Task>) {
    L.Valid(ledger) && R.Honest(task) && Linked(ledger, task)
  }

  ghost predicate Base(d: Dispatch, s: Plant) {
    && Sound(s.ledger, s.task)
    && (forall id :: id in s.workers ==> Knows(d, s.workers[id], s.ledger, s.task))
    && s.creations == (if s.task.Some? then 1 else 0)
    && (s.returned ==> JobSucceeded(s.ledger))
    && (s.verdict.Some? && s.verdict.value.state == L.Succeeded ==> JobSucceeded(s.ledger))
  }

  /** One step's effect, seen from outside the worker that took it. */
  ghost predicate Fair(d: Dispatch, ledger: L.Ledger, task: Option<R.Task>, e: Effect) {
    && Sound(e.ledger, e.task) && L.Frozen(ledger, e.ledger) && R.Lasts(task, e.task)
    && (e.worker.Some? ==> Knows(d, e.worker.value, e.ledger, e.task))
    && (e.returned ==> JobSucceeded(e.ledger))
    && (e.verdict.Some? && e.verdict.value.state == L.Succeeded ==> JobSucceeded(e.ledger))
  }

  lemma LinkLasts(ledger: L.Ledger, task: Option<R.Task>, later: Option<R.Task>)
    requires Linked(ledger, task) && R.Lasts(task, later)
    ensures Linked(ledger, later)
  {
  }

  lemma KnowledgeLasts(d: Dispatch, worker: Worker, ledger: L.Ledger, task: Option<R.Task>, ledger': L.Ledger, task': Option<R.Task>)
    requires Knows(d, worker, ledger, task) && L.Frozen(ledger, ledger') && R.Lasts(task, task')
    ensures Knows(d, worker, ledger', task')
  {
    hide CancellationOf;
  }

  lemma StoppingIsFair(d: Dispatch, ledger: L.Ledger, task: Option<R.Task>)
    requires Sound(ledger, task)
    ensures Fair(d, ledger, task, Stopped(ledger, task))
  {
    hide L.Valid, Linked;
    L.FrozenReflexively(ledger);
  }

  lemma AskingIsFair(d: Dispatch, ledger: L.Ledger, task: Option<R.Task>, polled: bool, chance: Chance)
    requires Sound(ledger, task)
    ensures Fair(d, ledger, task, Asked(ledger, task, polled, chance))
  {
    hide L.Valid, Linked, R.Completed;
    L.FrozenReflexively(ledger);
    R.EventsLast(AnyDigests(), task, R.Get(chance.artifact));
    LinkLasts(ledger, task, R.Got(task, chance.artifact).0);
  }

  /** Reading the registry computes no digest, so any will do. */
  function AnyDigests(): R.Digests {
    R.Digests(request => "", (a, b) => "")
  }

  lemma PostingIsFair(d: Dispatch, ledger: L.Ledger, task: Option<R.Task>, chance: Chance)
    requires Sound(ledger, task)
    ensures Fair(d, ledger, task, Posted(d, ledger, task, chance))
  {
    hide L.Valid, Linked, R.ScenarioError;
    L.FrozenReflexively(ledger);
    R.EventsLast(d.digests, task, R.Create(d.valid, d.request.jobID, d.request));
    LinkLasts(ledger, task, R.Created(d.digests, task, d.valid, d.request.jobID, d.request).0);
  }

  lemma AskingToCancelIsFair(d: Dispatch, ledger: L.Ledger, task: Option<R.Task>, chance: Chance)
    requires Sound(ledger, task)
    ensures Fair(d, ledger, task, AskedToCancel(d, ledger, task, chance))
  {
    hide L.Valid, Linked, R.Completed, CancellationOf;
    L.FrozenReflexively(ledger);
    R.EventsLast(d.digests, task, R.Cancel(chance.artifact));
    LinkLasts(ledger, task, R.CancelledTask(task, chance.artifact).0);
  }

  /** Observing something the provider said, or nothing definite, keeps the ledger sound. */
  lemma ObservingIsSound(ledger: L.Ledger, task: Option<R.Task>, seen: L.Observation)
    requires Sound(ledger, task) && seen.state != L.Queued
    requires seen.upstreamTaskID != "" ==> task.Some? && seen.upstreamTaskID == task.value.response.upstreamTaskID
    requires seen.requestID != "" ==> task.Some? && seen.requestID == task.value.response.requestID
    ensures var next := L.Observed(ledger, seen).0; Sound(next, task) && L.Frozen(ledger, next)
  {
    L.ObserveKeeps(ledger, seen);
    hide L.Valid;
  }

  lemma CompletingIsSound(d: Dispatch, ledger: L.Ledger, task: Option<R.Task>, response: R.Response)
    requires Sound(ledger, task) && Told(response, task) && response.state == P.Succeeded
    ensures var (next, ok) := L.CompletedJob(ledger, CompletionOf(d, response));
      Sound(next, task) && L.Frozen(ledger, next) && (ok ==> JobSucceeded(next))
  {
    L.CompleteKeeps(ledger, CompletionOf(d, response));
    hide L.Valid;
  }

  lemma RecordingIsSound(d: Dispatch, ledger: L.Ledger, task: Option<R.Task>, result: L.Cancellation, history: bool)
    requires Sound(ledger, task)
    requires result.state in {L.Succeeded, L.Cancelled, L.Failed, L.Unknown}
    requires result.upstreamTaskID != "" ==> task.Some? && result.upstreamTaskID == task.value.response.upstreamTaskID
    requires result.requestID != "" ==> task.Some? && result.requestID == task.value.response.requestID
    ensures var next := L.CancellationRecorded(ledger, result, history).0; Sound(next, task) && L.Frozen(ledger, next)
  {
    L.CancellationKeeps(ledger, result, history);
    hide L.Valid;
  }

  lemma {:induction false} ActingIsFair(d: Dispatch, ledger: L.Ledger, task: Option<R.Task>, worker: Worker, chance: Chance)
    requires Sound(ledger, task) && Knows(d, worker, ledger, task)
    ensures Fair(d, ledger, task, Acted(d, ledger, task, worker, chance))
  {
    hide Sound, L.Valid, R.Honest, Linked, L.Observed, L.CompletedJob, L.CancellationRecorded;
    StoppingIsFair(d, ledger, task);
    match worker {
      case Submitting(reconcileOnly) =>
        AskingIsFair(d, ledger, task, false, chance);
        ObservingIsSound(ledger, task, DOUBT);
      case Intended => PostingIsFair(d, ledger, task, chance);
      case Answered(response, polled) => ObservingIsSound(ledger, task, ProviderObservation(response));
      case Polling => AskingIsFair(d, ledger, task, true, chance);
      case Doubtful => ObservingIsSound(ledger, task, DOUBT);
      case Finished(response) => CompletingIsSound(d, ledger, task, response);
      case NothingPrepared => RecordingIsSound(d, ledger, task, NO_REMOTE_TASK, chance.history);
      case Cancelling => AskingToCancelIsFair(d, ledger, task, chance);
      case CancelAnswered(result, answer) =>
        if result.state == L.Succeeded && answer.Some? {
          CompletingIsSound(d, ledger, task, answer.value);
        } else {
          RecordingIsSound(d, ledger, task, result, chance.history);
        }
      case CancelCompleted(result) => CancelRecordingIsFair(d, ledger, task, result, chance.history);
    }
  }

  lemma CancelRecordingIsFair(d: Dispatch, ledger: L.Ledger, task: Option<R.Task>, result: L.Cancellation, history: bool)
    requires Sound(ledger, task) && Knows(d, CancelCompleted(result), ledger, task)
    ensures Fair(d, ledger, task, Recorded(ledger, task, result, history))
  {
    hide L.Valid, Linked;
    L.FrozenReflexively(ledger);
  }

  /** What the other workers know outlasts one worker's step. */
  lemma WorkersStillKnow(d: Dispatch, s: Plant, ledger: L.Ledger, task: Option<R.Task>)
    requires Base(d, s) && L.Frozen(s.ledger, ledger) && R.Lasts(s.task, task)
    ensures forall id :: id in s.workers ==> Knows(d, s.workers[id], ledger, task)
    ensures JobSucceeded(s.ledger) ==> JobSucceeded(ledger)
  {
    forall id | id in s.workers ensures Knows(d, s.workers[id], ledger, task) {
      KnowledgeLasts(d, s.workers[id], s.ledger, s.task, ledger, task);
    }
  }

  /** Any step keeps the base invariant and the durable facts, whoever takes it. */
  lemma StepKeepsBase(d: Dispatch, s: Plant, step: Step)
    requires Base(d, s)
    ensures Base(d, Next(d, s, step))
    ensures L.Frozen(s.ledger, Next(d, s, step).ledger) && R.Lasts(s.task, Next(d, s, step).task)
  {
    var t := Next(d, s, step);
    assert L.Frozen(s.ledger, t.ledger) && R.Lasts(s.task, t.task) && Sound(t.ledger, t.task) by {
      StepIsSound(d, s, step);
    }
    WorkersStillKnow(d, s, t.ledger, t.task);
    hide L.Frozen, Sound, JobSucceeded, Acted, L.Prepared, L.Finalized, L.Controlled, R.Next;
    if step.Act? && step.id in s.workers {
      ActingIsFair(d, s.ledger, s.task, s.workers[step.id], step.chance);
      hide Knows;
      assert R.Lasts(s.task, t.task);
    } else {
      KeepsItsTask(d, s, step);
    }
  }

  /** Nothing but a worker's own request makes a task. */
  lemma KeepsItsTask(d: Dispatch, s: Plant, step: Step)
    requires !(step.Act? && step.id in s.workers)
    ensures Next(d, s, step).task.Some? == s.task.Some?
  {
    hide R.Completed;
  }

  lemma StepIsSound(d: Dispatch, s: Plant, step: Step)
    requires Base(d, s)
    ensures var t := Next(d, s, step); Sound(t.ledger, t.task) && L.Frozen(s.ledger, t.ledger) && R.Lasts(s.task, t.task)
  {
    hide Knows, Acted, L.Valid, L.Prepared, L.Finalized, L.Controlled, R.Next;
    L.FrozenReflexively(s.ledger);
    match step {
      case StartExecute(id) => PreparingIsSound(s.ledger, s.task);
      case StartCancel(id) =>
      case Act(id, chance) =>
        if id in s.workers { ActingIsFair(d, s.ledger, s.task, s.workers[id], chance); }
      case Crash(id) =>
      case Finalize(success) => FinalizingIsSound(s.ledger, s.task, success);
      case Operate(control) => OperatingIsSound(s.ledger, s.task, control);
      case Upstream(event) =>
        R.EventsLast(d.digests, s.task, event);
        if !event.Create? { LinkLasts(s.ledger, s.task, R.Next(d.digests, s.task, event)); }
    }
  }

  lemma PreparingIsSound(ledger: L.Ledger, task: Option<R.Task>)
    requires Sound(ledger, task)
    ensures Sound(L.Prepared(ledger).0, task) && L.Frozen(ledger, L.Prepared(ledger).0)
  {
    L.PrepareKeeps(ledger);
    hide L.Valid;
  }

  lemma FinalizingIsSound(ledger: L.Ledger, task: Option<R.Task>, success: bool)
    requires Sound(ledger, task)
    ensures Sound(L.Finalized(ledger, success).0, task) && L.Frozen(ledger, L.Finalized(ledger, success).0)
  {
    L.FinalizeKeeps(ledger, success);
    hide L.Valid;
  }

  lemma OperatingIsSound(ledger: L.Ledger, task: Option<R.Task>, control: L.Control)
    requires Sound(ledger, task)
    ensures Sound(L.Controlled(ledger, control).0, task) && L.Frozen(ledger, L.Controlled(ledger, control).0)
  {
    L.ControlKeeps(ledger, control);
    hide L.Valid;
  }

  lemma {:induction false} RunKeepsBase(d: Dispatch, s: Plant, steps: seq<Step>)
    requires Base(d, s)
    ensures Base(d, Run(d, s, steps))
    ensures L.Frozen(s.ledger, Run(d, s, steps).ledger) && R.Lasts(s.task, Run(d, s, steps).task)
    decreases |steps|
  {
    hide Base, L.Frozen, R.Lasts, Next;
    if steps == [] {
      L.FrozenReflexively(s.ledger);
      LastsReflexively(s.task);
    } else {
      var t := Next(d, s, steps[0]);
      StepKeepsBase(d, s, steps[0]);
      RunKeepsBase(d, t, steps[1..]);
      L.FreezingComposes(s.ledger, t.ledger, Run(d, s, steps).ledger);
      R.LastingComposes(s.task, t.task, Run(d, s, steps).task);
    }
  }

  lemma LastsReflexively(task: Option<R.Task>)
    ensures R.Lasts(task, task)
  {
  }

  lemma InitialIsBase(d: Dispatch, amount: nat)
    ensures Base(d, Initial(amount))
  {
  }

  /**
   Crashes, overlapping attempts, cancellations and controls in any order: the provider never has a second task
   under the job ID, a success in the ledger is the provider's success, and the recorded race of a success against
   a cancellation has that success completed and settled.
   */
  lemma AnyRunIsSound(d: Dispatch, amount: nat, steps: seq<Step>)
    ensures var t := Run(d, Initial(amount), steps);
      && t.creations == (if t.task.Some? then 1 else 0)
      && (t.ledger.run == L.Succeeded || t.returned ==> JobSucceeded(t.ledger))
      && (JobSucceeded(t.ledger) ==>
            && t.ledger.job.value.reservation == L.Settled
            && t.task.Some? && t.task.value.response.state == P.Succeeded
            && t.ledger.job.value.upstreamTaskID in {"", t.task.value.response.upstreamTaskID})
      && (t.verdict.Some? && t.verdict.value.state == L.Succeeded ==>
            JobSucceeded(t.ledger) && t.ledger.job.value.reservation == L.Settled)
  {
    hide Knows, L.Balanced;
    InitialIsBase(d, amount);
    RunKeepsBase(d, Initial(amount), steps);
  }

  // ---- Runs whose attempts do not overlap ----

  predicate MayNotSubmit(ledger: L.Ledger) {
    ledger.job.Some? && L.ReconcileOnly(ledger.job.value)
  }

  predicate IsReleased(ledger: L.Ledger) {
    ledger.job.Some? && ledger.job.value.reservation == L.Released
  }

  /** What the only worker relies on. */
  predicate Careful(worker: Worker, ledger: L.Ledger, task: Option<R.Task>, posts: nat) {
    match worker
    case Submitting(reconcileOnly) => !reconcileOnly ==> posts == 0 && !IsReleased(ledger)
    case Intended => posts == 0 && MayNotSubmit(ledger) && !IsReleased(ledger)
    case NothingPrepared => ledger.job.None?
    case CancelAnswered(result, _) => result.noRemoteTask ==> task.None?
    case CancelCompleted(result) => !result.noRemoteTask
    case _ => true
  }

  /** The paid boundary has been crossed at most once, and only with the intent frozen before it. */
  predicate Once(ledger: L.Ledger, task: Option<R.Task>, posts: nat) {
    && posts <= 1
    && (task.Some? ==> posts == 1)
    && (posts == 1 ==> MayNotSubmit(ledger))
    && (IsReleased(ledger) ==> task.None?)
  }

  ghost predicate Solo(d: Dispatch, s: Plant) {
    && Base(d, s)
    && Once(s.ledger, s.task, s.posts)
    && (forall a, b :: a in s.workers && b in s.workers ==> a == b)
    && (forall id :: id in s.workers ==> Careful(s.workers[id], s.ledger, s.task, s.posts))
  }

  /** A transaction that releases nothing, or only what the provider never had, keeps the boundary crossed at most once. */
  lemma TransactionOnce(ledger: L.Ledger, next: L.Ledger, task: Option<R.Task>, posts: nat)
    requires Once(ledger, task, posts) && L.Frozen(ledger, next)
    requires IsReleased(next) ==> IsReleased(ledger) || task.None?
    ensures Once(next, task, posts)
  {
  }

  /** Reading or cancelling a task makes none, and finding none is the only way to conclude there is none. */
  lemma AskingOnce(d: Dispatch, ledger: L.Ledger, task: Option<R.Task>, posts: nat, polled: bool, chance: Chance)
    requires Once(ledger, task, posts)
    ensures var e := Asked(ledger, task, polled, chance);
      Once(e.ledger, e.task, posts) && Careful(e.worker.value, e.ledger, e.task, posts)
    ensures var e := AskedToCancel(d, ledger, task, chance);
      Once(e.ledger, e.task, posts) && (e.worker.Some? ==> Careful(e.worker.value, e.ledger, e.task, posts))
  {
    hide R.Completed, MayNotSubmit, IsReleased, Matches;
  }

  lemma PostingOnce(d: Dispatch, ledger: L.Ledger, task: Option<R.Task>, chance: Chance)
    requires Once(ledger, task, 0) && Careful(Intended, ledger, task, 0)
    ensures var e := Posted(d, ledger, task, chance);
      Once(e.ledger, e.task, 1) && (e.worker.Some? ==> Careful(e.worker.value, e.ledger, e.task, 1))
  {
    hide R.ScenarioError, R.NewTask, MayNotSubmit, IsReleased;
  }

  lemma AnswersNameATask(d: Dispatch, result: L.Cancellation, answer: R.Response, ledger: L.Ledger, task: Option<R.Task>)
    requires Knows(d, CancelAnswered(result, Some(answer)), ledger, task)
    ensures !result.noRemoteTask
  {
  }

  lemma ActingOnce(d: Dispatch, ledger: L.Ledger, task: Option<R.Task>, posts: nat, worker: Worker, chance: Chance)
    requires L.Valid(ledger) && Knows(d, worker, ledger, task)
    requires Once(ledger, task, posts) && Careful(worker, ledger, task, posts)
    requires L.Frozen(ledger, Acted(d, ledger, task, worker, chance).ledger)
    ensures var e := Acted(d, ledger, task, worker, chance);
      var posts' := posts + (if e.posted then 1 else 0);
      Once(e.ledger, e.task, posts') && (e.worker.Some? ==> Careful(e.worker.value, e.ledger, e.task, posts'))
  {
    hide L.Valid, L.Frozen, L.Observed, L.CompletedJob, L.CancellationRecorded, R.Got, R.Created, R.CancelledTask, Once,
      MayNotSubmit, IsReleased, Matches, ProviderObservation, Knows, CancellationOf;
    match worker {
      case Submitting(reconcileOnly) =>
        if reconcileOnly {
          AskingOnce(d, ledger, task, posts, false, chance);
        } else {
          IntentIsFrozen(ledger);
          if !chance.aborted && L.Observed(ledger, DOUBT).1 { TransactionOnce(ledger, L.Observed(ledger, DOUBT).0, task, posts); }
        }
      case Intended => PostingOnce(d, ledger, task, chance);
      case Answered(response, polled) =>
        ObservingReleasesNothing(ledger, ProviderObservation(response));
        TransactionOnce(ledger, Acted(d, ledger, task, worker, chance).ledger, task, posts);
      case Polling => AskingOnce(d, ledger, task, posts, true, chance);
      case Doubtful =>
        ObservingReleasesNothing(ledger, DOUBT);
        TransactionOnce(ledger, Acted(d, ledger, task, worker, chance).ledger, task, posts);
      case Finished(response) =>
        CompletingReleasesNothing(d, ledger, response);
        TransactionOnce(ledger, Acted(d, ledger, task, worker, chance).ledger, task, posts);
      case Cancelling => AskingOnce(d, ledger, task, posts, false, chance);
      case _ => CancelActingOnce(d, ledger, task, posts, worker, chance);
    }
  }

  lemma CancelActingOnce(d: Dispatch, ledger: L.Ledger, task: Option<R.Task>, posts: nat, worker: Worker, chance: Chance)
    requires worker.NothingPrepared? || worker.CancelAnswered? || worker.CancelCompleted?
    requires L.Valid(ledger) && Knows(d, worker, ledger, task)
    requires Once(ledger, task, posts) && Careful(worker, ledger, task, posts)
    requires L.Frozen(ledger, Acted(d, ledger, task, worker, chance).ledger)
    ensures var e := Acted(d, ledger, task, worker, chance);
      Once(e.ledger, e.task, posts) && (e.worker.Some? ==> Careful(e.worker.value, e.ledger, e.task, posts))
  {
    var next := Acted(d, ledger, task, worker, chance).ledger;
    hide L.Valid, L.Frozen, L.CompletedJob, L.CancellationRecorded, Once, MayNotSubmit, IsReleased, Knows;
    match worker {
      case NothingPrepared => RecordingReleasesOnlyAbsence(d, ledger, NO_REMOTE_TASK, chance.history);
      case CancelAnswered(result, answer) =>
        RecordingReleasesOnlyAbsence(d, ledger, result, chance.history);
        if answer.Some? {
          CompletingReleasesNothing(d, ledger, answer.value);
          AnswersNameATask(d, result, answer.value, ledger, task);
        }
      case CancelCompleted(result) => RecordingReleasesOnlyAbsence(d, ledger, result, chance.history);
    }
    TransactionOnce(ledger, next, task, posts);
  }

  lemma IntentIsFrozen(ledger: L.Ledger)
    requires L.Valid(ledger)
    ensures var (next, ok) := L.Observed(ledger, DOUBT);
      ok ==> IsReleased(next) == IsReleased(ledger) && (next.job.Some? && MayNotSubmit(next))
  {
  }

  lemma ObservingReleasesNothing(ledger: L.Ledger, seen: L.Observation)
    ensures IsReleased(L.Observed(ledger, seen).0) == IsReleased(ledger)
  {
  }

  lemma CompletingReleasesNothing(d: Dispatch, ledger: L.Ledger, response: R.Response)
    requires L.Valid(ledger)
    ensures IsReleased(L.CompletedJob(ledger, CompletionOf(d, response)).0) == IsReleased(ledger)
  {
  }

  lemma RecordingReleasesOnlyAbsence(d: Dispatch, ledger: L.Ledger, result: L.Cancellation, history: bool)
    requires L.Valid(ledger)
    ensures IsReleased(L.CancellationRecorded(ledger, result, history).0) ==>
              IsReleased(ledger) || (result.noRemoteTask && ledger.job.Some?)
  {
  }

  lemma StepKeepsSolo(d: Dispatch, s: Plant, step: Step)
    requires Solo(d, s) && Orderly(s, step)
    ensures Solo(d, Next(d, s, step))
  {
    StepKeepsBase(d, s, step);
    hide Base, Knows, L.Valid;
    match step {
      case Act(id, chance) =>
        if id in s.workers { SoloActing(d, s, id, chance); }
      case _ => OthersKeepSolo(d, s, step);
    }
  }

  lemma SoloActing(d: Dispatch, s: Plant, id: nat, chance: Chance)
    requires Solo(d, s) && id in s.workers && Base(d, Next(d, s, Act(id, chance)))
    ensures Solo(d, Next(d, s, Act(id, chance)))
  {
    assert L.Valid(s.ledger) && Sound(s.ledger, s.task) && Knows(d, s.workers[id], s.ledger, s.task);
    ActingIsFair(d, s.ledger, s.task, s.workers[id], chance);
    hide Sound, Knows, Once, Careful, Acted, Base, L.Frozen;
    ActingOnce(d, s.ledger, s.task, s.posts, s.workers[id], chance);
  }

  lemma OthersKeepSolo(d: Dispatch, s: Plant, step: Step)
    requires Solo(d, s) && Orderly(s, step) && !step.Act? && Base(d, Next(d, s, step))
    ensures Solo(d, Next(d, s, step))
  {
    assert L.Valid(s.ledger) && (s.returned ==> JobSucceeded(s.ledger));
    hide Base, Knows, L.Valid, Once, Careful, L.Prepared, L.Finalized, L.Controlled, R.Next, JobSucceeded;
    match step {
      case StartExecute(id) => PreparingOnce(s.ledger, s.task, s.posts);
      case StartCancel(id) => LookingOnce(s.ledger, s.task, s.posts);
      case Crash(id) =>
      case Finalize(success) =>
        VerdictsAfterSuccessReleaseNothing(s.ledger, success);
        SameJobOnce(s, L.Finalized(s.ledger, success).0, s.task);
      case Operate(control) =>
        OperatingKeepsTheJob(s.ledger, control);
        SameJobOnce(s, L.Controlled(s.ledger, control).0, s.task);
      case Upstream(event) =>
        KeepsItsTask(d, s, step);
        SameJobOnce(s, s.ledger, Next(d, s, step).task);
    }
  }

  lemma OperatingKeepsTheJob(ledger: L.Ledger, control: L.Control)
    ensures L.Controlled(ledger, control).0.job == ledger.job
  {
  }

  lemma LookingOnce(ledger: L.Ledger, task: Option<R.Task>, posts: nat)
    ensures Careful(if ledger.job.Some? then Cancelling else NothingPrepared, ledger, task, posts)
  {
  }

  /** The invariants look at the ledger's job and at whether there is a task, nothing else. */
  lemma SameJobOnce(s: Plant, ledger: L.Ledger, task: Option<R.Task>)
    requires Once(s.ledger, s.task, s.posts) && ledger.job == s.ledger.job && task.Some? == s.task.Some?
    ensures Once(ledger, task, s.posts)
    ensures forall id :: id in s.workers && Careful(s.workers[id], s.ledger, s.task, s.posts) ==>
              Careful(s.workers[id], ledger, task, s.posts)
  {
  }

  lemma PreparingOnce(ledger: L.Ledger, task: Option<R.Task>, posts: nat)
    requires L.Valid(ledger) && Once(ledger, task, posts)
    ensures var (next, prepared) := L.Prepared(ledger);
      Once(next, task, posts) && (prepared.Some? ==> Careful(Submitting(prepared.value), next, task, posts))
  {
  }

  lemma VerdictsAfterSuccessReleaseNothing(ledger: L.Ledger, success: bool)
    requires L.Valid(ledger) && JobSucceeded(ledger)
    ensures L.Finalized(ledger, success).0.job == ledger.job
  {
  }

  lemma {:induction false} RunKeepsSolo(d: Dispatch, s: Plant, steps: seq<Step>)
    requires Solo(d, s) && OrderlyRun(d, s, steps)
    ensures Solo(d, Run(d, s, steps))
    decreases |steps|
  {
    hide Solo, Next, Orderly;
    if steps != [] {
      StepKeepsSolo(d, s, steps[0]);
      RunKeepsSolo(d, Next(d, s, steps[0]), steps[1..]);
    }
  }

  /** Crashes, retries, pauses, resumptions and cancellations, but no overlap: the paid request is sent at most once. */
  lemma AtMostOnePost(d: Dispatch, amount: nat, steps: seq<Step>)
    requires OrderlyRun(d, Initial(amount), steps)
    ensures Run(d, Initial(amount), steps).posts <= 1
  {
    hide Base, Careful;
    InitialIsBase(d, amount);
    RunKeepsSolo(d, Initial(amount), steps);
  }

  /** The ledger holds the run to owe the provider nothing: cancelled before it was prepared, or given back whole. */
  predicate OwesNothing(ledger: L.Ledger) {
    (ledger.run == L.Cancelled && ledger.job.None?) || IsReleased(ledger)
  }

  lemma OwingNothingLasts(d: Dispatch, s: Plant, step: Step)
    requires Base(d, s) && OwesNothing(s.ledger)
    ensures OwesNothing(Next(d, s, step).ledger)
  {
    StepKeepsBase(d, s, step);
    if s.ledger.job.None? {
      hide Base;
      UnpreparedStays(d, s, step);
    }
  }

  /** A run that ended without a prepared job never gets one. */
  lemma UnpreparedStays(d: Dispatch, s: Plant, step: Step)
    requires s.ledger.run == L.Cancelled && s.ledger.job.None?
    ensures Next(d, s, step).ledger.job.None?
  {
    hide R.Got, R.Created, R.CancelledTask, R.CalledBack, CancellationOf, ProviderObservation, R.Completed;
  }

  lemma {:induction false} OwingNothingLastsForever(d: Dispatch, s: Plant, steps: seq<Step>)
    requires Base(d, s) && OwesNothing(s.ledger)
    ensures OwesNothing(Run(d, s, steps).ledger)
    decreases |steps|
  {
    hide Base, OwesNothing, Next;
    if steps != [] {
      StepKeepsBase(d, s, steps[0]);
      OwingNothingLasts(d, s, steps[0]);
      OwingNothingLastsForever(d, Next(d, s, steps[0]), steps[1..]);
    }
  }

  /**
   Compensation is safe: once the ledger holds that nothing is owed, the provider has not accepted the job and
   never will, so an outcome that could still cost money is never released.
   */
  lemma ReleasedMeansNeverAccepted(d: Dispatch, amount: nat, before: seq<Step>, after: seq<Step>)
    requires var s := Run(d, Initial(amount), before);
      OrderlyRun(d, Initial(amount), before) && OrderlyRun(d, s, after) && OwesNothing(s.ledger)
    ensures var t := Run(d, Run(d, Initial(amount), before), after);
      t.task.None? && t.creations == 0 && OwesNothing(t.ledger)
  {
    var s := Run(d, Initial(amount), before);
    hide Careful, Knows, Sound, Orderly, Next, R.Lasts, L.Frozen, Run, OrderlyRun;
    InitialIsBase(d, amount);
    RunKeepsSolo(d, Initial(amount), before);
    RunKeepsSolo(d, s, after);
    OwingNothingLastsForever(d, s, after);
  }

  // ---- Verdicts that there is no remote task ----

  /** A worker sends the request exactly if it stood before it, and gets there only by freezing its intent. */
  lemma OnlyIntentsPost(d: Dispatch, ledger: L.Ledger, task: Option<R.Task>, worker: Worker, chance: Chance)
    ensures var e := Acted(d, ledger, task, worker, chance);
      && (e.posted <==> worker.Intended?)
      && (e.worker.Some? ==> !e.worker.value.Submitting?)
      && (e.worker == Some(Intended) ==>
            worker == Submitting(false) && L.Observed(ledger, DOUBT).1 && e.ledger == L.Observed(ledger, DOUBT).0)
  {
    hide L.Observed, L.CompletedJob, L.CancellationRecorded, R.Got, R.Created, R.CancelledTask;
    hide Matches, ProviderObservation, CancellationOf;
  }

  /** Nothing but sending the request makes a task. */
  lemma OnlyPostsMakeTasks(d: Dispatch, ledger: L.Ledger, task: Option<R.Task>, worker: Worker, chance: Chance)
    requires !worker.Intended?
    ensures Acted(d, ledger, task, worker, chance).task.Some? == task.Some?
  {
    hide L.Observed, L.CompletedJob, L.CancellationRecorded, R.Completed, Matches, ProviderObservation, CancellationOf;
  }

  /** The run has ended without a task, so no attempt may freeze an intent any more. */
  predicate Void(ledger: L.Ledger, task: Option<R.Task>) {
    task.None? && ledger.run in {L.Failed, L.Cancelled}
  }

  lemma VoidRunsRefuseIntents(ledger: L.Ledger, task: Option<R.Task>)
    requires Void(ledger, task) && Linked(ledger, task)
    ensures !L.Observed(ledger, DOUBT).1
  {
  }

  /** If the recorded verdict is that there is no remote task, there is none, and nobody is about to make one. */
  ghost predicate VerdictHolds(s: Plant) {
    s.verdict.Some? && s.verdict.value.noRemoteTask ==>
      Void(s.ledger, s.task) && forall id :: id in s.workers ==> !s.workers[id].Intended?
  }

  /** A worker records that verdict only of a run without a task, which it ends, and then stops. */
  lemma AbsenceIsRecordedTruly(d: Dispatch, ledger: L.Ledger, task: Option<R.Task>, posts: nat, worker: Worker, chance: Chance)
    requires Sound(ledger, task) && Knows(d, worker, ledger, task)
    requires Once(ledger, task, posts) && Careful(worker, ledger, task, posts)
    ensures var e := Acted(d, ledger, task, worker, chance);
      e.verdict.Some? && e.verdict.value.noRemoteTask ==> Void(e.ledger, e.task) && e.worker.None?
  {
    hide L.Balanced, L.Observed, L.CompletedJob, R.Got, R.Created, R.CancelledTask, Matches, ProviderObservation, L.CancellationRecorded;
    if worker.NothingPrepared? || (worker.CancelAnswered? && worker.result.noRemoteTask) {
      AbsenceEndsTheRun(ledger, task, chance.history);
    }
  }

  lemma AbsenceEndsTheRun(ledger: L.Ledger, task: Option<R.Task>, history: bool)
    requires Sound(ledger, task) && task.None?
    ensures var (next, ok) := L.CancellationRecorded(ledger, NO_REMOTE_TASK, history); ok ==> next.run in {L.Failed, L.Cancelled}
  {
    hide L.Balanced;
  }

  lemma StepKeepsVerdict(d: Dispatch, s: Plant, step: Step)
    requires Solo(d, s) && Orderly(s, step) && VerdictHolds(s)
    ensures VerdictHolds(Next(d, s, step))
  {
    StepKeepsBase(d, s, step);
    assert Sound(s.ledger, s.task);
    hide Base, Sound, Once, Careful, Acted, L.Prepared, L.Finalized, L.Controlled, R.Next;
    if step.Act? && step.id in s.workers {
      ActingKeepsVerdict(d, s, step.id, step.chance);
    } else {
      KeepsItsTask(d, s, step);
    }
  }

  lemma ActingKeepsVerdict(d: Dispatch, s: Plant, id: nat, chance: Chance)
    requires Solo(d, s) && VerdictHolds(s) && id in s.workers
    requires L.Frozen(s.ledger, Next(d, s, Act(id, chance)).ledger)
    ensures VerdictHolds(Next(d, s, Act(id, chance)))
  {
    var worker := s.workers[id];
    assert Sound(s.ledger, s.task) && Knows(d, worker, s.ledger, s.task) && Careful(worker, s.ledger, s.task, s.posts);
    hide Base, Once, Careful, Knows, Acted;
    assert Linked(s.ledger, s.task);
    hide Sound, Linked;
    AbsenceIsRecordedTruly(d, s.ledger, s.task, s.posts, worker, chance);
    OnlyIntentsPost(d, s.ledger, s.task, worker, chance);
    if Void(s.ledger, s.task) {
      VoidRunsRefuseIntents(s.ledger, s.task);
    }
    if !worker.Intended? {
      OnlyPostsMakeTasks(d, s.ledger, s.task, worker, chance);
    }
  }

  lemma {:induction false} RunKeepsVerdict(d: Dispatch, s: Plant, steps: seq<Step>)
    requires Solo(d, s) && OrderlyRun(d, s, steps) && VerdictHolds(s)
    ensures VerdictHolds(Run(d, s, steps))
    decreases |steps|
  {
    hide Solo, Next, Orderly, VerdictHolds;
    if steps != [] {
      StepKeepsSolo(d, s, steps[0]);
      StepKeepsVerdict(d, s, steps[0]);
      RunKeepsVerdict(d, Next(d, s, steps[0]), steps[1..]);
    }
  }

  /** Such a run stays without a task, whatever its later verdicts. */
  lemma {:induction false} VoidRunsStayVoid(d: Dispatch, s: Plant, steps: seq<Step>)
    requires Base(d, s) && Void(s.ledger, s.task) && forall id :: id in s.workers ==> !s.workers[id].Intended?
    ensures Run(d, s, steps).task.None?
    decreases |steps|
  {
    hide Base, Next;
    if steps != [] {
      StepKeepsBase(d, s, steps[0]);
      StepKeepsVoid(d, s, steps[0]);
      VoidRunsStayVoid(d, Next(d, s, steps[0]), steps[1..]);
    }
  }

  lemma StepKeepsVoid(d: Dispatch, s: Plant, step: Step)
    requires Base(d, s) && Void(s.ledger, s.task) && forall id :: id in s.workers ==> !s.workers[id].Intended?
    ensures var t := Next(d, s, step);
      Void(t.ledger, t.task) && forall id :: id in t.workers ==> !t.workers[id].Intended?
  {
    StepKeepsBase(d, s, step);
    assert Linked(s.ledger, s.task);
    hide Base, Linked, Acted, L.Prepared, L.Finalized, L.Controlled, R.Next;
    if step.Act? && step.id in s.workers {
      OnlyIntentsPost(d, s.ledger, s.task, s.workers[step.id], step.chance);
      OnlyPostsMakeTasks(d, s.ledger, s.task, s.workers[step.id], step.chance);
      VoidRunsRefuseIntents(s.ledger, s.task);
    } else {
      KeepsItsTask(d, s, step);
    }
  }

  /**
   A recorded verdict that there is no remote task is true, for good: in a run whose attempts did not overlap the
   provider has made none, and it makes none whatever happens afterwards, overlapping attempts included.
   */
  lemma NoRemoteTaskVerdictsHold(d: Dispatch, amount: nat, before: seq<Step>, after: seq<Step>)
    requires OrderlyRun(d, Initial(amount), before)
    requires var s := Run(d, Initial(amount), before); s.verdict.Some? && s.verdict.value.noRemoteTask
    ensures var t := Run(d, Run(d, Initial(amount), before), after); t.task.None? && t.creations == 0
  {
    var s := Run(d, Initial(amount), before);
    hide Careful, Knows, Sound, Orderly, Next, R.Lasts, L.Frozen, Run, OrderlyRun;
    InitialIsBase(d, amount);
    RunKeepsSolo(d, Initial(amount), before);
    RunKeepsVerdict(d, Initial(amount), before);
    RunKeepsBase(d, s, after);
    VoidRunsStayVoid(d, s, after);
  }
}
