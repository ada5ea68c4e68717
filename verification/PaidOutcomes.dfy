/**
 What the paid-job activities come to when nothing disturbs them: which answers end them, what they leave in the
 ledger, and that a task the provider finishes is taken over.
 */
module PaidOutcomes {
  import opened Wrappers
  import opened Text
  import opened PaidJob
  import opened PaidOverlaps
  import P = ProviderContract
  import R = TaskRegistry
  import L = PaidLedger

  /** Everything arrives and commits, and the artifact store keeps what it is given. */
  function Smooth(artifact: string): Chance {
    Chance(Delivered, Some(artifact), false, false)
  }

  /** The response is about the dispatched job. */
  predicate Ours(d: Dispatch, response: R.Response) {
    response.jobID == d.request.jobID && response.runID == d.request.runID && response.model == d.request.model
  }

  // ---- What one answer decides ----

  /** Nothing but the ledger and the worker's own next step changes. */
  predicate OnlyLedger(e: Effect, task: Option<R.Task>) {
    e.task == task && !e.posted && !e.returned && e.verdict.None?
  }

  /** What the ledger comes to hold about a live job that has been answered. */
  predicate Answers(ledger: L.Ledger, later: L.Ledger, response: R.Response) {
    && later.job.Some? && later.amount == ledger.amount && later.attempt == later.run
    && later.job.value.state == (match response.state
         case Queued => L.Running case Running => L.Running case Succeeded => L.Running
         case RequiresAction => L.RequiresAction case _ => L.Unknown)
    && later.run == (if later.job.value.state == L.Unknown then L.Reconciling else later.job.value.state)
    && later.job.value.upstreamTaskID == response.upstreamTaskID && later.job.value.requestID == response.requestID
    && later.job.value.reservation == L.Reserved
  }

  /** What the worker does next: take a success over, keep polling, or stop. */
  function Sequel(response: R.Response, polled: bool): Option<Worker> {
    match response.state
    case Succeeded => if response.artifacts != [] then Some(Finished(response)) else None
    case Queued => Some(Polling)
    case Running => Some(Polling)
    case Unknown => Some(Polling)
    case RequiresAction => if polled then None else Some(Polling)
    case _ => None
  }

  /** An answer about a live job is frozen in the ledger and decides how the worker goes on; a foreign one stops it. */
  lemma AnswersDecide(d: Dispatch, ledger: L.Ledger, task: Option<R.Task>, response: R.Response, polled: bool, chance: Chance)
    requires L.Valid(ledger) && L.Live(ledger) && !chance.aborted
    requires L.Agrees(ledger.job.value, response.upstreamTaskID, response.requestID)
    ensures var e := Acted(d, ledger, task, Answered(response, polled), chance);
      && OnlyLedger(e, task)
      && (if Ours(d, response) then Answers(ledger, e.ledger, response) && e.worker == Sequel(response, polled)
          else e.ledger == ledger && e.worker.None?)
  {
    L.ObserveKeeps(ledger, ProviderObservation(response));
    hide L.Valid, L.Observed;
  }

  /** After a success the ledger stays as it is, and the answer decides in the same way; after a failure the worker stops. */
  lemma AnswersAfterTheEnd(d: Dispatch, ledger: L.Ledger, task: Option<R.Task>, response: R.Response, polled: bool, chance: Chance)
    requires L.Valid(ledger) && ledger.job.Some? && !L.Live(ledger) && !chance.aborted
    ensures var e := Acted(d, ledger, task, Answered(response, polled), chance);
      && OnlyLedger(e, task) && e.ledger == ledger
      && e.worker == (if Ours(d, response) && JobSucceeded(ledger) then Sequel(response, polled) else None)
  {
    L.ObserveKeeps(ledger, ProviderObservation(response));
    hide L.Valid, L.Observed;
  }

  /** Taking a success over completes a live job exactly if its cost is usable and affordable. */
  lemma FinishingDecides(d: Dispatch, ledger: L.Ledger, task: Option<R.Task>, response: R.Response, chance: Chance)
    requires L.Valid(ledger) && L.Live(ledger) && !chance.aborted
    ensures var e := Acted(d, ledger, task, Finished(response), chance);
      var cost := d.cost(response);
      && e.task == task && !e.posted && e.worker.None? && e.verdict.None?
      && (e.returned <==> cost.usageValid && L.Affordable(cost, ledger.amount))
      && (!cost.usageValid ==> e.ledger == ledger)
      && (cost.usageValid ==>
            && e.ledger.job.Some? && e.ledger.amount == ledger.amount
            && e.ledger.attempt == e.ledger.job.value.state == (if e.returned then L.Succeeded else L.Failed)
            && e.ledger.run == (if !e.returned then L.Failed else if ledger.run == L.Paused then L.Paused else L.Succeeded)
            && e.ledger.job.value.upstreamTaskID == response.upstreamTaskID && e.ledger.job.value.requestID == response.requestID
            && L.Books(e.ledger.job.value, cost, true, ledger.amount))
  {
    L.CompleteKeeps(ledger, CompletionOf(d, response));
    hide L.Valid, L.CompletedJob, L.Books, L.Affordable;
  }

  /** Whoever is left in doubt freezes the doubt and stops. */
  lemma DoubtsStop(d: Dispatch, ledger: L.Ledger, task: Option<R.Task>, chance: Chance)
    requires L.Valid(ledger) && L.Live(ledger) && !chance.aborted
    ensures var e := Acted(d, ledger, task, Doubtful, chance);
      && OnlyLedger(e, task) && e.worker.None?
      && e.ledger == ledger.(run := L.Reconciling, attempt := L.Reconciling, job := Some(ledger.job.value.(state := L.Unknown)))
  {
    L.ObserveKeeps(ledger, DOUBT);
    hide L.Valid, L.Observed;
  }

  /** Only an answered refusal that rules a task out ends a submit without doubt. */
  lemma SubmitsDecide(d: Dispatch, ledger: L.Ledger, task: Option<R.Task>, chance: Chance)
    ensures var e := Acted(d, ledger, task, Intended, chance);
      var (next, r) := R.Created(d.digests, task, d.valid, d.request.jobID, d.request);
      && e.ledger == ledger && e.posted && !e.returned && e.verdict.None?
      && e.task == (if chance.network == NeverArrived then task else next)
      && e.worker == (if chance.network != Delivered then Some(Doubtful)
                      else if r.Ok? then Some(Answered(r.value, false))
                      else if r.error in {P.Unavailable, P.Timeout} then Some(Doubtful)
                      else None)
  {
    hide R.Created;
  }

  /** Asking brings the task's current response, or leaves the outcome in doubt. */
  lemma AsksDecide(d: Dispatch, ledger: L.Ledger, task: Option<R.Task>, chance: Chance)
    ensures var e := Acted(d, ledger, task, Polling, chance);
      && e == Acted(d, ledger, task, Submitting(true), chance).(worker := e.worker)
      && e.ledger == ledger && !e.posted && !e.returned && e.verdict.None?
      && e.task == (if chance.network == NeverArrived then task else R.Got(task, chance.artifact).0)
      && e.worker == Some(if chance.network == Delivered && task.Some? then Answered(e.task.value.response, true) else Doubtful)
    ensures Acted(d, ledger, task, Submitting(true), chance).worker
         == Some(if chance.network == Delivered && task.Some?
                 then Answered(R.Got(task, chance.artifact).0.value.response, false) else Doubtful)
  {
  }

  /** The intent is frozen before anything is sent. */
  lemma IntentsDecide(d: Dispatch, ledger: L.Ledger, task: Option<R.Task>, chance: Chance)
    requires L.Valid(ledger) && L.Live(ledger) && !chance.aborted
    ensures var e := Acted(d, ledger, task, Submitting(false), chance);
      && OnlyLedger(e, task) && e.worker == Some(Intended)
      && e.ledger == ledger.(run := L.Reconciling, attempt := L.Reconciling, job := Some(ledger.job.value.(state := L.Unknown)))
  {
    L.ObserveKeeps(ledger, DOUBT);
    hide L.Valid, L.Observed;
  }

  /** A transaction that does not commit leaves nothing behind, and its attempt stops. */
  lemma AbortsStop(d: Dispatch, ledger: L.Ledger, task: Option<R.Task>, worker: Worker, chance: Chance)
    requires chance.aborted && worker != Submitting(true) && !(worker.Intended? || worker.Polling? || worker.Cancelling?)
    ensures var e := Acted(d, ledger, task, worker, chance);
      e.ledger == ledger && OnlyLedger(e, task) && e.worker.None?
  {
  }

  /** Beside a job that has ended nothing new is frozen: a succeeded one lets an intent pass and confirms its own completion. */
  lemma LateStepsDecide(d: Dispatch, ledger: L.Ledger, task: Option<R.Task>, response: R.Response, chance: Chance)
    requires L.Valid(ledger) && !L.Live(ledger) && !chance.aborted
    ensures var e := Acted(d, ledger, task, Submitting(false), chance);
      e.ledger == ledger && OnlyLedger(e, task) && e.worker == (if JobSucceeded(ledger) then Some(Intended) else None)
    ensures var e := Acted(d, ledger, task, Doubtful, chance);
      e.ledger == ledger && OnlyLedger(e, task) && e.worker.None?
    ensures var e := Acted(d, ledger, task, Finished(response), chance);
      var cost := d.cost(response);
      && (e.returned <==> cost.usageValid && JobSucceeded(ledger) && ledger.job.value.actual == cost.actual
                          && ledger.job.value.upstreamTaskID == response.upstreamTaskID
                          && ledger.job.value.requestID == response.requestID
                          && ledger.run in {L.Succeeded, L.Paused, L.Running})
      && e.ledger == (if e.returned && ledger.run == L.Running then ledger.(run := L.Succeeded) else ledger)
      && e.task == task && !e.posted && e.worker.None? && e.verdict.None?
  {
    L.ObserveKeeps(ledger, DOUBT);
    L.RepeatedCompletions(ledger, CompletionOf(d, response));
    hide L.Valid, L.Observed, L.CompletedJob;
  }

  /**
   An execution starts by preparing the job, and may submit exactly if nothing has crossed the paid boundary; it does not
   start on a run that ended unprepared. A cancellation asks the provider only if there is a job.
   */
  lemma AttemptsStart(d: Dispatch, s: Plant, id: nat)
    requires L.Valid(s.ledger) && id !in s.workers
    ensures var t := Next(d, s, StartExecute(id));
      if s.ledger.job.None? && (s.ledger.run.Terminal() || s.ledger.attempt != L.Validated) then t == s
      else
        && t == s.(ledger := t.ledger, workers := t.workers)
        && t.workers == s.workers[id := Submitting(s.ledger.job.Some? && L.ReconcileOnly(s.ledger.job.value))]
        && (if s.ledger.job.Some? then t.ledger == s.ledger else L.Live(t.ledger) && !L.HasName(t.ledger.job.value))
    ensures var t := Next(d, s, StartCancel(id));
      && t == s.(workers := t.workers)
      && t.workers == s.workers[id := if s.ledger.job.Some? then Cancelling else NothingPrepared]
    ensures var working := s.(workers := s.workers[id := Doubtful]);
      Next(d, working, StartExecute(id)) == Next(d, working, StartCancel(id)) == working && Next(d, working, Crash(id)) == s
  {
    L.PrepareKeeps(s.ledger);
    assert s.workers[id := Doubtful] - {id} == s.workers;
    hide L.Valid, L.Prepared;
  }

  /** The workflow's verdict, the operators and the registry's other callers act as their own parts of the system say. */
  lemma OutsidersAct(d: Dispatch, s: Plant, success: bool, control: L.Control, event: R.Event)
    ensures Next(d, s, Finalize(success)) == s.(ledger := L.Next(s.ledger, L.Finalize(success)))
    ensures Next(d, s, Operate(control)) == s.(ledger := L.Next(s.ledger, L.Operate(control)))
    ensures !event.Create? ==> Next(d, s, Upstream(event)) == s.(task := R.Next(d.digests, s.task, event))
  {
    hide L.Finalized, L.Controlled, R.Next;
  }

  // ---- Undisturbed steps of one attempt ----

  lemma ActStep(d: Dispatch, s: Plant, id: nat, chance: Chance)
    requires Base(d, s) && id in s.workers
    ensures var e := Acted(d, s.ledger, s.task, s.workers[id], chance);
      var t := Next(d, s, Act(id, chance));
      && Base(d, t)
      && t.ledger == e.ledger && t.task == e.task && t.returned == (s.returned || e.returned)
      && t.posts == s.posts + (if e.posted then 1 else 0)
      && t.verdict == (if e.verdict.Some? then e.verdict else s.verdict)
      && t.workers == (if e.worker.Some? then s.workers[id := e.worker.value] else s.workers - {id})
  {
    StepKeepsBase(d, s, Act(id, chance));
    hide Base, Acted;
  }

  /** The attempt stands with the answer to a job that is still live. */
  ghost predicate Stands(d: Dispatch, s: Plant, id: nat, worker: Worker) {
    Base(d, s) && id in s.workers && s.workers[id] == worker && L.Live(s.ledger)
  }

  /** What an attempt knows agrees with what the ledger holds. */
  lemma AnswersAgree(d: Dispatch, s: Plant, id: nat, response: R.Response, polled: bool)
    requires Stands(d, s, id, Answered(response, polled))
    ensures L.Agrees(s.ledger.job.value, response.upstreamTaskID, response.requestID) && L.Valid(s.ledger) && !s.returned
  {
    assert Knows(d, s.workers[id], s.ledger, s.task);
    hide L.Valid, R.Honest;
  }

  /**
   A success the provider answers with is taken over in two undisturbed steps: the execution returns, and the job has
   succeeded under the provider's identity, if and only if the reported cost is usable and affordable.
   */
  lemma AnsweredSuccessesReturn(d: Dispatch, s: Plant, id: nat, response: R.Response, polled: bool, artifact: string)
    requires Stands(d, s, id, Answered(response, polled))
    requires Ours(d, response) && response.state == P.Succeeded && response.artifacts != []
    ensures var t := Run(d, s, [Act(id, Smooth(artifact)), Act(id, Smooth(artifact))]);
      var cost := d.cost(response);
      && (t.returned <==> cost.usageValid && L.Affordable(cost, s.ledger.amount))
      && (t.returned <==> JobSucceeded(t.ledger)) && id !in t.workers && t.task == s.task && t.posts == s.posts
      && (t.returned ==>
            && t.ledger.run == L.Succeeded && t.ledger.job.value.upstreamTaskID == response.upstreamTaskID
            && t.ledger.job.value.requestID == response.requestID)
      && (cost.usageValid && !t.returned ==> t.ledger.run == L.Failed)
      && (!cost.usageValid ==> L.Live(t.ledger))
      && (cost.usageValid ==> t.ledger.job.Some? && L.Books(t.ledger.job.value, cost, true, s.ledger.amount))
  {
    var act := Act(id, Smooth(artifact));
    var t := Next(d, s, act);
    AnswersAgree(d, s, id, response, polled);
    ActStep(d, s, id, Smooth(artifact));
    AnswersDecide(d, s.ledger, s.task, response, polled, Smooth(artifact));
    ActStep(d, t, id, Smooth(artifact));
    assert L.Valid(t.ledger);
    FinishingDecides(d, t.ledger, t.task, response, Smooth(artifact));
    TwoSteps(d, s, act, act);
    hide Base, Acted, Next, Run, L.Valid, L.Books, L.Affordable;
  }

  // ---- A whole undisturbed execution ----

  function Acts(artifact: string, n: nat): seq<Step> {
    seq(n, _ => Act(0, Smooth(artifact)))
  }

  /** One execution, n steps after it started, with nobody else about. */
  function Undisturbed(d: Dispatch, amount: nat, artifact: string, n: nat): Plant {
    Run(d, Initial(amount), [StartExecute(0)] + Acts(artifact, n))
  }

  lemma UndisturbedExtends(d: Dispatch, amount: nat, artifact: string, n: nat)
    ensures Undisturbed(d, amount, artifact, n + 1) == Next(d, Undisturbed(d, amount, artifact, n), Act(0, Smooth(artifact)))
  {
    var steps := [StartExecute(0)] + Acts(artifact, n);
    assert [StartExecute(0)] + Acts(artifact, n + 1) == steps + [Act(0, Smooth(artifact))];
    RunExtends(d, Initial(amount), steps, Act(0, Smooth(artifact)));
    hide Next;
  }

  /** How far the execution has come: what it does next, and that it has sent posts requests and found the task so. */
  ghost predicate Reaches(d: Dispatch, s: Plant, amount: nat, worker: Worker, task: Option<R.Task>) {
    && Stands(d, s, 0, worker) && s.workers == map[0 := worker] && s.task == task && s.ledger.amount == amount
    && s.posts == s.creations == (if task.Some? then 1 else 0)
  }

  lemma ExecutionStarts(d: Dispatch, amount: nat, artifact: string)
    ensures Reaches(d, Undisturbed(d, amount, artifact, 0), amount, Submitting(false), None)
  {
    EarlyTransactions(amount);
    InitialIsBase(d, amount);
    StepKeepsBase(d, Initial(amount), StartExecute(0));
    RunExtends(d, Initial(amount), [], StartExecute(0));
    assert [StartExecute(0)] + Acts(artifact, 0) == [] + [StartExecute(0)];
    hide Base, L.Prepared, L.Observed, L.CancellationRecorded, L.Finalized;
    assert Next(d, Initial(amount), StartExecute(0)).workers == map[0 := Submitting(false)];
  }

  /** The task as the request makes it. */
  function Made(d: Dispatch): R.Task {
    R.NewTask(d.digests, d.request)
  }

  lemma IntentStep(d: Dispatch, s: Plant, amount: nat, artifact: string)
    requires Reaches(d, s, amount, Submitting(false), None)
    ensures Reaches(d, Next(d, s, Act(0, Smooth(artifact))), amount, Intended, None)
  {
    assert L.Valid(s.ledger);
    ActStep(d, s, 0, Smooth(artifact));
    IntentsDecide(d, s.ledger, s.task, Smooth(artifact));
    StepCreations(d, s, Smooth(artifact));
    hide Base, Acted, Next, L.Valid;
  }

  lemma StepCreations(d: Dispatch, s: Plant, chance: Chance)
    requires 0 in s.workers
    ensures Next(d, s, Act(0, chance)).creations
         == s.creations + (if s.task.None? && Next(d, s, Act(0, chance)).task.Some? then 1 else 0)
  {
    hide Acted;
  }

  lemma PostStep(d: Dispatch, s: Plant, amount: nat, artifact: string)
    requires Acceptable(d) && Reaches(d, s, amount, Intended, None)
    ensures Reaches(d, Next(d, s, Act(0, Smooth(artifact))), amount, Answered(Made(d).response, false), Some(Made(d)))
  {
    ActStep(d, s, 0, Smooth(artifact));
    SubmitsDecide(d, s.ledger, s.task, Smooth(artifact));
    StepCreations(d, s, Smooth(artifact));
    hide Base, Acted, Next, R.ScenarioError;
  }

  /** An answer that is not final sends the execution on to poll. */
  lemma NoteStep(d: Dispatch, s: Plant, amount: nat, artifact: string, response: R.Response, polled: bool, task: R.Task)
    requires Reaches(d, s, amount, Answered(response, polled), Some(task))
    requires Ours(d, response) && response.state in {P.Queued, P.Running, P.Unknown}
    ensures Reaches(d, Next(d, s, Act(0, Smooth(artifact))), amount, Polling, Some(task))
  {
    AnswersAgree(d, s, 0, response, polled);
    ActStep(d, s, 0, Smooth(artifact));
    AnswersDecide(d, s.ledger, s.task, response, polled, Smooth(artifact));
    StepCreations(d, s, Smooth(artifact));
    AnsweredStayLive(d, s, 0, Smooth(artifact));
    hide Base, Acted, Next;
  }

  /** A job whose ledger still holds the reservation is live unless the run has ended. */
  lemma AnsweredStayLive(d: Dispatch, s: Plant, id: nat, chance: Chance)
    requires Base(d, Next(d, s, Act(id, chance)))
    ensures var ledger := Next(d, s, Act(id, chance)).ledger;
      ledger.job.Some? && ledger.job.value.reservation == L.Reserved && !ledger.run.Terminal() ==> L.Live(ledger)
  {
    assert L.Valid(Next(d, s, Act(id, chance)).ledger);
    hide Next;
  }

  lemma PollStep(d: Dispatch, s: Plant, amount: nat, artifact: string, task: R.Task)
    requires Reaches(d, s, amount, Polling, Some(task))
    ensures var next := R.Got(Some(task), Some(artifact)).0;
      && next.Some?
      && Reaches(d, Next(d, s, Act(0, Smooth(artifact))), amount, Answered(next.value.response, true), next)
  {
    ActStep(d, s, 0, Smooth(artifact));
    AsksDecide(d, s.ledger, s.task, Smooth(artifact));
    StepCreations(d, s, Smooth(artifact));
    R.PollsMove(task, Some(artifact));
    hide Base, Acted, Next, R.Got;
  }

  /** The task once its artifact is stored, after this many polls. */
  function Final(d: Dispatch, artifact: string, polls: nat): R.Task {
    var made := Made(d);
    made.(polls := polls, response := made.response.(state := P.Succeeded, progress := 100, artifacts := [artifact], error := None))
  }

  predicate Slow(d: Dispatch) {
    d.request.simulation in {"slow_success", "recovery"}
  }

  lemma MadeIsOurs(d: Dispatch)
    requires Acceptable(d)
    ensures var made := Made(d);
      && Ours(d, made.response) && made.request == d.request && made.polls == 0
      && made.response.state == (if d.request.simulation == "timeout" then P.Unknown else P.Queued) && made.response.artifacts == []
  {
    hide R.ScenarioError;
  }

  /** Start, intent, request, answer: the execution polls a task that has just been made. */
  lemma ExecutionPolls(d: Dispatch, amount: nat, artifact: string)
    requires Acceptable(d)
    ensures Reaches(d, Undisturbed(d, amount, artifact, 3), amount, Polling, Some(Made(d)))
  {
    hide Acceptable, Reaches, Next, Undisturbed, Made;
    ExecutionStarts(d, amount, artifact);
    UndisturbedExtends(d, amount, artifact, 0);
    IntentStep(d, Undisturbed(d, amount, artifact, 0), amount, artifact);
    UndisturbedExtends(d, amount, artifact, 1);
    PostStep(d, Undisturbed(d, amount, artifact, 1), amount, artifact);
    UndisturbedExtends(d, amount, artifact, 2);
    MadeIsOurs(d);
    NoteStep(d, Undisturbed(d, amount, artifact, 2), amount, artifact, Made(d).response, false, Made(d));
  }

  lemma Polls(d: Dispatch, amount: nat, artifact: string, n: nat, task: R.Task, next: R.Task)
    requires Reaches(d, Undisturbed(d, amount, artifact, n), amount, Polling, Some(task))
    requires R.Got(Some(task), Some(artifact)).0 == Some(next)
    ensures Reaches(d, Undisturbed(d, amount, artifact, n + 1), amount, Answered(next.response, true), Some(next))
  {
    hide Reaches, Next, Undisturbed, R.Got;
    UndisturbedExtends(d, amount, artifact, n);
    PollStep(d, Undisturbed(d, amount, artifact, n), amount, artifact, task);
  }

  lemma Notes(d: Dispatch, amount: nat, artifact: string, n: nat, task: R.Task)
    requires Reaches(d, Undisturbed(d, amount, artifact, n), amount, Answered(task.response, true), Some(task))
    requires Ours(d, task.response) && task.response.state in {P.Queued, P.Running, P.Unknown}
    ensures Reaches(d, Undisturbed(d, amount, artifact, n + 1), amount, Polling, Some(task))
  {
    hide Reaches, Next, Undisturbed;
    UndisturbedExtends(d, amount, artifact, n);
    NoteStep(d, Undisturbed(d, amount, artifact, n), amount, artifact, task.response, true, task);
  }

  /** A slow task after its first poll. */
  function Halfway(d: Dispatch): R.Task {
    var made := Made(d);
    made.(polls := 1, response := made.response.(state := P.Running, progress := 50))
  }

  lemma PollsOfTheTask(d: Dispatch, artifact: string)
    requires Acceptable(d)
    ensures R.Got(Some(Made(d)), Some(artifact)).0
         == Some(if d.request.simulation == "timeout" then Made(d) else if Slow(d) then Halfway(d) else Final(d, artifact, 1))
    ensures Slow(d) ==> R.Got(Some(Halfway(d)), Some(artifact)).0 == Some(Final(d, artifact, 2))
    ensures Ours(d, Made(d).response) && Ours(d, Halfway(d).response) && Ours(d, Final(d, artifact, 1).response)
  {
    MadeIsOurs(d);
    R.PollsMove(Made(d), Some(artifact));
    R.PollsMove(Halfway(d), Some(artifact));
    hide Made, R.Got;
  }

  /** Its first poll finishes the task, or brings a slow one halfway; the second poll of a slow one finishes it. */
  lemma ExecutionSeesSuccess(d: Dispatch, amount: nat, artifact: string)
    requires Acceptable(d) && d.request.simulation != "timeout"
    ensures var polls := if Slow(d) then 2 else 1;
      var final := Final(d, artifact, polls);
      Reaches(d, Undisturbed(d, amount, artifact, 2 + 2 * polls), amount, Answered(final.response, true), Some(final))
  {
    PollsOfTheTask(d, artifact);
    ExecutionPolls(d, amount, artifact);
    hide Acceptable, Reaches, Next, Undisturbed, Made, Ours, R.Got;
    if Slow(d) {
      Polls(d, amount, artifact, 3, Made(d), Halfway(d));
      Notes(d, amount, artifact, 4, Halfway(d));
      Polls(d, amount, artifact, 5, Halfway(d), Final(d, artifact, 2));
    } else {
      Polls(d, amount, artifact, 3, Made(d), Final(d, artifact, 1));
    }
  }

  /**
   An acceptable job, undisturbed and with a working artifact store, is paid for once and ends as the provider's
   success: the execution returns if and only if the cost it reports is usable and affordable.
   */
  lemma UndisturbedExecutionsReturn(d: Dispatch, amount: nat, artifact: string)
    requires Acceptable(d) && d.request.simulation != "timeout"
    ensures var t := Undisturbed(d, amount, artifact, if Slow(d) then 8 else 6);
      && t.posts == t.creations == 1 && t.workers == map[]
      && t.task.Some? && t.task.value.response.state == P.Succeeded && t.task.value.response.artifacts == [artifact]
      && var cost := d.cost(t.task.value.response);
         && (t.returned <==> cost.usageValid && L.Affordable(cost, amount))
         && (t.returned <==> JobSucceeded(t.ledger))
         && (t.returned ==> t.ledger.run == L.Succeeded)
         && (cost.usageValid && !t.returned ==> t.ledger.run == L.Failed)
         && (cost.usageValid ==> t.ledger.job.Some? && L.Books(t.ledger.job.value, cost, true, amount))
  {
    var polls := if Slow(d) then 2 else 1;
    var final := Final(d, artifact, polls);
    var n := 2 + 2 * polls;
    var s := Undisturbed(d, amount, artifact, n);
    ExecutionSeesSuccess(d, amount, artifact);
    MadeIsOurs(d);
    UndisturbedExtends(d, amount, artifact, n);
    UndisturbedExtends(d, amount, artifact, n + 1);
    AnsweredSuccessesReturn(d, s, 0, final.response, true, artifact);
    var act := Act(0, Smooth(artifact));
    TwoSteps(d, s, act, act);
    TakingOverKeepsCreations(d, s, final.response, artifact);
    hide Acceptable, Base, Next, Undisturbed, Made, Run, L.Books, L.Affordable;
  }

  lemma TakingOverKeepsCreations(d: Dispatch, s: Plant, response: R.Response, artifact: string)
    requires s.workers == map[0 := Answered(response, true)] && s.task.Some?
    ensures var act := Act(0, Smooth(artifact));
      var t := Next(d, Next(d, s, act), act);
      t.creations == s.creations && t.workers.Keys <= {0}
  {
    hide L.Observed, L.CompletedJob, Matches, ProviderObservation;
  }

  lemma TimeoutRound(d: Dispatch, amount: nat, artifact: string, n: nat)
    requires Acceptable(d) && d.request.simulation == "timeout"
    requires Reaches(d, Undisturbed(d, amount, artifact, n), amount, Polling, Some(Made(d)))
    ensures Reaches(d, Undisturbed(d, amount, artifact, n + 2), amount, Polling, Some(Made(d)))
  {
    PollsOfTheTask(d, artifact);
    MadeIsOurs(d);
    hide Acceptable, Reaches, Next, Undisturbed, Made, Ours, R.Got;
    Polls(d, amount, artifact, n, Made(d), Made(d));
    Notes(d, amount, artifact, n + 1, Made(d));
  }

  /** A task the provider lost track of is polled for as long as the execution lasts: nothing returns, nothing is paid again. */
  lemma {:induction false} TimeoutsArePolledOn(d: Dispatch, amount: nat, artifact: string, k: nat)
    requires Acceptable(d) && d.request.simulation == "timeout"
    ensures Reaches(d, Undisturbed(d, amount, artifact, 3 + 2 * k), amount, Polling, Some(Made(d)))
    ensures !Undisturbed(d, amount, artifact, 3 + 2 * k).returned
  {
    hide Acceptable, Reaches, Undisturbed, Made;
    if k == 0 {
      ExecutionPolls(d, amount, artifact);
    } else {
      TimeoutsArePolledOn(d, amount, artifact, k - 1);
      TimeoutRound(d, amount, artifact, 1 + 2 * k);
    }
    LiveRunsHaveNotReturned(d, Undisturbed(d, amount, artifact, 3 + 2 * k), amount, Made(d));
  }

  lemma LiveRunsHaveNotReturned(d: Dispatch, s: Plant, amount: nat, task: R.Task)
    requires Reaches(d, s, amount, Polling, Some(task))
    ensures !s.returned
  {
  }

  // ---- Undisturbed cancellations ----

  /** What the provider's answer to a cancellation means for the run. */
  predicate Means(d: Dispatch, response: R.Response, result: L.Cancellation) {
    && !result.noRemoteTask && result.upstreamTaskID == response.upstreamTaskID && result.requestID == response.requestID
    && result.state == (match response.state
         case Succeeded => if response.artifacts != [] then L.Succeeded else L.Unknown
         case Cancelled => L.Cancelled case Failed => L.Failed case _ => L.Unknown)
    && (result.state in {L.Cancelled, L.Failed} ==> result.cost == d.cost(response))
  }

  /** Asking to cancel brings the task's last response, the news that there is none, or nothing certain. */
  lemma CancelsDecide(d: Dispatch, ledger: L.Ledger, task: Option<R.Task>, chance: Chance)
    ensures var e := Acted(d, ledger, task, Cancelling, chance);
      var next := R.CancelledTask(task, chance.artifact).0;
      && e.ledger == ledger && !e.posted && !e.returned && e.verdict.None?
      && e.task == (if chance.network == NeverArrived then task else next)
      && (if chance.network != Delivered then e.worker == Some(CancelAnswered(L.Cancellation(L.Unknown, false, "", "", L.NO_COST), None))
          else if task.None? then e.worker == Some(CancelAnswered(L.Cancellation(L.Cancelled, true, "", "", L.NO_COST), None))
          else if !Ours(d, next.value.response) then e.worker.None?
          else
            && e.worker.Some? && e.worker.value.CancelAnswered? && e.worker.value.answer == Some(next.value.response)
            && Means(d, next.value.response, e.worker.value.result))
  {
  }

  /** How recording an answered cancellation leaves a live job, and which verdict the workflow gets. */
  lemma AnsweredCancellationsDecide(d: Dispatch, ledger: L.Ledger, task: Option<R.Task>, response: R.Response,
                                    result: L.Cancellation, chance: Chance)
    requires L.Valid(ledger) && L.Live(ledger) && !chance.aborted && Means(d, response, result)
    requires L.Agrees(ledger.job.value, response.upstreamTaskID, response.requestID)
    ensures var e := Acted(d, ledger, task, CancelAnswered(result, Some(response)), chance);
      && e.task == task && !e.posted && !e.returned
      && (result.state in {L.Cancelled, L.Failed} ==>
            && e.worker.None? && e.verdict == Some(result) && e.ledger.job.Some?
            && e.ledger.run == e.ledger.attempt == e.ledger.job.value.state == result.state
            && L.Books(e.ledger.job.value, result.cost, L.CountsAtTheEnd(result.cost), ledger.amount))
      && (result.state == L.Unknown ==> e.worker.None? && e.verdict == Some(result) && L.Doubts(ledger, e.ledger, chance.history))
      && (result.state == L.Succeeded ==>
            var cost := d.cost(response);
            && e.verdict.None?
            && (if cost.usageValid && L.Affordable(cost, ledger.amount)
                then e.worker == Some(CancelCompleted(result)) && JobSucceeded(e.ledger)
                else e.worker.None? && !JobSucceeded(e.ledger)))
  {
    L.LiveCancellations(ledger, result, chance.history);
    L.CompleteKeeps(ledger, CompletionOf(d, response));
    hide L.Valid, L.CompletedJob, L.CancellationRecorded, L.Books, L.Affordable;
  }

  /** A success found by a cancellation is the verdict, once it has been completed. */
  lemma CompletedCancellationsDecide(d: Dispatch, ledger: L.Ledger, task: Option<R.Task>, result: L.Cancellation, chance: Chance)
    requires L.Valid(ledger) && JobSucceeded(ledger) && result.state == L.Succeeded && !result.noRemoteTask && !chance.aborted
    ensures var e := Acted(d, ledger, task, CancelCompleted(result), chance);
      e.ledger == ledger && e.task == task && e.worker.None? && e.verdict == Some(result)
  {
  }

  /** Finding no task gives a nameless live job's whole reservation back, and leaves one with a name to be reconciled. */
  lemma AbsenceDecides(d: Dispatch, ledger: L.Ledger, task: Option<R.Task>, chance: Chance)
    requires L.Valid(ledger) && L.Live(ledger) && !chance.aborted
    ensures var e := Acted(d, ledger, task, CancelAnswered(NO_REMOTE_TASK, None), chance);
      && e.task == task && e.worker.None? && e.ledger.job.Some?
      && (if L.HasName(ledger.job.value) then e.verdict.None? && L.Doubts(ledger, e.ledger, chance.history)
          else
            && e.verdict == Some(NO_REMOTE_TASK) && e.ledger.run == e.ledger.attempt == e.ledger.job.value.state == L.Cancelled
            && e.ledger.job.value.reservation == L.Released && e.ledger.job.value.released == ledger.amount)
  {
    L.LiveCancellations(ledger, NO_REMOTE_TASK, chance.history);
    hide L.Valid, L.CancellationRecorded;
  }

  /** A run that never prepared a job is cancelled at once. */
  lemma NothingPreparedDecides(d: Dispatch, ledger: L.Ledger, task: Option<R.Task>, chance: Chance)
    requires L.Valid(ledger) && ledger.job.None? && !ledger.run.Terminal() && !chance.aborted
    ensures var e := Acted(d, ledger, task, NothingPrepared, chance);
      e.task == task && e.worker.None? && e.verdict == Some(NO_REMOTE_TASK) && e.ledger.job.None? && e.ledger.run == L.Cancelled
  {
    L.OtherCancellations(ledger, NO_REMOTE_TASK, chance.history);
    hide L.Valid, L.CancellationRecorded;
  }

  /**
   An undisturbed cancellation of a live job whose task is queued, running or waiting cancels the task and the run, and
   settles what the provider says it cost.
   */
  lemma UndisturbedCancellationsSettle(d: Dispatch, s: Plant, id: nat, artifact: string)
    requires Stands(d, s, id, Cancelling) && s.task.Some? && Ours(d, s.task.value.response)
    requires s.task.value.response.state !in {P.Succeeded, P.Failed} && s.task.value.request.simulation != "cancel_race"
    ensures var t := Run(d, s, [Act(id, Smooth(artifact)), Act(id, Smooth(artifact))]);
      && t.task.Some? && t.task.value.response.state == P.Cancelled && id !in t.workers
      && t.ledger.job.Some? && t.ledger.run == t.ledger.attempt == t.ledger.job.value.state == L.Cancelled
      && t.verdict.Some? && t.verdict.value.state == L.Cancelled && !t.verdict.value.noRemoteTask
      && var cost := d.cost(t.task.value.response);
         L.Books(t.ledger.job.value, cost, L.CountsAtTheEnd(cost), s.ledger.amount)
  {
    var act := Act(id, Smooth(artifact));
    var t := Next(d, s, act);
    R.CancellationsEnd(s.task.value, Some(artifact));
    ActStep(d, s, id, Smooth(artifact));
    CancelsDecide(d, s.ledger, s.task, Smooth(artifact));
    var worker := t.workers[id];
    TasksAgree(d, t, id, worker.answer.value, worker.result);
    ActStep(d, t, id, Smooth(artifact));
    AnsweredCancellationsDecide(d, t.ledger, t.task, worker.answer.value, worker.result, Smooth(artifact));
    TwoSteps(d, s, act, act);
    hide Base, Acted, Next, Run, L.Books, L.CountsAtTheEnd, R.CancelledTask;
  }

  lemma TasksAgree(d: Dispatch, s: Plant, id: nat, response: R.Response, result: L.Cancellation)
    requires Stands(d, s, id, CancelAnswered(result, Some(response)))
    ensures L.Agrees(s.ledger.job.value, response.upstreamTaskID, response.requestID) && L.Valid(s.ledger)
  {
    assert Knows(d, s.workers[id], s.ledger, s.task);
    hide L.Valid, R.Honest, CancellationOf;
  }
}
