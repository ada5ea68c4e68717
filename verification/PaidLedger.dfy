/**
 The durable ledger of one generation run: its run and attempt states, its provider job and the budget
 reservation behind it. Every function is one database transaction; a transaction that conflicts or fails
 leaves the ledger as it was.
 */
module PaidLedger {
  import opened Wrappers

  /** The states of runs, attempts and provider jobs. */
  datatype Phase =
    | Validated | Queued | Running | Reconciling | Unknown | RequiresAction | Paused | CancelRequested
    | Succeeded | Failed | Cancelled
  {
    predicate Terminal() {
      Succeeded? || Failed? || Cancelled?
    }
  }

  datatype Reservation = Reserved | Settled | Released

  /** What a provider reports a task to have cost. matches: currency and pricing rule are the reserved ones. */
  datatype Cost = Cost(actual: Option<int>, verified: bool, matches: bool, estimated: int, unpriced: bool, usageValid: bool)

  datatype JobRow = JobRow(
    state: Phase,
    upstreamTaskID: string,
    requestID: string,
    reservation: Reservation,
    actual: Option<int>,
    actualTrusted: bool,
    released: int)

  /** amount is what preparing the job reserves. */
  datatype Ledger = Ledger(run: Phase, attempt: Phase, job: Option<JobRow>, amount: nat)

  datatype Observation = Observation(state: Phase, upstreamTaskID: string, requestID: string)

  datatype Completion = Completion(upstreamTaskID: string, requestID: string, cost: Cost)

  datatype Cancellation = Cancellation(state: Phase, noRemoteTask: bool, upstreamTaskID: string, requestID: string, cost: Cost)

  const NO_COST := Cost(None, false, false, 0, false, true)

  function Fresh(amount: nat): Ledger {
    Ledger(Validated, Validated, None, amount)
  }

  function Named(current: string, found: string): string {
    if current == "" then found else current
  }

  // ---- Transactions; the result's second part is None when the call reports an error ----

  predicate ReconcileOnly(job: JobRow) {
    job.state != Queued || job.upstreamTaskID != ""
  }

  /** Commits the paid attempt's identity before any network call; the boolean forbids a submit. */
  function Prepared(l: Ledger): (Ledger, Option<bool>) {
    if l.job.Some? then (l, Some(ReconcileOnly(l.job.value)))
    else if l.run.Terminal() || l.attempt.Terminal() || l.attempt != Validated then (l, None)
    else
      (l.(job := Some(JobRow(Queued, "", "", Reserved, None, false, 0)),
          run := if l.run in {Validated, Unknown, Reconciling} then Queued else l.run,
          attempt := Queued),
       Some(false))
  }

  /** Freezes that a submit may have crossed the paid boundary. */
  function Observed(l: Ledger, seen: Observation): (Ledger, bool) {
    if seen.state !in {Queued, Running, Unknown, RequiresAction} || l.job.None? then (l, false)
    else
      var job := l.job.value;
      if job.state == Succeeded then (l, true)
      else if job.state.Terminal() || l.run in {Failed, Cancelled} then (l, false)
      else if job.upstreamTaskID != "" && seen.upstreamTaskID != "" && job.upstreamTaskID != seen.upstreamTaskID then (l, false)
      else if job.requestID != "" && seen.requestID != "" && job.requestID != seen.requestID then (l, false)
      else if l.attempt.Terminal() || l.run.Terminal() then (l, false)
      else
        var projected := if seen.state == Unknown then Reconciling
          else if seen.state == Queued && seen.upstreamTaskID != "" then Running
          else seen.state;
        (l.(job := Some(job.(state := seen.state,
                             upstreamTaskID := Named(job.upstreamTaskID, seen.upstreamTaskID),
                             requestID := Named(job.requestID, seen.requestID))),
            run := projected, attempt := projected),
         true)
  }

  predicate Trusted(cost: Cost) {
    cost.actual.Some? && cost.verified && cost.actual.value >= 0 && cost.matches
  }

  predicate OverBudget(cost: Cost, amount: nat) {
    !cost.unpriced &&
    (|| cost.actual.None? || !cost.verified || cost.estimated < 0 || cost.actual.value < 0
     || cost.estimated > amount || cost.actual.value > amount || !cost.matches)
  }

  /** The reservation as settled by a success: what is trusted and unused goes back. */
  function SettledBySuccess(job: JobRow, cost: Cost, amount: nat): JobRow {
    job.(reservation := Settled, actual := cost.actual, actualTrusted := Trusted(cost),
         released := if Trusted(cost) && cost.actual.value < amount then amount - cost.actual.value else 0)
  }

  /** Records a provider success; a cost outside the reservation fails the run instead, and reports an error. */
  function CompletedJob(l: Ledger, result: Completion): (Ledger, bool) {
    if !result.cost.usageValid || l.job.None? then (l, false)
    else
      var job := l.job.value;
      if job.state == Succeeded then
        if l.attempt != Succeeded || job.reservation != Settled then (l, false)
        else if job.upstreamTaskID != result.upstreamTaskID || job.requestID != result.requestID
                || job.actual != result.cost.actual then (l, false)
        else if l.run in {Succeeded, Paused} then (l, true)
        else if l.run == Running then (l.(run := Succeeded), true)
        else (l, false)
      else if l.run.Terminal() || l.attempt.Terminal() || job.state.Terminal() || job.reservation == Released then (l, false)
      else
        var settled := SettledBySuccess(job, result.cost, l.amount)
          .(upstreamTaskID := result.upstreamTaskID, requestID := result.requestID);
        if OverBudget(result.cost, l.amount) then
          (l.(job := Some(settled.(state := Failed)), attempt := Failed, run := Failed), false)
        else
          (l.(job := Some(settled.(state := Succeeded)), attempt := Succeeded,
              run := if l.run == Paused then Paused else Succeeded),
           true)
  }

  datatype ReleaseReason = ProviderCancelled | WorkflowFailed

  function TerminalState(reason: ReleaseReason): Phase {
    if reason == ProviderCancelled then Cancelled else Failed
  }

  /** Gives the whole reservation back, which an upstream identity forbids. None reports an error. */
  function Release(l: Ledger, reason: ReleaseReason): Option<Ledger> {
    if l.job.None? then Some(l)
    else
      var job := l.job.value;
      match job.reservation
      case Released => if job.state == TerminalState(reason) then Some(l) else None
      case Settled => Some(l)
      case Reserved =>
        if job.upstreamTaskID != "" || job.requestID != "" || job.state.Terminal() then None
        else Some(l.(job := Some(job.(state := TerminalState(reason), reservation := Released, released := l.amount))))
  }

  /** The reservation as settled by a confirmed failure or cancellation. */
  function SettledByEnd(job: JobRow, cost: Cost, amount: nat): JobRow {
    if cost.actual.None? || !cost.usageValid || cost.actual.value < 0 then job.(reservation := Settled)
    else
      job.(reservation := Settled, actual := cost.actual, actualTrusted := Trusted(cost),
           released := if Trusted(cost) && cost.actual.value < amount then amount - cost.actual.value else 0)
  }

  function Settle(l: Ledger, state: Phase, result: Cancellation): Option<Ledger>
    requires state in {Cancelled, Failed}
  {
    if l.job.None? then None
    else
      var job := l.job.value;
      if (job.upstreamTaskID != "" && result.upstreamTaskID != job.upstreamTaskID)
         || (job.requestID != "" && result.requestID != job.requestID) then None
      else match job.reservation
        case Settled => if job.state == state then Some(l) else None
        case Released => None
        case Reserved =>
          if job.state.Terminal() then None
          else
            Some(l.(job := Some(SettledByEnd(job, result.cost, l.amount)
              .(state := state, upstreamTaskID := Named(result.upstreamTaskID, job.upstreamTaskID),
                requestID := Named(result.requestID, job.requestID)))))
  }

  function EndProjections(l: Ledger, state: Phase): Ledger {
    l.(run := state, attempt := if l.attempt.Terminal() then l.attempt else state)
  }

  /** The cancellation as the transaction understands it, given what the ledger knows; the boolean: still unconfirmed. */
  function Understood(l: Ledger, result: Cancellation): (Cancellation, bool) {
    var known := if result.state == Unknown && l.job.None?
      then result.(state := Cancelled, noRemoteTask := true) else result;
    if known.noRemoteTask && l.job.Some? && l.job.value.reservation == Reserved
       && (l.job.value.upstreamTaskID != "" || l.job.value.requestID != "")
    then (Cancellation(Unknown, false, l.job.value.upstreamTaskID, l.job.value.requestID, NO_COST), true)
    else (known, false)
  }

  /** Records how a cancellation ended. history: the caller is reconciling rather than cancelling. */
  function CancellationRecorded(l: Ledger, result: Cancellation, history: bool): (Ledger, bool) {
    var (known, unconfirmed) := Understood(l, result);
    match known.state
    case Succeeded => (l, true)
    case Cancelled =>
      if l.run in {Succeeded, Failed} then (l, true)
      else
        var ended := if known.noRemoteTask then Release(l, ProviderCancelled) else Settle(l, Cancelled, known);
        if ended.None? then (l, false)
        else (if l.run == Cancelled then ended.value else EndProjections(ended.value, Cancelled), true)
    case Failed =>
      if l.run in {Succeeded, Cancelled} then (l, false)
      else
        var ended := Settle(l, Failed, known);
        if ended.None? then (l, false) else (EndProjections(ended.value, Failed), true)
    case _ =>
      if l.run.Terminal() then (l, !unconfirmed)
      else
        (l.(run := if history then Reconciling else Unknown,
            attempt := if l.attempt.Terminal() then l.attempt else Unknown,
            job := if l.job.Some? && !l.job.value.state.Terminal() then Some(l.job.value.(state := Unknown)) else l.job),
         !unconfirmed)
  }

  /** The workflow's own verdict on the run. */
  function Finalized(l: Ledger, success: bool): (Ledger, bool) {
    if l.run in {Cancelled, Failed} && l.run != (if success then Succeeded else Failed) then (l, false)
    else if success then
      if l.run == Succeeded then (l, true)
      else if l.job.None? || l.job.value.state != Succeeded then (l, false)
      else (l.(run := Succeeded), true)
    else if l.run == Succeeded then (l, true)
    else
      var released := Release(l, WorkflowFailed);
      if released.None? then (l, false)
      else if l.run == Failed then (released.value, true)
      else (EndProjections(released.value, Failed), true)
  }

  datatype Control = Pause | Cancel | Resume | Recover

  /** What operators may ask of a run. */
  function Controlled(l: Ledger, control: Control): (Ledger, bool) {
    match control
    case Pause => if l.run in {Queued, Running, Reconciling} then (l.(run := Paused), true) else (l, false)
    case Cancel =>
      if l.run in {Validated, Queued, Running, Paused, Unknown, Reconciling, RequiresAction}
      then (l.(run := CancelRequested), true) else (l, false)
    case Resume => if l.run == Paused then (l.(run := Running), true) else (l, false)
    case Recover => if l.run in {Unknown, RequiresAction} then (l.(run := Reconciling), true) else (l, false)
  }

  datatype Transaction =
    | Prepare
    | Observe(seen: Observation)
    | Complete(result: Completion)
    | RecordCancellation(cancellation: Cancellation, history: bool)
    | Finalize(success: bool)
    | Operate(control: Control)

  function Next(l: Ledger, t: Transaction): Ledger {
    match t
    case Prepare => Prepared(l).0
    case Observe(seen) => Observed(l, seen).0
    case Complete(result) => CompletedJob(l, result).0
    case RecordCancellation(cancellation, history) => CancellationRecorded(l, cancellation, history).0
    case Finalize(success) => Finalized(l, success).0
    case Operate(control) => Controlled(l, control).0
  }

  // ---- Invariants ----

  /** The books of one job: what was reserved is still held, was given back whole, or was settled. */
  predicate Balanced(job: JobRow, amount: nat) {
    match job.reservation
    case Reserved => job.actual.None? && !job.actualTrusted && job.released == 0
    case Released => job.actual.None? && !job.actualTrusted && job.released == amount
    case Settled =>
      && 0 <= job.released <= amount
      && (job.actualTrusted ==> job.actual.Some? && job.actual.value >= 0)
      && (job.actualTrusted && job.actual.value <= amount ==> job.actual.value + job.released == amount)
      && (!job.actualTrusted || job.actual.value > amount ==> job.released == 0)
  }

  ghost predicate Valid(l: Ledger) {
    match l.job
    case None =>
      && l.run != Succeeded
      && (l.run.Terminal() ==> l.attempt == l.run)
      && (!l.run.Terminal() ==> l.attempt in {Validated, Unknown})
    case Some(job) =>
      && Balanced(job, l.amount)
      && l.run != Validated && l.attempt != Validated
      && (job.state.Terminal() <==> job.reservation != Reserved)
      && (job.state.Terminal() <==> l.attempt.Terminal())
      && (job.state.Terminal() ==> l.attempt == job.state)
      && (job.state == Succeeded ==> job.reservation == Settled)
      && (job.reservation == Released ==> job.upstreamTaskID == "" && job.requestID == "")
      && (l.run == Succeeded ==> job.state == Succeeded)
      && (l.run in {Failed, Cancelled} ==> job.state.Terminal())
  }

  /** What no transaction undoes: ended runs and attempts, ended jobs with their settlement, and that there is a job. */
  predicate Ends(l: Ledger, later: Ledger) {
    && later.amount == l.amount
    && (l.run.Terminal() ==> later.run == l.run)
    && (l.attempt.Terminal() ==> later.attempt == l.attempt)
    && (l.job.Some? ==> later.job.Some? && (l.job.value.state.Terminal() ==> later.job == l.job))
  }

  /** Ends last, and a job that forbids a submit goes on forbidding it. */
  predicate Frozen(l: Ledger, later: Ledger) {
    && Ends(l, later)
    && (l.job.Some? ==> (ReconcileOnly(l.job.value) ==> ReconcileOnly(later.job.value)))
  }

  /** The job may still complete, fail or be cancelled. */
  predicate Live(l: Ledger) {
    l.job.Some? && !l.job.value.state.Terminal() && !l.run.Terminal()
  }

  /** The provider may already know the job. */
  predicate HasName(job: JobRow) {
    job.upstreamTaskID != "" || job.requestID != ""
  }

  /** Neither identity contradicts one the job has. */
  predicate Agrees(job: JobRow, upstreamTaskID: string, requestID: string) {
    job.upstreamTaskID in {"", upstreamTaskID} && job.requestID in {"", requestID}
  }

  /**
   What a settlement writes down: the reported cost if it counts, whether it can be trusted, and what a trusted cost
   leaves of the reservation.
   */
  predicate Books(job: JobRow, cost: Cost, counts: bool, amount: nat) {
    && job.reservation == Settled
    && job.actual == (if counts then cost.actual else None)
    && (job.actualTrusted <==> counts && cost.actual.Some? && cost.actual.value >= 0 && cost.verified && cost.matches)
    && job.released == (if job.actualTrusted && job.actual.Some? && job.actual.value <= amount then amount - job.actual.value else 0)
  }

  /** One job per run, reserved and without a name, and none for a run that has ended. */
  lemma PrepareKeeps(l: Ledger)
    requires Valid(l)
    ensures Valid(Prepared(l).0) && Frozen(l, Prepared(l).0)
    ensures l.job.Some? ==>
      Prepared(l) == (l, Some(l.job.value.state != Queued || l.job.value.upstreamTaskID != ""))
    ensures l.job.None? ==> (Prepared(l).1.Some? <==> !l.run.Terminal() && l.attempt == Validated)
    ensures l.job.None? && Prepared(l).1.None? ==> Prepared(l).0 == l
    ensures l.job.None? && Prepared(l).1.Some? ==>
      var (later, reconcileOnly) := Prepared(l);
      && reconcileOnly == Some(false) && Live(later)
      && later.attempt == Queued
      && later.run == (if l.run in {CancelRequested, Paused, RequiresAction, Queued, Running} then l.run else Queued)
      && later.job.value.state == Queued && !HasName(later.job.value) && later.job.value.reservation == Reserved
  {
  }

  /** An observation that contradicts nothing is frozen as it is; any other leaves the ledger alone. */
  lemma ObserveKeeps(l: Ledger, seen: Observation)
    requires Valid(l)
    ensures Valid(Observed(l, seen).0) && Ends(l, Observed(l, seen).0)
    ensures seen.state != Queued ==> Frozen(l, Observed(l, seen).0)
    ensures var (later, ok) := Observed(l, seen);
      var compatible := Live(l)
        && (seen.upstreamTaskID == "" || l.job.value.upstreamTaskID in {"", seen.upstreamTaskID})
        && (seen.requestID == "" || l.job.value.requestID in {"", seen.requestID});
      if seen.state in {Queued, Running, Unknown, RequiresAction} && compatible then
        && ok && later.attempt == later.run
        && later.run == (if seen.state == Unknown then Reconciling
                         else if seen.state == Queued && seen.upstreamTaskID != "" then Running else seen.state)
        && later.job == Some(l.job.value.(
             state := seen.state,
             upstreamTaskID := if l.job.value.upstreamTaskID != "" then l.job.value.upstreamTaskID else seen.upstreamTaskID,
             requestID := if l.job.value.requestID != "" then l.job.value.requestID else seen.requestID))
      else
        later == l
        && (ok <==> seen.state in {Queued, Running, Unknown, RequiresAction} && l.job.Some? && l.job.value.state == Succeeded)
  {
  }

  /** A success settles a live job within its reservation; a cost outside it settles the job and fails the run. */
  lemma CompleteKeeps(l: Ledger, result: Completion)
    requires Valid(l)
    ensures Valid(CompletedJob(l, result).0) && Frozen(l, CompletedJob(l, result).0)
    ensures var (later, ok) := CompletedJob(l, result);
      Live(l) ==>
        && (ok <==> result.cost.usageValid && Affordable(result.cost, l.amount))
        && (!result.cost.usageValid ==> later == l)
        && (result.cost.usageValid ==>
              && later.attempt == later.job.value.state == (if ok then Succeeded else Failed)
              && later.run == (if !ok then Failed else if l.run == Paused then Paused else Succeeded)
              && later.job.value.upstreamTaskID == result.upstreamTaskID && later.job.value.requestID == result.requestID
              && Books(later.job.value, result.cost, true, l.amount))
        && (ok && !result.cost.unpriced ==> later.job.value.actual.value + later.job.value.released == l.amount)
    ensures !Live(l) ==> CompletedJob(l, result).0.job == l.job
  {
  }

  /** A completion that comes again is recognized by identity and cost; it ends a run that resumed meanwhile. */
  lemma RepeatedCompletions(l: Ledger, result: Completion)
    requires Valid(l) && !Live(l)
    ensures var (later, ok) := CompletedJob(l, result);
      && (ok <==> result.cost.usageValid && l.job.Some? && l.job.value.state == Succeeded
                  && l.job.value.upstreamTaskID == result.upstreamTaskID && l.job.value.requestID == result.requestID
                  && l.job.value.actual == result.cost.actual && l.run in {Succeeded, Paused, Running})
      && later == (if ok && l.run == Running then l.(run := Succeeded) else l)
  {
  }

  /** The reported cost is certain and within the reservation, or the route has no price. */
  predicate Affordable(cost: Cost, amount: nat) {
    cost.unpriced
    || (&& cost.actual.Some? && cost.verified && cost.matches
        && 0 <= cost.estimated <= amount && 0 <= cost.actual.value <= amount)
  }

  /** A release gives the whole reservation of a nameless job back and ends it; a settled job keeps its settlement. */
  lemma ReleaseKeeps(l: Ledger, reason: ReleaseReason)
    requires Valid(l) && !l.run.Terminal() && Release(l, reason).Some?
    ensures var ended := EndProjections(Release(l, reason).value, TerminalState(reason)); Valid(ended) && Frozen(l, ended)
    ensures var ended := EndProjections(Release(l, reason).value, TerminalState(reason));
      if Live(l) then
        && l.job.value.upstreamTaskID == "" && l.job.value.requestID == ""
        && ended.job.value.state == ended.attempt == ended.run == TerminalState(reason)
        && ended.job.value.reservation == Released && ended.job.value.released == l.amount
      else ended.job == l.job
  {
  }

  /** A confirmed end settles the job in that state, once, under the identity it had. */
  lemma SettleKeeps(l: Ledger, state: Phase, result: Cancellation)
    requires Valid(l) && !l.run.Terminal() && state in {Cancelled, Failed} && Settle(l, state, result).Some?
    ensures var ended := EndProjections(Settle(l, state, result).value, state); Valid(ended) && Frozen(l, ended)
    ensures var job := Settle(l, state, result).value.job;
      && l.job.Some? && job.Some? && job.value.state == state && job.value.reservation == Settled
      && (l.job.value.upstreamTaskID != "" ==> job.value.upstreamTaskID == l.job.value.upstreamTaskID)
      && (l.job.value.requestID != "" ==> job.value.requestID == l.job.value.requestID)
      && (!Live(l) ==> job == l.job)
      && (Live(l) ==> Books(job.value, result.cost, CountsAtTheEnd(result.cost), l.amount))
  {
  }

  /** A failure or cancellation counts the cost that comes with it if it makes sense. */
  predicate CountsAtTheEnd(cost: Cost) {
    cost.actual.Some? && cost.usageValid && cost.actual.value >= 0
  }

  /** Ended runs have ended jobs, so there is nothing left to release or settle. */
  lemma EndedRunsHoldNothing(l: Ledger, reason: ReleaseReason, state: Phase, result: Cancellation)
    requires Valid(l) && l.run in {Cancelled, Failed} && state in {Cancelled, Failed}
    ensures Release(l, reason).Some? ==> Release(l, reason).value == l
    ensures Settle(l, state, result).Some? ==> Settle(l, state, result).value == l
  {
  }

  lemma {:induction false} CancellationKeeps(l: Ledger, result: Cancellation, history: bool)
    requires Valid(l)
    ensures var later := CancellationRecorded(l, result, history).0; Valid(later) && Frozen(l, later)
  {
    var known := Understood(l, result).0;
    hide Balanced, Release, Settle;
    match known.state {
      case Succeeded =>
      case Cancelled =>
        if l.run in {Cancelled, Failed} {
          EndedRunsHoldNothing(l, ProviderCancelled, Cancelled, known);
        } else if !l.run.Terminal() {
          hide EndProjections;
          if known.noRemoteTask {
            if Release(l, ProviderCancelled).Some? { ReleaseKeeps(l, ProviderCancelled); }
          } else if Settle(l, Cancelled, known).Some? {
            SettleKeeps(l, Cancelled, known);
          }
        }
      case Failed =>
        if l.run == Failed {
          EndedRunsHoldNothing(l, ProviderCancelled, Failed, known);
        } else if !l.run.Terminal() {
          hide EndProjections;
          if Settle(l, Failed, known).Some? { SettleKeeps(l, Failed, known); }
        }
      case _ =>
        if !l.run.Terminal() {
          UnknownKeeps(l, history);
        }
    }
  }

  /** What recording a cancellation does to a live job, by what the provider said. */
  lemma LiveCancellations(l: Ledger, result: Cancellation, history: bool)
    requires Valid(l) && Live(l)
    ensures var (later, ok) := CancellationRecorded(l, result, history);
      var job := l.job.value;
      if result.noRemoteTask && HasName(job) then
        !ok && Doubts(l, later, history)
      else if result.state == Succeeded then
        ok && later == l
      else if result.state == Cancelled && result.noRemoteTask then
        && ok && later.run == later.attempt == Cancelled
        && later.job == Some(job.(state := Cancelled, reservation := Released, released := l.amount))
      else if result.state in {Cancelled, Failed} then
        if Agrees(job, result.upstreamTaskID, result.requestID) then
          && ok && later.run == later.attempt == later.job.value.state == result.state
          && later.job.value.upstreamTaskID == result.upstreamTaskID && later.job.value.requestID == result.requestID
          && Books(later.job.value, result.cost, CountsAtTheEnd(result.cost), l.amount)
        else !ok && later == l
      else
        ok && Doubts(l, later, history)
  {
  }

  /** The run is left to be reconciled; its job may or may not have ended. */
  predicate Doubts(l: Ledger, later: Ledger, history: bool)
    requires l.job.Some?
  {
    later == l.(run := if history then Reconciling else Unknown, attempt := Unknown, job := Some(l.job.value.(state := Unknown)))
  }

  /** The job was settled in this state, under an identity this one does not contradict. */
  predicate Confirms(l: Ledger, state: Phase, result: Cancellation) {
    l.job.Some? && l.job.value.reservation == Settled && l.job.value.state == state
    && Agrees(l.job.value, result.upstreamTaskID, result.requestID)
  }

  /**
   Without a live job there is nothing to give back or settle: an end is accepted if it is the one the job had, and
   ends the run too. A run that prepared no job can be cancelled at once.
   */
  lemma OtherCancellations(l: Ledger, result: Cancellation, history: bool)
    requires Valid(l) && !Live(l)
    ensures var (later, ok) := CancellationRecorded(l, result, history);
      var absent := result.noRemoteTask || result.state == Unknown;
      if result.state == Succeeded then ok && later == l
      else if result.state == Cancelled || (result.state == Unknown && l.job.None?) then
        && (ok <==> l.run in {Succeeded, Failed} || Confirms(l, Cancelled, result)
                    || (absent && (l.job.None? || l.job.value.reservation == Settled || l.job.value.state == Cancelled)))
        && later == (if ok && !l.run.Terminal()
                     then l.(run := Cancelled, attempt := if l.attempt.Terminal() then l.attempt else Cancelled) else l)
      else if result.state == Failed then
        && (ok <==> l.run !in {Succeeded, Cancelled} && Confirms(l, Failed, result))
        && later == (if ok && !l.run.Terminal()
                     then l.(run := Failed, attempt := if l.attempt.Terminal() then l.attempt else Failed) else l)
      else
        && ok && later.job == l.job
        && later.run == (if l.run.Terminal() then l.run else if history then Reconciling else Unknown)
        && later.attempt == (if l.run.Terminal() || l.attempt.Terminal() then l.attempt else Unknown)
  {
  }

  lemma UnknownKeeps(l: Ledger, history: bool)
    requires Valid(l) && !l.run.Terminal()
    ensures var later := l.(run := if history then Reconciling else Unknown,
        attempt := if l.attempt.Terminal() then l.attempt else Unknown,
        job := if l.job.Some? && !l.job.value.state.Terminal() then Some(l.job.value.(state := Unknown)) else l.job);
      Valid(later) && Frozen(l, later)
  {
  }

  /** A verdict of success needs a succeeded job, and one of failure a run that has not succeeded. */
  lemma FinalizeKeeps(l: Ledger, success: bool)
    requires Valid(l)
    ensures Valid(Finalized(l, success).0) && Frozen(l, Finalized(l, success).0)
    ensures success ==>
      var (later, ok) := Finalized(l, success);
      && (ok <==> l.job.Some? && l.job.value.state == Succeeded && l.run !in {Failed, Cancelled})
      && later == (if ok then l.(run := Succeeded) else l)
    ensures !success ==>
      var (later, ok) := Finalized(l, success);
      && (l.run.Terminal() ==> later == l)
      && (!l.run.Terminal() && !ok ==> later == l)
      && (!l.run.Terminal() && ok ==> later.run == Failed && (l.job.None? || !Live(l) || later.job.value.reservation == Released))
      && (!l.run.Terminal() && (l.job.None? || (Live(l) && !HasName(l.job.value))) ==> ok)
      && (Live(l) && HasName(l.job.value) ==> !ok)
      && (l.run == Succeeded ==> ok) && (l.run == Cancelled ==> !ok)
      && (l.run == Failed ==> (ok <==> l.job.None? || l.job.value.reservation == Settled || l.job.value.state == Failed))
  {
    if !success && l.run == Failed {
      EndedRunsHoldNothing(l, WorkflowFailed, Failed, Cancellation(Failed, false, "", "", NO_COST));
    } else if !success && !l.run.Terminal() && Release(l, WorkflowFailed).Some? {
      ReleaseKeeps(l, WorkflowFailed);
    }
  }

  /** When the workflow calls a run failed, the reservation is given back exactly if the job is live and nameless. */
  lemma FailedVerdictsRelease(l: Ledger)
    requires Valid(l) && l.job.Some? && l.job.value.reservation != Released
    ensures Finalized(l, false).0.job.value.reservation == Released <==>
              Live(l) && l.job.value.upstreamTaskID == "" && l.job.value.requestID == ""
  {
  }

  /** An observation that turns a job nobody has named back into one that may be submitted. */
  predicate Reopens(l: Ledger, t: Transaction) {
    && t.Observe? && t.seen.state == Queued && t.seen.upstreamTaskID == ""
    && l.job.Some? && !l.job.value.state.Terminal() && l.job.value.upstreamTaskID == ""
    && (l.job.value.requestID == "" || t.seen.requestID == "" || l.job.value.requestID == t.seen.requestID)
  }

  /** Every transaction keeps the ledger valid and every end; all but a reopening one keep submission forbidden too. */
  lemma TransactionsKeep(l: Ledger, t: Transaction)
    requires Valid(l)
    ensures Valid(Next(l, t)) && Ends(l, Next(l, t))
    ensures !(t.Observe? && t.seen.state == Queued) ==> Frozen(l, Next(l, t))
  {
    hide Valid, Ends, Prepared, Observed, CompletedJob, CancellationRecorded, Finalized;
    match t {
      case Prepare => PrepareKeeps(l);
      case Observe(seen) => ObserveKeeps(l, seen);
      case Complete(result) => CompleteKeeps(l, result);
      case RecordCancellation(cancellation, history) => CancellationKeeps(l, cancellation, history);
      case Finalize(success) => FinalizeKeeps(l, success);
      case Operate(control) => ControlKeeps(l, control);
    }
  }

  /**
   The only way a ledger that forbids a submit comes to allow one: a QUEUED observation, naming no task, of a live
   job without a task. Workers never report QUEUED; the ledger would accept it.
   */
  lemma OnlyNamelessQueuedObservationsReopen(l: Ledger, t: Transaction)
    requires Valid(l) && l.job.Some? && ReconcileOnly(l.job.value)
    ensures Next(l, t).job.Some?
    ensures !ReconcileOnly(Next(l, t).job.value) <==> Reopens(l, t)
  {
    TransactionsKeep(l, t);
    hide CompletedJob, CancellationRecorded, Finalized;
  }

  /** Operators only move live runs: running ones into a pause, paused ones back, any to cancellation, doubtful ones to reconciliation. */
  lemma ControlKeeps(l: Ledger, control: Control)
    requires Valid(l)
    ensures Valid(Controlled(l, control).0) && Frozen(l, Controlled(l, control).0)
    ensures var (later, ok) := Controlled(l, control);
      && later == (if ok then l.(run := later.run) else l)
      && (l.run.Terminal() ==> !ok)
      && (ok ==> later.run == (match control case Pause => Paused case Cancel => CancelRequested
                                             case Resume => Running case Recover => Reconciling))
      && (control == Pause ==> (ok <==> l.run in {Queued, Running, Reconciling}))
      && (control == Cancel ==> (ok <==> !l.run.Terminal() && l.run != CancelRequested))
      && (control == Resume ==> (ok <==> l.run == Paused))
      && (control == Recover ==> (ok <==> l.run in {Unknown, RequiresAction}))
  {
  }

  function Run(l: Ledger, ts: seq<Transaction>): Ledger
    decreases |ts|
  {
    if ts == [] then l else Run(Next(l, ts[0]), ts[1..])
  }

  lemma {:induction false} RunGoesOn(l: Ledger, ts: seq<Transaction>, next: Transaction)
    ensures Run(l, []) == l && Run(l, ts + [next]) == Next(Run(l, ts), next)
    decreases |ts|
  {
    hide Next;
    if ts == [] {
      assert ts + [next] == [next];
    } else {
      assert (ts + [next])[1..] == ts[1..] + [next];
      RunGoesOn(Next(l, ts[0]), ts[1..], next);
    }
  }

  lemma EndsCompose(a: Ledger, b: Ledger, c: Ledger)
    requires Ends(a, b) && Ends(b, c)
    ensures Ends(a, c)
  {
  }

  lemma FreezingComposes(a: Ledger, b: Ledger, c: Ledger)
    requires Frozen(a, b) && Frozen(b, c)
    ensures Frozen(a, c)
  {
  }

  /** Whatever transactions run in whatever order, a run, attempt or job that has ended stays as it ended, money included. */
  lemma {:induction false} EndedStaysEnded(l: Ledger, ts: seq<Transaction>)
    requires Valid(l)
    ensures Valid(Run(l, ts)) && Ends(l, Run(l, ts))
    decreases |ts|
  {
    hide Valid, Ends, Next;
    if ts == [] {
      FrozenReflexively(l);
    } else {
      TransactionsKeep(l, ts[0]);
      EndedStaysEnded(Next(l, ts[0]), ts[1..]);
      EndsCompose(l, Next(l, ts[0]), Run(l, ts));
    }
  }

  /** As long as nobody observes QUEUED, a job that forbids a submit goes on forbidding it. */
  lemma {:induction false} SubmissionStaysForbidden(l: Ledger, ts: seq<Transaction>)
    requires Valid(l) && l.job.Some? && ReconcileOnly(l.job.value)
    requires forall t :: t in ts ==> !(t.Observe? && t.seen.state == Queued)
    ensures Run(l, ts).job.Some? && ReconcileOnly(Run(l, ts).job.value)
    decreases |ts|
  {
    hide Valid, Next;
    if ts != [] {
      TransactionsKeep(l, ts[0]);
      SubmissionStaysForbidden(Next(l, ts[0]), ts[1..]);
    }
  }

  lemma FrozenReflexively(l: Ledger)
    ensures Frozen(l, l) && Ends(l, l)
  {
  }

  /** From a fresh run, the reserved amount is always accounted for: held, given back whole, or spent and given back. */
  lemma MoneyIsConserved(amount: nat, ts: seq<Transaction>)
    ensures var l := Run(Fresh(amount), ts);
      && (l.job.None? ==> !l.run.Succeeded?)
      && (l.job.Some? ==>
            && Balanced(l.job.value, amount)
            && (l.job.value.reservation == Reserved <==> !l.job.value.state.Terminal())
            && (l.run.Succeeded? ==> l.job.value.reservation == Settled && l.job.value.state.Succeeded?))
  {
    hide Balanced, Next;
    EndedStaysEnded(Fresh(amount), ts);
  }

  /**
   A job that completes while its run is paused leaves the run paused; once resumed, replaying the same completion
   succeeds the run and touches nothing of the job or its money.
   */
  lemma PausedCompletionsAreRepaired(l: Ledger, result: Completion)
    requires Valid(l) && l.run == Paused && l.job.Some? && !l.job.value.state.Terminal() && CompletedJob(l, result).1
    ensures var paused := CompletedJob(l, result).0;
      var resumed := Controlled(paused, Resume).0;
      && paused.run == Paused && paused.job.value.state == Succeeded
      && CompletedJob(paused, result) == (paused, true)
      && CompletedJob(resumed, result) == (paused.(run := Succeeded), true)
  {
  }

  /** A provider that no longer finds a task the ledger knows by name proves nothing: the money stays held. */
  lemma KnownTasksAreNotWrittenOff(l: Ledger, result: Cancellation, history: bool)
    requires Valid(l) && result.noRemoteTask && !l.run.Terminal()
    requires l.job.Some? && l.job.value.reservation == Reserved && (l.job.value.upstreamTaskID != "" || l.job.value.requestID != "")
    ensures var (later, ok) := CancellationRecorded(l, result, history);
      && !ok && later.run == (if history then Reconciling else Unknown)
      && later.job == Some(l.job.value.(state := Unknown))
  {
  }

  /** The ledger itself would accept a QUEUED observation, and with it a second submit. */
  lemma QueuedObservationReopensSubmission(amount: nat)
    ensures var prepared := Prepared(Fresh(amount)).0;
      var intended := Observed(prepared, Observation(Unknown, "", "")).0;
      Prepared(intended).1 == Some(true)
      && Prepared(Observed(intended, Observation(Queued, "", "")).0).1 == Some(false)
  {
  }
}
