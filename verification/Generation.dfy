/**
 The in-memory generation runner: a ledger that begins each run once, submits under one idempotency key,
 polls to a terminal job, and closes the run for good.

 The clock, ended contexts, waits, the artifact committer and the manifest digest are unconstrained; other
 actors may poll, cancel and call back on the shared provider between any two calls of the runner.
 */
module Generation {
  import opened Wrappers
  import opened Text
  import opened ProviderContract
  import opened Budget
  import opened FakeProviders

  datatype AttemptKind = ProviderSubmit | ProviderPoll

  datatype AttemptRecord = AttemptRecord(
    sequence: nat,
    kind: AttemptKind,
    state: JobStatus,
    startedAt: nat,
    finishedAt: nat,
    providerJobID: string,
    errorCode: Option<ErrorCode>,
    retryable: bool)

  datatype RunState = RunRunning | RunSucceeded | RunFailed | RunCancelled

  datatype Route = Route(provider: string, modelID: string)

  datatype RunRecord = RunRecord(
    runID: string,
    idempotencyKey: string,
    requestHash: string,
    state: RunState,
    request: GenerationRequest,
    route: Route,
    reservationMicros: int,
    attempts: seq<AttemptRecord>,
    providerJob: Option<Job>,
    manifestID: string,
    manifestHash: string,
    startedAt: nat,
    finishedAt: nat,
    errorCode: Option<ErrorCode>)

  /** Failures either carry a provider error code or none. */
  datatype Failure = ValidationFailed | ConflictFailed | CodedFailure(code: ErrorCode) | OtherFailure {
    function Code(): Option<ErrorCode> {
      if CodedFailure? then Some(code) else None
    }
  }

  function SubmitCount(attempts: seq<AttemptRecord>): nat {
    if attempts == [] then 0
    else SubmitCount(attempts[..|attempts| - 1]) + (if attempts[|attempts| - 1].kind.ProviderSubmit? then 1 else 0)
  }

  lemma SubmitCountGrows(attempts: seq<AttemptRecord>, next: AttemptRecord)
    ensures SubmitCount(attempts + [next]) == SubmitCount(attempts) + (if next.kind.ProviderSubmit? then 1 else 0)
  {
    assert (attempts + [next])[..|attempts|] == attempts;
  }

  // ---- The ledger ----

  class RunLedger {
    var byRunID: map<string, RunRecord>
    var byIdempotency: map<string, string>

    constructor ()
      ensures byRunID == map[] && byIdempotency == map[]
    {
      byRunID, byIdempotency := map[], map[];
    }

    /** Both indexes name the same runs. */
    ghost predicate Valid()
      reads this
    {
      && (forall key :: key in byIdempotency ==>
            byIdempotency[key] in byRunID && byRunID[byIdempotency[key]].idempotencyKey == key)
      && (forall id :: id in byRunID ==>
            && byRunID[id].runID == id
            && byRunID[id].idempotencyKey in byIdempotency && byIdempotency[byRunID[id].idempotencyKey] == id)
    }

    /** The run already recorded under this key or this ID, if there is one. */
    function Existing(key: string, runID: string): Option<RunRecord>
      requires Valid()
      reads this
    {
      if key in byIdempotency then Some(byRunID[byIdempotency[key]])
      else if runID in byRunID then Some(byRunID[runID])
      else None
    }

    /** Records a new run, or replays the existing one when its input is the same. */
    method Begin(record: RunRecord) returns (r: Result<(RunRecord, bool), Failure>)
      requires Valid()
      modifies this
      ensures Valid()
      ensures old(Existing(record.idempotencyKey, record.runID)).None? ==>
        && r == Ok((record, false))
        && byRunID == old(byRunID)[record.runID := record]
      ensures old(Existing(record.idempotencyKey, record.runID)).Some? ==>
        && byRunID == old(byRunID) && byIdempotency == old(byIdempotency)
        && var existing := old(Existing(record.idempotencyKey, record.runID)).value;
           r == if existing.requestHash == record.requestHash then Ok((existing, true)) else Err(ConflictFailed)
    {
      if record.idempotencyKey in byIdempotency {
        var existing := byRunID[byIdempotency[record.idempotencyKey]];
        if existing.requestHash != record.requestHash {
          return Err(ConflictFailed);
        }
        return Ok((existing, true));
      }
      if record.runID in byRunID {
        var existing := byRunID[record.runID];
        if existing.requestHash != record.requestHash {
          return Err(ConflictFailed);
        }
        return Ok((existing, true));
      }
      byRunID := byRunID[record.runID := record];
      byIdempotency := byIdempotency[record.idempotencyKey := record.runID];
      r := Ok((record, false));
    }

    /** Closes a running run; a closed one can only be confirmed, never changed. */
    method Complete(record: RunRecord) returns (r: Result<RunRecord, Failure>)
      requires Valid()
      requires record.runID in byRunID ==> record.idempotencyKey == byRunID[record.runID].idempotencyKey
      modifies this
      ensures Valid() && byIdempotency == old(byIdempotency)
      ensures var open := record.runID in old(byRunID) && old(byRunID)[record.runID].state.RunRunning?;
        var closes := open && !record.state.RunRunning? && record.finishedAt != 0
                      && old(byRunID)[record.runID].requestHash == record.requestHash;
        && byRunID == (if closes then old(byRunID)[record.runID := record] else old(byRunID))
        && r == (if record.state.RunRunning? || record.finishedAt == 0 then Err(ValidationFailed)
                 else if record.runID in byRunID && byRunID[record.runID].requestHash == record.requestHash
                         && byRunID[record.runID].manifestHash == record.manifestHash
                         && byRunID[record.runID].errorCode == record.errorCode then Ok(byRunID[record.runID])
                 else Err(ConflictFailed))
    {
      if record.state.RunRunning? || record.finishedAt == 0 {
        return Err(ValidationFailed);
      }
      if record.runID !in byRunID || byRunID[record.runID].requestHash != record.requestHash {
        return Err(ConflictFailed);
      }
      var existing := byRunID[record.runID];
      if !existing.state.RunRunning? {
        if existing.manifestHash != record.manifestHash || existing.errorCode != record.errorCode {
          return Err(ConflictFailed);
        }
        return Ok(existing);
      }
      byRunID := byRunID[record.runID := record];
      r := Ok(record);
    }
  }

  // ---- Manifests ----

  datatype ManifestRecord = ManifestRecord(manifestID: string, hash: string)

  class ManifestStore {
    var byID: map<string, ManifestRecord>

    constructor ()
      ensures byID == map[]
    {
      byID := map[];
    }

    /** A manifest ID keeps the content it was first stored with. */
    method Put(manifestID: string, hash: string) returns (r: Result<ManifestRecord, Failure>)
      modifies this
      ensures manifestID in old(byID) ==> byID == old(byID)
      ensures manifestID !in old(byID) ==> byID == old(byID)[manifestID := ManifestRecord(manifestID, hash)]
      ensures r.Ok? <==> byID[manifestID].hash == hash
      ensures r.Ok? ==> r.value == byID[manifestID]
      ensures r.Err? ==> r.error == ConflictFailed
    {
      if manifestID in byID {
        if byID[manifestID].hash != hash {
          return Err(ConflictFailed);
        }
        return Ok(byID[manifestID]);
      }
      byID := byID[manifestID := ManifestRecord(manifestID, hash)];
      r := Ok(byID[manifestID]);
    }
  }

  // ---- The runner ----

  /**
   One call's input. preflight is what the gates, authorization, route and budget checks decided, and
   requestHash the digest of everything they froze.
   */
  datatype GenerationInput = GenerationInput(
    runID: string,
    idempotencyKey: string,
    preflight: Option<Failure>,
    requestHash: string,
    prompt: string,
    promptSnapshotID: string,
    assets: seq<AssetRef>,
    budget: BudgetEnvelope,
    reservationMicros: int,
    route: Route,
    maxPolls: int)
  {
    function Request(): GenerationRequest {
      GenerationRequest(runID, idempotencyKey, prompt, promptSnapshotID, route.modelID, assets, budget)
    }

    /** The call gets past preflight. */
    predicate Cleared() {
      && !Blank(runID) && !Blank(idempotencyKey) && runID == idempotencyKey
      && Request().Valid()
      && preflight.None?
    }
  }

  /** The record an Execute call ends with, if it got that far, and its failure, if it had one. */
  datatype Outcome = Outcome(record: Option<RunRecord>, failure: Option<Failure>)

  /** The earliest time that is after floor and not before candidate. */
  function Later(candidate: nat, floor: nat): (r: nat)
    ensures candidate <= r && floor < r && r in {candidate, floor + 1}
  {
    if candidate > floor then candidate else floor + 1
  }

  function Submits(submits: map<string, nat>, key: string): nat {
    if key in submits then submits[key] else 0
  }

  /** The job is the one the provider holds under this key, and if it is over, it is what the provider still reports. */
  ghost predicate Owns(provider: State, key: string, job: Job) {
    && key in provider.idempotency && provider.idempotency[key] == job.id
    && job.id in provider.records && job.id != ""
    && (job.status.Terminal() ==> provider.records[job.id].job == job)
  }

  /** The provider's job under this key is over. */
  ghost predicate IsOver(provider: State, key: string) {
    && key in provider.idempotency && provider.idempotency[key] in provider.records
    && provider.records[provider.idempotency[key]].job.status.Terminal()
  }

  lemma CancellingEnds(s: State, key: string, job: Job)
    requires Owns(s, key, job)
    ensures IsOver(CancelledBy(s, None, job.id).0, key)
  {
  }

  /** Why a terminal job is not accepted as this run's result. */
  function Objection(input: GenerationInput, job: Job): Option<Failure> {
    if job.provider != input.route.provider || job.providerModel != input.route.modelID
       || Blank(job.providerRegion) || Blank(job.providerRequestID) then Some(ConflictFailed)
    else if job.output.None? then None
    else if job.output.value.providerCostMicros < 0 then Some(ValidationFailed)
    else if job.output.value.providerCostMicros > input.reservationMicros then Some(CodedFailure(BudgetExceeded))
    else None
  }

  /** A closed run: terminal, with one recorded attempt for every submit its key has seen, and no more than allowed. */
  ghost predicate Closed(record: RunRecord, submits: map<string, nat>) {
    && !record.state.RunRunning? && record.finishedAt > record.startedAt
    && record.runID == record.idempotencyKey
    && 1 <= Submits(submits, record.idempotencyKey) == SubmitCount(record.attempts) <= record.request.budget.maxAttempts as int
  }

  /** One more attempt has been recorded, with what came of it. */
  predicate Attempted(
      prior: seq<AttemptRecord>, attempts: seq<AttemptRecord>, kind: AttemptKind, jobID: string, r: Result<Job, ProviderError>)
  {
    && |attempts| == |prior| + 1 && attempts[..|prior|] == prior
    && var last := attempts[|prior|];
       && last.sequence == |attempts| && last.kind == kind && last.finishedAt > last.startedAt && last.providerJobID == jobID
       && (r.Ok? ==> last.state == r.value.status && last.errorCode.None? && !last.retryable)
       && (r.Err? ==> last.state == Failed && last.errorCode == Some(r.error.code) && last.retryable == r.error.retryable)
  }

  /** A succeeded run names the job the provider holds under its key: finished, routed as frozen, paid within the reservation. */
  ghost predicate Backed(record: RunRecord, provider: State) {
    record.state.RunSucceeded? ==>
      && record.providerJob.Some?
      && var job := record.providerJob.value;
      && record.idempotencyKey in provider.idempotency && provider.idempotency[record.idempotencyKey] == job.id
      && job.id in provider.records && provider.records[job.id].job.status == Succeeded
      && job.provider == record.route.provider && job.providerModel == record.route.modelID
      && job.output.Some? && job.output.value.assets != []
      && 0 <= job.output.value.providerCostMicros <= record.reservationMicros
  }

  datatype World = World(runs: map<string, RunRecord>, submits: map<string, nat>, provider: State)

  /** Between calls every recorded run is closed and backed, and no key outside the ledger has ever been submitted. */
  ghost predicate Settled(w: World) {
    && FakeProviders.Valid(w.provider)
    && (forall id :: id in w.runs ==> w.runs[id].runID == id && Closed(w.runs[id], w.submits) && Backed(w.runs[id], w.provider))
    && (forall key :: key !in w.runs ==> Submits(w.submits, key) == 0)
  }

  /** The record one Execute call adds for a new key. */
  ghost predicate Fits(record: RunRecord, input: GenerationInput) {
    && record.runID == record.idempotencyKey == input.idempotencyKey
    && record.requestHash == input.requestHash && record.request == input.Request()
    && record.route == input.route && record.reservationMicros == input.reservationMicros
  }

  /** The begun run has ended with this outcome. */
  ghost predicate Ends(begun: RunRecord, outcome: Outcome, provider: State) {
    && outcome.record.Some?
    && var record := outcome.record.value;
    && record == begun.(state := record.state, attempts := record.attempts, providerJob := record.providerJob,
                        manifestID := record.manifestID, manifestHash := record.manifestHash,
                        finishedAt := record.finishedAt, errorCode := record.errorCode)
    && !record.state.RunRunning? && record.finishedAt > record.startedAt
    && 1 <= SubmitCount(record.attempts) <= record.request.budget.maxAttempts as int
    && Backed(record, provider)
    && (outcome.failure.None? <==> record.state.RunSucceeded?)
  }

  /**
   How a run went, as far as it got: the submits or the polls ended with a failure, possibly that of an interrupted
   wait, or the job was over, and then the committer and the manifest store may each have refused.
   */
  datatype Course =
    | NotAccepted(failure: Failure, interrupted: bool)
    | NotFinished(failure: Failure, interrupted: bool)
    | Over(job: Job, uncommitted: Option<Failure>, unmanifested: Option<Failure>)

  /** The run failed for this reason. */
  predicate FailedFor(record: RunRecord, failure: Option<Failure>, reason: Failure) {
    failure == Some(reason) && record.state.RunFailed? && record.errorCode == (if reason.CodedFailure? then Some(reason.code) else None)
  }

  /** The job came from the frozen provider and model and names its region and request. */
  predicate FromTheRoute(route: Route, job: Job) {
    job.provider == route.provider && job.providerModel == route.modelID && !Blank(job.providerRegion) && !Blank(job.providerRequestID)
  }

  /**
   The verdict on a run: a job from the frozen route within its reservation, with its assets committed and its
   manifest stored, gives the run its own ending; anything else fails the run for the first reason that applies.
   */
  predicate Explains(record: RunRecord, failure: Option<Failure>, course: Course) {
    match course
    case NotAccepted(reason, _) => FailedFor(record, failure, reason)
    case NotFinished(reason, _) => FailedFor(record, failure, reason)
    case Over(job, uncommitted, unmanifested) =>
      if !FromTheRoute(record.route, job) then FailedFor(record, failure, ConflictFailed)
      else if job.output.Some? && job.output.value.providerCostMicros < 0 then FailedFor(record, failure, ValidationFailed)
      else if job.output.Some? && job.output.value.providerCostMicros > record.reservationMicros then
        FailedFor(record, failure, CodedFailure(BudgetExceeded))
      else if job.status == Succeeded && (job.output.None? || job.output.value.assets == []) then
        FailedFor(record, failure, ValidationFailed)
      else if job.status == Succeeded && uncommitted.Some? then FailedFor(record, failure, uncommitted.value)
      else if unmanifested.Some? then FailedFor(record, failure, unmanifested.value)
      else
        && record.state == (match job.status case Succeeded => RunSucceeded case Cancelled => RunCancelled case _ => RunFailed)
        && failure == (if job.status == Succeeded then None else Some(OtherFailure))
        && record.providerJob.Some? && record.providerJob.value.id == job.id && record.providerJob.value.status == job.status
        && record.errorCode.None?
  }

  /** The attempt leaves open how the job ends. */
  predicate Inconclusive(attempt: AttemptRecord) {
    if attempt.errorCode.Some? then attempt.retryable else !attempt.state.Terminal()
  }

  /** The attempts are numbered and end after they start; submits come first, and each poll asks for the accepted job. */
  predicate WellRecorded(attempts: seq<AttemptRecord>, submits: nat)
    requires 0 < submits <= |attempts| || attempts == []
  {
    forall i :: 0 <= i < |attempts| ==>
      var attempt := attempts[i];
      && attempt.sequence == i + 1 && attempt.startedAt < attempt.finishedAt
      && attempt.kind == (if i < submits then ProviderSubmit else ProviderPoll)
      && attempt.providerJobID == (if submits <= i then attempts[submits - 1].providerJobID
                                   else if attempt.errorCode.Some? then "" else attempt.providerJobID)
  }

  /** The submits end with one the provider accepted, after nothing but retryable errors. */
  predicate AcceptedAfter(attempts: seq<AttemptRecord>, submits: nat) {
    && 1 <= submits <= |attempts| && attempts[submits - 1].errorCode.None?
    && forall i :: 0 <= i < submits - 1 ==> attempts[i].errorCode.Some? && attempts[i].retryable
  }

  predicate Announces(attempt: AttemptRecord, job: Job) {
    attempt.errorCode.None? && attempt.state == job.status && attempt.providerJobID == job.id
  }

  /** Nothing but retryable errors so far. */
  predicate Retrying(attempts: seq<AttemptRecord>) {
    WellRecorded(attempts, |attempts|) && forall i :: 0 <= i < |attempts| ==> attempts[i].errorCode.Some? && attempts[i].retryable
  }

  /** Submitting stopped short of an accepted job: at a final error, at the last attempt allowed, or in a wait. */
  predicate Unaccepted(attempts: seq<AttemptRecord>, maxAttempts: int, reason: Failure, interrupted: bool) {
    && attempts != []
    && var last := attempts[|attempts| - 1];
       && (forall i :: 0 <= i < |attempts| ==> attempts[i].errorCode.Some? && (i < |attempts| - 1 ==> attempts[i].retryable))
       && (if interrupted then last.retryable && |attempts| < maxAttempts
           else reason == CodedFailure(last.errorCode.value) && (!last.retryable || |attempts| == maxAttempts))
  }

  /** Polling stopped short of the job's end: at a final error, at the last poll allowed, or in a wait. */
  predicate Unfinished(attempts: seq<AttemptRecord>, submits: nat, maxPolls: int, reason: Failure, interrupted: bool) {
    && submits < |attempts|
    && var last := attempts[|attempts| - 1];
       && (forall i :: submits <= i < |attempts| - 1 ==> Inconclusive(attempts[i]))
       && (if interrupted then Inconclusive(last)
           else if Inconclusive(last) then reason == CodedFailure(Timeout) && |attempts| == submits + maxPolls
           else last.errorCode.Some? && reason == CodedFailure(last.errorCode.value))
  }

  /** Polling stopped at the job's end, and not before. */
  predicate Finished(attempts: seq<AttemptRecord>, submits: nat, job: Job) {
    && submits <= |attempts| && attempts != [] && job.status.Terminal()
    && (forall i :: submits <= i < |attempts| - 1 ==> Inconclusive(attempts[i]))
    && attempts[|attempts| - 1].errorCode.None? && attempts[|attempts| - 1].state == job.status
  }

  /** The recorded attempts, as many of them submits as were sent, show how far the run came and why no further. */
  predicate Shows(record: RunRecord, course: Course, maxPolls: int) {
    var submits := SubmitCount(record.attempts);
    && 1 <= submits <= |record.attempts| && WellRecorded(record.attempts, submits)
    && match course
    case NotAccepted(reason, interrupted) =>
      submits == |record.attempts| && Unaccepted(record.attempts, record.request.budget.maxAttempts as int, reason, interrupted)
    case NotFinished(reason, interrupted) =>
      AcceptedAfter(record.attempts, submits) && Unfinished(record.attempts, submits, maxPolls, reason, interrupted)
    case Over(job, _, _) =>
      AcceptedAfter(record.attempts, submits) && Finished(record.attempts, submits, job)
  }

  /** What one Execute call may do to the world, and what it returns. */
  ghost predicate Executed(before: World, input: GenerationInput, after: World, outcome: Outcome) {
    && Settled(after)
    && (if !input.Cleared() then
          && after == before
          && outcome == Outcome(None, Some(if input.preflight.Some? then input.preflight.value else ValidationFailed))
        else if input.idempotencyKey in before.runs then
          && after == before
          && var existing := before.runs[input.idempotencyKey];
             if existing.requestHash != input.requestHash then outcome == Outcome(None, Some(ConflictFailed))
             else outcome == Outcome(Some(existing),
               if existing.state.RunSucceeded? then None
               else if existing.errorCode.Some? then Some(CodedFailure(existing.errorCode.value)) else Some(OtherFailure))
        else
          && Evolves(before.provider, after.provider)
          && outcome.record.Some? && Fits(outcome.record.value, input)
          && (outcome.failure.None? <==> outcome.record.value.state.RunSucceeded?)
          && after.runs == before.runs[input.idempotencyKey := outcome.record.value]
          && after.submits == before.submits[input.idempotencyKey := SubmitCount(outcome.record.value.attempts)])
  }

  // ---- Small facts ----

  lemma FailureExplains(r: Outcome, course: Course, reason: Failure)
    requires r.record.Some? && FailedFor(r.record.value, r.failure, reason) && !course.Over? && course.failure == reason
    ensures Explains(r.record.value, r.failure, course)
  {
  }

  lemma NothingRecorded()
    ensures Retrying([])
  {
  }

  /** What one more submit makes of a run that has only seen retryable errors. */
  lemma SubmitIsRecorded(prior: seq<AttemptRecord>, attempts: seq<AttemptRecord>, maxAttempts: int, r: Result<Job, ProviderError>)
    requires Retrying(prior) && Attempted(prior, attempts, ProviderSubmit, if r.Ok? then r.value.id else "", r)
    ensures |attempts| == |prior| + 1 && WellRecorded(attempts, |attempts|)
    ensures r.Ok? ==> AcceptedAfter(attempts, |attempts|) && Announces(attempts[|attempts| - 1], r.value)
    ensures r.Err? && r.error.retryable ==> Retrying(attempts)
    ensures r.Err? && (!r.error.retryable || |attempts| == maxAttempts) ==>
              Unaccepted(attempts, maxAttempts, CodedFailure(r.error.code), false)
    ensures r.Err? && r.error.retryable && |attempts| < maxAttempts ==>
              forall reason :: Unaccepted(attempts, maxAttempts, reason, true)
  {
    assert forall i :: 0 <= i < |prior| ==> attempts[i] == prior[i];
  }

  lemma PollIsRecorded(prior: seq<AttemptRecord>, attempts: seq<AttemptRecord>, submits: nat, r: Result<Job, ProviderError>)
    requires 0 < submits <= |prior| && WellRecorded(prior, submits)
    requires Attempted(prior, attempts, ProviderPoll, prior[submits - 1].providerJobID, r)
    ensures WellRecorded(attempts, submits)
  {
    assert forall i :: 0 <= i < |prior| ==> attempts[i] == prior[i];
  }

  lemma AcceptanceStays(prior: seq<AttemptRecord>, attempts: seq<AttemptRecord>)
    requires AcceptedAfter(prior, |prior|) && prior <= attempts
    ensures AcceptedAfter(attempts, |prior|)
  {
    assert forall i :: 0 <= i < |prior| ==> attempts[i] == prior[i];
  }

  lemma EvolvesOnward(a: State, b: State, c: State)
    requires Evolves(a, b) && Evolves(b, c)
    ensures Evolves(a, c)
  {
  }

  lemma OwnershipLasts(provider: State, later: State, key: string, job: Job)
    requires Owns(provider, key, job) && Evolves(provider, later)
    ensures Owns(later, key, job)
  {
  }

  lemma BackingLasts(record: RunRecord, provider: State, later: State)
    requires Backed(record, provider) && Evolves(provider, later)
    ensures Backed(record, later)
  {
  }

  lemma SubmittedJobIsOwned(scenario: Scenario, s: State, context: Option<ProviderError>, request: GenerationRequest)
    requires FakeProviders.Valid(s) && Submitted(scenario, s, context, request).1.Ok?
    ensures var (t, r) := Submitted(scenario, s, context, request); Owns(t, request.idempotencyKey, r.value)
  {
    hide Numbered, Matched;
    if request.idempotencyKey in s.idempotency {
      KeysNameRecords(s, request.idempotencyKey);
      RecordIDsAreNamed(s, s.idempotency[request.idempotencyKey]);
    }
  }

  lemma RecordIDsAreNamed(s: State, id: string)
    requires FakeProviders.Valid(s) && id in s.records
    ensures id != ""
  {
    hide Matched, Padded, Decimal;
    var n :| 1 <= n <= |s.records| && id == JobID(n);
  }

  lemma PolledJobIsOwned(scenario: Scenario, s: State, context: Option<ProviderError>, key: string, job: Job)
    requires FakeProviders.Valid(s) && Owns(s, key, job)
    requires Polled(scenario, s, context, job.id).1.Ok?
    ensures var (t, r) := Polled(scenario, s, context, job.id); Owns(t, key, r.value) && r.value.id == job.id
  {
    hide Numbered, Matched;
    KeysNameRecords(s, key);
  }

  /** Adding one closed, backed run to a settled world whose provider has moved on leaves it settled. */
  lemma ClosingSettles(before: World, record: RunRecord, provider: State)
    requires Settled(before) && record.idempotencyKey !in before.runs
    requires FakeProviders.Valid(provider) && Evolves(before.provider, provider)
    requires !record.state.RunRunning? && record.finishedAt > record.startedAt && record.runID == record.idempotencyKey
    requires 1 <= SubmitCount(record.attempts) <= record.request.budget.maxAttempts as int
    requires Backed(record, provider)
    ensures Settled(World(before.runs[record.runID := record],
                          before.submits[record.runID := SubmitCount(record.attempts)], provider))
  {
    hide FakeProviders.Valid, Backed, Evolves, SubmitCount;
    forall id | id in before.runs ensures Backed(before.runs[id], provider) {
      BackingLasts(before.runs[id], before.provider, provider);
    }
  }

  lemma SettledProvider(w: World)
    requires Settled(w)
    ensures FakeProviders.Valid(w.provider)
  {
  }

  lemma ClearedAllowsAnAttempt(input: GenerationInput)
    requires input.Cleared()
    ensures input.budget.maxAttempts >= 1
  {
  }

  lemma EndingExecutes(before: World, input: GenerationInput, begun: RunRecord, after: World, outcome: Outcome)
    requires Settled(before) && input.Cleared() && input.idempotencyKey !in before.runs
    requires Fits(begun, input) && Ends(begun, outcome, after.provider)
    requires FakeProviders.Valid(after.provider) && Evolves(before.provider, after.provider)
    requires after.runs == before.runs[input.idempotencyKey := outcome.record.value]
    requires after.submits == before.submits[input.idempotencyKey :=
      Submits(before.submits, input.idempotencyKey) + SubmitCount(outcome.record.value.attempts)]
    ensures Executed(before, input, after, outcome)
  {
    hide FakeProviders.Valid, Evolves, Backed, SubmitCount, GenerationInput.Cleared;
    ClosingSettles(before, outcome.record.value, after.provider);
  }

  // ---- The surroundings ----

  method Now() returns (t: nat)
  {
    t := *;
  }

  /** The error of the caller's context at this moment, if it has ended. */
  method ContextError() returns (e: Option<ProviderError>)
  {
    e := *;
  }

  /** The artifact committer keeps an asset or refuses it. */
  method Commit(asset: AssetRef) returns (r: Result<AssetRef, Failure>)
  {
    r := *;
  }

  /** The manifest's identity and hash, unless its fields do not make a valid manifest. */
  method BuildManifest() returns (r: Result<ManifestRecord, Failure>)
  {
    r := *;
  }

  /** Anything other parties do to the shared provider between two calls of the runner. */
  method OthersAct(provider: FakeProvider)
    requires FakeProviders.Valid(provider.Snapshot())
    modifies provider
    ensures FakeProviders.Valid(provider.Snapshot()) && Evolves(old(provider.Snapshot()), provider.Snapshot())
  {
    hide FakeProviders.Valid, Evolves, Submitted, Polled, CancelledBy, CalledBack;
    ghost var start := provider.Snapshot();
    EvolvesReflexively(start);
    var commands: seq<Command> := *;
    for i := 0 to |commands|
      invariant FakeProviders.Valid(provider.Snapshot()) && Evolves(start, provider.Snapshot())
    {
      ghost var s := provider.Snapshot();
      match commands[i] {
        case Submit(context, request) => var _ := provider.Submit(context, request);
        case Poll(context, id) => var _ := provider.Poll(context, id);
        case Cancel(context, id) => var _ := provider.Cancel(context, id);
        case ApplyCallback(callback) => var _ := provider.ApplyCallback(callback);
      }
      EvolvesOnward(start, s, provider.Snapshot());
    }
  }

  // ---- The runner ----

  class GenerationRunner {
    const provider: FakeProvider
    const ledger: RunLedger
    const manifests: ManifestStore
    ghost var submits: map<string, nat>
    ghost var interruptions: nat

    constructor (provider: FakeProvider)
      requires FakeProviders.Valid(provider.Snapshot())
      ensures this.provider == provider && fresh(ledger) && fresh(manifests)
      ensures Valid() && Snapshot() == World(map[], map[], provider.Snapshot())
    {
      this.provider := provider;
      ledger := new RunLedger();
      manifests := new ManifestStore();
      submits, interruptions := map[], 0;
    }

    ghost predicate Valid()
      reads this, ledger, provider
    {
      ledger.Valid() && Settled(Snapshot())
    }

    ghost function Snapshot(): World
      reads this, ledger, provider
    {
      World(ledger.byRunID, submits, provider.Snapshot())
    }

    /** Waiting fails when the context ends first. */
    method Wait() returns (e: Option<Failure>)
      modifies this`interruptions
      ensures interruptions == old(interruptions) + (if e.Some? then 1 else 0)
    {
      e := *;
      if e.Some? {
        interruptions := interruptions + 1;
      }
    }

    /** Closes the run as failed. */
    method Fail(record: RunRecord, failure: Failure) returns (r: Outcome)
      requires ledger.Valid() && record.runID in ledger.byRunID
      requires ledger.byRunID[record.runID].state.RunRunning?
      requires ledger.byRunID[record.runID].requestHash == record.requestHash
      requires ledger.byRunID[record.runID].idempotencyKey == record.idempotencyKey
      modifies ledger
      ensures ledger.Valid()
      ensures r.record.Some? && r.record.value.finishedAt > record.startedAt
      ensures r.record.value == record.(state := RunFailed, finishedAt := r.record.value.finishedAt, errorCode := failure.Code())
      ensures r.failure == Some(failure)
      ensures ledger.byRunID == old(ledger.byRunID)[record.runID := r.record.value]
    {
      var now := Now();
      var failed := record.(state := RunFailed, finishedAt := Later(now, record.startedAt), errorCode := failure.Code());
      var completed := ledger.Complete(failed);
      r := Outcome(Some(completed.value), Some(failure));
    }

    /** One submit and the attempt record it leaves. */
    method SubmitOnce(request: GenerationRequest, prior: seq<AttemptRecord>)
      returns (attempts: seq<AttemptRecord>, r: Result<Job, ProviderError>)
      requires FakeProviders.Valid(provider.Snapshot())
      modifies provider, this`submits
      ensures FakeProviders.Valid(provider.Snapshot()) && Evolves(old(provider.Snapshot()), provider.Snapshot())
      ensures SubmitCount(attempts) == SubmitCount(prior) + 1
      ensures Attempted(prior, attempts, ProviderSubmit, if r.Ok? then r.value.id else "", r)
      ensures submits == old(submits)[request.idempotencyKey := Submits(old(submits), request.idempotencyKey) + 1]
      ensures r.Ok? ==> Owns(provider.Snapshot(), request.idempotencyKey, r.value)
    {
      hide FakeProviders.Valid, Evolves, Owns, Submitted, SubmitCount;
      ghost var start := provider.Snapshot();
      var started := Now();
      var context := ContextError();
      OthersAct(provider);
      ghost var s := provider.Snapshot();
      r := provider.Submit(context, request);
      submits := submits[request.idempotencyKey := Submits(submits, request.idempotencyKey) + 1];
      EvolvesOnward(start, s, provider.Snapshot());
      var now := Now();
      var attempt := AttemptRecord(|prior| + 1, ProviderSubmit, Failed, started, Later(now, started), "", None, false);
      if r.Ok? {
        SubmittedJobIsOwned(provider.scenario, s, context, request);
        attempt := attempt.(state := r.value.status, providerJobID := r.value.id);
      } else {
        attempt := attempt.(errorCode := Some(r.error.code), retryable := r.error.retryable);
      }
      SubmitCountGrows(prior, attempt);
      attempts := prior + [attempt];
    }

    /**
     Submits under one key until the provider accepts, the error is final, or the attempts are used up; interrupted is
     the failure of a wait between two submits.
     */
    method SubmitUntilAccepted(request: GenerationRequest)
      returns (attempts: seq<AttemptRecord>, r: Result<Job, Failure>, ghost interrupted: Option<Failure>)
      requires FakeProviders.Valid(provider.Snapshot()) && request.budget.maxAttempts >= 1
      modifies provider, this`submits, this`interruptions
      ensures FakeProviders.Valid(provider.Snapshot()) && Evolves(old(provider.Snapshot()), provider.Snapshot())
      ensures 1 <= SubmitCount(attempts) <= request.budget.maxAttempts as int
      ensures var key := request.idempotencyKey;
        submits == old(submits)[key := Submits(old(submits), key) + SubmitCount(attempts)]
      ensures |attempts| == SubmitCount(attempts) && WellRecorded(attempts, |attempts|)
      ensures r.Ok? ==> Owns(provider.Snapshot(), request.idempotencyKey, r.value)
      ensures r.Ok? ==> AcceptedAfter(attempts, |attempts|) && Announces(attempts[|attempts| - 1], r.value)
      ensures r.Err? ==> Unaccepted(attempts, request.budget.maxAttempts as int, r.error, interrupted.Some?)
      ensures interrupted.Some? ==> r == Err(interrupted.value)
      ensures interruptions == old(interruptions) + (if interrupted.Some? then 1 else 0)
    {
      hide FakeProviders.Valid, Evolves, Owns, WellRecorded, Attempted, AcceptedAfter, Announces, Unaccepted;
      interrupted := None;
      NothingRecorded();
      var key := request.idempotencyKey;
      var maxAttempts := request.budget.maxAttempts as int;
      ghost var start, counts := provider.Snapshot(), submits;
      EvolvesReflexively(start);
      attempts := [];
      var job: Option<Job> := None;
      var attempt := 1;
      while attempt <= maxAttempts
        invariant 1 <= attempt <= maxAttempts && job.None?
        invariant FakeProviders.Valid(provider.Snapshot()) && Evolves(start, provider.Snapshot())
        invariant SubmitCount(attempts) == attempt - 1 == |attempts|
        invariant Retrying(attempts)
        invariant submits == if attempt == 1 then counts else counts[key := Submits(counts, key) + attempt - 1]
        invariant interruptions == old(interruptions)
      {
        hide SubmitCount, Retrying;
        ghost var s, prior := provider.Snapshot(), attempts;
        var submitted;
        attempts, submitted := SubmitOnce(request, attempts);
        SubmitIsRecorded(prior, attempts, maxAttempts, submitted);
        EvolvesOnward(start, s, provider.Snapshot());
        if submitted.Ok? {
          job := Some(submitted.value);
          break;
        }
        if !submitted.error.retryable || attempt == maxAttempts {
          return attempts, Err(CodedFailure(submitted.error.code)), None;
        }
        var waited := Wait();
        if waited.Some? {
          return attempts, Err(waited.value), waited;
        }
        attempt := attempt + 1;
      }
      if job.Some? { OwnedJobsAreNamed(provider.Snapshot(), key, job.value); }
      if job.None? || job.value.id == "" {
        return attempts, Err(CodedFailure(Unavailable)), None;
      }
      r := Ok(job.value);
    }

    /** One poll and the attempt record it leaves. */
    method PollOnce(key: string, job: Job, prior: seq<AttemptRecord>)
      returns (attempts: seq<AttemptRecord>, r: Result<Job, ProviderError>)
      requires FakeProviders.Valid(provider.Snapshot()) && Owns(provider.Snapshot(), key, job)
      modifies provider
      ensures FakeProviders.Valid(provider.Snapshot()) && Evolves(old(provider.Snapshot()), provider.Snapshot())
      ensures SubmitCount(attempts) == SubmitCount(prior) && Attempted(prior, attempts, ProviderPoll, job.id, r)
      ensures Owns(provider.Snapshot(), key, if r.Ok? then r.value else job) && (r.Ok? ==> r.value.id == job.id)
    {
      hide FakeProviders.Valid, Evolves, Owns, Polled, SubmitCount;
      ghost var start := provider.Snapshot();
      var started := Now();
      var context := ContextError();
      OthersAct(provider);
      ghost var s := provider.Snapshot();
      OwnershipLasts(start, s, key, job);
      r := provider.Poll(context, job.id);
      EvolvesOnward(start, s, provider.Snapshot());
      OwnershipLasts(s, provider.Snapshot(), key, job);
      var now := Now();
      var attempt := AttemptRecord(|prior| + 1, ProviderPoll, Failed, started, Later(now, started), job.id, None, false);
      if r.Ok? {
        PolledJobIsOwned(provider.scenario, s, context, key, job);
        attempt := attempt.(state := r.value.status);
      } else {
        attempt := attempt.(errorCode := Some(r.error.code), retryable := r.error.retryable);
      }
      SubmitCountGrows(prior, attempt);
      attempts := prior + [attempt];
    }

    /** Polls, no more often than the input allows, until the job is over; interrupted is the failure of a wait, which cancels it. */
    method PollUntilTerminal(input: GenerationInput, prior: seq<AttemptRecord>, accepted: Job)
      returns (attempts: seq<AttemptRecord>, r: Result<Job, Failure>, ghost interrupted: Option<Failure>)
      requires FakeProviders.Valid(provider.Snapshot()) && Owns(provider.Snapshot(), input.idempotencyKey, accepted)
      requires AcceptedAfter(prior, |prior|) && Announces(prior[|prior| - 1], accepted) && WellRecorded(prior, |prior|)
      modifies provider, this`interruptions
      ensures FakeProviders.Valid(provider.Snapshot()) && Evolves(old(provider.Snapshot()), provider.Snapshot())
      ensures SubmitCount(attempts) == SubmitCount(prior) && prior <= attempts && WellRecorded(attempts, |prior|)
      ensures |attempts| <= |prior| + (if input.maxPolls > 0 then input.maxPolls else 60)
      ensures r.Ok? ==> Owns(provider.Snapshot(), input.idempotencyKey, r.value) && r.value.status.Terminal()
      ensures r.Ok? ==> Finished(attempts, |prior|, r.value)
      ensures r.Err? ==> Unfinished(attempts, |prior|, if input.maxPolls > 0 then input.maxPolls else 60, r.error, interrupted.Some?)
      ensures interrupted.Some? ==> r == Err(interrupted.value) && IsOver(provider.Snapshot(), input.idempotencyKey)
      ensures interruptions == old(interruptions) + (if interrupted.Some? then 1 else 0)
    {
      hide FakeProviders.Valid, Evolves, Owns, IsOver, CancelledBy, SubmitCount, WellRecorded;
      interrupted := None;
      var maxPolls := if input.maxPolls <= 0 then 60 else input.maxPolls;
      ghost var start := provider.Snapshot();
      EvolvesReflexively(start);
      attempts := prior;
      var job := accepted;
      var poll := 1;
      while !job.status.Terminal() && poll <= maxPolls
        invariant FakeProviders.Valid(provider.Snapshot()) && Evolves(start, provider.Snapshot())
        invariant Owns(provider.Snapshot(), input.idempotencyKey, job)
        invariant SubmitCount(attempts) == SubmitCount(prior) && prior <= attempts
        invariant 1 <= poll <= maxPolls + 1 && |attempts| == |prior| + poll - 1
        invariant interruptions == old(interruptions)
        invariant WellRecorded(attempts, |prior|) && job.id == prior[|prior| - 1].providerJobID
        invariant if job.status.Terminal() then Finished(attempts, |prior|, job)
                  else forall i :: |prior| <= i < |attempts| ==> Inconclusive(attempts[i])
        decreases maxPolls - poll
      {
        ghost var s, before := provider.Snapshot(), attempts;
        var polled;
        attempts, polled := PollOnce(input.idempotencyKey, job, attempts);
        PollIsRecorded(before, attempts, |prior|, polled);
        EvolvesOnward(start, s, provider.Snapshot());
        if polled.Ok? {
          job := polled.value;
        } else if !polled.error.retryable {
          return attempts, Err(CodedFailure(polled.error.code)), None;
        }
        if !job.status.Terminal() {
          var waited := Wait();
          if waited.Some? {
            s := provider.Snapshot();
            CancellingEnds(s, input.idempotencyKey, job);
            var _ := provider.Cancel(None, job.id);
            EvolvesOnward(start, s, provider.Snapshot());
            return attempts, Err(waited.value), waited;
          }
        }
        poll := poll + 1;
      }
      if !job.status.Terminal() {
        return attempts, Err(CodedFailure(Timeout)), None;
      }
      r := Ok(job);
    }

    /** Commits every output asset of a succeeded job. */
    method CommitOutput(job: Job) returns (r: Result<Job, Failure>, ghost refused: Option<Failure>)
      requires job.status.Terminal()
      ensures refused.Some? ==> job.status == Succeeded && r == Err(refused.value)
      ensures refused.None? && r.Err? ==>
        job.status == Succeeded && (job.output.None? || job.output.value.assets == []) && r.error == ValidationFailed
      ensures refused.Some? ==> job.output.Some? && job.output.value.assets != []
      ensures r.Ok? && job.status != Succeeded ==> r.value == job
      ensures r.Ok? && job.status == Succeeded ==>
        && job.output.Some? && job.output.value.assets != [] && r.value.output.Some?
        && |r.value.output.value.assets| == |job.output.value.assets|
        && r.value == job.(output := Some(job.output.value.(assets := r.value.output.value.assets)))
    {
      refused := None;
      if job.status != Succeeded {
        return Ok(job), None;
      }
      if job.output.None? || job.output.value.assets == [] {
        return Err(ValidationFailed), None;
      }
      var committed := [];
      for i := 0 to |job.output.value.assets|
        invariant |committed| == i
      {
        var stored := Commit(job.output.value.assets[i]);
        if stored.Err? {
          return Err(stored.error), Some(stored.error);
        }
        committed := committed + [stored.value];
      }
      r := Ok(job.(output := Some(job.output.value.(assets := committed))));
    }

    /** The ledger finds a run under a key exactly when one is recorded under the equal run ID. */
    lemma KeysAreRunIDs(key: string)
      requires Valid()
      ensures ledger.Existing(key, key) == if key in ledger.byRunID then Some(ledger.byRunID[key]) else None
      ensures key in ledger.byRunID ==> !ledger.byRunID[key].state.RunRunning?
    {
      hide FakeProviders.Valid, Backed, SubmitCount, Submits;
    }

    /** Generates one shot under its idempotency key, or replays what that key already came to. */
    method Execute(input: GenerationInput) returns (r: Outcome, ghost course: Option<Course>)
      requires Valid()
      modifies this`submits, this`interruptions, ledger, manifests, provider
      ensures Valid()
      ensures Executed(old(Snapshot()), input, Snapshot(), r)
      ensures input.preflight.Some? || Blank(input.runID) || input.runID != input.idempotencyKey || !input.Request().Valid() ==>
        && Snapshot() == old(Snapshot()) && course.None?
        && r == Outcome(None, Some(if input.preflight.Some? then input.preflight.value else ValidationFailed))
      ensures input.preflight.None? && !Blank(input.runID) && input.runID == input.idempotencyKey && input.Request().Valid() ==>
        (course.None? <==> input.idempotencyKey in old(ledger.byRunID))
      ensures course.Some? ==> r.record.Some? && Explains(r.record.value, r.failure, course.value)
      ensures course.Some? ==> Shows(r.record.value, course.value, if input.maxPolls > 0 then input.maxPolls else 60)
      ensures course.Some? && course.value.Over? ==> Owns(provider.Snapshot(), input.idempotencyKey, course.value.job)
      ensures interruptions == old(interruptions) + (if course.Some? && !course.value.Over? && course.value.interrupted then 1 else 0)
    {
      course := None;
      hide Settled, Evolves, SubmitCount, Submits, FakeProviders.Valid, Ends, Blank, Shows, Explains, Owns;
      hide BudgetEnvelope.Valid, GenerationRequest.Valid, RunLedger.Valid, RunLedger.Existing;
      ghost var before := Snapshot();
      KeysAreRunIDs(input.idempotencyKey);
      var startedAt := Now();
      if !input.Cleared() {
        return Outcome(None, Some(if input.preflight.Some? then input.preflight.value else ValidationFailed)), None;
      }
      var record := RunRecord(input.runID, input.idempotencyKey, input.requestHash, RunRunning, input.Request(), input.route,
                              input.reservationMicros, [], None, "", "", startedAt, 0, None);
      var begun := ledger.Begin(record);
      if begun.Err? {
        return Outcome(None, Some(begun.error)), None;
      }
      if begun.value.1 && !begun.value.0.state.RunRunning? {
        var existing := begun.value.0;
        if existing.state.RunSucceeded? {
          return Outcome(Some(existing), None), None;
        }
        return Outcome(Some(existing),
                       Some(if existing.errorCode.Some? then CodedFailure(existing.errorCode.value) else OtherFailure)), None;
      }
      SettledProvider(before);
      ClearedAllowsAnAttempt(input);
      ghost var went;
      r, went := Generate(input, record);
      course := Some(went);
      EndingExecutes(before, input, record, Snapshot(), r);
    }

    /** The paid part of Execute, for a run the ledger has just begun. */
    method Generate(input: GenerationInput, begun: RunRecord) returns (r: Outcome, ghost course: Course)
      requires ledger.Valid() && FakeProviders.Valid(provider.Snapshot())
      requires begun.runID in ledger.byRunID && ledger.byRunID[begun.runID] == begun
      requires Fits(begun, input) && begun.state.RunRunning? && begun.attempts == [] && input.budget.maxAttempts >= 1
      requires begun.errorCode.None?
      modifies this`submits, this`interruptions, ledger, manifests, provider
      ensures ledger.Valid() && FakeProviders.Valid(provider.Snapshot()) && Evolves(old(provider.Snapshot()), provider.Snapshot())
      ensures Ends(begun, r, provider.Snapshot())
      ensures ledger.byRunID == old(ledger.byRunID)[begun.runID := r.record.value]
      ensures var key := input.idempotencyKey;
        submits == old(submits)[key := Submits(old(submits), key) + SubmitCount(r.record.value.attempts)]
      ensures Explains(r.record.value, r.failure, course)
      ensures Shows(r.record.value, course, if input.maxPolls > 0 then input.maxPolls else 60)
      ensures course.Over? ==> Owns(provider.Snapshot(), input.idempotencyKey, course.job)
      ensures course.NotFinished? && course.interrupted ==> IsOver(provider.Snapshot(), input.idempotencyKey)
      ensures interruptions == old(interruptions) + (if !course.Over? && course.interrupted then 1 else 0)
    {
      hide FakeProviders.Valid, Evolves, Backed, Owns, SubmitCount, Objection, AcceptedAfter, Unaccepted, Unfinished, Finished, IsOver;
      hide WellRecorded, Announces;
      hide Explains;
      ghost var start := provider.Snapshot();
      var attempts, submitted;
      ghost var interrupted;
      attempts, submitted, interrupted := SubmitUntilAccepted(begun.request);
      var record := begun.(attempts := attempts);
      if submitted.Err? {
        course := NotAccepted(submitted.error, interrupted.Some?);
        r := Fail(record, submitted.error);
        FailureExplains(r, course, submitted.error);
        FailureIsBacked(r.record.value, provider.Snapshot());
        return;
      }
      ghost var s := provider.Snapshot();
      var polledAttempts, polled;
      polledAttempts, polled, interrupted := PollUntilTerminal(input, attempts, submitted.value);
      AcceptanceStays(attempts, polledAttempts);
      EvolvesOnward(start, s, provider.Snapshot());
      record := record.(attempts := polledAttempts);
      if polled.Err? {
        course := NotFinished(polled.error, interrupted.Some?);
        r := Fail(record, polled.error);
        FailureExplains(r, course, polled.error);
        FailureIsBacked(r.record.value, provider.Snapshot());
        return;
      }
      r, course := Conclude(input, record, polled.value);
    }

    /** The part of Execute after the job is over: checks, commits and binds it, and closes the run. */
    method Conclude(input: GenerationInput, record: RunRecord, job: Job) returns (r: Outcome, ghost course: Course)
      requires ledger.Valid() && record.runID in ledger.byRunID
      requires ledger.byRunID[record.runID].state.RunRunning?
      requires ledger.byRunID[record.runID].requestHash == record.requestHash
      requires ledger.byRunID[record.runID].idempotencyKey == record.idempotencyKey
      requires Fits(record, input) && record.state.RunRunning? && record.errorCode.None?
      requires job.status.Terminal() && Owns(provider.Snapshot(), input.idempotencyKey, job)
      modifies ledger, manifests
      ensures ledger.Valid() && r.record.Some?
      ensures var closed := r.record.value;
        && closed == record.(state := closed.state, providerJob := closed.providerJob, manifestID := closed.manifestID,
                             manifestHash := closed.manifestHash, finishedAt := closed.finishedAt, errorCode := closed.errorCode)
        && !closed.state.RunRunning? && closed.finishedAt > record.startedAt
        && (r.failure.None? <==> closed.state.RunSucceeded?)
        && Backed(closed, provider.Snapshot())
        && ledger.byRunID == old(ledger.byRunID)[record.runID := closed]
      ensures course.Over? && course.job == job && Explains(r.record.value, r.failure, course)
    {
      hide Backed, Owns, Objection, RunLedger.Valid, Blank, FromTheRoute;
      course := Over(job, None, None);
      ObjectionMeans(input, job);
      var objection := Objection(input, job);
      if objection.Some? {
        r := Fail(record, objection.value);
        FailureIsBacked(r.record.value, provider.Snapshot());
        return;
      }
      var committed;
      ghost var uncommitted, unmanifested;
      committed, uncommitted := CommitOutput(job);
      course := Over(job, uncommitted, None);
      if committed.Err? {
        r := Fail(record, committed.error);
        FailureIsBacked(r.record.value, provider.Snapshot());
        return;
      }
      r, unmanifested := Manifest(record, committed.value);
      course := Over(job, uncommitted, unmanifested);
      if r.record.value.state.RunSucceeded? {
        SuccessIsBacked(input, r.record.value, job, provider.Snapshot());
      } else {
        FailureIsBacked(r.record.value, provider.Snapshot());
      }
    }

    /** Binds the terminal job to an immutable manifest and closes the run with the job's verdict, or fails it. */
    method Manifest(record: RunRecord, job: Job) returns (r: Outcome, ghost refused: Option<Failure>)
      requires ledger.Valid() && record.runID in ledger.byRunID
      requires ledger.byRunID[record.runID].state.RunRunning?
      requires ledger.byRunID[record.runID].requestHash == record.requestHash
      requires ledger.byRunID[record.runID].idempotencyKey == record.idempotencyKey
      requires job.status.Terminal() && record.state.RunRunning?
      modifies ledger, manifests
      ensures ledger.Valid()
      ensures r.record.Some?
      ensures var closed := r.record.value;
        && !closed.state.RunRunning? && closed.finishedAt > record.startedAt
        && (closed.state.RunSucceeded? ==> job.status == Succeeded && closed.providerJob == Some(job))
        && (r.failure.None? <==> closed.state.RunSucceeded?)
        && closed == record.(state := closed.state, providerJob := closed.providerJob, manifestID := closed.manifestID,
                             manifestHash := closed.manifestHash, finishedAt := closed.finishedAt, errorCode := closed.errorCode)
        && ledger.byRunID == old(ledger.byRunID)[record.runID := closed]
      ensures var closed := r.record.value;
        if refused.None? then
          && closed.state == (match job.status case Succeeded => RunSucceeded case Cancelled => RunCancelled case _ => RunFailed)
          && r.failure == (if job.status == Succeeded then None else Some(OtherFailure))
          && closed.providerJob == Some(job) && closed.errorCode == record.errorCode
          && ManifestRecord(closed.manifestID, closed.manifestHash) in manifests.byID.Values
        else
          && FailedFor(closed, r.failure, refused.value)
          && closed.providerJob == record.providerJob && closed.manifestID == record.manifestID
      ensures forall id :: id in old(manifests.byID) ==> id in manifests.byID && manifests.byID[id] == old(manifests.byID)[id]
    {
      var now := Now();
      var completedAt := Later(now, record.startedAt);
      var manifest := BuildManifest();
      if manifest.Err? {
        r := Fail(record, manifest.error);
        refused := Some(manifest.error);
        return;
      }
      var stored := manifests.Put(manifest.value.manifestID, manifest.value.hash);
      if stored.Err? {
        r := Fail(record, stored.error);
        refused := Some(stored.error);
        return;
      }
      var closed := record.(providerJob := Some(job), manifestID := stored.value.manifestID,
                            manifestHash := stored.value.hash, finishedAt := completedAt);
      match job.status {
        case Succeeded => closed := closed.(state := RunSucceeded);
        case Cancelled => closed := closed.(state := RunCancelled);
        case _ => closed := closed.(state := RunFailed);
      }
      var completed := ledger.Complete(closed);
      r, refused := Outcome(Some(completed.value), if completed.value.state.RunSucceeded? then None else Some(OtherFailure)), None;
    }
  }

  /** What is objected to, and in which order. */
  lemma ObjectionMeans(input: GenerationInput, job: Job)
    ensures var objection := Objection(input, job);
      if !FromTheRoute(input.route, job) then objection == Some(ConflictFailed)
      else if job.output.Some? && job.output.value.providerCostMicros < 0 then objection == Some(ValidationFailed)
      else if job.output.Some? && job.output.value.providerCostMicros > input.reservationMicros then
        objection == Some(CodedFailure(BudgetExceeded))
      else objection.None?
  {
  }

  lemma OwnedJobsAreNamed(provider: State, key: string, job: Job)
    requires Owns(provider, key, job)
    ensures job.id != ""
  {
  }

  lemma FailureIsBacked(record: RunRecord, provider: State)
    requires !record.state.RunSucceeded?
    ensures Backed(record, provider)
  {
  }

  lemma SuccessIsBacked(input: GenerationInput, record: RunRecord, job: Job, provider: State)
    requires Fits(record, input) && record.providerJob.Some?
    requires Owns(provider, input.idempotencyKey, job) && job.status == Succeeded && Objection(input, job).None?
    requires job.output.Some? && record.providerJob.value.output.Some?
    requires |record.providerJob.value.output.value.assets| == |job.output.value.assets| > 0
    requires record.providerJob.value == job.(output := Some(job.output.value.(assets := record.providerJob.value.output.value.assets)))
    ensures Backed(record, provider)
  {
  }

  // ---- What holds over every sequence of calls ----

  datatype Event = Called(input: GenerationInput, outcome: Outcome) | Elsewhere

  /** One Execute call, or anything other parties do to the provider between calls. */
  ghost predicate Happens(before: World, event: Event, after: World) {
    match event
    case Called(input, outcome) => Executed(before, input, after, outcome)
    case Elsewhere => FakeProviders.Valid(after.provider) && Evolves(before.provider, after.provider)
                      && after == before.(provider := after.provider)
  }

  ghost predicate History(worlds: seq<World>, events: seq<Event>) {
    && |worlds| == |events| + 1 && Settled(worlds[0])
    && forall i :: 0 <= i < |events| ==> Happens(worlds[i], events[i], worlds[i + 1])
  }

  /** Recorded runs and their submit counts are never touched again. */
  ghost predicate Keeps(before: World, after: World) {
    forall id :: id in before.runs ==>
      && id in after.runs && after.runs[id] == before.runs[id]
      && Submits(after.submits, id) == Submits(before.submits, id)
  }

  lemma EventsSettle(before: World, event: Event, after: World)
    requires Settled(before) && Happens(before, event, after)
    ensures Settled(after) && Keeps(before, after)
  {
    hide FakeProviders.Valid, Evolves, Backed, Fits, SubmitCount;
    if event.Elsewhere? {
      forall id | id in before.runs ensures Backed(before.runs[id], after.provider) {
        BackingLasts(before.runs[id], before.provider, after.provider);
      }
    }
  }

  lemma {:induction false} HistoryKeepsRuns(worlds: seq<World>, events: seq<Event>, i: nat, j: nat)
    requires History(worlds, events) && i <= j <= |events|
    ensures Settled(worlds[i]) && Settled(worlds[j]) && Keeps(worlds[i], worlds[j])
    decreases j
  {
    hide Happens, Settled;
    if i < j {
      HistoryKeepsRuns(worlds, events, i, j - 1);
      EventsSettle(worlds[j - 1], events[j - 1], worlds[j]);
    } else if j > 0 {
      HistoryKeepsRuns(worlds, events, j - 1, j - 1);
      EventsSettle(worlds[j - 1], events[j - 1], worlds[j]);
    }
  }

  /**
   Whatever is called in whatever order: a key never sees more submits than its first input allowed, once it
   has a record it is terminal and both stay as they are, and its provider job is the only one ever made for it.
   */
  lemma KeysArePaidOnce(worlds: seq<World>, events: seq<Event>, i: nat, j: nat, key: string)
    requires History(worlds, events) && i <= j <= |events| && key in worlds[i].runs
    ensures key in worlds[j].runs && worlds[j].runs[key] == worlds[i].runs[key] && !worlds[j].runs[key].state.RunRunning?
    ensures Submits(worlds[i].submits, key) == Submits(worlds[j].submits, key)
              == SubmitCount(worlds[i].runs[key].attempts) <= worlds[i].runs[key].request.budget.maxAttempts as int
    ensures var records := worlds[j].provider.records;
      forall a, b :: a in records && b in records && records[a].job.idempotencyKey == key == records[b].job.idempotencyKey
        ==> a == b
  {
    hide Happens, Backed, Numbered;
    HistoryKeepsRuns(worlds, events, i, j);
  }

  /** The first call that gets past preflight leaves a terminal record; no earlier or later call submits for its key. */
  lemma FirstClearedCallDecides(worlds: seq<World>, events: seq<Event>, i: nat, j: nat)
    requires History(worlds, events) && i < j <= |events|
    requires events[i].Called? && events[i].input.Cleared()
    ensures var key := events[i].input.idempotencyKey;
      && key in worlds[j].runs
      && (key !in worlds[i].runs ==> Submits(worlds[i].submits, key) == 0)
      && Submits(worlds[j].submits, key) == Submits(worlds[i + 1].submits, key)
      && (events[i].outcome.record.Some? ==> events[i].outcome.record == Some(worlds[j].runs[key]))
  {
    hide FakeProviders.Valid, Backed, SubmitCount;
    HistoryKeepsRuns(worlds, events, i, i);
    HistoryKeepsRuns(worlds, events, i + 1, j);
    assert Happens(worlds[i], events[i], worlds[i + 1]);
  }
}
