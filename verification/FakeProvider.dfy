/** The deterministic fake provider: an idempotent submit, polling, cancellation and callbacks over one registry. */
module FakeProviders {
  import opened Wrappers
  import opened Text
  import opened ProviderContract
  import opened Budget

  datatype Scenario =
    | Success | UnauthorizedScenario | ForbiddenScenario | RateLimitedScenario | ServerError | TimeoutScenario
    | QuotaScenario | ContentBlockedScenario | RegionScenario | ModelScenario | DuplicateCallback | CancelRace | Recovery

  datatype AssetRef = AssetRef(id: string, revision: string, uri: string, sha256: string, licenseReference: string, mediaType: string)

  datatype Output = Output(assets: seq<AssetRef>, providerCostMicros: int)

  datatype Job = Job(
    id: string,
    requestID: string,
    idempotencyKey: string,
    status: JobStatus,
    provider: string,
    providerModel: string,
    providerRegion: string,
    providerRequestID: string,
    createdAt: int,
    updatedAt: int,
    output: Option<Output>)

  datatype GenerationRequest = GenerationRequest(
    requestID: string,
    idempotencyKey: string,
    prompt: string,
    promptSnapshotID: string,
    modelHint: string,
    assets: seq<AssetRef>,
    budget: BudgetEnvelope)
  {
    predicate Valid() {
      && !Blank(requestID) && !Blank(idempotencyKey) && !Blank(prompt) && !Blank(promptSnapshotID)
      && budget.Valid()
      && forall asset :: asset in assets ==>
           asset.id != "" && asset.revision != "" && asset.sha256 != "" && asset.licenseReference != ""
    }
  }

  datatype Callback = Callback(eventID: string, jobID: string, status: JobStatus, createdAt: int)

  datatype Record = Record(job: Job, pollCount: nat)

  datatype State = State(
    records: map<string, Record>,
    idempotency: map<string, string>,
    callbackEvents: set<string>,
    recoveryFailed: set<string>)

  const EMPTY := State(map[], map[], {}, {})

  const SECOND: int := 1_000_000_000
  const NOW: int := 1_800_000_000 * SECOND

  const FIXTURE_OUTPUT := Output(
    [AssetRef("asset-fake-output", "rev-1", "https://example.invalid/fake-output.mp4",
              "352b94f7134554825a7c426e579d12943a48c30db1666120353f5f24aa9c59b3", "fixture-license", "")],
    7_000_000)

  // ---- Job IDs ----

  function Decimal(n: nat): string {
    if n < 10 then [('0' as int + n) as char] else Decimal(n / 10) + [('0' as int + n % 10) as char]
  }

  function Padded(digits: string): string
    decreases if |digits| < 3 then 3 - |digits| else 0
  {
    if |digits| < 3 then Padded(['0'] + digits) else digits
  }

  function JobID(n: nat): string {
    "fake-job-" + Padded(Decimal(n))
  }

  function Value(digits: string): int {
    if digits == [] then 0 else Value(digits[..|digits| - 1]) * 10 + (digits[|digits| - 1] as int - '0' as int)
  }

  lemma {:induction false} DecimalHasItsValue(n: nat)
    ensures Value(Decimal(n)) == n
  {
    if n >= 10 {
      DecimalHasItsValue(n / 10);
      assert Decimal(n)[..|Decimal(n)| - 1] == Decimal(n / 10);
    }
  }

  lemma {:induction false} LeadingZeroChangesNothing(digits: string)
    ensures Value(['0'] + digits) == Value(digits)
  {
    if digits == [] {
      assert ['0'] + digits == ['0'];
      assert Value(['0']) == Value([]) * 10 + 0;
    } else {
      LeadingZeroChangesNothing(digits[..|digits| - 1]);
      assert (['0'] + digits)[..|digits|] == ['0'] + digits[..|digits| - 1];
    }
  }

  lemma {:induction false} PaddingChangesNothing(digits: string)
    ensures Value(Padded(digits)) == Value(digits)
    decreases if |digits| < 3 then 3 - |digits| else 0
  {
    if |digits| < 3 {
      PaddingChangesNothing(['0'] + digits);
      LeadingZeroChangesNothing(digits);
    }
  }

  lemma JobIDsAreDistinct(m: nat, n: nat)
    requires JobID(m) == JobID(n)
    ensures m == n
  {
    assert JobID(m)[9..] == Padded(Decimal(m)) && JobID(n)[9..] == Padded(Decimal(n));
    PaddingChangesNothing(Decimal(m));
    PaddingChangesNothing(Decimal(n));
    DecimalHasItsValue(m);
    DecimalHasItsValue(n);
  }

  // ---- The four operations ----

  function ScenarioError(scenario: Scenario): Option<ProviderError> {
    match scenario
    case UnauthorizedScenario => Some(ProviderError(Unauthenticated, false))
    case ForbiddenScenario => Some(ProviderError(Forbidden, false))
    case RateLimitedScenario => Some(ProviderError(RateLimited, true))
    case ServerError => Some(ProviderError(Unavailable, true))
    case TimeoutScenario => Some(ProviderError(Timeout, true))
    case QuotaScenario => Some(ProviderError(QuotaExceeded, false))
    case ContentBlockedScenario => Some(ProviderError(ContentBlocked, false))
    case RegionScenario => Some(ProviderError(RegionUnavailable, false))
    case ModelScenario => Some(ProviderError(ModelUnavailable, false))
    case _ => None
  }

  function NewJob(s: State, request: GenerationRequest): Job {
    var id := JobID(|s.records| + 1);
    Job(id, request.requestID, request.idempotencyKey, Queued, "fake", "fake-video-v1", "local-fixture",
        "fake-request-" + id, NOW, NOW, None)
  }

  function Accepted(s: State, request: GenerationRequest): State {
    var job := NewJob(s, request);
    s.(records := s.records[job.id := Record(job, 0)], idempotency := s.idempotency[request.idempotencyKey := job.id])
  }

  /** context is the error of a request whose context has already ended. */
  function Submitted(scenario: Scenario, s: State, context: Option<ProviderError>, request: GenerationRequest)
    : (State, Result<Job, ProviderError>)
  {
    if context.Some? then (s, Err(context.value))
    else if !request.Valid() then (s, Err(ProviderError(InvalidRequest, false)))
    else if request.idempotencyKey in s.idempotency && s.idempotency[request.idempotencyKey] in s.records then
      (s, Ok(s.records[s.idempotency[request.idempotencyKey]].job))
    else if ScenarioError(scenario).Some? then (s, Err(ScenarioError(scenario).value))
    else
      var accepted := Accepted(s, request);
      if scenario == Recovery && request.idempotencyKey !in s.recoveryFailed then
        (accepted.(recoveryFailed := s.recoveryFailed + {request.idempotencyKey}), Err(ProviderError(Unavailable, true)))
      else (accepted, Ok(NewJob(s, request)))
  }

  function PolledRecord(scenario: Scenario, record: Record): Record {
    var count := record.pollCount + 1;
    var job := record.job.(updatedAt := NOW + count * SECOND);
    if scenario == CancelRace || count >= 2
    then Record(job.(status := Succeeded, output := Some(FIXTURE_OUTPUT)), count)
    else Record(job.(status := Running), count)
  }

  function Polled(scenario: Scenario, s: State, context: Option<ProviderError>, id: string)
    : (State, Result<Job, ProviderError>)
  {
    if context.Some? then (s, Err(context.value))
    else if id !in s.records then (s, Err(ProviderError(NotFound, false)))
    else if s.records[id].job.status.Terminal() then (s, Ok(s.records[id].job))
    else
      var record := PolledRecord(scenario, s.records[id]);
      (s.(records := s.records[id := record]), Ok(record.job))
  }

  function CancelledBy(s: State, context: Option<ProviderError>, id: string): (State, Result<Job, ProviderError>) {
    if context.Some? then (s, Err(context.value))
    else if id !in s.records then (s, Err(ProviderError(NotFound, false)))
    else if s.records[id].job.status.Terminal() then (s, Ok(s.records[id].job))
    else
      var job := s.records[id].job.(status := Cancelled, updatedAt := NOW + SECOND);
      (s.(records := s.records[id := s.records[id].(job := job)]), Ok(job))
  }

  /** The callback is news for this job: neither late nor a repetition without a newer time. */
  predicate Advances(job: Job, callback: Callback) {
    && !job.status.Terminal()
    && callback.status.Rank() >= job.status.Rank()
    && (callback.status == job.status ==> callback.createdAt > job.updatedAt)
  }

  function CallbackJob(job: Job, callback: Callback): Job {
    job.(status := callback.status,
         updatedAt := if callback.createdAt > job.updatedAt then callback.createdAt else job.updatedAt)
  }

  function CalledBack(s: State, callback: Callback): (State, Result<(bool, Job), ProviderError>) {
    if callback.eventID == "" || callback.jobID == "" || !callback.status.Reportable() then
      (s, Err(ProviderError(InvalidRequest, false)))
    else if callback.jobID !in s.records then (s, Err(ProviderError(NotFound, false)))
    else
      var record := s.records[callback.jobID];
      if callback.eventID in s.callbackEvents then (s, Ok((false, record.job)))
      else if Blank(callback.eventID) then (s, Err(ProviderError(InvalidRequest, false)))
      else
        var noted := s.(callbackEvents := s.callbackEvents + {callback.eventID});
        if !Advances(record.job, callback) then (noted, Ok((false, record.job)))
        else
          var job := CallbackJob(record.job, callback);
          (noted.(records := s.records[callback.jobID := record.(job := job)]), Ok((true, job)))
  }

  datatype Command =
    | Submit(context: Option<ProviderError>, request: GenerationRequest)
    | Poll(context: Option<ProviderError>, id: string)
    | Cancel(context: Option<ProviderError>, id: string)
    | ApplyCallback(callback: Callback)

  function Next(scenario: Scenario, s: State, command: Command): State {
    match command
    case Submit(context, request) => Submitted(scenario, s, context, request).0
    case Poll(context, id) => Polled(scenario, s, context, id).0
    case Cancel(context, id) => CancelledBy(s, context, id).0
    case ApplyCallback(callback) => CalledBack(s, callback).0
  }

  function Run(scenario: Scenario, s: State, commands: seq<Command>): State
    decreases |commands|
  {
    if commands == [] then s else Run(scenario, Next(scenario, s, commands[0]), commands[1..])
  }

  lemma {:induction false} RunGoesOn(scenario: Scenario, s: State, commands: seq<Command>, next: Command)
    ensures Run(scenario, s, []) == s && Run(scenario, s, commands + [next]) == Next(scenario, Run(scenario, s, commands), next)
    decreases |commands|
  {
    hide Next;
    if commands == [] {
      assert commands + [next] == [next];
    } else {
      assert (commands + [next])[1..] == commands[1..] + [next];
      RunGoesOn(scenario, Next(scenario, s, commands[0]), commands[1..], next);
    }
  }

  // ---- Invariant: job IDs are 1..n and correspond one to one with idempotency keys ----

  ghost predicate Numbered(records: map<string, Record>) {
    forall id :: id in records <==> exists n :: 1 <= n <= |records| && id == JobID(n)
  }

  ghost predicate Matched(records: map<string, Record>, idempotency: map<string, string>) {
    && (forall id :: id in records ==>
          && records[id].job.id == id
          && records[id].job.idempotencyKey in idempotency
          && idempotency[records[id].job.idempotencyKey] == id)
    && (forall key :: key in idempotency ==>
          && idempotency[key] in records
          && records[idempotency[key]].job.idempotencyKey == key)
  }

  ghost predicate Valid(s: State) {
    Numbered(s.records) && Matched(s.records, s.idempotency)
  }

  /** What no operation may undo. */
  ghost predicate Evolves(s: State, later: State) {
    && (forall key :: key in s.idempotency ==> key in later.idempotency && later.idempotency[key] == s.idempotency[key])
    && s.callbackEvents <= later.callbackEvents
    && (forall id :: id in s.records ==>
          && id in later.records
          && later.records[id].job.idempotencyKey == s.records[id].job.idempotencyKey
          && later.records[id].job.status.Rank() >= s.records[id].job.status.Rank()
          && (s.records[id].job.status.Terminal() ==> later.records[id] == s.records[id]))
  }

  /** The next job ID is new, and using it keeps the numbering gapless. */
  lemma NextIDIsNew(records: map<string, Record>, record: Record)
    requires Numbered(records)
    ensures JobID(|records| + 1) !in records
    ensures Numbered(records[JobID(|records| + 1) := record])
  {
    hide JobID;
    var n := |records| + 1;
    if JobID(n) in records {
      var m :| 1 <= m <= |records| && JobID(n) == JobID(m);
      JobIDsAreDistinct(m, n);
    }
    var more := records[JobID(n) := record];
    assert |more| == n;
    forall id ensures id in more <==> exists m :: 1 <= m <= n && id == JobID(m) {
      if id in records {
        var m :| 1 <= m <= |records| && id == JobID(m);
      }
    }
  }

  lemma NewJobKeepsMatched(records: map<string, Record>, idempotency: map<string, string>, job: Job)
    requires Matched(records, idempotency) && job.id !in records && job.idempotencyKey !in idempotency
    ensures Matched(records[job.id := Record(job, 0)], idempotency[job.idempotencyKey := job.id])
  {
  }

  lemma AcceptKeepsValid(s: State, request: GenerationRequest)
    requires Valid(s) && request.idempotencyKey !in s.idempotency
    ensures Valid(Accepted(s, request)) && Evolves(s, Accepted(s, request))
  {
    hide JobID, Numbered, Matched;
    var job := NewJob(s, request);
    NextIDIsNew(s.records, Record(job, 0));
    NewJobKeepsMatched(s.records, s.idempotency, job);
  }

  lemma SubmitKeepsValid(scenario: Scenario, s: State, context: Option<ProviderError>, request: GenerationRequest)
    requires Valid(s)
    ensures var t := Submitted(scenario, s, context, request).0; Valid(t) && Evolves(s, t)
  {
    hide Numbered, Matched, Accepted;
    if request.idempotencyKey !in s.idempotency {
      AcceptKeepsValid(s, request);
    } else {
      KeysNameRecords(s, request.idempotencyKey);
    }
  }

  lemma KeysNameRecords(s: State, key: string)
    requires Valid(s) && key in s.idempotency
    ensures s.idempotency[key] in s.records
    ensures var job := s.records[s.idempotency[key]].job; job.id == s.idempotency[key] && job.idempotencyKey == key
  {
  }

  /** Replacing a live job's record by one of the same job and at least its rank. */
  lemma UpdateKeepsValid(s: State, id: string, record: Record)
    requires Valid(s) && id in s.records && !s.records[id].job.status.Terminal()
    requires record.job.id == id && record.job.idempotencyKey == s.records[id].job.idempotencyKey
    requires record.job.status.Rank() >= s.records[id].job.status.Rank()
    ensures var t := s.(records := s.records[id := record]); Valid(t) && Evolves(s, t)
  {
    hide Numbered;
    var records := s.records[id := record];
    assert records.Keys == s.records.Keys;
    NumberingNeedsOnlyKeys(s.records, records);
  }

  lemma NumberingNeedsOnlyKeys(records: map<string, Record>, others: map<string, Record>)
    requires Numbered(records) && records.Keys == others.Keys
    ensures Numbered(others)
  {
    hide JobID;
    assert |records| == |records.Keys| == |others.Keys| == |others|;
    forall id ensures id in others <==> id in records {
      assert id in others <==> id in others.Keys;
    }
  }

  lemma StepKeepsValid(scenario: Scenario, s: State, command: Command)
    requires Valid(s)
    ensures Valid(Next(scenario, s, command)) && Evolves(s, Next(scenario, s, command))
  {
    hide Valid, Evolves, Submitted, JobID;
    EvolvesReflexively(s);
    match command
    case Submit(context, request) =>
      SubmitKeepsValid(scenario, s, context, request);
    case Poll(context, id) =>
      if id in s.records && !s.records[id].job.status.Terminal() {
        RecordsAreTheirOwn(s, id);
        UpdateKeepsValid(s, id, PolledRecord(scenario, s.records[id]));
      }
    case Cancel(context, id) =>
      if id in s.records && !s.records[id].job.status.Terminal() {
        RecordsAreTheirOwn(s, id);
        UpdateKeepsValid(s, id, s.records[id].(job := s.records[id].job.(status := Cancelled, updatedAt := NOW + SECOND)));
      }
    case ApplyCallback(callback) =>
      CallbackKeepsValid(s, callback);
  }

  lemma RecordsAreTheirOwn(s: State, id: string)
    requires Valid(s) && id in s.records
    ensures s.records[id].job.id == id
  {
  }

  lemma EvolvesReflexively(s: State)
    ensures Evolves(s, s)
  {
  }

  lemma CallbackKeepsValid(s: State, callback: Callback)
    requires Valid(s)
    ensures var t := CalledBack(s, callback).0; Valid(t) && Evolves(s, t)
  {
    hide JobID, Numbered;
    var noted := s.(callbackEvents := s.callbackEvents + {callback.eventID});
    if callback.jobID in s.records && Advances(s.records[callback.jobID].job, callback) {
      var record := s.records[callback.jobID];
      UpdateKeepsValid(noted, callback.jobID, record.(job := CallbackJob(record.job, callback)));
    }
  }

  lemma {:induction false} RunKeepsValid(scenario: Scenario, s: State, commands: seq<Command>)
    requires Valid(s)
    ensures Valid(Run(scenario, s, commands)) && Evolves(s, Run(scenario, s, commands))
    decreases |commands|
  {
    hide Valid, Next;
    if commands != [] {
      StepKeepsValid(scenario, s, commands[0]);
      RunKeepsValid(scenario, Next(scenario, s, commands[0]), commands[1..]);
    }
  }

  // ---- What holds over every run ----

  /** Two jobs never share an idempotency key, and every key names the one job accepted under it. */
  lemma {:induction false} OneJobPerKey(scenario: Scenario, commands: seq<Command>, a: string, b: string)
    requires var s := Run(scenario, EMPTY, commands);
      a in s.records && b in s.records && s.records[a].job.idempotencyKey == s.records[b].job.idempotencyKey
    ensures a == b
  {
    hide Numbered;
    EmptyIsValid();
    RunKeepsValid(scenario, EMPTY, commands);
  }

  lemma EmptyIsValid()
    ensures Valid(EMPTY)
  {
  }

  /**
   Status rank never goes down and a terminal record is frozen for good, whatever operations of the provider are
   interleaved. Records are values here; who holds a pointer to a record's output could still write through it.
   */
  lemma TerminalJobsAreFrozen(scenario: Scenario, before: seq<Command>, after: seq<Command>, id: string)
    requires id in Run(scenario, EMPTY, before).records
    ensures var s := Run(scenario, EMPTY, before);
      var t := Run(scenario, s, after);
      && id in t.records
      && s.records[id].job.status.Rank() <= t.records[id].job.status.Rank()
      && (s.records[id].job.status.Terminal() ==> t.records[id] == s.records[id])
  {
    hide Valid;
    EmptyIsValid();
    RunKeepsValid(scenario, EMPTY, before);
    RunKeepsValid(scenario, Run(scenario, EMPTY, before), after);
  }

  /** The command changed a job on account of callback event e. */
  predicate Applies(s: State, command: Command, e: string) {
    && command.ApplyCallback? && command.callback.eventID == e
    && CalledBack(s, command.callback).1.Ok?
    && CalledBack(s, command.callback).1.value.0
  }

  function Applications(scenario: Scenario, s: State, commands: seq<Command>, e: string): nat
    decreases |commands|
  {
    if commands == [] then 0
    else (if Applies(s, commands[0], e) then 1 else 0) + Applications(scenario, Next(scenario, s, commands[0]), commands[1..], e)
  }

  lemma {:induction false} ApplicationsAddUp(scenario: Scenario, s: State, commands: seq<Command>, next: Command, e: string)
    ensures Applications(scenario, s, [], e) == 0
    ensures Applications(scenario, s, commands + [next], e)
         == Applications(scenario, s, commands, e) + (if Applies(Run(scenario, s, commands), next, e) then 1 else 0)
    decreases |commands|
  {
    hide Next, Applies;
    if commands == [] {
      assert commands + [next] == [next];
    } else {
      assert (commands + [next])[1..] == commands[1..] + [next];
      ApplicationsAddUp(scenario, Next(scenario, s, commands[0]), commands[1..], next, e);
    }
  }

  /** Once an event has been noted its callbacks change nothing, so each event takes effect at most once. */
  lemma {:induction false} EventsApplyAtMostOnce(scenario: Scenario, s: State, commands: seq<Command>, e: string)
    requires Valid(s)
    ensures Applications(scenario, s, commands, e) <= (if e in s.callbackEvents then 0 else 1)
    decreases |commands|
  {
    hide Valid, Evolves, Applies;
    if commands != [] {
      var t := Next(scenario, s, commands[0]);
      StepKeepsValid(scenario, s, commands[0]);
      NotedEventsStay(scenario, s, commands[0], e);
      EventsApplyAtMostOnce(scenario, t, commands[1..], e);
    }
  }

  lemma NotedEventsStay(scenario: Scenario, s: State, command: Command, e: string)
    requires Valid(s)
    ensures e in s.callbackEvents ==> e in Next(scenario, s, command).callbackEvents && !Applies(s, command, e)
    ensures Applies(s, command, e) ==> e in Next(scenario, s, command).callbackEvents
  {
    hide Valid, Numbered, Matched, Submitted, Polled, CancelledBy, CalledBack;
    StepKeepsValid(scenario, s, command);
    assert s.callbackEvents <= Next(scenario, s, command).callbackEvents;
    hide Evolves;
    if command.ApplyCallback? {
      CallbacksAreNoted(s, command.callback);
    }
  }

  /** A repeated event changes nothing at all; an applied one was new and has been noted. */
  lemma CallbacksAreNoted(s: State, callback: Callback)
    ensures var (t, r) := CalledBack(s, callback);
      && (callback.eventID in s.callbackEvents ==> t == s)
      && (r.Ok? && r.value.0 ==> callback.eventID !in s.callbackEvents && callback.eventID in t.callbackEvents)
  {
    hide CallbackJob, Advances;
  }

  // ---- What each operation comes to ----

  /** Everything but this job is as it was. */
  predicate OnlyJob(s: State, t: State, id: string) {
    && id in s.records && id in t.records && t == s.(records := s.records[id := t.records[id]])
    && t.records[id].job == s.records[id].job.(
         status := t.records[id].job.status, updatedAt := t.records[id].job.updatedAt, output := t.records[id].job.output)
  }

  /** Nine scenarios refuse a submit, three of them for now only. */
  lemma ScenariosRefuse()
    ensures ScenarioError(UnauthorizedScenario) == Some(ProviderError(Unauthenticated, false))
    ensures ScenarioError(ForbiddenScenario) == Some(ProviderError(Forbidden, false))
    ensures ScenarioError(RateLimitedScenario) == Some(ProviderError(RateLimited, true))
    ensures ScenarioError(ServerError) == Some(ProviderError(Unavailable, true))
    ensures ScenarioError(TimeoutScenario) == Some(ProviderError(Timeout, true))
    ensures ScenarioError(QuotaScenario) == Some(ProviderError(QuotaExceeded, false))
    ensures ScenarioError(ContentBlockedScenario) == Some(ProviderError(ContentBlocked, false))
    ensures ScenarioError(RegionScenario) == Some(ProviderError(RegionUnavailable, false))
    ensures ScenarioError(ModelScenario) == Some(ProviderError(ModelUnavailable, false))
    ensures forall scenario :: ScenarioError(scenario).None? <==> scenario in {Success, DuplicateCallback, CancelRace, Recovery}
  {
  }

  /** A callback that makes no sense, or is about no job, is refused and not even noted. */
  lemma CallbacksAreRefused(s: State, callback: Callback)
    ensures CalledBack(s, callback).1.Err? <==>
      || callback.eventID == "" || callback.jobID == "" || callback.status in {Unknown, RequiresAction}
      || callback.jobID !in s.records || (Blank(callback.eventID) && callback.eventID !in s.callbackEvents)
    ensures var (t, r) := CalledBack(s, callback);
      var named := callback.eventID != "" && callback.jobID != "" && callback.status !in {Unknown, RequiresAction};
      r.Err? ==>
        && t == s && !r.error.retryable
        && r.error.code == (if named && callback.jobID !in s.records then NotFound else InvalidRequest)
  {
    if callback.eventID == "" {
      assert Blank(callback.eventID);
    }
  }

  /** Job IDs are numbered from one, with at least three digits. */
  lemma JobIDsArePadded(n: nat)
    ensures JobID(n)[..9] == "fake-job-" && |JobID(n)| >= 12 && Value(JobID(n)[9..]) == n
  {
    hide Decimal, Value;
    AtLeastThreeDigits(Decimal(n));
    PaddingChangesNothing(Decimal(n));
    DecimalHasItsValue(n);
    assert JobID(n)[9..] == Padded(Decimal(n));
  }

  lemma {:induction false} AtLeastThreeDigits(digits: string)
    ensures |Padded(digits)| >= 3
    decreases if |digits| < 3 then 3 - |digits| else 0
  {
    if |digits| < 3 {
      AtLeastThreeDigits(['0'] + digits);
    }
  }

  /** What the provider asks of a request. */
  lemma RequestsAreComplete(request: GenerationRequest)
    ensures request.Valid() <==>
      && (forall text :: text in [request.requestID, request.idempotencyKey, request.prompt, request.promptSnapshotID] ==> !Blank(text))
      && request.budget.Valid()
      && (forall i :: 0 <= i < |request.assets| ==>
            "" !in [request.assets[i].id, request.assets[i].revision, request.assets[i].sha256, request.assets[i].licenseReference])
  {
    forall i | 0 <= i < |request.assets| ensures request.assets[i] in request.assets {
    }
  }

  /**
   A key is accepted once, into a new queued job of its own; later submits under it get that job as it stands. A
   provider that recovers from a timeout accepts the job although it answers with a retryable error.
   */
  lemma SubmitsAreAnswered(scenario: Scenario, s: State, context: Option<ProviderError>, request: GenerationRequest)
    requires Valid(s)
    ensures var (t, r) := Submitted(scenario, s, context, request);
      var key := request.idempotencyKey;
      if context.Some? then t == s && r == Err(context.value)
      else if !request.Valid() then t == s && r.Err? && r.error.code == InvalidRequest && !r.error.retryable
      else if key in s.idempotency then
        t == s && r == Ok(s.records[s.idempotency[key]].job)
      else if scenario in {Success, DuplicateCallback, CancelRace, Recovery} then
        && key in t.idempotency && t.idempotency[key] !in s.records
        && var id := t.idempotency[key];
           var job := Job(id, request.requestID, key, Queued, "fake", "fake-video-v1", "local-fixture",
                          "fake-request-" + id, NOW, NOW, None);
           && t.records == s.records[id := Record(job, 0)] && t.idempotency == s.idempotency[key := id]
           && t.callbackEvents == s.callbackEvents
           && r == (if scenario == Recovery && key !in s.recoveryFailed then Err(ProviderError(Unavailable, true)) else Ok(job))
      else
        t == s && r.Err? && ScenarioError(scenario) == Some(r.error)
        && (r.error.retryable <==> scenario in {RateLimitedScenario, ServerError, TimeoutScenario})
  {
    hide Numbered, JobID;
    NextIDIsNew(s.records, Record(NewJob(s, request), 0));
    if request.idempotencyKey in s.idempotency {
      assert s.idempotency[request.idempotencyKey] in s.records;
    }
  }

  /** A live job runs after one poll and succeeds with the fixture at the second, or at once in the cancellation race. */
  lemma TwoPollsFinish(scenario: Scenario, s: State, id: string)
    requires id in s.records && !s.records[id].job.status.Terminal()
    ensures var t := Polled(scenario, s, None, id).0;
      var u := Polled(scenario, t, None, id).0;
      var early := scenario == CancelRace || s.records[id].pollCount > 0;
      && OnlyJob(s, t, id) && OnlyJob(s, u, id)
      && Polled(scenario, s, None, id).1 == Ok(t.records[id].job)
      && t.records[id].job.status == (if early then Succeeded else Running)
      && t.records[id].job.output == (if early then Some(FIXTURE_OUTPUT) else s.records[id].job.output)
      && t.records[id].job.updatedAt == NOW + (s.records[id].pollCount + 1) * SECOND
      && u.records[id].job.status == Succeeded && u.records[id].job.output == Some(FIXTURE_OUTPUT)
    ensures FIXTURE_OUTPUT.assets != [] && FIXTURE_OUTPUT.providerCostMicros == 7_000_000
  {
  }

  /** A poll or cancellation that was called off, of no known job, or of a job that is over changes nothing. */
  lemma NothingElseMoves(scenario: Scenario, s: State, context: Option<ProviderError>, id: string)
    requires context.Some? || id !in s.records || s.records[id].job.status in {Succeeded, Failed, Cancelled}
    ensures var answer := if context.Some? then Err(context.value)
                          else if id !in s.records then Err(ProviderError(NotFound, false)) else Ok(s.records[id].job);
      Polled(scenario, s, context, id) == (s, answer) && CancelledBy(s, context, id) == (s, answer)
  {
  }

  /** A cancellation stops a live job and nothing else; a job that is over is reported as it ended. */
  lemma CancellationsStop(s: State, id: string)
    ensures var (t, r) := CancelledBy(s, None, id);
      if id !in s.records then t == s && r == Err(ProviderError(NotFound, false))
      else
        && OnlyJob(s, t, id) && r == Ok(t.records[id].job)
        && t.records[id].job.status == (if s.records[id].job.status.Terminal() then s.records[id].job.status else Cancelled)
        && t.records[id].job.output == s.records[id].job.output
        && t.records[id].job.updatedAt == (if s.records[id].job.status.Terminal() then s.records[id].job.updatedAt else NOW + SECOND)
        && t.records[id].pollCount == s.records[id].pollCount
  {
  }

  /** A callback applies exactly if it is a new event about a live job and neither turns it back nor repeats it without a later time. */
  lemma CallbacksApplyInOrder(s: State, callback: Callback)
    requires callback.jobID in s.records && callback.jobID != ""
    ensures var (t, r) := CalledBack(s, callback);
      var job := s.records[callback.jobID].job;
      var applies := && !Blank(callback.eventID) && callback.eventID !in s.callbackEvents
        && callback.status !in {Unknown, RequiresAction} && job.status !in {Succeeded, Failed, Cancelled}
        && !(callback.status == Queued && job.status == Running)
        && (callback.status == job.status ==> callback.createdAt > job.updatedAt);
      && (r.Ok? && r.value.0 <==> applies)
      && (applies ==>
            && r.value.1.status == callback.status
            && r.value.1 == job.(status := callback.status,
                                 updatedAt := if callback.createdAt > job.updatedAt then callback.createdAt else job.updatedAt)
            && t.records == s.records[callback.jobID := s.records[callback.jobID].(job := r.value.1)])
      && (!applies ==> t.records == s.records)
      && t.idempotency == s.idempotency && t.recoveryFailed == s.recoveryFailed
  {
    if callback.eventID == "" {
      assert Blank(callback.eventID);
    }
  }

  // ---- The provider object ----

  class FakeProvider {
    const scenario: Scenario
    var records: map<string, Record>
    var idempotency: map<string, string>
    var callbackEvents: set<string>
    var recoveryFailed: set<string>

    function Snapshot(): State
      reads this
    {
      State(records, idempotency, callbackEvents, recoveryFailed)
    }

    constructor (scenario: Scenario)
      ensures Snapshot() == EMPTY && this.scenario == scenario
    {
      this.scenario := scenario;
      records, idempotency, callbackEvents, recoveryFailed := map[], map[], {}, {};
    }

    method Submit(context: Option<ProviderError>, request: GenerationRequest) returns (r: Result<Job, ProviderError>)
      requires Valid(Snapshot())
      modifies this
      ensures (Snapshot(), r) == Submitted(scenario, old(Snapshot()), context, request)
      ensures Valid(Snapshot()) && Evolves(old(Snapshot()), Snapshot())
    {
      hide Valid, Evolves, JobID;
      SubmitKeepsValid(scenario, Snapshot(), context, request);
      if context.Some? {
        return Err(context.value);
      }
      if !request.Valid() {
        return Err(ProviderError(InvalidRequest, false));
      }
      if request.idempotencyKey in idempotency && idempotency[request.idempotencyKey] in records {
        return Ok(records[idempotency[request.idempotencyKey]].job);
      }
      if ScenarioError(scenario).Some? {
        return Err(ScenarioError(scenario).value);
      }
      var id := JobID(|records| + 1);
      var job := Job(id, request.requestID, request.idempotencyKey, Queued, "fake", "fake-video-v1", "local-fixture",
                     "fake-request-" + id, NOW, NOW, None);
      records := records[id := Record(job, 0)];
      idempotency := idempotency[request.idempotencyKey := id];
      if scenario == Recovery && request.idempotencyKey !in recoveryFailed {
        recoveryFailed := recoveryFailed + {request.idempotencyKey};
        return Err(ProviderError(Unavailable, true));
      }
      r := Ok(job);
    }

    method Poll(context: Option<ProviderError>, id: string) returns (r: Result<Job, ProviderError>)
      requires Valid(Snapshot())
      modifies this
      ensures (Snapshot(), r) == Polled(scenario, old(Snapshot()), context, id)
      ensures Valid(Snapshot()) && Evolves(old(Snapshot()), Snapshot())
    {
      hide Valid, Evolves;
      StepKeepsValid(scenario, Snapshot(), Command.Poll(context, id));
      if context.Some? {
        return Err(context.value);
      }
      if id !in records {
        return Err(ProviderError(NotFound, false));
      }
      var record := records[id];
      if record.job.status.Terminal() {
        return Ok(record.job);
      }
      record := record.(pollCount := record.pollCount + 1);
      record := record.(job := record.job.(updatedAt := NOW + record.pollCount * SECOND));
      if scenario == CancelRace || record.pollCount >= 2 {
        record := record.(job := record.job.(status := Succeeded, output := Some(FIXTURE_OUTPUT)));
      } else {
        record := record.(job := record.job.(status := Running));
      }
      records := records[id := record];
      r := Ok(record.job);
    }

    method Cancel(context: Option<ProviderError>, id: string) returns (r: Result<Job, ProviderError>)
      requires Valid(Snapshot())
      modifies this
      ensures (Snapshot(), r) == CancelledBy(old(Snapshot()), context, id)
      ensures Valid(Snapshot()) && Evolves(old(Snapshot()), Snapshot())
    {
      hide Valid, Evolves;
      StepKeepsValid(scenario, Snapshot(), Command.Cancel(context, id));
      if context.Some? {
        return Err(context.value);
      }
      if id !in records {
        return Err(ProviderError(NotFound, false));
      }
      var record := records[id];
      if record.job.status.Terminal() {
        return Ok(record.job);
      }
      record := record.(job := record.job.(status := Cancelled, updatedAt := NOW + SECOND));
      records := records[id := record];
      r := Ok(record.job);
    }

    method ApplyCallback(callback: Callback) returns (r: Result<(bool, Job), ProviderError>)
      requires Valid(Snapshot())
      modifies this
      ensures (Snapshot(), r) == CalledBack(old(Snapshot()), callback)
      ensures Valid(Snapshot()) && Evolves(old(Snapshot()), Snapshot())
    {
      hide Valid, Evolves;
      StepKeepsValid(scenario, Snapshot(), Command.ApplyCallback(callback));
      if callback.eventID == "" || callback.jobID == "" || !callback.status.Reportable() {
        return Err(ProviderError(InvalidRequest, false));
      }
      if callback.eventID in callbackEvents {
        if callback.jobID !in records {
          return Err(ProviderError(NotFound, false));
        }
        return Ok((false, records[callback.jobID].job));
      }
      if callback.jobID !in records {
        return Err(ProviderError(NotFound, false));
      }
      var record := records[callback.jobID];
      if Blank(callback.eventID) {
        return Err(ProviderError(InvalidRequest, false));
      }
      callbackEvents := callbackEvents + {callback.eventID};
      if record.job.status.Terminal() || callback.status.Rank() < record.job.status.Rank() {
        return Ok((false, record.job));
      }
      if callback.status == record.job.status && callback.createdAt <= record.job.updatedAt {
        return Ok((false, record.job));
      }
      var job := record.job.(status := callback.status);
      if callback.createdAt > record.job.updatedAt {
        job := job.(updatedAt := callback.createdAt);
      }
      records := records[callback.jobID := record.(job := job)];
      r := Ok((true, job));
    }
  }
}
