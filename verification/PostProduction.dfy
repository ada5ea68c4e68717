/**
 Speech for an episode's subtitle cues: what must have been authorized before, how the approved budget is split
 across the cues still to be paid for, and what each provider attempt must show.

 What the provider returns is unconstrained, and so are the callback that authorizes a paid submission and the
 rendering that follows.
 */
module PostProduction {
  import opened Wrappers
  import opened Text
  import opened Budget

  /** characters: the number of characters of the cue's trimmed text. */
  datatype Cue = Cue(id: string, characters: nat)

  datatype Identity = Identity(jobID: string, inputHash: string)

  datatype CueAuthorization = CueAuthorization(cueID: string, jobID: string, inputHash: string, characters: int, maximumAFPMilli: int64)

  datatype Batch = Batch(maximumAFPMilli: int64, cues: seq<CueAuthorization>)

  datatype Usage = Usage(generatedChars: int64, outputUnits: int64, unit: string, otherNegative: bool)

  datatype Cost = Cost(estimated: int64, actual: Option<int64>, currency: string, pricingVersion: string, billingMode: string)

  /** segment: the artifact is a valid dialogue segment of positive duration. */
  datatype Attempt = Attempt(
    cueID: string,
    jobID: string,
    requestID: string,
    upstreamTaskID: string,
    connectID: string,
    logID: string,
    model: string,
    evidence: string,
    usage: Usage,
    cost: Cost,
    segment: bool)

  /** agentPlan: the route is the text-to-speech service billed by the character. */
  datatype Config = Config(
    route: string,
    agentPlan: bool,
    budgetMaximumMicros: int64,
    budgetCurrency: string,
    subscription: bool,
    v2: bool,
    authorizedCueID: string,
    maximumAFPMilli: int64,
    maximumCashMicros: int64,
    batch: Option<Batch>,
    completedAttempts: seq<Attempt>)

  /** identify derives the provider job of a cue; authorizes says whether a callback guards paid submissions. */
  datatype Request = Request(
    evidence: string, cues: seq<Cue>, speech: Config, identify: Cue -> Identity, authorizes: bool)

  const PENDING_KEY := "pending_key"
  const INCLUDED := "subscription_included"
  const MILLI_AFP := "milli_afp"

  // ---- What was completed and what is authorized ----

  function CompletedIDs(attempts: seq<Attempt>): set<string> {
    set i | 0 <= i < |attempts| :: attempts[i].cueID
  }

  /** The cues that still have to be paid for, in timeline order. */
  function Remaining(cues: seq<Cue>, completed: set<string>): seq<Cue> {
    if cues == [] then []
    else
      var last := cues[|cues| - 1];
      Remaining(cues[..|cues| - 1], completed) + (if last.id in completed then [] else [last])
  }

  lemma RemainingOneMore(cues: seq<Cue>, completed: set<string>, i: nat)
    requires i < |cues|
    ensures Remaining(cues[..i + 1], completed)
         == Remaining(cues[..i], completed) + (if cues[i].id in completed then [] else [cues[i]])
  {
    assert cues[..i + 1][..i] == cues[..i];
  }

  lemma {:induction false} RemainingGrows(cues: seq<Cue>, completed: set<string>, i: nat)
    requires i <= |cues|
    ensures Remaining(cues[..i], completed) <= Remaining(cues, completed)
    decreases |cues| - i
  {
    if i == |cues| {
      assert cues[..i] == cues;
    } else {
      RemainingOneMore(cues, completed, i);
      RemainingGrows(cues, completed, i + 1);
    }
  }

  /** The next cue to be paid for is the one the walk has come to. */
  lemma RemainingAt(cues: seq<Cue>, completed: set<string>, i: nat)
    requires i < |cues|
    ensures var k := |Remaining(cues[..i], completed)|;
      var all := Remaining(cues, completed);
      && k <= |all|
      && |Remaining(cues[..i + 1], completed)| == k + (if cues[i].id in completed then 0 else 1)
      && (cues[i].id !in completed ==> k < |all| && all[k] == cues[i])
  {
    hide Remaining;
    RemainingOneMore(cues, completed, i);
    RemainingGrows(cues, completed, i);
    RemainingGrows(cues, completed, i + 1);
  }

  lemma NothingRemains(cues: seq<Cue>, completed: set<string>)
    ensures Remaining(cues[..0], completed) == []
  {
  }

  predicate UniqueIDs(cues: seq<Cue>) {
    forall i, j :: 0 <= i < j < |cues| ==> cues[i].id != cues[j].id
  }

  predicate DistinctAttempts(attempts: seq<Attempt>) {
    forall i, j :: 0 <= i < j < |attempts| ==> attempts[i].cueID != attempts[j].cueID
  }

  predicate CompletedFits(request: Request, cue: Cue, attempt: Attempt) {
    && attempt.cueID == cue.id && attempt.jobID == request.identify(cue).jobID
    && !Blank(attempt.requestID) && !Blank(attempt.upstreamTaskID) && !Blank(attempt.connectID) && !Blank(attempt.logID)
    && attempt.model == request.speech.route && attempt.evidence == request.evidence
    && attempt.usage.generatedChars as int == cue.characters
    && attempt.usage.outputUnits as int == attempt.usage.generatedChars as int * 135
    && attempt.usage.unit == MILLI_AFP
    && attempt.cost.actual == Some(0) && attempt.cost.billingMode == INCLUDED
    && attempt.cost.currency == request.speech.budgetCurrency
    && attempt.segment
  }

  /** Some cue of the subtitles has this attempt as its exact record. */
  predicate WasCompleted(request: Request, attempt: Attempt) {
    exists i :: 0 <= i < |request.cues| && CompletedFits(request, request.cues[i], attempt)
  }

  predicate Authorizes(request: Request, authorization: CueAuthorization, cue: Cue) {
    && authorization.cueID == cue.id && authorization.characters == cue.characters
    && authorization.jobID == request.identify(cue).jobID && authorization.inputHash == request.identify(cue).inputHash
  }

  /** Without a batch nothing may be completed; with one, it authorizes exactly the remaining cues in their order. */
  predicate Covered(request: Request) {
    var completed := request.speech.completedAttempts;
    match request.speech.batch
    case None => completed == []
    case Some(batch) =>
      var remaining := Remaining(request.cues, CompletedIDs(completed));
      && DistinctAttempts(completed)
      && (forall i :: 0 <= i < |completed| ==> WasCompleted(request, completed[i]))
      && |remaining| == |batch.cues|
      && (forall i :: 0 <= i < |remaining| ==> Authorizes(request, batch.cues[i], remaining[i]))
      && |remaining| + |completed| == |request.cues|
  }

  /** Compares one completed attempt with the first cue of its ID. */
  method ValidateCompletedAttempt(request: Request, attempt: Attempt) returns (ok: bool)
    requires UniqueIDs(request.cues)
    ensures ok <==> WasCompleted(request, attempt)
  {
    for i := 0 to |request.cues|
      invariant forall j :: 0 <= j < i ==> request.cues[j].id != attempt.cueID
    {
      if request.cues[i].id == attempt.cueID {
        return CompletedFits(request, request.cues[i], attempt);
      }
    }
    ok := false;
  }

  /** Every attempt is found under its cue. */
  ghost predicate Indexes(completed: map<string, Attempt>, attempts: seq<Attempt>) {
    forall i :: 0 <= i < |attempts| ==> attempts[i].cueID in completed && completed[attempts[i].cueID] == attempts[i]
  }

  lemma IndexOneMore(completed: map<string, Attempt>, attempts: seq<Attempt>, i: nat)
    requires i < |attempts| && Indexes(completed, attempts[..i]) && completed.Keys == CompletedIDs(attempts[..i])
    requires attempts[i].cueID !in completed
    ensures var more := completed[attempts[i].cueID := attempts[i]];
      Indexes(more, attempts[..i + 1]) && more.Keys == CompletedIDs(attempts[..i + 1]) && |more| == |completed| + 1
  {
    hide CompletedIDs, DistinctAttempts, Indexes;
    IDsOneMore(attempts, i);
    KeysOneMore(completed, attempts[i].cueID, attempts[i]);
    FoundOneMore(completed, attempts, i);
  }

  lemma KeysOneMore(completed: map<string, Attempt>, id: string, attempt: Attempt)
    requires id !in completed
    ensures completed[id := attempt].Keys == completed.Keys + {id} && |completed[id := attempt]| == |completed| + 1
  {
  }

  lemma FoundOneMore(completed: map<string, Attempt>, attempts: seq<Attempt>, i: nat)
    requires i < |attempts| && Indexes(completed, attempts[..i]) && attempts[i].cueID !in completed
    ensures Indexes(completed[attempts[i].cueID := attempts[i]], attempts[..i + 1])
  {
    forall j | 0 <= j < i ensures attempts[j].cueID in completed && completed[attempts[j].cueID] == attempts[j] {
      assert attempts[..i][j] == attempts[j];
    }
  }

  /** Indexes the completed attempts by cue; none may repeat a cue or fail its own validation. */
  method IndexCompleted(request: Request) returns (completed: map<string, Attempt>, ok: bool)
    requires UniqueIDs(request.cues)
    ensures var attempts := request.speech.completedAttempts;
      && (ok <==> DistinctAttempts(attempts) && forall i :: 0 <= i < |attempts| ==> WasCompleted(request, attempts[i]))
      && (ok ==> completed.Keys == CompletedIDs(attempts) && |completed| == |attempts| && Indexes(completed, attempts))
  {
    hide WasCompleted, UniqueIDs, DistinctAttempts, CompletedIDs, Indexes;
    var attempts := request.speech.completedAttempts;
    completed := map[];
    NoIDs(attempts);
    var i := 0;
    while i < |attempts|
      invariant 0 <= i <= |attempts|
      invariant completed.Keys == CompletedIDs(attempts[..i]) && |completed| == i && Indexes(completed, attempts[..i])
      invariant DistinctAttempts(attempts[..i])
      invariant forall j :: 0 <= j < i ==> WasCompleted(request, attempts[j])
    {
      DistinctOneMore(attempts, i);
      if attempts[i].cueID in completed {
        return completed, false;
      }
      IndexOneMore(completed, attempts, i);
      completed := completed[attempts[i].cueID := attempts[i]];
      var valid := ValidateCompletedAttempt(request, attempts[i]);
      if !valid {
        return completed, false;
      }
      i := i + 1;
    }
    assert attempts[..|attempts|] == attempts;
    ok := true;
  }

  lemma DistinctOneMore(attempts: seq<Attempt>, i: nat)
    requires i < |attempts| && DistinctAttempts(attempts[..i])
    ensures attempts[i].cueID !in CompletedIDs(attempts[..i]) ==> DistinctAttempts(attempts[..i + 1])
    ensures attempts[i].cueID in CompletedIDs(attempts[..i]) ==> !DistinctAttempts(attempts)
  {
    IDsOneMore(attempts, i);
  }

  lemma NoIDs(attempts: seq<Attempt>)
    ensures CompletedIDs(attempts[..0]) == {} && DistinctAttempts(attempts[..0]) && Indexes(map[], attempts[..0])
  {
  }

  lemma IDsOneMore(attempts: seq<Attempt>, i: nat)
    requires i < |attempts|
    ensures CompletedIDs(attempts[..i + 1]) == CompletedIDs(attempts[..i]) + {attempts[i].cueID}
    ensures DistinctAttempts(attempts[..i + 1]) <==>
              DistinctAttempts(attempts[..i]) && attempts[i].cueID !in CompletedIDs(attempts[..i])
    ensures DistinctAttempts(attempts) ==> DistinctAttempts(attempts[..i + 1])
  {
    var init, more := attempts[..i], attempts[..i + 1];
    assert more == init + [attempts[i]];
    forall id ensures id in CompletedIDs(more) <==> id in CompletedIDs(init) + {attempts[i].cueID} {
      if id in CompletedIDs(init) {
        var j :| 0 <= j < i && init[j].cueID == id;
        assert more[j].cueID == id;
      }
      if id == attempts[i].cueID { assert more[i].cueID == id; }
    }
  }

  /** The first n remaining cues are authorized one by one. */
  predicate Follows(request: Request, authorizations: seq<CueAuthorization>, remaining: seq<Cue>, n: nat)
    requires n <= |authorizations| && n <= |remaining|
  {
    forall k :: 0 <= k < n ==> Authorizes(request, authorizations[k], remaining[k])
  }

  /** Walks the cues in timeline order, matching each one that is not completed with the next authorization. */
  method MatchBatch(request: Request, batch: Batch, completed: map<string, Attempt>) returns (ok: bool)
    ensures var remaining := Remaining(request.cues, completed.Keys);
      ok <==>
        && |remaining| == |batch.cues| && Follows(request, batch.cues, remaining, |remaining|)
        && |remaining| + |completed| == |request.cues|
  {
    hide Authorizes, Remaining;
    var authorizedIndex, seenCompleted := 0, 0;
    ghost var ids := completed.Keys;
    ghost var all := Remaining(request.cues, ids);
    RemainingGrows(request.cues, ids, 0);
    NothingRemains(request.cues, ids);
    for i := 0 to |request.cues|
      invariant authorizedIndex == |Remaining(request.cues[..i], ids)| <= |batch.cues|
      invariant Remaining(request.cues[..i], ids) <= all
      invariant authorizedIndex + seenCompleted == i
      invariant Follows(request, batch.cues, all, authorizedIndex)
    {
      var cue := request.cues[i];
      RemainingOneMore(request.cues, ids, i);
      RemainingGrows(request.cues, ids, i + 1);
      if cue.id in completed {
        seenCompleted := seenCompleted + 1;
        continue;
      }
      assert all[authorizedIndex] == cue;
      if authorizedIndex >= |batch.cues| || batch.cues[authorizedIndex].cueID != cue.id {
        if authorizedIndex < |batch.cues| { AuthorizesMeans(request, batch.cues[authorizedIndex], cue); }
        return false;
      }
      var authorization := batch.cues[authorizedIndex];
      AuthorizesMeans(request, authorization, cue);
      if authorization.characters != cue.characters {
        return false;
      }
      var identity := request.identify(cue);
      if authorization.jobID != identity.jobID || authorization.inputHash != identity.inputHash {
        return false;
      }
      authorizedIndex := authorizedIndex + 1;
    }
    assert request.cues[..|request.cues|] == request.cues;
    ok := authorizedIndex == |batch.cues| && seenCompleted == |completed|;
  }

  method ValidateCoverage(request: Request) returns (ok: bool)
    requires UniqueIDs(request.cues)
    ensures ok <==> Covered(request)
  {
    hide WasCompleted, UniqueIDs, DistinctAttempts, Authorizes, Remaining;
    if request.speech.batch.None? {
      return request.speech.completedAttempts == [];
    }
    var completed, valid := IndexCompleted(request);
    if !valid {
      return false;
    }
    ok := MatchBatch(request, request.speech.batch.value, completed);
  }

  lemma AuthorizesMeans(request: Request, authorization: CueAuthorization, cue: Cue)
    ensures Authorizes(request, authorization, cue) <==>
              (&& authorization.cueID == cue.id && authorization.characters == cue.characters
               && authorization.jobID == request.identify(cue).jobID && authorization.inputHash == request.identify(cue).inputHash)
  {
  }

  // ---- Splitting the budget ----

  /** What the k-th of n cues to be paid for gets: an equal part, and one more micro while the remainder lasts. */
  function Share(maximum: nat, n: nat, k: nat): nat
    requires n > 0
  {
    maximum / n + (if k < maximum % n then 1 else 0)
  }

  function ShareTotal(maximum: nat, n: nat, k: nat): nat
    requires n > 0
  {
    if k == 0 then 0 else ShareTotal(maximum, n, k - 1) + Share(maximum, n, k - 1)
  }

  lemma {:induction false} ShareTotalIs(maximum: nat, n: nat, k: nat)
    requires n > 0
    ensures ShareTotal(maximum, n, k) == k * (maximum / n) + (if k < maximum % n then k else maximum % n)
  {
    if k > 0 {
      ShareTotalIs(maximum, n, k - 1);
      assert k * (maximum / n) == (k - 1) * (maximum / n) + maximum / n;
    }
  }

  /** The shares differ by at most one and come to exactly the maximum; no prefix of them exceeds it. */
  lemma SharesSplitTheMaximum(maximum: nat, n: nat, j: nat, k: nat)
    requires n > 0 && j <= n && k <= n
    ensures -1 <= Share(maximum, n, j) - Share(maximum, n, k) <= 1
    ensures ShareTotal(maximum, n, n) == maximum
    ensures ShareTotal(maximum, n, k) <= maximum
  {
    ShareTotalIs(maximum, n, n);
    ShareTotalIs(maximum, n, k);
    Divided(maximum, n);
    SharesDiffer(maximum, n, j, k);
    hide ShareTotal, Share;
    ProductGrows(k, n, maximum / n);
  }

  lemma Divided(maximum: nat, n: nat)
    requires n > 0
    ensures maximum == n * (maximum / n) + maximum % n && maximum % n < n
  {
  }

  lemma SharesDiffer(maximum: nat, n: nat, j: nat, k: nat)
    requires n > 0
    ensures -1 <= Share(maximum, n, j) - Share(maximum, n, k) <= 1
  {
  }

  lemma ProductGrows(k: nat, n: nat, q: nat)
    requires k <= n
    ensures k * q <= n * q
  {
  }

  // ---- What an attempt must show ----

  function AuthorizationFor(cues: seq<CueAuthorization>, id: string): Option<CueAuthorization> {
    if cues == [] then None else if cues[0].cueID == id then Some(cues[0]) else AuthorizationFor(cues[1..], id)
  }

  /** The most AFP one cue's attempt may use; None: the batch does not authorize this very job. */
  function CueCeiling(request: Request, cue: Cue): Option<int64> {
    if !request.speech.v2 || request.speech.batch.None? then Some(request.speech.maximumAFPMilli)
    else
      var found := AuthorizationFor(request.speech.batch.value.cues, cue.id);
      if found.None? || found.value.jobID != request.identify(cue).jobID || found.value.inputHash != request.identify(cue).inputHash
      then None else Some(found.value.maximumAFPMilli)
  }

  lemma {:induction false} FirstAuthorization(cues: seq<CueAuthorization>, id: string, k: nat)
    requires k <= |cues| && (forall m :: 0 <= m < k ==> cues[m].cueID != id) && (k < |cues| ==> cues[k].cueID == id)
    ensures AuthorizationFor(cues, id) == if k < |cues| then Some(cues[k]) else None
  {
    if k > 0 {
      FirstAuthorization(cues[1..], id, k - 1);
    }
  }

  /** A v2 batch caps each cue by its own first authorization, which must be for the very same job; anything else by the ceiling. */
  lemma CueCeilingMeans(request: Request, cue: Cue, k: nat)
    requires var batch := request.speech.batch;
      request.speech.v2 && batch.Some? ==>
        && k <= |batch.value.cues| && (forall m :: 0 <= m < k ==> batch.value.cues[m].cueID != cue.id)
        && (k < |batch.value.cues| ==> batch.value.cues[k].cueID == cue.id)
    ensures var batch, identity := request.speech.batch, request.identify(cue);
      CueCeiling(request, cue) ==
        if !request.speech.v2 || batch.None? then Some(request.speech.maximumAFPMilli)
        else if k < |batch.value.cues| && (batch.value.cues[k].jobID, batch.value.cues[k].inputHash) == (identity.jobID, identity.inputHash)
        then Some(batch.value.cues[k].maximumAFPMilli) else None
  {
    if request.speech.v2 && request.speech.batch.Some? {
      FirstAuthorization(request.speech.batch.value.cues, cue.id, k);
    }
  }

  predicate ZeroCash(cost: Cost) {
    cost.actual == Some(0) && cost.billingMode == INCLUDED
  }

  /** The attempt is complete evidence for this cue, within this budget. */
  predicate AttemptFits(request: Request, cue: Cue, budget: int, attempt: Attempt) {
    var speech := request.speech;
    && CueCeiling(request, cue).Some?
    && attempt.cueID == cue.id
    && (speech.v2 && request.identify(cue).jobID != "" ==> attempt.jobID == request.identify(cue).jobID)
    && !Blank(attempt.jobID) && !Blank(attempt.requestID) && !Blank(attempt.upstreamTaskID)
    && attempt.model == speech.route && attempt.evidence == request.evidence
    && 0 <= attempt.cost.estimated as int <= budget
    && (attempt.cost.actual.Some? ==> 0 <= attempt.cost.actual.value as int <= budget)
    && attempt.cost.currency == speech.budgetCurrency && !Blank(attempt.cost.pricingVersion)
    && !attempt.usage.otherNegative && attempt.usage.generatedChars >= 0 && attempt.usage.outputUnits >= 0
    && attempt.segment
    && (speech.agentPlan ==>
          && !Blank(attempt.connectID) && !Blank(attempt.logID)
          && 0 < attempt.usage.generatedChars <= 600 && attempt.usage.unit == MILLI_AFP
          && attempt.usage.outputUnits as int == attempt.usage.generatedChars as int * 135)
    && (speech.v2 ==>
          && attempt.usage.outputUnits <= CueCeiling(request, cue).value
          && ZeroCash(attempt.cost) && speech.maximumCashMicros == 0)
    && (speech.subscription ==>
          && attempt.usage.outputUnits <= speech.maximumAFPMilli
          && ZeroCash(attempt.cost) && attempt.cost.estimated == 0)
  }

  /** What an attempt must show, route by route. */
  lemma EvidenceMeans(request: Request, cue: Cue, budget: int, attempt: Attempt)
    ensures AttemptFits(request, cue, budget, attempt) <==>
      var speech, identity, usage, cost := request.speech, request.identify(cue), attempt.usage, attempt.cost;
      var ceiling := CueCeiling(request, cue);
      && (attempt.cueID, attempt.model, attempt.evidence, cost.currency, attempt.segment)
         == (cue.id, speech.route, request.evidence, speech.budgetCurrency, true)
      && (forall text :: text in [attempt.jobID, attempt.requestID, attempt.upstreamTaskID, cost.pricingVersion] ==> !Blank(text))
      && cost.estimated >= 0 && cost.estimated as int <= budget
      && (cost.actual == None || (cost.actual.value >= 0 && cost.actual.value as int <= budget))
      && !usage.otherNegative && usage.generatedChars >= 0 && usage.outputUnits >= 0
      && ceiling != None
      && (speech.v2 ==> identity.jobID in ["", attempt.jobID] && usage.outputUnits <= ceiling.value && speech.maximumCashMicros == 0)
      && (speech.subscription ==> usage.outputUnits <= speech.maximumAFPMilli && cost.estimated == 0)
      && (speech.v2 || speech.subscription ==> (cost.actual, cost.billingMode) == (Some(0), INCLUDED))
      && (speech.agentPlan ==>
            && !Blank(attempt.connectID) && !Blank(attempt.logID) && usage.unit == MILLI_AFP
            && 1 <= usage.generatedChars <= 600 && usage.outputUnits as int == 135 * usage.generatedChars as int)
  {
    hide CueCeiling, Blank;
  }

  /** What a completed attempt must repeat of its cue. */
  lemma CompletedMeans(request: Request, cue: Cue, attempt: Attempt)
    ensures CompletedFits(request, cue, attempt) <==>
      && (attempt.cueID, attempt.jobID, attempt.model, attempt.evidence, attempt.segment)
         == (cue.id, request.identify(cue).jobID, request.speech.route, request.evidence, true)
      && (forall text :: text in [attempt.requestID, attempt.upstreamTaskID, attempt.connectID, attempt.logID] ==> !Blank(text))
      && (attempt.usage.generatedChars as int, attempt.usage.outputUnits as int, attempt.usage.unit)
         == (cue.characters, 135 * cue.characters, MILLI_AFP)
      && (attempt.cost.actual, attempt.cost.billingMode, attempt.cost.currency)
         == (Some(0), INCLUDED, request.speech.budgetCurrency)
  {
    hide Blank;
  }

  // ---- Finalizing ----

  datatype Event = Authorized(cueID: string) | Submitted(cueID: string, budget: int)

  function PaidCount(request: Request): int {
    |request.cues| - |request.speech.completedAttempts|
  }

  function BudgetOf(request: Request, k: nat): int
    requires request.speech.budgetMaximumMicros >= 0
  {
    Share(request.speech.budgetMaximumMicros as int, if PaidCount(request) <= 0 then 1 else PaidCount(request), k)
  }

  /** What happens for these cues: each authorized first if anything authorizes, then submitted under its share. */
  function Submissions(request: Request, paid: seq<Cue>): seq<Event>
    requires request.speech.budgetMaximumMicros >= 0
  {
    if paid == [] then []
    else
      var n := |paid| - 1;
      Submissions(request, paid[..n])
      + (if request.authorizes then [Authorized(paid[n].id)] else [])
      + [Submitted(paid[n].id, BudgetOf(request, n))]
  }

  /** int64 addition as the source does it. */
  function Wrap(n: int): int64 {
    ((n + MAX_INT64 + 1) % TWO_64 - MAX_INT64 - 1) as int64
  }

  predicate Counts(request: Request, cue: Cue) {
    request.speech.subscription
    || (request.speech.batch.Some? && cue.id !in CompletedIDs(request.speech.completedAttempts))
  }

  /** The running AFP total after these cues. */
  function Running(request: Request, cues: seq<Cue>, attempts: seq<Attempt>): int64
    requires |cues| == |attempts|
  {
    if cues == [] then 0
    else
      var n := |cues| - 1;
      var before := Running(request, cues[..n], attempts[..n]);
      if Counts(request, cues[n]) then Wrap(before as int + attempts[n].usage.outputUnits as int) else before
  }

  /** What is checked of a paid cue's attempt, its share and the running total. */
  predicate PaidFits(request: Request, cue: Cue, k: nat, attempt: Attempt, running: int64)
    requires request.speech.budgetMaximumMicros >= 0
  {
    var speech := request.speech;
    && (speech.v2 && speech.batch.None? ==> cue.id == speech.authorizedCueID)
    && AttemptFits(request, cue, BudgetOf(request, k), attempt)
    && (if speech.subscription then running <= speech.maximumAFPMilli
        else if speech.batch.Some? then running <= speech.batch.value.maximumAFPMilli
        else !speech.v2)
  }

  /** Outside v2 without a batch every cue may be paid for; there, only the authorized one, and only under a subscription. */
  lemma PaidMeans(request: Request, cue: Cue, k: nat, attempt: Attempt, running: int64)
    requires request.speech.budgetMaximumMicros >= 0
    ensures PaidFits(request, cue, k, attempt, running) <==>
      var speech := request.speech;
      && AttemptFits(request, cue, BudgetOf(request, k), attempt)
      && (speech.subscription ==> running <= speech.maximumAFPMilli)
      && (!speech.subscription && speech.batch.Some? ==> running <= speech.batch.value.maximumAFPMilli)
      && (speech.v2 && speech.batch.None? ==> speech.subscription && cue.id == speech.authorizedCueID)
  {
    hide AttemptFits, BudgetOf;
  }

  /** One attempt per cue, in cue order: the completed ones as they were, the others as they must be. */
  predicate Fits(request: Request, cues: seq<Cue>, attempts: seq<Attempt>)
    requires request.speech.budgetMaximumMicros >= 0
  {
    && |cues| == |attempts|
    && (cues == [] ||
        var n := |cues| - 1;
        var completed := CompletedIDs(request.speech.completedAttempts);
        && Fits(request, cues[..n], attempts[..n])
        && attempts[n].cueID == cues[n].id
        && (if cues[n].id in completed then attempts[n] in request.speech.completedAttempts
            else PaidFits(request, cues[n], |Remaining(cues[..n], completed)|, attempts[n], Running(request, cues, attempts))))
  }

  /** Every cue to be paid for gets something of the budget. */
  predicate Affordable(request: Request)
    requires request.speech.budgetMaximumMicros >= 0
  {
    request.cues == [] || request.speech.budgetMaximumMicros as int / (if PaidCount(request) <= 0 then 1 else PaidCount(request)) > 0
  }

  /** What a finalization returns. */
  predicate Accepted(request: Request, attempts: seq<Attempt>)
    requires request.speech.budgetMaximumMicros >= 0
  {
    && Covered(request) && request.evidence != PENDING_KEY && Fits(request, request.cues, attempts)
    && (if request.speech.subscription
        then request.cues == [] || Running(request, request.cues, attempts) <= request.speech.maximumAFPMilli
        else Affordable(request))
  }

  /** What came of asking for one cue: the callback refused, the provider failed, or there is an attempt. */
  datatype Answer = Refused | NoAttempt | Answered(attempt: Attempt)

  /**
   How a finalization went: nothing was asked for, or it stopped at a cue, after these attempts and with this answer (none
   if the cue may not be paid for), or it came to the end of the cues.
   */
  datatype Course =
    | NotStarted
    | StoppedAt(attempts: seq<Attempt>, answer: Option<Answer>)
    | WentThrough(attempts: seq<Attempt>)

  /** Whether anything may be asked for. */
  predicate Starts(request: Request)
    requires request.speech.budgetMaximumMicros >= 0
  {
    Covered(request) && request.evidence != PENDING_KEY && (request.speech.subscription || Affordable(request))
  }

  /** The answer ends the finalization at the cue that comes after these attempts. */
  predicate Stops(request: Request, attempts: seq<Attempt>, answer: Option<Answer>)
    requires request.speech.budgetMaximumMicros >= 0
  {
    var i, ids := |attempts|, CompletedIDs(request.speech.completedAttempts);
    && i < |request.cues| && Fits(request, request.cues[..i], attempts) && request.cues[i].id !in ids
    && match answer
       case None => request.speech.v2 && request.speech.batch.None? && request.cues[i].id != request.speech.authorizedCueID
       case Some(Refused) => request.authorizes
       case Some(NoAttempt) => true
       case Some(Answered(attempt)) =>
         !PaidFits(request, request.cues[i], |Remaining(request.cues[..i], ids)|, attempt,
                   Running(request, request.cues[..i + 1], attempts + [attempt]))
  }

  /** What was asked for until this answer: an authorization that is refused leaves no trace. */
  function Asked(request: Request, attempts: seq<Attempt>, answer: Option<Answer>): seq<Event>
    requires request.speech.budgetMaximumMicros >= 0 && |attempts| < |request.cues|
  {
    var i := |attempts|;
    var cues := if answer in {None, Some(Refused)} then request.cues[..i] else request.cues[..i + 1];
    Submissions(request, Remaining(cues, CompletedIDs(request.speech.completedAttempts)))
  }

  /** What is left of the first cues is the first part of what is left of all. */
  lemma PaidSoFar(request: Request, i: nat)
    requires i < |request.cues| && request.cues[i].id !in CompletedIDs(request.speech.completedAttempts)
    ensures var ids := CompletedIDs(request.speech.completedAttempts);
      var paid, k := Remaining(request.cues, ids), |Remaining(request.cues[..i], ids)|;
      k < |paid| && Remaining(request.cues[..i], ids) == paid[..k] && Remaining(request.cues[..i + 1], ids) == paid[..k + 1]
  {
    hide CompletedIDs, Remaining;
    var ids := CompletedIDs(request.speech.completedAttempts);
    RemainingGrows(request.cues, ids, i);
    RemainingGrows(request.cues, ids, i + 1);
    RemainingAt(request.cues, ids, i);
  }

  /** Why a finalization returned what it did, and what it asked for. */
  predicate Explains(request: Request, course: Course, r: Option<seq<Attempt>>, log: seq<Event>)
    requires request.speech.budgetMaximumMicros >= 0
  {
    match course
    case NotStarted => !Starts(request) && r.None? && log == []
    case StoppedAt(attempts, answer) =>
      Starts(request) && Stops(request, attempts, answer) && r.None? && log == Asked(request, attempts, answer)
    case WentThrough(attempts) =>
      && Starts(request) && Fits(request, request.cues, attempts)
      && log == Submissions(request, Remaining(request.cues, CompletedIDs(request.speech.completedAttempts)))
      && r == (if request.speech.subscription && request.cues != []
                  && Running(request, request.cues, attempts) > request.speech.maximumAFPMilli then None else Some(attempts))
  }

  /** The answers that were asked for and taken: those of the attempts that were not completed before. */
  function Taken(request: Request, cues: seq<Cue>, attempts: seq<Attempt>): seq<Answer>
    requires |cues| == |attempts|
  {
    if cues == [] then []
    else
      var n := |cues| - 1;
      Taken(request, cues[..n], attempts[..n])
      + (if cues[n].id in CompletedIDs(request.speech.completedAttempts) then [] else [Answered(attempts[n])])
  }

  /** These are the answers the finalization got, and it went as they say. */
  predicate Tells(request: Request, course: Course, answers: seq<Answer>) {
    match course
    case NotStarted => answers == []
    case StoppedAt(attempts, answer) =>
      && |attempts| <= |request.cues|
      && answers == Taken(request, request.cues[..|attempts|], attempts) + (if answer.Some? then [answer.value] else [])
    case WentThrough(attempts) =>
      |attempts| == |request.cues| && answers == Taken(request, request.cues, attempts)
  }

  lemma NotStarting(request: Request, log: seq<Event>)
    requires request.speech.budgetMaximumMicros >= 0 && !Starts(request) && log == []
    ensures Explains(request, NotStarted, None, log)
  {
  }

  lemma StoppingExplains(request: Request, attempts: seq<Attempt>, answer: Option<Answer>, log: seq<Event>)
    requires request.speech.budgetMaximumMicros >= 0 && Starts(request) && Stops(request, attempts, answer)
    requires log == Asked(request, attempts, answer)
    ensures Explains(request, StoppedAt(attempts, answer), None, log)
  {
  }

  lemma GoingThroughExplains(request: Request, attempts: seq<Attempt>, log: seq<Event>)
    requires request.speech.budgetMaximumMicros >= 0 && Starts(request) && Fits(request, request.cues, attempts)
    requires log == Submissions(request, Remaining(request.cues, CompletedIDs(request.speech.completedAttempts)))
    ensures var over := request.speech.subscription && request.cues != []
                        && Running(request, request.cues, attempts) > request.speech.maximumAFPMilli;
      Explains(request, WentThrough(attempts), if over then None else Some(attempts), log)
  {
  }

  lemma NothingTaken(request: Request)
    ensures Taken(request, request.cues[..0], []) == [] && Tells(request, NotStarted, [])
    ensures request.cues == [] ==> Tells(request, WentThrough([]), [])
  {
  }

  lemma StoppingTells(request: Request, start: seq<Answer>, attempts: seq<Attempt>, answer: Option<Answer>)
    requires |attempts| <= |request.cues|
    ensures var answers := start + Taken(request, request.cues[..|attempts|], attempts) + (if answer.Some? then [answer.value] else []);
      start <= answers && Tells(request, StoppedAt(attempts, answer), answers[|start|..])
  {
    hide Taken;
  }

  lemma GoingThroughTells(request: Request, start: seq<Answer>, attempts: seq<Attempt>)
    requires |attempts| == |request.cues|
    ensures var answers := start + Taken(request, request.cues[..|attempts|], attempts);
      start <= answers && Tells(request, WentThrough(attempts), answers[|start|..])
  {
    hide Taken;
    assert request.cues[..|attempts|] == request.cues;
  }

  lemma TakenOneMore(request: Request, attempts: seq<Attempt>, i: nat, attempt: Attempt)
    requires i < |request.cues| && |attempts| == i
    ensures Taken(request, request.cues[..i + 1], attempts + [attempt])
         == Taken(request, request.cues[..i], attempts)
            + (if request.cues[i].id in CompletedIDs(request.speech.completedAttempts) then [] else [Answered(attempt)])
  {
    hide CompletedIDs;
    assert request.cues[..i + 1][..i] == request.cues[..i] && (attempts + [attempt])[..i] == attempts;
  }

  lemma FitsOneMore(request: Request, cues: seq<Cue>, attempts: seq<Attempt>, i: nat, attempt: Attempt)
    requires request.speech.budgetMaximumMicros >= 0
    requires i < |cues| && |attempts| == i && Fits(request, cues[..i], attempts) && attempt.cueID == cues[i].id
    ensures Running(request, cues[..i + 1], attempts + [attempt])
         == (var before := Running(request, cues[..i], attempts);
             if Counts(request, cues[i]) then Wrap(before as int + attempt.usage.outputUnits as int) else before)
    ensures var completed := CompletedIDs(request.speech.completedAttempts);
      (if cues[i].id in completed then attempt in request.speech.completedAttempts
       else PaidFits(request, cues[i], |Remaining(cues[..i], completed)|, attempt, Running(request, cues[..i + 1], attempts + [attempt])))
      ==> Fits(request, cues[..i + 1], attempts + [attempt])
  {
    hide CompletedIDs, PaidFits, Counts, Wrap, Remaining;
    assert cues[..i + 1][..i] == cues[..i] && (attempts + [attempt])[..i] == attempts;
  }

  lemma SubmissionsOneMore(request: Request, paid: seq<Cue>, k: nat)
    requires request.speech.budgetMaximumMicros >= 0 && k < |paid|
    ensures Submissions(request, paid[..k + 1])
         == Submissions(request, paid[..k]) + (if request.authorizes then [Authorized(paid[k].id)] else [])
            + [Submitted(paid[k].id, BudgetOf(request, k))]
  {
    assert paid[..k + 1][..k] == paid[..k];
  }

  lemma {:induction false} SubmissionsGrow(request: Request, paid: seq<Cue>, k: nat)
    requires request.speech.budgetMaximumMicros >= 0 && k <= |paid|
    ensures Submissions(request, paid[..k]) <= Submissions(request, paid)
    decreases |paid| - k
  {
    if k == |paid| {
      assert paid[..k] == paid;
    } else {
      hide BudgetOf;
      SubmissionsOneMore(request, paid, k);
      SubmissionsGrow(request, paid, k + 1);
    }
  }

  class Service {
    ghost var log: seq<Event>
    ghost var answers: seq<Answer>

    constructor ()
      ensures log == [] && answers == []
    {
      log, answers := [], [];
    }

    /** The authorization callback of the activity may refuse. */
    method AuthorizePaidSubmit(cue: Cue) returns (ok: bool)
      modifies this
      ensures log == old(log) + (if ok then [Authorized(cue.id)] else [])
      ensures answers == old(answers) + (if ok then [] else [Refused])
    {
      ok := *;
      log := log + (if ok then [Authorized(cue.id)] else []);
      answers := answers + (if ok then [] else [Refused]);
    }

    /** The speech provider returns any attempt whatever, or fails. */
    method Synthesize(cue: Cue, budget: int) returns (r: Option<Attempt>)
      modifies this
      ensures log == old(log) + [Submitted(cue.id, budget)]
      ensures answers == old(answers) + [if r.Some? then Answered(r.value) else NoAttempt]
    {
      r := *;
      log := log + [Submitted(cue.id, budget)];
      answers := answers + [if r.Some? then Answered(r.value) else NoAttempt];
    }

    /** Pays for one cue: authorization first, then the submission, then everything its evidence must show. */
    method Pay(request: Request, cue: Cue, cueBudget: int) returns (r: Option<Attempt>, ghost answer: Answer)
      modifies this
      ensures answers == old(answers) + [answer]
      ensures answer.Refused? ==> request.authorizes && log == old(log)
      ensures !answer.Refused? ==>
        log == old(log) + (if request.authorizes then [Authorized(cue.id)] else []) + [Submitted(cue.id, cueBudget)]
      ensures r == (if answer.Answered? && AttemptFits(request, cue, cueBudget, answer.attempt) then Some(answer.attempt) else None)
    {
      hide AttemptFits;
      if request.authorizes {
        var authorized := AuthorizePaidSubmit(cue);
        if !authorized {
          return None, Refused;
        }
      }
      var attempt := Synthesize(cue, cueBudget);
      answer := if attempt.Some? then Answered(attempt.value) else NoAttempt;
      if attempt.None? || !AttemptFits(request, cue, cueBudget, attempt.value) {
        return None, answer;
      }
      r := attempt;
    }

    /** The speech attempts of every cue in order, or an error. */
    method Finalize(request: Request) returns (r: Option<seq<Attempt>>, ghost course: Course)
      requires UniqueIDs(request.cues) && request.speech.budgetMaximumMicros >= 0 && log == []
      modifies this
      ensures Explains(request, course, r, log)
      ensures old(answers) <= answers && Tells(request, course, answers[|old(answers)|..])
      ensures log <= Submissions(request, Remaining(request.cues, CompletedIDs(request.speech.completedAttempts)))
      ensures r.Some? ==>
        && Accepted(request, r.value)
        && log == Submissions(request, Remaining(request.cues, CompletedIDs(request.speech.completedAttempts)))
    {
      hide Covered, Fits, Submissions, Remaining, CompletedIDs, Running, Counts, Wrap, AttemptFits, UniqueIDs, Share, Affordable;
      ghost var ids := CompletedIDs(request.speech.completedAttempts);
      ghost var paid := Remaining(request.cues, ids);
      SubmissionsGrow(request, paid, 0);
      NoSubmissions(request, paid);
      var covered := ValidateCoverage(request);
      if !covered || request.evidence == PENDING_KEY {
        return None, NotStarted;
      }
      r, course := SynthesizeCues(request);
    }

    /** Pays for the cue at i, the k-th that is not completed, and takes its AFP into the running total. */
    method PayNext(request: Request, i: nat, ghost k: nat, cueBudget: int, ghost attempts: seq<Attempt>, batchAFPMilli: int64)
      returns (r: Option<Attempt>, total: int64, ghost answer: Option<Answer>)
      requires request.speech.budgetMaximumMicros >= 0 && i < |request.cues| && |attempts| == i
      requires var ids := CompletedIDs(request.speech.completedAttempts);
        && request.cues[i].id !in ids && k == |Remaining(request.cues[..i], ids)| && k < |Remaining(request.cues, ids)|
        && Remaining(request.cues, ids)[k] == request.cues[i]
        && log == Submissions(request, Remaining(request.cues, ids)[..k])
      requires cueBudget == BudgetOf(request, k)
      requires Fits(request, request.cues[..i], attempts) && batchAFPMilli == Running(request, request.cues[..i], attempts)
      modifies this
      ensures log <= Submissions(request, Remaining(request.cues, CompletedIDs(request.speech.completedAttempts)))
      ensures r.Some? ==>
        && log == Submissions(request, Remaining(request.cues, CompletedIDs(request.speech.completedAttempts))[..k + 1])
        && Fits(request, request.cues[..i + 1], attempts + [r.value])
        && total == Running(request, request.cues[..i + 1], attempts + [r.value])
      ensures r.None? ==> Stops(request, attempts, answer) && log == Asked(request, attempts, answer)
      ensures answers == old(answers) + (if answer.Some? then [answer.value] else [])
      ensures r.Some? ==> answer == Some(Answered(r.value))
    {
      hide Fits, Submissions, Remaining, CompletedIDs, Running, AttemptFits, BudgetOf, Wrap;
      ghost var paid := Remaining(request.cues, CompletedIDs(request.speech.completedAttempts));
      var cue := request.cues[i];
      r, total, answer := None, batchAFPMilli, None;
      PaidSoFar(request, i);
      SubmissionsGrow(request, paid, k);
      SubmissionsOneMore(request, paid, k);
      SubmissionsGrow(request, paid, k + 1);
      if request.speech.v2 && request.speech.batch.None? && cue.id != request.speech.authorizedCueID {
        return;
      }
      var attempt;
      ghost var answered;
      attempt, answered := Pay(request, cue, cueBudget);
      answer := Some(answered);
      if attempt.None? {
        return;
      }
      AttemptsNameTheirCue(request, cue, cueBudget, attempt.value);
      FitsOneMore(request, request.cues, attempts, i, attempt.value);
      if request.speech.subscription {
        total := Wrap(batchAFPMilli as int + attempt.value.usage.outputUnits as int);
        if total > request.speech.maximumAFPMilli {
          return;
        }
      } else if request.speech.batch.Some? {
        total := Wrap(batchAFPMilli as int + attempt.value.usage.outputUnits as int);
        if total > request.speech.batch.value.maximumAFPMilli {
          return;
        }
      } else if request.speech.v2 {
        return;
      }
      r := attempt;
    }

    /** The loop over the cues. */
    method SynthesizeCues(request: Request) returns (r: Option<seq<Attempt>>, ghost course: Course)
      requires UniqueIDs(request.cues) && request.speech.budgetMaximumMicros >= 0 && log == [] && Covered(request)
      requires request.evidence != PENDING_KEY
      modifies this
      ensures Explains(request, course, r, log)
      ensures old(answers) <= answers && Tells(request, course, answers[|old(answers)|..])
      ensures log <= Submissions(request, Remaining(request.cues, CompletedIDs(request.speech.completedAttempts)))
      ensures r.Some? ==>
        && Fits(request, request.cues, r.value)
        && log == Submissions(request, Remaining(request.cues, CompletedIDs(request.speech.completedAttempts)))
        && (request.speech.subscription && request.cues != [] ==>
              Running(request, request.cues, r.value) <= request.speech.maximumAFPMilli)
        && (request.speech.subscription || Affordable(request))
    {
      hide Covered, Fits, Submissions, Remaining, CompletedIDs, Running, AttemptFits, UniqueIDs, Share, Wrap, BudgetOf, Counts, Affordable;
      hide Taken, Tells, Stops, Asked;
      EmptyIsAffordable(request);
      ghost var start := answers;
      assert start[|start|..] == [];
      NothingTaken(request);
      var attempts: seq<Attempt> := [];
      ghost var ids := CompletedIDs(request.speech.completedAttempts);
      ghost var paid := Remaining(request.cues, ids);
      NothingFinalized(request, paid);
      SubmissionsGrow(request, paid, 0);
      if request.cues == [] {
        assert request.cues[..0] == [] && paid[..0] == paid by { NothingRemains([], ids); }
        GoingThroughExplains(request, attempts, log);
        return Some(attempts), WentThrough(attempts);
      }
      hide Explains;
      var completed := Completed(request);
      CoveredCounts(request, completed);
      var baseBudget, remainder := SplitBudget(request, |request.cues| - |completed|);
      var subscription := request.speech.subscription;
      if baseBudget == 0 && !subscription {
        NotStarting(request, log);
        return None, NotStarted;
      }
      var paidIndex, batchAFPMilli := 0, 0;
      var i := 0;
      while i < |request.cues|
        invariant 0 <= i <= |request.cues| && |attempts| == i
        invariant paidIndex == |Remaining(request.cues[..i], ids)| <= |paid|
        invariant Fits(request, request.cues[..i], attempts)
        invariant batchAFPMilli == Running(request, request.cues[..i], attempts)
        invariant log == Submissions(request, paid[..paidIndex])
        invariant answers == start + Taken(request, request.cues[..i], attempts)
      {
        var cue := request.cues[i];
        RemainingAt(request.cues, ids, i);
        SubmissionsGrow(request, paid, paidIndex);
        if cue.id in completed {
          CompletedFitsIn(request, attempts, i, completed[cue.id]);
          TakenOneMore(request, attempts, i, completed[cue.id]);
          attempts := attempts + [completed[cue.id]];
          if subscription {
            batchAFPMilli := Wrap(batchAFPMilli as int + completed[cue.id].usage.outputUnits as int);
          }
          i := i + 1;
          continue;
        }
        var cueBudget := baseBudget;
        if paidIndex < remainder {
          cueBudget := cueBudget + 1;
        }
        assert cueBudget == BudgetOf(request, paidIndex);
        var paidAttempt, total;
        ghost var answer;
        paidAttempt, total, answer := PayNext(request, i, paidIndex, cueBudget, attempts, batchAFPMilli);
        if paidAttempt.None? {
          StoppingTells(request, start, attempts, answer);
          StoppingExplains(request, attempts, answer, log);
          return None, StoppedAt(attempts, answer);
        }
        TakenOneMore(request, attempts, i, paidAttempt.value);
        attempts, batchAFPMilli := attempts + [paidAttempt.value], total;
        paidIndex := paidIndex + 1;
        i := i + 1;
      }
      assert request.cues[..i] == request.cues;
      assert paid[..paidIndex] == paid;
      GoingThroughTells(request, start, attempts);
      GoingThroughExplains(request, attempts, log);
      course := WentThrough(attempts);
      if subscription && batchAFPMilli > request.speech.maximumAFPMilli {
        return None, course;
      }
      r := Some(attempts);
    }
  }

  /** The part of the budget every remaining cue gets, and how many of them get one micro more. */
  method SplitBudget(request: Request, remaining: int) returns (baseBudget: int, remainder: int)
    requires request.speech.budgetMaximumMicros >= 0 && remaining == PaidCount(request) >= 0
    ensures forall k: nat :: BudgetOf(request, k) == baseBudget + (if k < remainder then 1 else 0)
    ensures request.cues != [] ==> (Affordable(request) <==> baseBudget > 0)
    ensures baseBudget >= 0
  {
    var paidCueCount := remaining;
    if paidCueCount == 0 {
      paidCueCount := 1;
    }
    baseBudget := request.speech.budgetMaximumMicros as int / paidCueCount;
    remainder := request.speech.budgetMaximumMicros as int % paidCueCount;
  }

  /** The completed attempts, by cue. */
  method Completed(request: Request) returns (completed: map<string, Attempt>)
    requires Covered(request)
    ensures completed.Keys == CompletedIDs(request.speech.completedAttempts)
    ensures forall id :: id in completed ==> completed[id] in request.speech.completedAttempts && completed[id].cueID == id
  {
    hide Covered, CompletedIDs;
    completed := map[];
    NoIDs(request.speech.completedAttempts);
    var attempts := request.speech.completedAttempts;
    var i := 0;
    while i < |attempts|
      invariant 0 <= i <= |attempts| && completed.Keys == CompletedIDs(attempts[..i])
      invariant forall id :: id in completed ==> completed[id] in attempts && completed[id].cueID == id
    {
      IDsOneMore(attempts, i);
      completed := completed[attempts[i].cueID := attempts[i]];
      i := i + 1;
    }
    assert attempts[..i] == attempts;
  }

  /** In a covered request the completed cues and the cues still to be paid for make up all the cues. */
  lemma CoveredCounts(request: Request, completed: map<string, Attempt>)
    requires Covered(request) && completed.Keys == CompletedIDs(request.speech.completedAttempts)
    ensures |completed| == |request.speech.completedAttempts|
    ensures |Remaining(request.cues, CompletedIDs(request.speech.completedAttempts))| == PaidCount(request)
  {
    var attempts := request.speech.completedAttempts;
    if request.speech.batch.None? {
      assert attempts == [];
      NoneCompleted(request.cues);
    }
    DistinctCount(attempts);
    hide Covered, DistinctAttempts, CompletedIDs;
    assert |completed| == |completed.Keys|;
  }

  lemma {:induction false} NoneCompleted(cues: seq<Cue>)
    ensures Remaining(cues, {}) == cues
  {
    if cues != [] {
      NoneCompleted(cues[..|cues| - 1]);
      assert cues == cues[..|cues| - 1] + [cues[|cues| - 1]];
    }
  }

  lemma {:induction false} DistinctCount(attempts: seq<Attempt>)
    requires DistinctAttempts(attempts)
    ensures |CompletedIDs(attempts)| == |attempts|
  {
    if attempts != [] {
      var n := |attempts| - 1;
      IDsOneMore(attempts, n);
      assert attempts[..n + 1] == attempts;
      hide CompletedIDs;
      DistinctCount(attempts[..n]);
    }
  }

  lemma EmptyIsAffordable(request: Request)
    requires request.speech.budgetMaximumMicros >= 0
    ensures request.cues == [] ==> Affordable(request)
  {
  }

  /** A completed attempt joins the result as it is, and counts only under a subscription. */
  lemma CompletedFitsIn(request: Request, attempts: seq<Attempt>, i: nat, attempt: Attempt)
    requires request.speech.budgetMaximumMicros >= 0 && i < |request.cues| && |attempts| == i
    requires Fits(request, request.cues[..i], attempts) && attempt.cueID == request.cues[i].id
    requires attempt in request.speech.completedAttempts && request.cues[i].id in CompletedIDs(request.speech.completedAttempts)
    ensures Fits(request, request.cues[..i + 1], attempts + [attempt])
    ensures Running(request, request.cues[..i + 1], attempts + [attempt])
         == (var before := Running(request, request.cues[..i], attempts);
             if request.speech.subscription then Wrap(before as int + attempt.usage.outputUnits as int) else before)
  {
    hide Fits, Running, CompletedIDs, Wrap;
    FitsOneMore(request, request.cues, attempts, i, attempt);
  }

  lemma AttemptsNameTheirCue(request: Request, cue: Cue, budget: int, attempt: Attempt)
    requires AttemptFits(request, cue, budget, attempt)
    ensures attempt.cueID == cue.id
  {
  }

  lemma NothingFinalized(request: Request, paid: seq<Cue>)
    requires request.speech.budgetMaximumMicros >= 0
    ensures Submissions(request, paid[..0]) == [] && Fits(request, request.cues[..0], [])
    ensures Running(request, request.cues[..0], []) == 0
    ensures Remaining(request.cues[..0], CompletedIDs(request.speech.completedAttempts)) == []
  {
  }

  lemma NoSubmissions(request: Request, paid: seq<Cue>)
    requires request.speech.budgetMaximumMicros >= 0
    ensures Submissions(request, paid[..0]) == []
  {
  }

  // ---- What a finalized episode guarantees ----

  lemma {:induction false} AttemptsFollowTheCues(request: Request, cues: seq<Cue>, attempts: seq<Attempt>, i: nat)
    requires request.speech.budgetMaximumMicros >= 0 && Fits(request, cues, attempts) && i < |cues|
    ensures |attempts| == |cues| && attempts[i].cueID == cues[i].id
    ensures cues[i].id in CompletedIDs(request.speech.completedAttempts) ==> attempts[i] in request.speech.completedAttempts
  {
    hide CompletedIDs, Remaining, Running, PaidFits;
    var n := |cues| - 1;
    if i < n {
      AttemptsFollowTheCues(request, cues[..n], attempts[..n], i);
    }
  }

  /** What the providers report to have been paid for the cues that were not already completed. */
  function Spent(request: Request, cues: seq<Cue>, attempts: seq<Attempt>): int
    requires |cues| == |attempts|
  {
    if cues == [] then 0
    else
      var n := |cues| - 1;
      Spent(request, cues[..n], attempts[..n])
      + (if cues[n].id in CompletedIDs(request.speech.completedAttempts) || attempts[n].cost.actual.None? then 0
         else attempts[n].cost.actual.value as int)
  }

  /** Each cue that was not completed before adds what its provider reports. */
  lemma SpendingAddsUp(request: Request, attempts: seq<Attempt>, i: nat)
    requires i < |request.cues| == |attempts|
    ensures Spent(request, [], []) == 0
    ensures Spent(request, request.cues[..i + 1], attempts[..i + 1]) == Spent(request, request.cues[..i], attempts[..i])
      + (match attempts[i].cost.actual
         case None => 0
         case Some(actual) =>
           if exists k :: 0 <= k < |request.speech.completedAttempts|
                && request.speech.completedAttempts[k].cueID == request.cues[i].id then 0 else actual as int)
  {
    assert request.cues[..i + 1][..i] == request.cues[..i] && attempts[..i + 1][..i] == attempts[..i];
  }

  lemma {:induction false} SpendingFitsTheShares(request: Request, cues: seq<Cue>, attempts: seq<Attempt>)
    requires request.speech.budgetMaximumMicros >= 0 && Fits(request, cues, attempts)
    ensures var n := if PaidCount(request) <= 0 then 1 else PaidCount(request);
      0 <= Spent(request, cues, attempts)
        <= ShareTotal(request.speech.budgetMaximumMicros as int, n,
                      |Remaining(cues, CompletedIDs(request.speech.completedAttempts))|)
    decreases |cues|
  {
    hide CompletedIDs, Running, Share;
    if cues != [] {
      var i := |cues| - 1;
      var ids := CompletedIDs(request.speech.completedAttempts);
      SpendingFitsTheShares(request, cues[..i], attempts[..i]);
      assert cues[..i + 1] == cues;
      RemainingOneMore(cues, ids, i);
      if cues[i].id !in ids {
        ActualFitsTheShare(request, cues[i], |Remaining(cues[..i], ids)|, attempts[i], Running(request, cues, attempts));
      }
    }
  }

  lemma ActualFitsTheShare(request: Request, cue: Cue, k: nat, attempt: Attempt, running: int64)
    requires request.speech.budgetMaximumMicros >= 0 && PaidFits(request, cue, k, attempt, running)
    ensures attempt.cost.actual.Some? ==> 0 <= attempt.cost.actual.value as int <= BudgetOf(request, k)
  {
    hide CueCeiling;
  }

  /** Up to every cue, what was paid stays within what was allocated so far, and that within the approved maximum. */
  lemma {:induction false} SpendingStaysApproved(request: Request, attempts: seq<Attempt>, i: nat)
    requires request.speech.budgetMaximumMicros >= 0
    requires Covered(request) && Fits(request, request.cues, attempts) && i <= |request.cues|
    ensures |attempts| == |request.cues|
    ensures 0 <= Spent(request, request.cues[..i], attempts[..i]) <= request.speech.budgetMaximumMicros as int
  {
    var ids := CompletedIDs(request.speech.completedAttempts);
    var n := if PaidCount(request) <= 0 then 1 else PaidCount(request);
    var k := |Remaining(request.cues[..i], ids)|;
    PrefixesFit(request, request.cues, attempts, i);
    hide Fits, Spent, Running;
    SpendingFitsTheShares(request, request.cues[..i], attempts[..i]);
    RemainingGrows(request.cues, ids, i);
    RemainingIsPaidCount(request);
    hide Covered, Remaining, CompletedIDs;
    SharesSplitTheMaximum(request.speech.budgetMaximumMicros as int, n, 0, k);
  }

  lemma RemainingIsPaidCount(request: Request)
    requires Covered(request)
    ensures |Remaining(request.cues, CompletedIDs(request.speech.completedAttempts))| == PaidCount(request)
  {
    if request.speech.batch.None? {
      assert CompletedIDs(request.speech.completedAttempts) == {};
      NoneCompleted(request.cues);
    }
  }

  lemma {:induction false} PrefixesFit(request: Request, cues: seq<Cue>, attempts: seq<Attempt>, i: nat)
    requires request.speech.budgetMaximumMicros >= 0 && Fits(request, cues, attempts) && i <= |cues|
    ensures |attempts| == |cues| && Fits(request, cues[..i], attempts[..i])
    decreases |cues|
  {
    hide CompletedIDs, Remaining, Running, PaidFits;
    if i == |cues| {
      assert cues[..i] == cues && attempts[..i] == attempts;
    } else {
      var n := |cues| - 1;
      PrefixesFit(request, cues[..n], attempts[..n], i);
      assert cues[..n][..i] == cues[..i] && attempts[..n][..i] == attempts[..i];
    }
  }

  function Allocated(log: seq<Event>): int {
    if log == [] then 0
    else Allocated(log[..|log| - 1]) + (if log[|log| - 1].Submitted? then log[|log| - 1].budget else 0)
  }

  lemma {:induction false} AllocatedSplits(a: seq<Event>, b: seq<Event>)
    ensures Allocated(a + b) == Allocated(a) + Allocated(b)
  {
    if b == [] {
      assert a + b == a;
    } else {
      assert (a + b)[..|a + b| - 1] == a + b[..|b| - 1];
      AllocatedSplits(a, b[..|b| - 1]);
    }
  }

  lemma {:induction false} SubmissionsAllocate(request: Request, paid: seq<Cue>)
    requires request.speech.budgetMaximumMicros >= 0
    ensures var n := if PaidCount(request) <= 0 then 1 else PaidCount(request);
      Allocated(Submissions(request, paid)) == ShareTotal(request.speech.budgetMaximumMicros as int, n, |paid|)
    decreases |paid|
  {
    hide Share, ShareTotal, BudgetOf;
    var parts := if PaidCount(request) <= 0 then 1 else PaidCount(request);
    NothingShared(request.speech.budgetMaximumMicros as int, parts);
    if paid != [] {
      var n := |paid| - 1;
      SharedOneMore(request, n);
      var authorization := if request.authorizes then [Authorized(paid[n].id)] else [];
      var submission := [Submitted(paid[n].id, BudgetOf(request, n))];
      SubmissionsAllocate(request, paid[..n]);
      AllocatedSplits(Submissions(request, paid[..n]) + authorization, submission);
      AllocatedSplits(Submissions(request, paid[..n]), authorization);
      assert Allocated(authorization) == 0 && Allocated(submission) == BudgetOf(request, n);
    }
  }

  lemma NothingShared(maximum: nat, n: nat)
    requires n > 0
    ensures ShareTotal(maximum, n, 0) == 0
  {
  }

  lemma SharedOneMore(request: Request, k: nat)
    requires request.speech.budgetMaximumMicros >= 0
    ensures var n := if PaidCount(request) <= 0 then 1 else PaidCount(request);
      ShareTotal(request.speech.budgetMaximumMicros as int, n, k + 1)
        == ShareTotal(request.speech.budgetMaximumMicros as int, n, k) + BudgetOf(request, k)
  {
    hide Share;
  }

  /** A finalization that leaves any cue to be paid for allocates exactly the approved maximum. */
  lemma FinalizationAllocatesTheMaximum(request: Request)
    requires request.speech.budgetMaximumMicros >= 0 && Covered(request) && PaidCount(request) > 0
    ensures var paid := Remaining(request.cues, CompletedIDs(request.speech.completedAttempts));
      Allocated(Submissions(request, paid)) == request.speech.budgetMaximumMicros as int
  {
    hide Covered, Submissions, Remaining, CompletedIDs;
    RemainingIsPaidCount(request);
    SubmissionsAllocate(request, Remaining(request.cues, CompletedIDs(request.speech.completedAttempts)));
    SharesSplitTheMaximum(request.speech.budgetMaximumMicros as int, PaidCount(request), 0, 0);
  }

  /** However far a finalization got, every submission came right after the authorization of the same cue. */
  lemma {:induction false} SubmissionsAreAuthorized(request: Request, paid: seq<Cue>, log: seq<Event>, j: nat)
    requires request.speech.budgetMaximumMicros >= 0 && log <= Submissions(request, paid)
    requires request.authorizes && j < |log| && log[j].Submitted?
    ensures j > 0 && log[j - 1] == Authorized(log[j].cueID)
    decreases |paid|
  {
    var n := |paid| - 1;
    var before := Submissions(request, paid[..n]);
    if j < |before| {
      SubmissionsAreAuthorized(request, paid[..n], before[..j + 1], j);
      assert log[..j + 1] == before[..j + 1];
    }
  }

  /** Without a batch, a v2 request outside a subscription never finalizes any cue: its canary stops after the first. */
  lemma CanariesNeverFinalize(request: Request, attempts: seq<Attempt>)
    requires request.speech.budgetMaximumMicros >= 0 && Covered(request) && Fits(request, request.cues, attempts)
    requires request.speech.v2 && request.speech.batch.None? && !request.speech.subscription
    ensures request.cues == []
  {
    hide Running, CueCeiling, Remaining;
    assert CompletedIDs(request.speech.completedAttempts) == {};
  }
}
