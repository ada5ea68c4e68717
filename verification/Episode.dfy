/**
 The episode workflow: every shot in order, at most two creative attempts each, then post-production, then the
 final gate.

 The results of activities are unconstrained; decisions arrive in the order they are sent. The
 workflow keeps a log of what it did, and its promises are about the shape of that log.
 */
module Episode {
  import opened Wrappers
  import opened WorkflowSignals

  datatype ShotDecision = ShotDecision(decisionID: string, actorID: string, shotID: string, runID: string, approved: bool, reason: string)

  datatype Gate3Decision = Gate3Decision(decisionID: string, actorID: string, approved: bool)

  datatype ShotState = ShotState(state: string, creativeAttempt: nat, runID: string, failureCode: string)

  /** postProduction: whether the input has a post-production configuration, and whether it is enabled. */
  datatype Input = Input(valid: bool, shots: seq<string>, requireApproval: bool, postProduction: Option<bool>)

  datatype Result = Result(
    state: string,
    lockedRunIDs: seq<string>,
    failedShotID: string,
    delivery: Option<string>,
    gate3: Option<Gate3Decision>,
    shots: map<string, ShotState>)

  /** Pending: the workflow is still waiting when the decisions and controls there will ever be have run out. */
  datatype Outcome<+T> = Done(value: T) | Error | Pending

  datatype Event =
    | Created(shot: string, attempt: nat, run: string)
    | Checked(run: string, passed: bool)
    | Decided(shot: string, run: string, approved: bool)
    | Escalated(shot: string)
    | Delivered(runs: seq<string>)
    | Gate3Opened(runs: seq<string>, manifest: string)
    | Gate3Decided(approved: bool)

  // ---- The shape of the log ----

  /** One creative attempt that passed quality control and, when required, its Q1 review. */
  predicate AcceptedTry(log: seq<Event>, shot: string, attempt: nat, run: string, approval: bool) {
    log == [Created(shot, attempt, run), Checked(run, true)] + (if approval then [Decided(shot, run, true)] else [])
  }

  /** One creative attempt that failed quality control or was rejected. */
  predicate FailedTry(log: seq<Event>, shot: string, attempt: nat, approval: bool) {
    && |log| >= 2 && log[0].Created?
    && var run := log[0].run;
    (|| log == [Created(shot, attempt, run), Checked(run, false)]
     || (approval && log == [Created(shot, attempt, run), Checked(run, true), Decided(shot, run, false)]))
  }

  /** A shot accepted at its first or its second attempt. */
  ghost predicate AcceptedShot(log: seq<Event>, shot: string, run: string, approval: bool) {
    || AcceptedTry(log, shot, 1, run, approval)
    || exists k :: 0 <= k <= |log| && FailedTry(log[..k], shot, 1, approval) && AcceptedTry(log[k..], shot, 2, run, approval)
  }

  /** A shot given up after two attempts, and handed to a person. */
  ghost predicate GivenUp(log: seq<Event>, shot: string, approval: bool) {
    exists k :: 0 <= k < |log| && FailedTry(log[..k], shot, 1, approval)
      && FailedTry(log[k..|log| - 1], shot, 2, approval) && log[|log| - 1] == Escalated(shot)
  }

  /** These shots, in this order, each accepted with its run. */
  ghost predicate Production(log: seq<Event>, shots: seq<string>, runs: seq<string>, approval: bool)
    decreases |shots|
  {
    && |runs| == |shots|
    && if shots == [] then log == []
       else
         var n := |shots| - 1;
         exists k :: 0 <= k <= |log| && Production(log[..k], shots[..n], runs[..n], approval)
           && AcceptedShot(log[k..], shots[n], runs[n], approval)
  }

  /** Everything up to the opening of the final gate. */
  ghost predicate ReadyForGate3(log: seq<Event>, input: Input, runs: seq<string>) {
    if input.postProduction == Some(true) then
      && log != [] && log[|log| - 1] == Delivered(runs)
      && Production(log[..|log| - 1], input.shots, runs, input.requireApproval)
    else Production(log, input.shots, runs, input.requireApproval)
  }

  predicate Opens(log: seq<Event>) {
    exists e :: e in log && e.Gate3Opened?
  }

  lemma ProductionExtends(log: seq<Event>, tail: seq<Event>, shots: seq<string>, runs: seq<string>, run: string, k: nat, approval: bool)
    requires k < |shots| && Production(log, shots[..k], runs, approval) && AcceptedShot(tail, shots[k], run, approval)
    ensures Production(log + tail, shots[..k + 1], runs + [run], approval)
  {
    var more, others := shots[..k + 1], runs + [run];
    assert more[..k] == shots[..k] && others[..k] == runs && more[k] == shots[k];
    assert (log + tail)[..|log|] == log && (log + tail)[|log|..] == tail;
  }

  lemma FirstTryAccepted(log: seq<Event>, shot: string, run: string, approval: bool)
    requires AcceptedTry(log, shot, 1, run, approval)
    ensures AcceptedShot(log, shot, run, approval)
  {
  }

  lemma SecondTryAccepted(first: seq<Event>, second: seq<Event>, shot: string, run: string, approval: bool)
    requires FailedTry(first, shot, 1, approval) && AcceptedTry(second, shot, 2, run, approval)
    ensures AcceptedShot(first + second, shot, run, approval)
  {
    var log := first + second;
    assert log[..|first|] == first && log[|first|..] == second;
  }

  lemma SecondTryGivenUp(first: seq<Event>, second: seq<Event>, shot: string, approval: bool)
    requires FailedTry(first, shot, 1, approval) && FailedTry(second, shot, 2, approval)
    ensures GivenUp(first + second + [Escalated(shot)], shot, approval)
  {
    var log := first + second + [Escalated(shot)];
    assert log[..|first|] == first && log[|first|..|log| - 1] == second;
  }

  /** The shown states of the shots with runs are approvals of those runs. */
  ghost predicate StatesShow(ids: seq<string>, states: map<string, ShotState>, runs: seq<string>) {
    && |runs| <= |ids|
    && forall i :: 0 <= i < |runs| ==>
         ids[i] in states && states[ids[i]].state == "APPROVED" && states[ids[i]].runID == runs[i]
  }

  /** The shots from the k-th on have not been touched. */
  ghost predicate ReadyFrom(ids: seq<string>, states: map<string, ShotState>, k: nat) {
    forall i :: k <= i < |ids| ==> ids[i] in states && states[ids[i]] == ShotState("READY", 0, "", "")
  }

  /** The accepted shots are exactly those before the failed one, and no later shot was touched. */
  ghost predicate Intervened(log: seq<Event>, input: Input, r: Result) {
    var k := |r.lockedRunIDs|;
    && k < |input.shots| && r.failedShotID == input.shots[k]
    && (exists n :: 0 <= n <= |log| && Production(log[..n], input.shots[..k], r.lockedRunIDs, input.requireApproval)
                 && GivenUp(log[n..], input.shots[k], input.requireApproval))
    && StatesShow(input.shots, r.shots, r.lockedRunIDs)
    && input.shots[k] in r.shots && r.shots[input.shots[k]].state in {"AUTO_QC_FAILED", "Q1_REJECTED"}
    && ReadyFrom(input.shots, r.shots, k + 1)
  }

  /** The whole episode was produced, delivered if asked for, reviewed and decided, in this order. */
  ghost predicate Closed(log: seq<Event>, input: Input, r: Result, approved: bool) {
    && |log| >= 2 && log[|log| - 1] == Gate3Decided(approved)
    && log[|log| - 2] == Gate3Opened(r.lockedRunIDs, if r.delivery.Some? then r.delivery.value else "")
    && (r.delivery.Some? <==> input.postProduction == Some(true))
    && ReadyForGate3(log[..|log| - 2], input, r.lockedRunIDs)
    && r.gate3.Some? && r.gate3.value.approved == approved
    && |r.lockedRunIDs| == |input.shots| && StatesShow(input.shots, r.shots, r.lockedRunIDs)
  }

  /** No gate opens before everything is ready for it. */
  ghost predicate GatesReady(log: seq<Event>, input: Input) {
    forall i :: 0 <= i < |log| && log[i].Gate3Opened? ==> ReadyForGate3(log[..i], input, log[i].runs)
  }

  /** What every ending promises, and no ending has any other state. */
  ghost predicate Promised(log: seq<Event>, input: Input, r: Outcome<Result>) {
    && GatesReady(log, input)
    && (r.Done? ==>
          || (r.value.state == "NEEDS_INTERVENTION" && Intervened(log, input, r.value))
          || (r.value.state == "LOCKED" && Closed(log, input, r.value, true))
          || (r.value.state == "G3_REJECTED" && Closed(log, input, r.value, false)))
  }

  lemma NoGateIsReady(log: seq<Event>, input: Input)
    requires !Opens(log)
    ensures GatesReady(log, input)
  {
    forall i | 0 <= i < |log| ensures !log[i].Gate3Opened? {
      assert log[i] in log;
    }
  }

  /** Approving the next shot under its run. */
  lemma ApprovalShows(ids: seq<string>, states: map<string, ShotState>, runs: seq<string>, run: string, states': map<string, ShotState>)
    requires Distinct(ids) && |runs| < |ids| && StatesShow(ids, states, runs) && ReadyFrom(ids, states, |runs|)
    requires var id := ids[|runs|];
      id in states' && states' == states[id := states'[id]] && states'[id].state == "APPROVED" && states'[id].runID == run
    ensures StatesShow(ids, states', runs + [run]) && ReadyFrom(ids, states', |runs| + 1)
  {
  }

  lemma GivingUpIntervenes(log: seq<Event>, tail: seq<Event>, input: Input, states: map<string, ShotState>, runs: seq<string>,
                           states': map<string, ShotState>)
    requires Distinct(input.shots) && |runs| < |input.shots|
    requires StatesShow(input.shots, states, runs) && ReadyFrom(input.shots, states, |runs|)
    requires var id := input.shots[|runs|];
      id in states' && states' == states[id := states'[id]] && states'[id].state in {"AUTO_QC_FAILED", "Q1_REJECTED"}
    requires Production(log, input.shots[..|runs|], runs, input.requireApproval)
    requires GivenUp(tail, input.shots[|runs|], input.requireApproval)
    ensures Intervened(log + tail, input, Result("NEEDS_INTERVENTION", runs, input.shots[|runs|], None, None, states'))
  {
    hide Production, GivenUp;
    assert (log + tail)[..|log|] == log && (log + tail)[|log|..] == tail;
  }

  /** Delivering when asked to, and opening the gate, with nothing in between. */
  lemma OpeningIsReady(produced: seq<Event>, input: Input, runs: seq<string>, manifest: string)
    requires !Opens(produced) && Production(produced, input.shots, runs, input.requireApproval)
    ensures var ready := produced + (if input.postProduction == Some(true) then [Delivered(runs)] else []);
      && GatesReady(ready, input) && ReadyForGate3(ready, input, runs)
      && GatesReady(ready + [Gate3Opened(runs, manifest)], input)
      && forall approved :: GatesReady(ready + [Gate3Opened(runs, manifest)] + [Gate3Decided(approved)], input)
  {
    var ready := produced + (if input.postProduction == Some(true) then [Delivered(runs)] else []);
    if input.postProduction == Some(true) {
      assert ready[..|ready| - 1] == produced;
    } else {
      assert ready == produced;
    }
    hide Production;
    OpensSplits(produced, [Delivered(runs)]);
    GatingIsReady(ready, input, runs, manifest);
  }

  lemma GatingIsReady(ready: seq<Event>, input: Input, runs: seq<string>, manifest: string)
    requires !Opens(ready) && ReadyForGate3(ready, input, runs)
    ensures GatesReady(ready, input) && GatesReady(ready + [Gate3Opened(runs, manifest)], input)
    ensures forall approved :: GatesReady(ready + [Gate3Opened(runs, manifest)] + [Gate3Decided(approved)], input)
  {
    NoGateIsReady(ready, input);
    hide ReadyForGate3;
    var gated := ready + [Gate3Opened(runs, manifest)];
    assert forall i :: 0 <= i < |ready| ==> ready[i] in ready;
    assert gated[..|ready|] == ready;
    forall approved ensures GatesReady(gated + [Gate3Decided(approved)], input) {
      var log := gated + [Gate3Decided(approved)];
      assert log[..|ready|] == ready;
      forall i | 0 <= i < |log| && log[i].Gate3Opened? ensures ReadyForGate3(log[..i], input, log[i].runs) {
        assert i == |ready|;
      }
    }
  }

  // ---- What the shape means ----

  function Attempts(log: seq<Event>, shot: string): nat {
    if log == [] then 0
    else Attempts(log[..|log| - 1], shot) + (if log[|log| - 1].Created? && log[|log| - 1].shot == shot then 1 else 0)
  }

  lemma {:induction false} AttemptsSplit(a: seq<Event>, b: seq<Event>, shot: string)
    ensures Attempts(a + b, shot) == Attempts(a, shot) + Attempts(b, shot)
  {
    if b == [] {
      assert a + b == a;
    } else {
      assert (a + b)[..|a + b| - 1] == a + b[..|b| - 1];
      AttemptsSplit(a, b[..|b| - 1], shot);
    }
  }

  /** The run passed quality control and, when required, its Q1 review approved exactly this shot and run. */
  predicate Earned(log: seq<Event>, shot: string, run: string, approval: bool) {
    && (Created(shot, 1, run) in log || Created(shot, 2, run) in log)
    && Checked(run, true) in log
    && (approval ==> Decided(shot, run, true) in log)
  }

  lemma TriesCount(log: seq<Event>, shot: string, attempt: nat, run: string, approval: bool, other: string)
    requires AcceptedTry(log, shot, attempt, run, approval) || FailedTry(log, shot, attempt, approval)
    ensures Attempts(log, other) == if other == shot then 1 else 0
  {
    var head, tail := [log[0]], log[1..];
    assert log == head + tail;
    AttemptsSplit(head, tail, other);
    assert tail == tail[..1] + tail[1..];
    AttemptsSplit(tail[..1], tail[1..], other);
    assert Attempts(tail[..1], other) == 0;
    assert Attempts(tail[1..], other) == 0;
    assert head[..0] == [];
  }

  lemma AcceptedShotsCount(log: seq<Event>, shot: string, run: string, approval: bool, other: string)
    requires AcceptedShot(log, shot, run, approval)
    ensures Earned(log, shot, run, approval)
    ensures if other == shot then 1 <= Attempts(log, other) <= 2 else Attempts(log, other) == 0
  {
    if AcceptedTry(log, shot, 1, run, approval) {
      AcceptedTriesEarn(log, shot, 1, run, approval);
      TriesCount(log, shot, 1, run, approval, other);
    } else {
      var k :| 0 <= k <= |log| && FailedTry(log[..k], shot, 1, approval) && AcceptedTry(log[k..], shot, 2, run, approval);
      hide AcceptedTry, FailedTry;
      assert log == log[..k] + log[k..];
      AttemptsSplit(log[..k], log[k..], other);
      TriesCount(log[..k], shot, 1, run, approval, other);
      TriesCount(log[k..], shot, 2, run, approval, other);
      AcceptedTriesEarn(log[k..], shot, 2, run, approval);
      EarnedExtends(log[..k], log[k..], shot, run, approval);
    }
  }

  lemma AcceptedTriesEarn(log: seq<Event>, shot: string, attempt: nat, run: string, approval: bool)
    requires AcceptedTry(log, shot, attempt, run, approval) && attempt in {1, 2}
    ensures Earned(log, shot, run, approval)
  {
    assert log[0] == Created(shot, attempt, run) && log[1] == Checked(run, true);
    assert approval ==> log[2] == Decided(shot, run, true);
  }

  lemma EarnedExtends(a: seq<Event>, b: seq<Event>, shot: string, run: string, approval: bool)
    ensures Earned(a, shot, run, approval) || Earned(b, shot, run, approval) ==> Earned(a + b, shot, run, approval)
  {
    assert forall e :: e in a + b <==> e in a || e in b;
  }

  lemma NothingProduced(log: seq<Event>, runs: seq<string>, approval: bool)
    requires Production(log, [], runs, approval)
    ensures log == []
  {
  }

  /** Where the last shot's part of the log begins. */
  lemma LastShotsPart(log: seq<Event>, shots: seq<string>, runs: seq<string>, approval: bool) returns (k: nat)
    requires Production(log, shots, runs, approval) && shots != []
    ensures var n := |shots| - 1;
      && k <= |log| && |runs| == |shots|
      && Production(log[..k], shots[..n], runs[..n], approval) && AcceptedShot(log[k..], shots[n], runs[n], approval)
  {
    var n := |shots| - 1;
    k :| 0 <= k <= |log| && Production(log[..k], shots[..n], runs[..n], approval)
      && AcceptedShot(log[k..], shots[n], runs[n], approval);
  }

  /** A produced episode has an earned run for every shot, in shot order. */
  lemma {:induction false} ProductionEarns(log: seq<Event>, shots: seq<string>, runs: seq<string>, approval: bool, i: nat)
    requires Production(log, shots, runs, approval) && i < |shots|
    ensures |runs| == |shots| && Earned(log, shots[i], runs[i], approval)
    decreases |shots|
  {
    hide Production, AcceptedShot, Earned;
    var n := |shots| - 1;
    var k := LastShotsPart(log, shots, runs, approval);
    if i < n {
      ProductionEarns(log[..k], shots[..n], runs[..n], approval, i);
    } else {
      AcceptedShotsCount(log[k..], shots[n], runs[n], approval, "");
    }
    EarnedExtends(log[..k], log[k..], shots[i], runs[i], approval);
    assert log == log[..k] + log[k..];
  }

  lemma LastIsDistinct(shots: seq<string>, shot: string)
    requires Distinct(shots) && shots != []
    ensures var n := |shots| - 1;
      && Distinct(shots[..n]) && shots[n] !in shots[..n]
      && (shot in shots <==> shot in shots[..n] || shot == shots[n])
  {
    assert shots == shots[..|shots| - 1] + [shots[|shots| - 1]];
  }

  /** Its shots took one or two creative attempts each, and no other shot took any. */
  lemma {:induction false} ProductionCounts(log: seq<Event>, shots: seq<string>, runs: seq<string>, approval: bool, shot: string)
    requires Production(log, shots, runs, approval) && Distinct(shots)
    ensures if shot in shots then 1 <= Attempts(log, shot) <= 2 else Attempts(log, shot) == 0
    decreases |shots|
  {
    hide Production, AcceptedShot, Earned, Attempts, Distinct;
    if shots == [] {
      NothingProduced(log, runs, approval);
      NothingCreated(log, shot);
    } else {
      var n := |shots| - 1;
      var k := LastShotsPart(log, shots, runs, approval);
      LastIsDistinct(shots, shot);
      ProductionCounts(log[..k], shots[..n], runs[..n], approval, shot);
      AcceptedShotsCount(log[k..], shots[n], runs[n], approval, shot);
      AttemptsSplit(log[..k], log[k..], shot);
      assert log == log[..k] + log[k..];
    }
  }

  /** The log of a closed episode is its production and then the closing events, delivery first if asked for. */
  lemma ClosedParts(log: seq<Event>, input: Input, r: Result, approved: bool) returns (produced: seq<Event>, closing: seq<Event>)
    requires Closed(log, input, r, approved)
    ensures log == produced + closing && Production(produced, input.shots, r.lockedRunIDs, input.requireApproval)
    ensures forall e :: e in closing ==> !e.Created?
    ensures input.postProduction == Some(true) ==> Delivered(r.lockedRunIDs) in closing
  {
    hide Production, StatesShow;
    var ready := log[..|log| - 2];
    var last := [log[|log| - 2], log[|log| - 1]];
    if input.postProduction == Some(true) {
      produced, closing := ready[..|ready| - 1], [Delivered(r.lockedRunIDs)] + last;
    } else {
      produced, closing := ready, last;
    }
    hide *;
    assert log == ready + last;
    if input.postProduction == Some(true) {
      assert ready[|ready| - 1] == Delivered(r.lockedRunIDs);
      assert ready == produced + [Delivered(r.lockedRunIDs)];
    }
  }

  /** A locked episode: an earned run for every shot in input order, within two attempts each, delivered if asked for. */
  lemma LockedEpisodesAreEarned(log: seq<Event>, input: Input, r: Result, i: nat)
    requires Promised(log, input, Done(r)) && r.state == "LOCKED" && Distinct(input.shots) && i < |input.shots|
    ensures |r.lockedRunIDs| == |input.shots| && Earned(log, input.shots[i], r.lockedRunIDs[i], input.requireApproval)
    ensures 1 <= Attempts(log, input.shots[i]) <= 2
    ensures input.postProduction == Some(true) ==> Delivered(r.lockedRunIDs) in log
  {
    hide Production, Earned, Intervened, GatesReady, StatesShow, Attempts, Closed;
    var produced, closing := ClosedParts(log, input, r, true);
    ProductionEarns(produced, input.shots, r.lockedRunIDs, input.requireApproval, i);
    ProductionCounts(produced, input.shots, r.lockedRunIDs, input.requireApproval, input.shots[i]);
    AttemptsSplit(produced, closing, input.shots[i]);
    NothingCreated(closing, input.shots[i]);
    EarnedExtends(produced, closing, input.shots[i], r.lockedRunIDs[i], input.requireApproval);
  }

  lemma {:induction false} NothingCreated(log: seq<Event>, shot: string)
    requires forall e :: e in log ==> !e.Created?
    ensures Attempts(log, shot) == 0
  {
    if log != [] {
      assert log[|log| - 1] in log;
      NothingCreated(log[..|log| - 1], shot);
    }
  }

  // ---- The workflow ----

  /** A complete decision on this run of this shot. */
  predicate Decides(decision: ShotDecision, shotID: string, runID: string) {
    decision.decisionID != "" && decision.actorID != "" && decision.shotID == shotID && decision.runID == runID
  }

  predicate DecidesGate(decision: Gate3Decision) {
    decision.decisionID != "" && decision.actorID != ""
  }

  /** Every decision in the log was sent, complete and on that run of that shot. */
  ghost predicate Sent(log: seq<Event>, decisions: seq<ShotDecision>, gates: seq<Gate3Decision>) {
    forall e :: e in log ==>
      && (e.Decided? ==> exists d :: d in decisions && Decides(d, e.shot, e.run) && d.approved == e.approved)
      && (e.Gate3Decided? ==> exists d :: d in gates && DecidesGate(d) && d.approved == e.approved)
  }

  predicate Shrinks<T(==)>(before: seq<T>, after: seq<T>) {
    forall x :: x in after ==> x in before
  }

  lemma SentSplits(a: seq<Event>, b: seq<Event>, decisions: seq<ShotDecision>, gates: seq<Gate3Decision>)
    requires Sent(a, decisions, gates)
    ensures Sent(a + b, decisions, gates) <==> Sent(b, decisions, gates)
  {
    assert forall e :: e in b ==> e in a + b;
  }

  lemma SentAmongMore(log: seq<Event>, few: seq<ShotDecision>, decisions: seq<ShotDecision>, gates: seq<Gate3Decision>)
    requires Sent(log, few, []) && Shrinks(decisions, few)
    ensures Sent(log, decisions, gates)
  {
  }

  lemma ShrinksReflexively<T>(s: seq<T>)
    ensures Shrinks(s, s)
  {
  }

  lemma ShrinksOnward<T>(a: seq<T>, b: seq<T>, c: seq<T>)
    requires Shrinks(a, b) && Shrinks(b, c)
    ensures Shrinks(a, c)
  {
  }

  /** These events need no decision and open no gate. */
  lemma NothingDecided(tail: seq<Event>, decisions: seq<ShotDecision>, gates: seq<Gate3Decision>)
    requires forall i :: 0 <= i < |tail| ==> !tail[i].Decided? && !tail[i].Gate3Decided? && !tail[i].Gate3Opened?
    ensures Sent(tail, decisions, gates) && !Opens(tail)
  {
  }

  lemma DecidedTry(shotID: string, attempt: nat, run: string, decision: ShotDecision, decisions: seq<ShotDecision>)
    requires decision in decisions && Decides(decision, shotID, run)
    ensures var tail := [Created(shotID, attempt, run), Checked(run, true), Decided(shotID, run, decision.approved)];
      !Opens(tail) && Sent(tail, decisions, [])
  {
  }

  lemma SentGates(log: seq<Event>, decisions: seq<ShotDecision>, gates: seq<Gate3Decision>, gate: Gate3Decision, opening: Event)
    requires Sent(log, decisions, gates) && opening.Gate3Opened?
    ensures Opens(log + [opening]) && Sent(log + [opening], decisions, gates)
    ensures gate in gates && DecidesGate(gate) ==> Sent(log + [opening] + [Gate3Decided(gate.approved)], decisions, gates)
  {
    assert opening in log + [opening];
  }

  class EpisodeWorkflow {
    const input: Input
    const signals: Signals
    var shots: map<string, ShotState>
    var shotDecisions: seq<ShotDecision>
    var gate3Decisions: seq<Gate3Decision>
    ghost var log: seq<Event>
    ghost var failed: bool

    constructor (input: Input, signals: Signals, shotDecisions: seq<ShotDecision>, gate3Decisions: seq<Gate3Decision>)
      ensures this.input == input && this.signals == signals && log == [] && !failed
      ensures this.shotDecisions == shotDecisions && this.gate3Decisions == gate3Decisions
    {
      this.input, this.signals := input, signals;
      this.shotDecisions, this.gate3Decisions := shotDecisions, gate3Decisions;
      shots, log, failed := map[], [], false;
    }

    /** Nobody will ever end the pause. */
    ghost predicate StuckInPause()
      reads signals
    {
      signals.controls == [] && signals.paused && !signals.cancelled
    }

    /** Nobody will ever end the pause, or decide on a shot. */
    ghost predicate StuckInShots()
      reads this, signals
    {
      StuckInPause() || (signals.controls == [] && input.requireApproval && shotDecisions == [])
    }

    /** No pause is known of, or the workflow was cancelled and its pauses no longer hold it. */
    ghost predicate Awake()
      reads signals
    {
      !signals.paused || signals.cancelled
    }

    lemma PausesStopShots()
      ensures StuckInPause() ==> StuckInShots()
    {
    }

    // The activities. None starts under a known pause; each may fail for good, and what it does otherwise is in the log.

    method ValidateBatch() returns (ok: bool)
      requires Awake()
      modifies this`failed
      ensures failed == (old(failed) || !ok)
    {
      ok := *;
      failed := failed || !ok;
    }

    method CompilePrompt() returns (ok: bool)
      requires Awake()
      modifies this`failed
      ensures failed == (old(failed) || !ok)
    {
      ok := *;
      failed := failed || !ok;
    }

    method CreateRun(shotID: string, attempt: nat) returns (r: Wrappers.Result<string, ()>)
      requires Awake()
      modifies this`failed, this`log
      ensures failed == (old(failed) || r.Err?)
      ensures log == old(log) + (if r.Ok? then [Created(shotID, attempt, r.value)] else [])
    {
      r := *;
      failed := failed || r.Err?;
      log := log + (if r.Ok? then [Created(shotID, attempt, r.value)] else []);
    }

    method ExecuteProviderJob() returns (r: Wrappers.Result<(), ()>)
      requires Awake()
      modifies this`failed
      ensures failed == (old(failed) || r.Err?)
    {
      r := *;
      failed := failed || r.Err?;
    }

    method RunAutomaticQC(run: string) returns (r: Wrappers.Result<(bool, string), ()>)
      requires Awake()
      modifies this`failed, this`log
      ensures failed == (old(failed) || r.Err?)
      ensures log == old(log) + (if r.Ok? then [Checked(run, r.value.0)] else [])
    {
      r := *;
      failed := failed || r.Err?;
      log := log + (if r.Ok? then [Checked(run, r.value.0)] else []);
    }

    method CreateShotReview() returns (ok: bool)
      requires Awake()
      modifies this`failed
      ensures failed == (old(failed) || !ok)
    {
      ok := *;
      failed := failed || !ok;
    }

    method EscalateShot(shotID: string) returns (ok: bool)
      requires Awake()
      modifies this`failed, this`log
      ensures failed == (old(failed) || !ok)
      ensures log == old(log) + (if ok then [Escalated(shotID)] else [])
    {
      ok := *;
      failed := failed || !ok;
      log := log + (if ok then [Escalated(shotID)] else []);
    }

    method FinalizeEpisode(runs: seq<string>) returns (r: Wrappers.Result<string, ()>)
      requires Awake()
      modifies this`failed, this`log
      ensures failed == (old(failed) || r.Err?)
      ensures log == old(log) + (if r.Ok? then [Delivered(runs)] else [])
    {
      r := *;
      failed := failed || r.Err?;
      log := log + (if r.Ok? then [Delivered(runs)] else []);
    }

    method CreateGate3(runs: seq<string>, manifest: string) returns (ok: bool)
      requires Awake()
      modifies this`failed, this`log
      ensures failed == (old(failed) || !ok)
      ensures log == old(log) + (if ok then [Gate3Opened(runs, manifest)] else [])
    {
      ok := *;
      failed := failed || !ok;
      log := log + (if ok then [Gate3Opened(runs, manifest)] else []);
    }

    /** Waits out a pause; blocked says that nobody will ever end it. */
    method Resume() returns (blocked: bool)
      modifies signals
      ensures !blocked ==> Awake()
      ensures blocked ==> StuckInPause()
      ensures old(signals.cancelled) ==> signals.cancelled
      ensures |signals.controls| <= |old(signals.controls)|
    {
      var _, stuck, _ := signals.WaitForResume();
      blocked := stuck;
    }

    /**
     Takes the next decision, or the next control, whichever is there. skipped are the decisions it passed over: only
     a cancelled workflow, which stays paused, loses one that decides. Pending says that nothing more will come.
     */
    method WaitForShotDecision(shotID: string, runID: string) returns (r: Outcome<ShotDecision>, ghost skipped: seq<ShotDecision>)
      requires signals as object != this
      modifies this`shotDecisions, signals
      ensures !r.Error?
      ensures r.Done? ==> Decides(r.value, shotID, runID) && !signals.paused
      ensures r.Done? ==> old(shotDecisions) == skipped + [r.value] + shotDecisions
      ensures r.Pending? ==> old(shotDecisions) == skipped + shotDecisions
      ensures r.Pending? ==> signals.controls == [] && (shotDecisions == [] || (signals.paused && !signals.cancelled))
      ensures !signals.cancelled ==> forall decision :: decision in skipped ==> !Decides(decision, shotID, runID)
    {
      skipped := [];
      while true
        invariant old(shotDecisions) == skipped + shotDecisions
        invariant !signals.cancelled ==> forall decision :: decision in skipped ==> !Decides(decision, shotID, runID)
        decreases |shotDecisions| + |signals.controls|
      {
        var blocked := Resume();
        if blocked {
          return Pending, skipped;
        }
        var decision := ShotDecision("", "", "", "", false, "");
        ghost var taken := [];
        var decided: bool := *;
        if shotDecisions != [] && (decided || signals.controls == []) {
          decision := shotDecisions[0];
          shotDecisions := shotDecisions[1..];
          taken := [decision];
        } else if signals.controls != [] {
          signals.Receive();
        } else {
          return Pending, skipped;
        }
        if !signals.paused && decision.decisionID != "" && decision.actorID != ""
           && decision.shotID == shotID && decision.runID == runID {
          return Done(decision), skipped;
        }
        skipped := skipped + taken;
      }
    }

    /** Takes the first decision that decides, as for a shot. */
    method WaitForGate3Decision() returns (r: Outcome<Gate3Decision>, ghost skipped: seq<Gate3Decision>)
      requires signals as object != this
      modifies this`gate3Decisions, signals
      ensures !r.Error?
      ensures r.Done? ==> DecidesGate(r.value) && !signals.paused
      ensures r.Done? ==> old(gate3Decisions) == skipped + [r.value] + gate3Decisions
      ensures r.Pending? ==> old(gate3Decisions) == skipped + gate3Decisions
      ensures r.Pending? ==> signals.controls == [] && (gate3Decisions == [] || (signals.paused && !signals.cancelled))
      ensures !signals.cancelled ==> forall decision :: decision in skipped ==> !DecidesGate(decision)
    {
      skipped := [];
      while true
        invariant old(gate3Decisions) == skipped + gate3Decisions
        invariant !signals.cancelled ==> forall decision :: decision in skipped ==> !DecidesGate(decision)
        decreases |gate3Decisions| + |signals.controls|
      {
        var blocked := Resume();
        if blocked {
          return Pending, skipped;
        }
        var decision := Gate3Decision("", "", false);
        ghost var taken := [];
        var decided: bool := *;
        if gate3Decisions != [] && (decided || signals.controls == []) {
          decision := gate3Decisions[0];
          gate3Decisions := gate3Decisions[1..];
          taken := [decision];
        } else if signals.controls != [] {
          signals.Receive();
        } else {
          return Pending, skipped;
        }
        if !signals.paused && decision.decisionID != "" && decision.actorID != "" {
          return Done(decision), skipped;
        }
        skipped := skipped + taken;
      }
    }

    /** Shows the shot's new state; nothing else has changed since shots were before. */
    method Show(shotID: string, shot: ShotState, ghost before: map<string, ShotState>)
      requires shots == before || (shotID in shots && shots == before[shotID := shots[shotID]])
      modifies this`shots
      ensures shots == before[shotID := shot]
    {
      shots := shots[shotID := shot];
    }

    /** One creative attempt up to its quality control: a run, its provider job, and the check. */
    method Generate(shotID: string, attempt: nat) returns (r: Outcome<bool>, run: string, ghost tail: seq<Event>)
      requires signals as object != this && !failed && Awake()
      modifies this`shots, this`log, this`failed, signals
      ensures log == old(log) + tail && !Opens(tail) && Sent(tail, [], [])
      ensures (r.Error? <==> failed) && (r.Pending? ==> StuckInPause()) && (r.Done? ==> Awake())
      ensures shotID in shots && shots == old(shots)[shotID := shots[shotID]]
      ensures r.Done? ==> tail == [Created(shotID, attempt, run), Checked(run, r.value)]
      ensures r.Done? ==> shots[shotID].runID == run && shots[shotID].state == (if r.value then "QC_PENDING" else "AUTO_QC_FAILED")
    {
      hide Opens, Sent, EpisodeWorkflow.StuckInPause;
      ghost var start, before := log, shots;
      tail, run := [], "";
      NothingDecided(tail, [], []);
      var shot := ShotState("CREATING_RUN", attempt, "", "");
      Show(shotID, shot, before);
      var created := CreateRun(shotID, attempt);
      if created.Err? {
        return Error, run, tail;
      }
      run := created.value;
      tail := [Created(shotID, attempt, run)];
      NothingDecided(tail, [], []);
      var blocked := Resume();
      if blocked {
        return Pending, run, tail;
      }
      shot := shot.(state := "RUNNING", runID := run);
      Show(shotID, shot, before);
      var generated := ExecuteProviderJob();
      if generated.Err? {
        return Error, run, tail;
      }
      var blockedAgain := Resume();
      if blockedAgain {
        return Pending, run, tail;
      }
      shot := shot.(state := "QC_PENDING");
      Show(shotID, shot, before);
      var qc := RunAutomaticQC(run);
      if qc.Err? {
        return Error, run, tail;
      }
      assert log == start + [Created(shotID, attempt, run), Checked(run, qc.value.0)];
      tail := [Created(shotID, attempt, run), Checked(run, qc.value.0)];
      NothingDecided(tail, [], []);
      var blockedOnceMore := Resume();
      if blockedOnceMore {
        return Pending, run, tail;
      }
      if !qc.value.0 {
        shot := shot.(state := "AUTO_QC_FAILED", failureCode := qc.value.1);
        Show(shotID, shot, before);
      }
      r := Done(qc.value.0);
    }

    /** One creative attempt: what it generated must pass quality control and, when required, its Q1 review. */
    method Try(shotID: string, attempt: nat) returns (r: Outcome<bool>, run: string, ghost tail: seq<Event>)
      requires signals as object != this && !failed && Awake()
      modifies this`shots, this`shotDecisions, this`log, this`failed, signals
      ensures log == old(log) + tail && !Opens(tail) && Sent(tail, old(shotDecisions), [])
      ensures Shrinks(old(shotDecisions), shotDecisions)
      ensures (r.Error? <==> failed) && (r.Pending? ==> StuckInShots()) && (r.Done? ==> Awake())
      ensures shotID in shots && shots == old(shots)[shotID := shots[shotID]]
      ensures r.Done? && r.value ==>
        && AcceptedTry(tail, shotID, attempt, run, input.requireApproval)
        && shots[shotID].state == "APPROVED" && shots[shotID].runID == run
      ensures r.Done? && !r.value ==>
        && FailedTry(tail, shotID, attempt, input.requireApproval)
        && shots[shotID].state in {"AUTO_QC_FAILED", "Q1_REJECTED"}
    {
      hide Opens, Sent;
      ghost var start, before, decisions := log, shots, shotDecisions;
      var passed;
      passed, run, tail := Generate(shotID, attempt);
      SentAmongMore(tail, [], decisions, []);
      if !passed.Done? || !passed.value {
        return passed, run, tail;
      }
      var reviewable := CreateShotReview();
      if !reviewable {
        return Error, run, tail;
      }
      var shot := shots[shotID].(state := "WAITING_Q1");
      Show(shotID, shot, before);
      if input.requireApproval {
        var decision, _ := WaitForShotDecision(shotID, run);
        if decision.Pending? {
          return Pending, run, tail;
        }
        tail := [Created(shotID, attempt, run), Checked(run, true), Decided(shotID, run, decision.value.approved)];
        log := start + tail;
        DecidedTry(shotID, attempt, run, decision.value, decisions);
        if !decision.value.approved {
          shot := shot.(state := "Q1_REJECTED", failureCode := decision.value.reason);
          Show(shotID, shot, before);
          return Done(false), run, tail;
        }
      }
      shot := shot.(state := "APPROVED");
      Show(shotID, shot, before);
      r := Done(true);
    }

    /** A shot's creative attempts, up to two. */
    method ProduceShot(shotID: string) returns (r: Outcome<bool>, run: string, ghost tail: seq<Event>)
      requires signals as object != this && !failed && Awake()
      modifies this`shots, this`shotDecisions, this`log, this`failed, signals
      ensures log == old(log) + tail && !Opens(tail) && Sent(tail, old(shotDecisions), [])
      ensures Shrinks(old(shotDecisions), shotDecisions)
      ensures (r.Error? <==> failed) && (r.Pending? ==> StuckInShots()) && (r.Done? ==> Awake())
      ensures shots == old(shots) || (shotID in shots && shots == old(shots)[shotID := shots[shotID]])
      ensures r.Done? && r.value ==>
        && AcceptedShot(tail, shotID, run, input.requireApproval)
        && shotID in shots && shots[shotID].state == "APPROVED" && shots[shotID].runID == run
      ensures r.Done? && !r.value ==>
        && GivenUp(tail, shotID, input.requireApproval)
        && shotID in shots && shots[shotID].state in {"AUTO_QC_FAILED", "Q1_REJECTED"}
    {
      hide AcceptedTry, FailedTry, AcceptedShot, GivenUp, Opens, Sent, Shrinks;
      hide EpisodeWorkflow.StuckInPause, EpisodeWorkflow.StuckInShots;
      tail := [];
      run := "";
      NothingDecided(tail, shotDecisions, []);
      ShrinksReflexively(shotDecisions);
      var prompt := CompilePrompt();
      if !prompt {
        return Error, run, tail;
      }
      var blocked := Resume();
      if blocked {
        PausesStopShots();
        return Pending, run, tail;
      }
      var creativeAttempt := 1;
      while creativeAttempt <= 2
        invariant 1 <= creativeAttempt <= 3
        invariant log == old(log) + tail && !Opens(tail) && Sent(tail, old(shotDecisions), [])
        invariant Shrinks(old(shotDecisions), shotDecisions) && !failed && Awake()
        invariant shots == old(shots) || (shotID in shots && shots == old(shots)[shotID := shots[shotID]])
        invariant creativeAttempt == 1 ==> tail == []
        invariant creativeAttempt == 2 ==> FailedTry(tail, shotID, 1, input.requireApproval)
        invariant creativeAttempt == 3 ==> GivenUp(tail + [Escalated(shotID)], shotID, input.requireApproval)
        invariant creativeAttempt > 1 ==> shotID in shots && shots[shotID].state in {"AUTO_QC_FAILED", "Q1_REJECTED"}
      {
        ghost var first, second, decisions := tail, [], shotDecisions;
        var tried;
        tried, run, second := Try(shotID, creativeAttempt);
        tail := first + second;
        SentAmongMore(second, decisions, old(shotDecisions), []);
        SentSplits(first, second, old(shotDecisions), []);
        ShrinksOnward(old(shotDecisions), decisions, shotDecisions);
        assert first == [] ==> tail == second;
        OpensSplits(first, second);
        if tried.Done? && tried.value {
          if creativeAttempt == 1 {
            FirstTryAccepted(tail, shotID, run, input.requireApproval);
          } else {
            SecondTryAccepted(first, second, shotID, run, input.requireApproval);
          }
          return Done(true), run, tail;
        }
        if !tried.Done? {
          return tried, run, tail;
        }
        if creativeAttempt == 2 {
          SecondTryGivenUp(first, second, shotID, input.requireApproval);
        }
        creativeAttempt := creativeAttempt + 1;
      }
      var escalated := EscalateShot(shotID);
      if !escalated {
        return Error, run, tail;
      }
      NothingDecided([Escalated(shotID)], old(shotDecisions), []);
      OpensSplits(tail, [Escalated(shotID)]);
      SentSplits(tail, [Escalated(shotID)], old(shotDecisions), []);
      tail := tail + [Escalated(shotID)];
      r := Done(false);
    }

    /** The shots must be there, named, and all different. */
    method ValidateInput() returns (ok: bool)
      ensures ok <==> input.valid && input.shots != [] && "" !in input.shots && Distinct(input.shots)
    {
      if !input.valid || input.shots == [] {
        return false;
      }
      var seen: set<string> := {};
      for i := 0 to |input.shots|
        invariant seen == set j | 0 <= j < i :: input.shots[j]
        invariant "" !in input.shots[..i] && Distinct(input.shots[..i])
      {
        var shotID := input.shots[i];
        assert input.shots[..i + 1] == input.shots[..i] + [shotID];
        if shotID == "" || shotID in seen {
          return false;
        }
        seen := seen + {shotID};
      }
      assert input.shots[..|input.shots|] == input.shots;
      ok := true;
    }

    method EpisodeProductionWorkflow() returns (r: Outcome<Result>)
      requires log == [] && signals as object != this && !failed && !signals.paused
      modifies this, signals
      ensures Promised(log, input, r) && Sent(log, old(shotDecisions), old(gate3Decisions))
      ensures r.Error? <==> failed || !input.valid || input.shots == [] || "" in input.shots || !Distinct(input.shots)
      ensures r.Pending? ==> StuckInShots() || (signals.controls == [] && gate3Decisions == [] && Opens(log))
      ensures r.Done? && r.value.gate3.Some? ==> r.value.gate3.value in old(gate3Decisions) && DecidesGate(r.value.gate3.value)
    {
      hide Sent, Production, ReadyFrom, StatesShow, Intervened, Closed, GatesReady, Opens, Distinct;
      ghost var decisions := shotDecisions;
      NothingDecided(log, decisions, gate3Decisions);
      NoGateIsReady(log, input);
      var wellFormed := ValidateInput();
      if !wellFormed {
        return Error;
      }
      shots := map shotID | shotID in input.shots :: ShotState("READY", 0, "", "");
      AllAreReady(input.shots, shots);
      var valid := ValidateBatch();
      if !valid {
        return Error;
      }
      var blocked := Resume();
      if blocked {
        return Pending;
      }
      var produced, lockedRunIDs := ProduceShots();
      NoGateIsReady(log, input);
      SentAmongMore(log, decisions, decisions, gate3Decisions);
      if !produced.Done? || !produced.value {
        if produced.Done? {
          r := Done(Result("NEEDS_INTERVENTION", lockedRunIDs, input.shots[|lockedRunIDs|], None, None, shots));
        } else {
          r := if produced.Error? then Error else Pending;
        }
        return;
      }
      r := Review(lockedRunIDs, decisions);
    }

    /** The shots in input order; Done(false) stops at the first one given up. */
    method ProduceShots() returns (r: Outcome<bool>, lockedRunIDs: seq<string>)
      requires log == [] && signals as object != this && Distinct(input.shots) && ReadyFrom(input.shots, shots, 0) && !failed
      requires Awake()
      modifies this`shots, this`shotDecisions, this`log, this`failed, signals
      ensures Sent(log, old(shotDecisions), [])
      ensures (r.Error? <==> failed) && (r.Pending? ==> StuckInShots()) && (r.Done? ==> Awake())
      ensures r.Done? && r.value ==>
        && |lockedRunIDs| == |input.shots| && Production(log, input.shots, lockedRunIDs, input.requireApproval)
        && StatesShow(input.shots, shots, lockedRunIDs)
      ensures r.Done? && !r.value ==>
        && |lockedRunIDs| < |input.shots|
        && Intervened(log, input, Result("NEEDS_INTERVENTION", lockedRunIDs, input.shots[|lockedRunIDs|], None, None, shots))
      ensures !Opens(log)
    {
      hide Sent, Shrinks, Production, AcceptedShot, GivenUp, Opens, StatesShow, ReadyFrom, Intervened, Distinct;
      lockedRunIDs := [];
      NothingDecided(log, shotDecisions, []);
      ShrinksReflexively(shotDecisions);
      NoShotsProduced(input.shots, shots, input.requireApproval);
      while |lockedRunIDs| < |input.shots|
        invariant |lockedRunIDs| <= |input.shots|
        invariant !Opens(log) && Sent(log, old(shotDecisions), []) && Shrinks(old(shotDecisions), shotDecisions) && !failed
        invariant Awake()
        invariant Production(log, input.shots[..|lockedRunIDs|], lockedRunIDs, input.requireApproval)
        invariant StatesShow(input.shots, shots, lockedRunIDs) && ReadyFrom(input.shots, shots, |lockedRunIDs|)
      {
        var shotID := input.shots[|lockedRunIDs|];
        ghost var before, states, decisions := log, shots, shotDecisions;
        var accepted, run;
        ghost var tail;
        accepted, run, tail := ProduceShot(shotID);
        OpensSplits(before, tail);
        SentAmongMore(tail, decisions, old(shotDecisions), []);
        SentSplits(before, tail, old(shotDecisions), []);
        ShrinksOnward(old(shotDecisions), decisions, shotDecisions);
        if !accepted.Done? {
          return accepted, lockedRunIDs;
        }
        if !accepted.value {
          ShowingUnchanged(shotID, states, shots);
          GivingUpIntervenes(before, tail, input, states, lockedRunIDs, shots);
          return Done(false), lockedRunIDs;
        }
        ShowingUnchanged(shotID, states, shots);
        ProductionExtends(before, tail, input.shots, lockedRunIDs, run, |lockedRunIDs|, input.requireApproval);
        ApprovalShows(input.shots, states, lockedRunIDs, run, shots);
        lockedRunIDs := lockedRunIDs + [run];
      }
      assert input.shots[..|lockedRunIDs|] == input.shots;
      r := Done(true);
    }

    /** Post-production, the final gate, and its decision. */
    method Review(lockedRunIDs: seq<string>, ghost decisions: seq<ShotDecision>) returns (r: Outcome<Result>)
      requires signals as object != this && !Opens(log) && !failed && Awake() && Sent(log, decisions, [])
      requires |lockedRunIDs| == |input.shots| && Production(log, input.shots, lockedRunIDs, input.requireApproval)
      requires StatesShow(input.shots, shots, lockedRunIDs)
      modifies this`gate3Decisions, this`log, this`failed, signals
      ensures Promised(log, input, r) && Sent(log, decisions, old(gate3Decisions))
      ensures r.Error? <==> failed
      ensures r.Pending? ==> StuckInPause() || (signals.controls == [] && gate3Decisions == [] && Opens(log))
      ensures r.Done? && r.value.gate3.Some? ==> r.value.gate3.value in old(gate3Decisions) && DecidesGate(r.value.gate3.value)
    {
      hide Production, Opens, StatesShow, GatesReady, ReadyForGate3, Sent, Promised, Closed, DecidesGate;
      ghost var produced, gates := log, gate3Decisions;
      SentAmongMore(produced, decisions, decisions, gates);
      OpeningIsReady(produced, input, lockedRunIDs, "");
      NoGateIsReady(produced, input);
      var delivery := None;
      if input.postProduction == Some(true) {
        var finalized := FinalizeEpisode(lockedRunIDs);
        if finalized.Err? {
          assert log == produced;
          NothingIsPromised(log, input);
          return Error;
        }
        delivery := Some(finalized.value);
        NothingDecided([Delivered(lockedRunIDs)], decisions, gates);
        SentSplits(produced, [Delivered(lockedRunIDs)], decisions, gates);
      }
      ghost var ready := log;
      assert ready == produced + (if input.postProduction == Some(true) then [Delivered(lockedRunIDs)] else []);
      var manifest := if delivery.Some? then delivery.value else "";
      OpeningIsReady(produced, input, lockedRunIDs, manifest);
      var reviewable := CreateGate3(lockedRunIDs, manifest);
      if !reviewable {
        assert log == ready;
        NothingIsPromised(log, input);
        return Error;
      }
      assert log == ready + [Gate3Opened(lockedRunIDs, manifest)];
      SentGates(ready, decisions, gates, Gate3Decision("", "", false), Gate3Opened(lockedRunIDs, manifest));
      var gate3, _ := WaitForGate3Decision();
      if gate3.Pending? {
        NothingIsPromised(log, input);
        return Pending;
      }
      SentGates(ready, decisions, gates, gate3.value, Gate3Opened(lockedRunIDs, manifest));
      log := ready + [Gate3Opened(lockedRunIDs, manifest)] + [Gate3Decided(gate3.value.approved)];
      ClosingPromises(ready, input, lockedRunIDs, delivery, gate3.value, shots);
      r := Done(Result(if gate3.value.approved then "LOCKED" else "G3_REJECTED", lockedRunIDs, "", delivery, Some(gate3.value), shots));
    }
  }

  lemma NoShotsProduced(ids: seq<string>, states: map<string, ShotState>, approval: bool)
    ensures Production([], ids[..0], [], approval) && StatesShow(ids, states, [])
  {
    assert ids[..0] == [];
  }

  lemma NothingIsPromised(log: seq<Event>, input: Input)
    requires GatesReady(log, input)
    ensures Promised(log, input, Error) && Promised(log, input, Pending)
  {
  }

  lemma ClosingPromises(ready: seq<Event>, input: Input, runs: seq<string>, delivery: Option<string>, gate3: Gate3Decision,
                        states: map<string, ShotState>)
    requires delivery.Some? <==> input.postProduction == Some(true)
    requires ReadyForGate3(ready, input, runs) && |runs| == |input.shots| && StatesShow(input.shots, states, runs)
    requires var manifest := if delivery.Some? then delivery.value else "";
      GatesReady(ready + [Gate3Opened(runs, manifest)] + [Gate3Decided(gate3.approved)], input)
    ensures var manifest := if delivery.Some? then delivery.value else "";
      var log := ready + [Gate3Opened(runs, manifest)] + [Gate3Decided(gate3.approved)];
      Promised(log, input, Done(Result(if gate3.approved then "LOCKED" else "G3_REJECTED", runs, "", delivery, Some(gate3), states)))
  {
    hide ReadyForGate3, GatesReady, StatesShow;
    var log := ready + [Gate3Opened(runs, if delivery.Some? then delivery.value else "")] + [Gate3Decided(gate3.approved)];
    assert log[..|log| - 2] == ready;
  }

  lemma AllAreReady(ids: seq<string>, states: map<string, ShotState>)
    requires forall id :: id in ids ==> id in states && states[id] == ShotState("READY", 0, "", "")
    ensures ReadyFrom(ids, states, 0)
  {
  }

  lemma ShowingUnchanged(id: string, states: map<string, ShotState>, states': map<string, ShotState>)
    requires id in states' && (states' == states || states' == states[id := states'[id]])
    ensures states' == states[id := states'[id]]
  {
  }

  ghost predicate Distinct(s: seq<string>) {
    forall i, j :: 0 <= i < j < |s| ==> s[i] != s[j]
  }

  lemma OpensSplits(a: seq<Event>, b: seq<Event>)
    ensures Opens(a + b) <==> Opens(a) || Opens(b)
  {
    if Opens(a) {
      var e :| e in a && e.Gate3Opened?;
      assert e in a + b;
    }
    if Opens(b) {
      var e :| e in b && e.Gate3Opened?;
      assert e in a + b;
    }
  }
}
