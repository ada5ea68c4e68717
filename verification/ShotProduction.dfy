/**
 The workflow that produces one shot: it executes the provider job under pause and resume, checks quality, waits
 for the Q1 decision, and gives its verdict, cancelling or reconciling the job when the execution does not come through.

 The workflow drives the steps of the paid-job protocol, one activity attempt at a time. Activities may crash at
 any step, be retried, and be cancelled; other parties act between any two steps.
 */
module ShotProduction {
  import opened Wrappers
  import opened WorkflowSignals
  import opened PaidJob
  import P = ProviderContract
  import R = TaskRegistry
  import L = PaidLedger

  datatype Decision = Decision(decisionID: string, actorID: string, shotID: string, runID: string, approved: bool)

  datatype QC = QC(passed: bool)

  /** error: the workflow reports one beside its state. */
  datatype Result = Result(state: string, error: bool, qc: Option<QC>, decision: Option<Decision>)

  /** How an activity ended for the workflow. Pending: not within this history. */
  datatype Activity<+T> = Done(value: T) | Failure | Canceled | Pending

  /**
   The last activity that was started: how many attempts it was allowed (0: any number) and made, whether it ended and
   whether the last attempt brought its result back; whether the workflow was paused when it started, and the controls
   that were still to come then.
   */
  datatype Execution = Execution(
    allowed: nat, attempts: nat, ended: bool, brought: bool, paused: bool, controls: seq<Control>)

  /** What the workflow has waited for so far, and what came of it. */
  datatype Stage =
    | Executed(execution: Activity<()>)
    | Compensated(state: string)
    | Reconciled(state: string)
    | Checked(check: Activity<QC>)
    | Reviewed(reviewable: bool)
    | Decided(decision: Activity<Decision>)
    | Judged(success: bool, ok: bool)

  /** The stages go with the result: which ones there are, in this order, and what each of them means for it. */
  predicate Explains(log: seq<Stage>, requireApproval: bool, r: Result) {
    && log != [] && log[0].Executed?
    && match log[0].execution
       case Pending => |log| == 1 && r == Result("RUNNING", false, None, None)
       case Canceled => |log| == 2 && log[1].Compensated? && r == Result(log[1].state, true, None, None)
       case Failure =>
         |log| == 2 && (log[1].Compensated? || log[1].Reconciled?) && r == Result(log[1].state, true, None, None)
       case Done(_) => ExplainsCheck(log[1..], requireApproval, r)
  }

  /** From the quality control on. */
  predicate ExplainsCheck(log: seq<Stage>, requireApproval: bool, r: Result) {
    && |log| > 1 && log[0].Checked?
    && match log[0].check
       case Done(qc) =>
         if !qc.passed then ExplainsVerdict(log[1..], false, r, Result("NEEDS_INTERVENTION", false, Some(qc), None))
         else if !requireApproval then ExplainsVerdict(log[1..], true, r, Result("SUCCEEDED", false, Some(qc), None))
         else
           && log[1].Reviewed?
           && if log[1].reviewable then ExplainsDecision(log[2..], qc, r) else |log| == 2 && r == Result("", true, None, None)
       case Canceled => |log| == 2 && log[1].Compensated? && r == Result(log[1].state, true, None, None)
       case _ => |log| == 2 && log[1].Judged? && !log[1].success && r == Result("FAILED", true, None, None)
  }

  predicate ExplainsDecision(log: seq<Stage>, qc: QC, r: Result) {
    && log != [] && log[0].Decided?
    && match log[0].decision
       case Done(decision) =>
         ExplainsVerdict(log[1..], decision.approved, r,
                         Result(if decision.approved then "SUCCEEDED" else "Q1_REJECTED", false, Some(qc), Some(decision)))
       case Pending => |log| == 1 && r == Result("WAITING_Q1", false, Some(qc), None)
       case _ => |log| == 2 && log[1].Compensated? && r == Result(log[1].state, true, Some(qc), None)
  }

  /** The verdict closes the workflow, with an error if it did not come through. */
  predicate ExplainsVerdict(log: seq<Stage>, success: bool, r: Result, judged: Result) {
    |log| == 1 && log[0].Judged? && log[0].success == success && r == judged.(error := !log[0].ok)
  }

  /** What the steps so far have come to, and that attempts never overlapped and verdicts were never early. */
  ghost predicate Follows(d: Dispatch, amount: nat, steps: seq<Step>, plant: Plant) {
    OrderlyRun(d, Initial(amount), steps) && plant == Run(d, Initial(amount), steps)
  }

  lemma {:induction false} OrderlyExtends(d: Dispatch, s: Plant, steps: seq<Step>, step: Step)
    requires OrderlyRun(d, s, steps) && Orderly(Run(d, s, steps), step)
    ensures OrderlyRun(d, s, steps + [step]) && Run(d, s, steps + [step]) == Next(d, Run(d, s, steps), step)
    decreases |steps|
  {
    hide Next, Orderly;
    if steps == [] {
      assert steps + [step] == [step];
      assert Run(d, s, [step]) == Run(d, Next(d, s, step), []);
    } else {
      assert (steps + [step])[1..] == steps[1..] + [step];
      OrderlyExtends(d, Next(d, s, steps[0]), steps[1..], step);
    }
  }

  /**
   The result is that of the last execution, of at most three attempts, and a success counts only if nothing paused the
   workflow from its start until now; the workflow waits on only for an execution that has not ended, or in a pause.
   */
  ghost predicate Seen(last: Execution, paused: bool, cancelled: bool, controls: seq<Control>, r: Activity<()>) {
    && (!r.Pending? ==> last.allowed == 3 && last.ended && (r.Done? <==> last.brought))
    && (r.Pending? ==> last.ended ==> paused && (cancelled || controls == []))
    && (r.Done? ==> |controls| <= |last.controls|
                    && var n := |last.controls| - |controls|;
                       controls == last.controls[n..] && Calm(last.paused, last.controls[..n]))
  }

  lemma PausesAreSeen(last: Execution, cancelled: bool, controls: seq<Control>)
    requires cancelled || controls == []
    ensures Seen(last, true, cancelled, controls, Pending)
  {
  }

  lemma ResultsAreSeen(last: Execution, paused: bool, cancelled: bool, n: nat, r: Activity<()>)
    requires last.allowed == 3 && last.ended == !r.Pending? && last.brought == r.Done? && n <= |last.controls|
    requires r.Done? ==> Calm(last.paused, last.controls[..n])
    ensures Seen(last, paused, cancelled, last.controls[n..], r)
  {
  }

  lemma NothingSeen(paused: bool, all: seq<Control>)
    ensures Calm(paused, all[..0]) && PausedAfter(paused, all[..0]) == paused
  {
  }

  class ShotWorkflow {
    const d: Dispatch
    const amount: nat
    const shotID: string
    const runID: string
    const signals: Signals
    var plant: Plant
    ghost var steps: seq<Step>
    ghost var log: seq<Stage>
    var decisions: seq<Decision>
    ghost var last: Execution

    constructor (d: Dispatch, amount: nat, shotID: string, runID: string, signals: Signals, decisions: seq<Decision>)
      ensures Valid() && plant == Initial(amount) && this.d == d && this.amount == amount
      ensures this.shotID == shotID && this.runID == runID && this.signals == signals && log == []
    {
      this.d, this.amount, this.shotID, this.runID, this.signals := d, amount, shotID, runID, signals;
      this.decisions := decisions;
      last := Execution(0, 0, false, false, false, []);
      plant, steps, log := Initial(amount), [], [];
    }

    /** No activity is running, and everything so far was an orderly run of the protocol. */
    ghost predicate Valid()
      reads this`plant, this`steps
    {
      Follows(d, amount, steps, plant) && plant.workers == map[]
    }

    twostate predicate Continues()
      reads this`plant, this`steps, this`decisions
    {
      && old(steps) <= steps && decisions == old(decisions)
      && (old(plant).returned ==> plant.returned)
    }

    // ---- Steps ----

    method Take(step: Step)
      requires Follows(d, amount, steps, plant) && Orderly(plant, step)
      modifies this`plant, this`steps
      ensures Follows(d, amount, steps, plant) && steps == old(steps) + [step] && plant == Next(d, old(plant), step)
    {
      hide Next, Orderly;
      OrderlyExtends(d, Initial(amount), steps, step);
      plant := Next(d, plant, step);
      steps := steps + [step];
    }

    /** Operators and the provider act on their own. */
    method Elsewhere()
      requires Follows(d, amount, steps, plant)
      modifies this`plant, this`steps
      ensures Follows(d, amount, steps, plant) && Continues()
      ensures plant.workers == old(plant).workers && plant.returned == old(plant).returned && plant.verdict == old(plant).verdict
    {
      hide Follows, L.Controlled, R.Next;
      var happening: nat := *;
      while happening > 0
        invariant Follows(d, amount, steps, plant) && Continues()
        invariant plant.workers == old(plant).workers && plant.returned == old(plant).returned
        invariant plant.verdict == old(plant).verdict
      {
        var control: L.Control, event: R.Event, operated: bool := *, *, *;
        Take(if operated then Operate(control) else Upstream(event));
        happening := happening - 1;
      }
    }

    /** Runs one attempt of an activity to its end or its death; returned says it brought a result back. */
    method Attempt(start: Step) returns (returned: bool)
      requires Valid() && (start.StartExecute? || start.StartCancel?) && start.id == 0
      modifies this`plant, this`steps
      ensures Valid() && Continues()
      ensures returned && start.StartExecute? ==> plant.returned
      ensures returned && start.StartCancel? ==> plant.verdict.Some? && plant.verdict.value.state != L.Unknown
    {
      hide Follows, Acted, L.Prepared;
      Elsewhere();
      Take(start);
      returned := false;
      var patience: nat := *;
      while plant.workers != map[] && patience > 0
        invariant Follows(d, amount, steps, plant) && Continues()
        invariant plant.workers.Keys <= {0}
        invariant returned ==> plant.workers == map[]
        invariant returned && start.StartExecute? ==> plant.returned
        invariant returned && start.StartCancel? ==> plant.verdict.Some? && plant.verdict.value.state != L.Unknown
        decreases patience
      {
        Elsewhere();
        var chance: Chance := *;
        ghost var before := plant;
        var effect := Acted(d, plant.ledger, plant.task, plant.workers[0], chance);
        Take(Act(0, chance));
        returned := effect.worker.None? &&
          (if start.StartExecute? then effect.returned
           else effect.verdict.Some? && effect.verdict.value.state != L.Unknown);
        assert before.workers.Keys - {0} == {};
        patience := patience - 1;
      }
      // A crash loses the result, even if it was already recorded.
      var crashed: bool := *;
      if crashed || plant.workers != map[] {
        Take(Crash(0));
        returned := false;
      }
    }

    /** The activity as the workflow sees it: up to limit attempts (0: no limit), unless it is cancelled in between. */
    method Execute(start: Step, limit: nat) returns (r: Activity<()>)
      requires Valid() && (start.StartExecute? || start.StartCancel?) && start.id == 0
      requires start.StartExecute? ==> Awake()
      modifies this`plant, this`steps, this`last
      ensures Valid() && Continues()
      ensures last == Execution(limit, last.attempts, !r.Pending?, r.Done?, signals.paused, signals.controls)
      ensures limit > 0 ==> last.attempts <= limit
      ensures r.Done? && start.StartExecute? ==> plant.returned
      ensures r.Done? && start.StartCancel? ==> plant.verdict.Some? && plant.verdict.value.state != L.Unknown
    {
      hide Follows;
      last := Execution(limit, 0, true, false, signals.paused, signals.controls);
      var patience: nat := *;
      var attempt := 1;
      while patience > 0
        invariant Valid() && Continues()
        invariant last == Execution(limit, attempt - 1, true, false, signals.paused, signals.controls)
        invariant limit > 0 ==> 1 <= attempt <= limit
        decreases patience
      {
        var returned := Attempt(start);
        last := last.(attempts := last.attempts + 1, brought := returned);
        if returned {
          return Done(());
        }
        var cancelled: bool, final: bool := *, *;
        if cancelled {
          return Canceled;
        }
        if final || attempt == limit {
          return Failure;
        }
        patience, attempt := patience - 1, attempt + 1;
      }
      last := last.(ended := false);
      r := Pending;
    }

    /** No pause is known of, or the workflow was cancelled and its pauses no longer hold it. */
    ghost predicate Awake()
      reads signals
    {
      !signals.paused || signals.cancelled
    }

    // ---- The workflow ----

    /** Executes the provider job; a pause cancels only the polling, and its result counts once no pause is seen beside it. */
    method ExecuteProviderWithControls() returns (r: Activity<()>)
      requires Valid() && signals as object != this
      modifies this`plant, this`steps, this`log, this`last, signals
      ensures Valid() && Continues() && log == old(log) + [Executed(r)]
      ensures Seen(last, signals.paused, signals.cancelled, signals.controls, r)
      ensures r.Done? ==> plant.returned && !signals.paused
    {
      r := ExecuteUnderControls();
      log := log + [Executed(r)];
    }

    /** Takes in what arrives beside a running execution, and says whether any of it left the workflow paused. */
    method ReceiveBeside() returns (pausedCancellation: bool, ghost seen: nat)
      modifies signals`paused, signals`controls
      ensures seen <= |old(signals.controls)| && signals.controls == old(signals.controls)[seen..]
      ensures signals.paused == PausedAfter(old(signals.paused), old(signals.controls)[..seen])
      ensures pausedCancellation <==> !Calm(old(signals.paused), old(signals.controls)[..seen])
      ensures pausedCancellation ==> seen > 0
    {
      hide Calm, PausedAfter;
      ghost var all, paused := signals.controls, signals.paused;
      pausedCancellation, seen := false, 0;
      NothingSeen(paused, all);
      var during: nat := *;
      while during > 0 && signals.controls != []
        invariant seen <= |all| && signals.controls == all[seen..] && signals.paused == PausedAfter(paused, all[..seen])
        invariant (pausedCancellation <==> !Calm(paused, all[..seen])) && (pausedCancellation ==> seen > 0)
        decreases during
      {
        CalmGrows(paused, all, seen);
        OneMore(paused, all, seen);
        signals.Receive();
        pausedCancellation, seen := pausedCancellation || signals.paused, seen + 1;
        during := during - 1;
      }
    }

    method ExecuteUnderControls() returns (r: Activity<()>)
      requires Valid() && signals as object != this
      modifies this`plant, this`steps, this`last, signals
      ensures Valid() && Continues() && Seen(last, signals.paused, signals.cancelled, signals.controls, r)
      ensures r.Done? ==> plant.returned && !signals.paused
    {
      hide Follows, Calm, Asks, PausedAfter, Seen;
      while true
        invariant Valid() && Continues()
        decreases |signals.controls|
      {
        ghost var left := |signals.controls|;
        var _, blocked, _ := signals.WaitForResume();
        if blocked {
          PausesAreSeen(last, signals.cancelled, signals.controls);
          return Pending;
        }
        var activity := Execute(StartExecute(0), 3);
        ghost var all, seen := signals.controls, 0;
        var pausedCancellation;
        pausedCancellation, seen := ReceiveBeside();
        if pausedCancellation && activity == Pending {
          activity := Canceled;
        }
        var observed;
        ghost var taken;
        observed, blocked, taken := signals.WaitForResume();
        if blocked {
          PausesAreSeen(last, signals.cancelled, signals.controls);
          return Pending;
        }
        if !pausedCancellation && !observed {
          CalmThrough(last.paused, all, seen, taken);
        }
        if !((pausedCancellation || observed) && (activity.Done? || activity.Canceled?)) {
          assert signals.controls == last.controls[seen + taken..];
          ResultsAreSeen(last, signals.paused, signals.cancelled, seen + taken, activity);
          return activity;
        }
        if signals.paused {
          // Cancelled while paused: every pass finds the workflow paused and its activity cancelled, and starts over.
          PausesAreSeen(last, signals.cancelled, signals.controls);
          return Pending;
        }
      }
    }

    /** A complete decision on exactly this shot and run. */
    predicate Decides(decision: Decision) {
      decision.decisionID != "" && decision.actorID != "" && decision.shotID == shotID && decision.runID == runID
    }

    /**
     Waits for the first decision on exactly this shot and run, unless the workflow is cancelled meanwhile; skipped are
     those it passed over, and Pending says that nothing more will come.
     */
    method WaitForExactDecision() returns (r: Activity<Decision>, ghost skipped: seq<Decision>)
      requires Valid() && signals as object != this
      modifies this`decisions, this`log, signals
      ensures Valid() && plant == old(plant) && steps == old(steps) && log == old(log) + [Decided(r)]
      ensures r.Done? || r.Pending? || r.Canceled?
      ensures r.Done? ==> Decides(r.value) && !signals.paused && !signals.cancelled
      ensures r.Done? ==> old(decisions) == skipped + [r.value] + decisions
      ensures r.Pending? ==> old(decisions) == skipped + decisions && !signals.cancelled
      ensures r.Pending? ==> signals.controls == [] && (decisions == [] || signals.paused)
      ensures r.Canceled? ==> signals.cancelled
      ensures forall decision :: decision in skipped ==> !Decides(decision)
    {
      hide Follows;
      skipped := [];
      while true
        invariant Valid() && plant == old(plant) && steps == old(steps) && log == old(log)
        invariant old(decisions) == skipped + decisions
        invariant forall decision :: decision in skipped ==> !Decides(decision)
        decreases |decisions| + |signals.controls|
      {
        var _, blocked, _ := signals.WaitForResume();
        if blocked {
          log := log + [Decided(Pending)];
          return Pending, skipped;
        }
        var decision := Decision("", "", "", "", false);
        ghost var taken := [];
        var decided: bool, cancelled: bool := *, *;
        if cancelled {
          signals.cancelled := true;
        }
        if decisions != [] && (decided || (signals.controls == [] && !signals.cancelled)) {
          decision := decisions[0];
          decisions := decisions[1..];
          taken := [decision];
        } else if signals.controls != [] {
          signals.Receive();
        } else if !signals.cancelled {
          log := log + [Decided(Pending)];
          return Pending, skipped;
        }
        if signals.cancelled {
          log := log + [Decided(Canceled)];
          return Canceled, skipped;
        }
        if !signals.paused && decision.decisionID != "" && decision.actorID != ""
           && decision.shotID == shotID && decision.runID == runID {
          log := log + [Decided(Done(decision))];
          return Done(decision), skipped;
        }
        skipped := skipped + taken;
      }
    }

    /** The workflow's verdict: an activity that may be repeated, and whose answer may be lost. */
    method FinalizeShot(success: bool) returns (ok: bool)
      requires Valid() && plant.returned
      modifies this`plant, this`steps, this`log
      ensures Valid() && Continues() && log == old(log) + [Judged(success, ok)]
      ensures ok && success ==> plant.ledger.run == L.Succeeded
      ensures ok && !success ==> plant.ledger.run.Terminal()
    {
      hide Follows, L.Controlled, R.Next;
      ok := false;
      var patience: nat := *;
      while patience > 0 && !ok
        invariant Valid() && Continues() && plant.returned && log == old(log)
        invariant ok && success ==> plant.ledger.run == L.Succeeded
        invariant ok && !success ==> plant.ledger.run.Terminal()
        decreases patience
      {
        Elsewhere();
        ok := L.Finalized(plant.ledger, success).1;
        Take(Finalize(success));
        var lost: bool := *;
        ok, patience := ok && !lost, patience - 1;
      }
      log := log + [Judged(success, ok)];
    }

    /** The compensation after the workflow itself was cancelled. */
    method CancelAfterWorkflowCancellation() returns (state: string)
      requires Valid()
      modifies this`plant, this`steps, this`log, this`last
      ensures Valid() && Continues() && log == old(log) + [Compensated(state)]
      ensures last.allowed == 3 && (!last.brought ==> state == "UNKNOWN")
      ensures last.brought ==>
        plant.verdict.Some? && plant.verdict.value.state != L.Unknown && state == NameOf(plant.verdict.value.state)
    {
      hide Follows;
      var result := Execute(StartCancel(0), 3);
      state := if result.Done? then NameOf(plant.verdict.value.state) else "UNKNOWN";
      log := log + [Compensated(state)];
    }

    /** Finds out how a job ended whose execution failed: never by a verdict, which would release a task still at work. */
    method ReconcileProviderExecutionFailure() returns (state: string)
      requires Valid()
      modifies this`plant, this`steps, this`log, this`last
      ensures Valid() && Continues() && log == old(log) + [Reconciled(state)]
      ensures last.allowed == 0 && (!last.brought ==> state == "RECONCILING")
      ensures last.brought ==>
        plant.verdict.Some? && plant.verdict.value.state != L.Unknown && state == NameOf(plant.verdict.value.state)
    {
      hide Follows;
      var result := Execute(StartCancel(0), 0);
      state := if result.Done? then NameOf(plant.verdict.value.state) else "RECONCILING";
      log := log + [Reconciled(state)];
    }

    method RunAutomaticQC() returns (r: Activity<QC>)
      modifies this`log
      ensures log == old(log) + [Checked(r)]
    {
      r := *;
      log := log + [Checked(r)];
    }

    method CreateShotReview() returns (reviewable: bool)
      modifies this`log
      ensures log == old(log) + [Reviewed(reviewable)]
    {
      reviewable := *;
      log := log + [Reviewed(reviewable)];
    }

    method ShotProductionWorkflow(requireApproval: bool) returns (r: Result)
      requires Valid() && signals as object != this && log == []
      modifies this`plant, this`steps, this`decisions, this`log, this`last, signals
      ensures Valid() && Explains(log, requireApproval, r)
      ensures log[0].execution.Failure? ==> (log[1].Compensated? <==> signals.cancelled)
      ensures r.state == "SUCCEEDED" && !r.error ==>
        && plant.ledger.run == L.Succeeded && r.qc == Some(QC(true))
        && (requireApproval ==>
              && r.decision.Some? && r.decision.value.approved && r.decision.value in old(decisions)
              && r.decision.value.shotID == shotID && r.decision.value.runID == runID)
      ensures r.state in {"FAILED", "NEEDS_INTERVENTION", "Q1_REJECTED"} && r.qc.Some? ==> plant.returned
      ensures r.state == "NEEDS_INTERVENTION" ==> r.qc == Some(QC(false))
      ensures r.state == "Q1_REJECTED" ==> r.qc == Some(QC(true)) && r.decision.Some? && !r.decision.value.approved
    {
      hide Follows, L.Valid, ExplainsCheck;
      var generated := ExecuteProviderWithControls();
      match generated {
        case Pending => return Result("RUNNING", false, None, None);
        case Canceled =>
          var state := CancelAfterWorkflowCancellation();
          return Result(state, true, None, None);
        case Failure =>
          if signals.cancelled {
            var state := CancelAfterWorkflowCancellation();
            return Result(state, true, None, None);
          }
          var state := ReconcileProviderExecutionFailure();
          return Result(state, true, None, None);
        case Done(_) =>
      }
      assert log == [Executed(generated)];
      ghost var tail;
      r, tail := CheckAndReview(requireApproval);
      assert log[1..] == tail;
    }

    /** What follows an execution that came through: quality control, the Q1 review, and the verdict. */
    method CheckAndReview(requireApproval: bool) returns (r: Result, ghost tail: seq<Stage>)
      requires Valid() && plant.returned && signals as object != this
      modifies this`plant, this`steps, this`decisions, this`log, this`last, signals
      ensures Valid() && log == old(log) + tail && ExplainsCheck(tail, requireApproval, r)
      ensures r.decision.Some? ==> Decides(r.decision.value) && r.decision.value in old(decisions)
      ensures r.state == "SUCCEEDED" && !r.error ==> plant.ledger.run == L.Succeeded && r.qc == Some(QC(true))
      ensures r.state == "SUCCEEDED" && !r.error && requireApproval ==> r.decision.Some? && r.decision.value.approved
      ensures r.state == "NEEDS_INTERVENTION" ==> r.qc == Some(QC(false))
      ensures r.state == "Q1_REJECTED" ==> r.qc == Some(QC(true)) && r.decision.Some? && !r.decision.value.approved
      ensures plant.returned
    {
      hide Follows, L.Valid, ExplainsDecision, ShotWorkflow.Decides;
      var checked := RunAutomaticQC();
      tail := [Checked(checked)];
      if checked.Canceled? {
        var state := CancelAfterWorkflowCancellation();
        return Result(state, true, None, None), tail + [Compensated(state)];
      }
      if !checked.Done? {
        var ok := FinalizeShot(false);
        return Result("FAILED", true, None, None), tail + [Judged(false, ok)];
      }
      var qc := checked.value;
      if !qc.passed {
        var ok := FinalizeShot(false);
        return Result("NEEDS_INTERVENTION", !ok, Some(qc), None), tail + [Judged(false, ok)];
      }
      if requireApproval {
        var reviewable := CreateShotReview();
        tail := tail + [Reviewed(reviewable)];
        if !reviewable {
          return Result("", true, None, None), tail;
        }
        ghost var rest;
        r, rest := ReviewAndJudge(qc);
        assert (tail + rest)[1..][1..] == rest;
        return r, tail + rest;
      }
      var ok := FinalizeShot(true);
      return Result("SUCCEEDED", !ok, Some(qc), None), tail + [Judged(true, ok)];
    }

    method ReviewAndJudge(qc: QC) returns (r: Result, ghost tail: seq<Stage>)
      requires Valid() && plant.returned && qc.passed && signals as object != this
      modifies this`plant, this`steps, this`decisions, this`log, this`last, signals
      ensures Valid() && log == old(log) + tail && ExplainsDecision(tail, qc, r)
      ensures r.decision.Some? ==> Decides(r.decision.value) && r.decision.value in old(decisions)
      ensures r.state == "SUCCEEDED" && !r.error ==>
        plant.ledger.run == L.Succeeded && r.qc == Some(qc) && r.decision.Some? && r.decision.value.approved
      ensures r.state != "NEEDS_INTERVENTION"
      ensures r.state == "Q1_REJECTED" ==> r.qc == Some(qc) && r.decision.Some? && !r.decision.value.approved
      ensures plant.returned
    {
      hide Follows, L.Valid, ShotWorkflow.Decides;
      var decided, _ := WaitForExactDecision();
      tail := [Decided(decided)];
      if decided.Done? {
        var ok := FinalizeShot(decided.value.approved);
        tail := tail + [Judged(decided.value.approved, ok)];
        return Result(if decided.value.approved then "SUCCEEDED" else "Q1_REJECTED", !ok, Some(qc), Some(decided.value)), tail;
      }
      if decided.Pending? {
        return Result("WAITING_Q1", false, Some(qc), None), tail;
      }
      var state := CancelAfterWorkflowCancellation();
      return Result(state, true, Some(qc), None), tail + [Compensated(state)];
    }
  }

  function NameOf(state: L.Phase): string {
    match state
    case Succeeded => "SUCCEEDED"
    case Cancelled => "CANCELLED"
    case Failed => "FAILED"
    case _ => "UNKNOWN"
  }

  /** However the workflow went, the job was paid for at most once, and if anything was released there was nothing to pay. */
  lemma WorkflowsPayOnce(w: ShotWorkflow)
    requires w.Valid()
    ensures w.plant.posts <= 1 && w.plant.creations <= 1
    ensures OwesNothing(w.plant.ledger) ==> w.plant.task.None?
    ensures w.plant.ledger.run == L.Succeeded ==> w.plant.task.Some? && w.plant.task.value.response.state == P.Succeeded
  {
    hide Knows, Careful, L.Balanced;
    InitialIsBase(w.d, w.amount);
    AtMostOnePost(w.d, w.amount, w.steps);
    AnyRunIsSound(w.d, w.amount, w.steps);
    ReleasedMeansUnaccepted(w.d, w.amount, w.steps);
  }

  lemma ReleasedMeansUnaccepted(d: Dispatch, amount: nat, steps: seq<Step>)
    requires OrderlyRun(d, Initial(amount), steps)
    ensures OwesNothing(Run(d, Initial(amount), steps).ledger) ==> Run(d, Initial(amount), steps).task.None?
  {
    if OwesNothing(Run(d, Initial(amount), steps).ledger) {
      ReleasedMeansNeverAccepted(d, amount, steps, []);
    }
  }
}
