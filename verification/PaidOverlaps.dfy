/** What the paid-job protocol can and cannot do once attempts overlap, or the workflow speaks too early. */
module PaidOverlaps {
  import opened Wrappers
  import opened Text
  import opened PaidJob
  import P = ProviderContract
  import R = TaskRegistry
  import L = PaidLedger

  /** The provider accepts the dispatched request when it has no task for it yet. */
  predicate Acceptable(d: Dispatch) {
    d.valid && !Blank(d.request.jobID) && R.ScenarioError(d.request.simulation).None?
  }

  ghost predicate SomeoneIntends(s: Plant) {
    exists id :: id in s.workers && s.workers[id].Intended?
  }

  /** Nothing is owed, nothing was accepted, and nobody is about to send the paid request. */
  ghost predicate Quiet(d: Dispatch, s: Plant) {
    Base(d, s) && OwesNothing(s.ledger) && s.task.None? && !SomeoneIntends(s)
  }

  lemma QuietStaysQuiet(d: Dispatch, s: Plant, step: Step)
    requires Quiet(d, s)
    ensures Quiet(d, Next(d, s, step))
  {
    StepKeepsBase(d, s, step);
    OwingNothingLasts(d, s, step);
    assert L.Valid(s.ledger);
    hide Base, L.Valid;
    if step.Act? && step.id in s.workers {
      QuietWorkersStayQuiet(d, s, step.id, step.chance);
    } else {
      KeepsItsTask(d, s, step);
      hide OwesNothing, L.Prepared, L.Finalized, L.Controlled, R.Next;
    }
  }

  lemma QuietWorkersStayQuiet(d: Dispatch, s: Plant, id: nat, chance: Chance)
    requires L.Valid(s.ledger) && OwesNothing(s.ledger) && s.task.None? && !SomeoneIntends(s) && id in s.workers
    ensures Next(d, s, Act(id, chance)).task.None? && !SomeoneIntends(Next(d, s, Act(id, chance)))
  {
    IntentNeedsALiveJob(s.ledger);
    hide L.Valid, OwesNothing, L.Observed, L.CompletedJob, L.CancellationRecorded, Matches, ProviderObservation, CancellationOf;
    assert !s.workers[id].Intended?;
  }

  lemma IntentNeedsALiveJob(ledger: L.Ledger)
    requires L.Valid(ledger) && OwesNothing(ledger)
    ensures !L.Observed(ledger, DOUBT).1
  {
  }

  lemma {:induction false} QuietRunsStayQuiet(d: Dispatch, s: Plant, steps: seq<Step>)
    requires Quiet(d, s)
    ensures Quiet(d, Run(d, s, steps))
    decreases |steps|
  {
    hide Quiet, Next;
    if steps != [] {
      QuietStaysQuiet(d, s, steps[0]);
      QuietRunsStayQuiet(d, Next(d, s, steps[0]), steps[1..]);
    }
  }

  /**
   In any run whatever, overlaps included: once the ledger holds that nothing is owed and the provider has no task,
   one can still appear if and only if some attempt stands between freezing its intent and sending the request.
   */
  lemma {:induction false} LatePaymentNeedsAnIntent(d: Dispatch, amount: nat, before: seq<Step>)
    requires Acceptable(d)
    requires var s := Run(d, Initial(amount), before); OwesNothing(s.ledger) && s.task.None?
    ensures var s := Run(d, Initial(amount), before);
      SomeoneIntends(s) <==> exists after: seq<Step> :: Run(d, s, after).task.Some?
  {
    var s := Run(d, Initial(amount), before);
    InitialIsBase(d, amount);
    RunKeepsBase(d, Initial(amount), before);
    hide Base, OwesNothing, Run;
    if SomeoneIntends(s) {
      IntentsPay(d, s);
    } else {
      forall after: seq<Step> ensures Run(d, s, after).task.None? {
        QuietRunsStayQuiet(d, s, after);
      }
    }
  }

  lemma IntentsPay(d: Dispatch, s: Plant)
    requires Acceptable(d) && SomeoneIntends(s) && s.task.None?
    ensures exists after: seq<Step> :: Run(d, s, after).task.Some?
  {
    hide R.ScenarioError;
    var id :| id in s.workers && s.workers[id].Intended?;
    RunExtends(d, s, [], Act(id, SURELY));
    assert Next(d, s, Act(id, SURELY)).task.Some?;
    hide Next;
    assert Run(d, s, [] + [Act(id, SURELY)]).task.Some?;
  }

  /** Everything arrives and commits. */
  const SURELY := Chance(Delivered, None, false, false)

  lemma {:induction false} RunExtends(d: Dispatch, s: Plant, steps: seq<Step>, step: Step)
    ensures Run(d, s, steps + [step]) == Next(d, Run(d, s, steps), step)
    decreases |steps|
  {
    hide Next;
    if steps == [] {
      assert steps + [step] == [step];
      assert Run(d, s, [step]) == Run(d, Next(d, s, step), []);
    } else {
      assert (steps + [step])[1..] == steps[1..] + [step];
      RunExtends(d, Next(d, s, steps[0]), steps[1..], step);
    }
  }

  /** Two steps at once. */
  lemma TwoSteps(d: Dispatch, s: Plant, a: Step, b: Step)
    ensures Run(d, s, [a, b]) == Next(d, Next(d, s, a), b)
  {
    RunExtends(d, s, [a], b);
    RunExtends(d, s, [], a);
    hide Next;
    assert [a] + [b] == [a, b] && [] + [a] == [a];
  }

  // ---- When the paid request is sent again ----

  predicate HasFailed(ledger: L.Ledger) {
    ledger.job.Some? && ledger.job.value.state in {L.Failed, L.Cancelled}
  }

  /** An attempt that was told to submit and has not noticed that another one did. */
  predicate IsStale(worker: Worker, ledger: L.Ledger) {
    worker.Intended? || (worker == Submitting(false) && !HasFailed(ledger))
  }

  ghost predicate SomeoneIsStale(s: Plant) {
    exists id :: id in s.workers && IsStale(s.workers[id], s.ledger)
  }

  /** The ledger freezes an intent beside any job but a failed or cancelled one: a succeeded job does not refuse it. */
  lemma OnlyFailedJobsRefuseIntents(ledger: L.Ledger)
    requires L.Valid(ledger) && ledger.job.Some?
    ensures L.Observed(ledger, DOUBT).1 <==> !HasFailed(ledger)
  {
  }

  /** The boundary has been crossed, and nobody is left who would cross it again. */
  ghost predicate Settled(d: Dispatch, s: Plant) {
    Base(d, s) && MayNotSubmit(s.ledger) && !SomeoneIsStale(s)
  }

  lemma SettledStaysSettled(d: Dispatch, s: Plant, step: Step)
    requires Settled(d, s)
    ensures Settled(d, Next(d, s, step)) && Next(d, s, step).posts == s.posts
  {
    StepKeepsBase(d, s, step);
    var t := Next(d, s, step);
    assert HasFailed(s.ledger) ==> HasFailed(t.ledger);
    hide Base;
    if step.Act? && step.id in s.workers {
      OnlyIntentsPost(d, s.ledger, s.task, s.workers[step.id], step.chance);
      assert !IsStale(s.workers[step.id], s.ledger);
    }
    forall id | id in t.workers ensures !IsStale(t.workers[id], t.ledger) {
      SettledWorkersStay(d, s, step, id);
    }
    hide Acted, IsStale, HasFailed, L.Prepared, L.Finalized, L.Controlled, R.Next;
  }

  lemma SettledWorkersStay(d: Dispatch, s: Plant, step: Step, id: nat)
    requires Settled(d, s) && id in Next(d, s, step).workers
    requires HasFailed(s.ledger) ==> HasFailed(Next(d, s, step).ledger)
    ensures !IsStale(Next(d, s, step).workers[id], Next(d, s, step).ledger)
  {
    hide Acted, L.Valid, L.Observed, L.Finalized, L.Controlled, R.Next;
    assert L.Valid(s.ledger);
    hide Base;
    if id in s.workers {
      assert !IsStale(s.workers[id], s.ledger);
      OnlyFailedJobsRefuseIntents(s.ledger);
      if step.Act? {
        OnlyIntentsPost(d, s.ledger, s.task, s.workers[id], step.chance);
      }
    }
  }

  lemma {:induction false} SettledRunsStaySettled(d: Dispatch, s: Plant, steps: seq<Step>)
    requires Settled(d, s)
    ensures Run(d, s, steps).posts == s.posts
    decreases |steps|
  {
    hide Settled, Next;
    if steps != [] {
      SettledStaysSettled(d, s, steps[0]);
      SettledRunsStaySettled(d, Next(d, s, steps[0]), steps[1..]);
    }
  }

  /** A stale attempt needs two undisturbed steps, and no more than that. */
  lemma StaleAttemptsPost(d: Dispatch, s: Plant, id: nat)
    requires Base(d, s) && MayNotSubmit(s.ledger) && id in s.workers && IsStale(s.workers[id], s.ledger)
    ensures exists after: seq<Step> :: Run(d, s, after).posts == s.posts + 1
  {
    OnlyFailedJobsRefuseIntents(s.ledger);
    var act := Act(id, SURELY);
    RunExtends(d, s, [], act);
    TwoSteps(d, s, act, act);
    hide Base, L.Observed, R.Created, Run;
    if s.workers[id].Intended? {
      assert Run(d, s, [] + [act]).posts == s.posts + 1;
    } else {
      assert Run(d, s, [act, act]).posts == s.posts + 1;
    }
  }

  /**
   In any run whatever, overlaps included: once the ledger forbids a submit, the paid request is still sent again if
   and only if some attempt stands before its request with its intent frozen, or was told to submit before the
   boundary was crossed and the job has not failed or been cancelled since. A job that succeeded does not stop it.
   */
  lemma {:induction false} LaterPostsNeedAStaleAttempt(d: Dispatch, amount: nat, before: seq<Step>)
    requires MayNotSubmit(Run(d, Initial(amount), before).ledger)
    ensures var s := Run(d, Initial(amount), before);
      SomeoneIsStale(s) <==> exists after: seq<Step> :: Run(d, s, after).posts > s.posts
  {
    var s := Run(d, Initial(amount), before);
    InitialIsBase(d, amount);
    RunKeepsBase(d, Initial(amount), before);
    hide Base, MayNotSubmit, IsStale, Run;
    if SomeoneIsStale(s) {
      var id :| id in s.workers && IsStale(s.workers[id], s.ledger);
      StaleAttemptsPost(d, s, id);
    } else {
      forall after: seq<Step> ensures Run(d, s, after).posts == s.posts {
        SettledRunsStaySettled(d, s, after);
      }
    }
  }

  /** Whoever has sent the request, or is about to, has frozen the intent. */
  ghost predicate Crossed(s: Plant) {
    s.posts > 0 || SomeoneIntends(s) ==> MayNotSubmit(s.ledger)
  }

  lemma StepKeepsCrossed(d: Dispatch, s: Plant, step: Step)
    requires Base(d, s) && Crossed(s)
    ensures Crossed(Next(d, s, step))
  {
    hide Base, Acted, L.Prepared, L.Finalized, L.Controlled, R.Next;
    StepKeepsBase(d, s, step);
    var t := Next(d, s, step);
    if step.Act? && step.id in s.workers {
      OnlyIntentsPost(d, s.ledger, s.task, s.workers[step.id], step.chance);
      CrossingIsFrozen(s.ledger);
    }
    if (SomeoneIntends(t) || t.posts > s.posts) && t.ledger != L.Observed(s.ledger, DOUBT).0 {
      assert SomeoneIntends(s);
    }
  }

  lemma CrossingIsFrozen(ledger: L.Ledger)
    ensures L.Observed(ledger, DOUBT).1 && !JobSucceeded(ledger) ==> MayNotSubmit(L.Observed(ledger, DOUBT).0)
    ensures JobSucceeded(ledger) ==> MayNotSubmit(ledger)
  {
  }

  lemma {:induction false} RunKeepsCrossed(d: Dispatch, s: Plant, steps: seq<Step>)
    requires Base(d, s) && Crossed(s)
    ensures Crossed(Run(d, s, steps))
    decreases |steps|
  {
    hide Base, Crossed, Next;
    if steps != [] {
      StepKeepsBase(d, s, steps[0]);
      StepKeepsCrossed(d, s, steps[0]);
      RunKeepsCrossed(d, Next(d, s, steps[0]), steps[1..]);
    }
  }

  /** So the exact condition of a second request: one was sent, and some attempt is stale. */
  lemma {:induction false} SecondPostsNeedAStaleAttempt(d: Dispatch, amount: nat, before: seq<Step>)
    requires Run(d, Initial(amount), before).posts > 0
    ensures var s := Run(d, Initial(amount), before);
      MayNotSubmit(s.ledger) && (SomeoneIsStale(s) <==> exists after: seq<Step> :: Run(d, s, after).posts > s.posts)
  {
    InitialIsBase(d, amount);
    RunKeepsCrossed(d, Initial(amount), before);
    hide Base, Run;
    LaterPostsNeedAStaleAttempt(d, amount, before);
  }

  // ---- Runs that break the no-overlap condition ----

  function PreparedLedger(amount: nat): L.Ledger {
    L.Ledger(L.Queued, L.Queued, Some(L.JobRow(L.Queued, "", "", L.Reserved, None, false, 0)), amount)
  }

  function IntendedLedger(amount: nat): L.Ledger {
    L.Ledger(L.Reconciling, L.Reconciling, Some(L.JobRow(L.Unknown, "", "", L.Reserved, None, false, 0)), amount)
  }

  lemma EarlyTransactions(amount: nat)
    ensures L.Prepared(L.Fresh(amount)) == (PreparedLedger(amount), Some(false))
    ensures L.Prepared(PreparedLedger(amount)) == (PreparedLedger(amount), Some(false))
    ensures L.Observed(PreparedLedger(amount), DOUBT) == (IntendedLedger(amount), true)
    ensures L.Observed(IntendedLedger(amount), DOUBT) == (IntendedLedger(amount), true)
    ensures var (next, ok) := L.CancellationRecorded(IntendedLedger(amount), NO_REMOTE_TASK, false); ok && OwesNothing(next)
    ensures OwesNothing(L.Finalized(IntendedLedger(amount), false).0)
  {
  }

  /** The first attempt has frozen its intent to submit. */
  function OneIntent(amount: nat): Plant {
    Initial(amount).(ledger := IntendedLedger(amount), workers := map[0 := Intended])
  }

  lemma OneIntentIsReachable(d: Dispatch, amount: nat)
    ensures Run(d, Initial(amount), [StartExecute(0)] + [Act(0, SURELY)]) == OneIntent(amount)
  {
    EarlyTransactions(amount);
    var started := Initial(amount).(ledger := PreparedLedger(amount), workers := map[0 := Submitting(false)]);
    hide L.Prepared, L.Observed, L.CancellationRecorded, L.Finalized;
    assert Next(d, Initial(amount), StartExecute(0)) == started;
    assert Next(d, started, Act(0, SURELY)) == OneIntent(amount);
    hide Next;
    assert [StartExecute(0)] == [] + [StartExecute(0)];
    RunExtends(d, Initial(amount), [], StartExecute(0));
    RunExtends(d, Initial(amount), [StartExecute(0)], Act(0, SURELY));
  }

  lemma {:induction false} RunSplits(d: Dispatch, s: Plant, first: seq<Step>, rest: seq<Step>)
    ensures Run(d, s, first + rest) == Run(d, Run(d, s, first), rest)
    decreases |first|
  {
    hide Next;
    if first == [] {
      assert first + rest == rest;
    } else {
      assert (first + rest)[1..] == first[1..] + rest;
      RunSplits(d, Next(d, s, first[0]), first[1..], rest);
    }
  }

  const BOTH_START := [StartExecute(0), StartExecute(1)]
  const BOTH_ACT := [Act(0, SURELY), Act(1, SURELY)]

  /** Without the no-overlap condition two attempts can both send the paid request; the provider still makes one task. */
  lemma OverlapPostsTwice(d: Dispatch, amount: nat)
    requires Acceptable(d)
    ensures var s := Run(d, Initial(amount), BOTH_START + BOTH_ACT + BOTH_ACT); s.posts == 2 && s.creations == 1
  {
    var s0, s2 := Initial(amount), BothPrepared(amount);
    var s4 := s2.(ledger := IntendedLedger(amount), workers := map[0 := Intended, 1 := Intended]);
    BothPrepare(d, amount);
    BothIntend(d, amount);
    BothPost(d, s4);
    hide Next, Run;
    TwoSteps(d, s0, StartExecute(0), StartExecute(1));
    TwoSteps(d, s2, Act(0, SURELY), Act(1, SURELY));
    TwoSteps(d, s4, Act(0, SURELY), Act(1, SURELY));
    RunSplits(d, s0, BOTH_START + BOTH_ACT, BOTH_ACT);
    RunSplits(d, s0, BOTH_START, BOTH_ACT);
  }

  function BothPrepared(amount: nat): Plant {
    Initial(amount).(ledger := PreparedLedger(amount), workers := map[0 := Submitting(false), 1 := Submitting(false)])
  }

  lemma BothPrepare(d: Dispatch, amount: nat)
    ensures Next(d, Next(d, Initial(amount), StartExecute(0)), StartExecute(1)) == BothPrepared(amount)
  {
    EarlyTransactions(amount);
    hide L.Prepared;
    assert map[0 := Submitting(false)][1 := Submitting(false)] == BothPrepared(amount).workers;
  }

  lemma BothIntend(d: Dispatch, amount: nat)
    ensures Next(d, Next(d, BothPrepared(amount), Act(0, SURELY)), Act(1, SURELY))
         == BothPrepared(amount).(ledger := IntendedLedger(amount), workers := map[0 := Intended, 1 := Intended])
  {
    EarlyTransactions(amount);
    hide L.Observed;
    var s := BothPrepared(amount).(ledger := IntendedLedger(amount), workers := map[0 := Intended, 1 := Submitting(false)]);
    assert Next(d, BothPrepared(amount), Act(0, SURELY)) == s;
    assert Next(d, s, Act(1, SURELY)) == s.(workers := map[0 := Intended, 1 := Intended]);
  }

  lemma BothPost(d: Dispatch, s: Plant)
    requires Acceptable(d) && s.task.None? && s.workers == map[0 := Intended, 1 := Intended]
    ensures var t := Next(d, Next(d, s, Act(0, SURELY)), Act(1, SURELY));
      t.posts == s.posts + 2 && t.creations == s.creations + 1
  {
    hide R.ScenarioError;
    var t := Next(d, s, Act(0, SURELY));
    assert t.posts == s.posts + 1 && t.task.Some? && t.creations == s.creations + 1 && 1 in t.workers && t.workers[1] == Intended;
  }

  /** A cancellation beside the frozen intent finds no task and gives the reservation back. */
  lemma CancellationBesideIntent(d: Dispatch, amount: nat)
    ensures var s := Next(d, CancelBeside(amount), Act(1, SURELY));
      OwesNothing(s.ledger) && s.task.None? && 0 in s.workers && s.workers[0] == Intended
  {
    EarlyTransactions(amount);
    hide L.CancellationRecorded, OwesNothing;
  }

  function CancelBeside(amount: nat): Plant {
    OneIntent(amount).(workers := map[0 := Intended, 1 := CancelAnswered(NO_REMOTE_TASK, None)])
  }

  lemma CancellationStarts(d: Dispatch, amount: nat)
    ensures Next(d, Next(d, OneIntent(amount), StartCancel(1)), Act(1, SURELY)) == CancelBeside(amount)
  {
    var s := OneIntent(amount).(workers := map[0 := Intended, 1 := Cancelling]);
    assert Next(d, OneIntent(amount), StartCancel(1)) == s;
    assert Next(d, s, Act(1, SURELY)).workers == CancelBeside(amount).workers;
  }

  const INTENT := [StartExecute(0)] + [Act(0, SURELY)]

  /** Without it, a cancellation can also record "no remote task" just before a forgotten attempt pays. */
  lemma OverlapPaysAfterRelease(d: Dispatch, amount: nat)
    requires Acceptable(d)
    ensures var s := Run(d, Initial(amount), INTENT + [StartCancel(1), Act(1, SURELY)] + [Act(1, SURELY), Act(0, SURELY)]);
      OwesNothing(s.ledger) && s.task.Some?
  {
    OneIntentIsReachable(d, amount);
    CancellationStarts(d, amount);
    CancellationBesideIntent(d, amount);
    PostingCreates(d, Next(d, CancelBeside(amount), Act(1, SURELY)));
    hide Next, OwesNothing, Run, OneIntent, CancelBeside;
    TwoSteps(d, OneIntent(amount), StartCancel(1), Act(1, SURELY));
    TwoSteps(d, CancelBeside(amount), Act(1, SURELY), Act(0, SURELY));
    RunSplits(d, Initial(amount), INTENT + [StartCancel(1), Act(1, SURELY)], [Act(1, SURELY), Act(0, SURELY)]);
    RunSplits(d, Initial(amount), INTENT, [StartCancel(1), Act(1, SURELY)]);
  }

  lemma PostingCreates(d: Dispatch, s: Plant)
    requires Acceptable(d) && s.task.None? && 0 in s.workers && s.workers[0] == Intended
    ensures var t := Next(d, s, Act(0, SURELY)); t.task.Some? && t.ledger == s.ledger
  {
    hide R.ScenarioError;
  }

  /**
   Nor may the workflow call a run failed before an execution returned: the ledger releases any live job it has no
   name for (`L.FailedVerdictsRelease` says exactly when), and such a task may be running.
   */
  lemma EarlyVerdictReleasesALiveTask(d: Dispatch, amount: nat)
    requires Acceptable(d)
    ensures var s := Run(d, Initial(amount), INTENT + [Act(0, SURELY.(network := ReplyLost)), Finalize(false)]);
      OwesNothing(s.ledger) && s.task.Some?
  {
    var lost := Act(0, SURELY.(network := ReplyLost));
    OneIntentIsReachable(d, amount);
    LostPostStillCreates(d, amount);
    hide Next, Run, OwesNothing, OneIntent;
    TwoSteps(d, OneIntent(amount), lost, Finalize(false));
    RunSplits(d, Initial(amount), INTENT, [lost, Finalize(false)]);
  }

  lemma LostPostStillCreates(d: Dispatch, amount: nat)
    requires Acceptable(d)
    ensures var s := Next(d, Next(d, OneIntent(amount), Act(0, SURELY.(network := ReplyLost))), Finalize(false));
      OwesNothing(s.ledger) && s.task.Some?
  {
    EarlyTransactions(amount);
    hide L.Finalized, OwesNothing, R.ScenarioError;
  }
}
