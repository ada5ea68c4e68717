/**
 The durable journal of workflow activities: a step that has completed replays its recorded result instead of
 running again, and a step's input can never change.
 */
module ActivityJournal {
  import opened Wrappers
  import opened Text

  datatype Step = Step(workflowID: string, activityID: string, activityType: string, traceID: string) {
    predicate Named() {
      !Blank(workflowID) && !Blank(activityID) && !Blank(activityType) && !Blank(traceID)
    }

    /** What identifies the step. */
    function Key(): (string, string) {
      (workflowID, activityID)
    }
  }

  datatype Entry = Entry(inputHash: string, response: Option<string>)

  type Journal = map<(string, string), Entry>

  /** Reserves the step, or finds the result it completed with; an error leaves the journal as it is. */
  function Begun(j: Journal, step: Step, inputHash: string): (Journal, Option<Option<string>>) {
    if !step.Named() then (j, None)
    else if step.Key() !in j then (j[step.Key() := Entry(inputHash, None)], Some(None))
    else if j[step.Key()].inputHash != inputHash then (j, None)
    else (j, Some(j[step.Key()].response))
  }

  /** Records a result once; json: the output is valid. The boolean says that no error is reported. */
  function Completed(j: Journal, step: Step, inputHash: string, output: string, json: bool): (Journal, bool) {
    if !step.Named() || !json || step.Key() !in j || j[step.Key()].inputHash != inputHash then (j, false)
    else if j[step.Key()].response.Some? then (j, true)
    else (j[step.Key() := Entry(inputHash, Some(output))], true)
  }

  datatype Event =
    | Begin(step: Step, inputHash: string)
    | Complete(step: Step, inputHash: string, output: string, json: bool)

  function Next(j: Journal, event: Event): Journal {
    match event
    case Begin(step, inputHash) => Begun(j, step, inputHash).0
    case Complete(step, inputHash, output, json) => Completed(j, step, inputHash, output, json).0
  }

  function Run(j: Journal, events: seq<Event>): Journal
    decreases |events|
  {
    if events == [] then j else Run(Next(j, events[0]), events[1..])
  }

  lemma {:induction false} RunGoesOn(j: Journal, events: seq<Event>, next: Event)
    ensures Run(j, []) == j && Run(j, events + [next]) == Next(Run(j, events), next)
    decreases |events|
  {
    hide Next;
    if events == [] {
      assert events + [next] == [next];
    } else {
      assert (events + [next])[1..] == events[1..] + [next];
      RunGoesOn(Next(j, events[0]), events[1..], next);
    }
  }

  /** Inputs never change, and a recorded result is never replaced. */
  predicate Extends(j: Journal, later: Journal) {
    forall key :: key in j ==>
      && key in later && later[key].inputHash == j[key].inputHash
      && (j[key].response.Some? ==> later[key] == j[key])
  }

  /** Whatever attempts interleave, crash and come back. */
  lemma {:induction false} JournalsOnlyExtend(j: Journal, events: seq<Event>)
    ensures Extends(j, Run(j, events))
    decreases |events|
  {
    if events != [] {
      JournalsOnlyExtend(Next(j, events[0]), events[1..]);
    }
  }

  /** How one attempt of an activity ends: run it if nothing is recorded; executed is None if it fails or dies. */
  function Journaled(j: Journal, step: Step, inputHash: string, executed: Option<string>, json: bool): (Journal, Option<string>) {
    var (begun, replay) := Begun(j, step, inputHash);
    if replay.None? then (begun, None)
    else if replay.value.Some? then (begun, replay.value)
    else if executed.None? then (begun, None)
    else
      var (completed, ok) := Completed(begun, step, inputHash, executed.value, json);
      (completed, if ok then executed else None)
  }

  datatype Attempt = Attempt(step: Step, inputHash: string, executed: Option<string>, json: bool)

  function After(j: Journal, attempts: seq<Attempt>): Journal
    decreases |attempts|
  {
    if attempts == [] then j
    else After(Journaled(j, attempts[0].step, attempts[0].inputHash, attempts[0].executed, attempts[0].json).0, attempts[1..])
  }

  lemma {:induction false} AttemptsGoOn(j: Journal, attempts: seq<Attempt>, next: Attempt)
    ensures After(j, []) == j
    ensures After(j, attempts + [next])
         == Journaled(After(j, attempts), next.step, next.inputHash, next.executed, next.json).0
    decreases |attempts|
  {
    hide Journaled;
    if attempts == [] {
      assert attempts + [next] == [next];
    } else {
      assert (attempts + [next])[1..] == attempts[1..] + [next];
      AttemptsGoOn(Journaled(j, attempts[0].step, attempts[0].inputHash, attempts[0].executed, attempts[0].json).0, attempts[1..], next);
    }
  }

  /**
   What one attempt comes to: refused if the step is nameless or was reserved for another input, a replay if a result
   is recorded, and otherwise its own valid result, recorded, or a bare reservation.
   */
  lemma AttemptsAreJournaled(j: Journal, attempt: Attempt)
    ensures var (step, key) := (attempt.step, (attempt.step.workflowID, attempt.step.activityID));
      var (later, result) := Journaled(j, step, attempt.inputHash, attempt.executed, attempt.json);
      if Blank(step.workflowID) || Blank(step.activityID) || Blank(step.activityType) || Blank(step.traceID)
         || (key in j && j[key].inputHash != attempt.inputHash) then later == j && result.None?
      else if key in j && j[key].response.Some? then later == j && result == j[key].response
      else
        && result == (if attempt.json then attempt.executed else None)
        && later == j[key := Entry(attempt.inputHash, result)]
  {
    hide Blank;
  }

  /** A completion is accepted for a step reserved with the same input, and recorded unless one was before. */
  lemma CompletionsAreKept(j: Journal, step: Step, inputHash: string, output: string, json: bool)
    ensures var key, (later, ok) := (step.workflowID, step.activityID), Completed(j, step, inputHash, output, json);
      && (ok ==> json && key in j && j[key].inputHash == inputHash)
      && (json && key in j && j[key].inputHash == inputHash && step.Named() ==> ok)
      && (ok && j[key].response.None? ==> later == j[key := Entry(inputHash, Some(output))])
      && (!ok || j[key].response.Some? ==> later == j)
  {
    hide Blank;
  }

  lemma {:induction false} AttemptsOnlyExtend(j: Journal, attempts: seq<Attempt>)
    ensures Extends(j, After(j, attempts))
    decreases |attempts|
  {
    if attempts != [] {
      var a := attempts[0];
      var next := Journaled(j, a.step, a.inputHash, a.executed, a.json).0;
      AttemptsOnlyExtend(next, attempts[1..]);
      assert Extends(j, next);
    }
  }

  /**
   Attempts that do not overlap agree: after one has returned a result, every later attempt of the step returns
   that result whatever it would have computed, or is refused because its input differs.
   */
  lemma NonOverlappingAttemptsAgree(j: Journal, first: Attempt, between: seq<Attempt>, again: Attempt)
    requires Journaled(j, first.step, first.inputHash, first.executed, first.json).1.Some?
    requires again.step.Named() && again.step.Key() == first.step.Key()
    ensures var (after, result) := Journaled(j, first.step, first.inputHash, first.executed, first.json);
      var later := After(after, between);
      Journaled(later, again.step, again.inputHash, again.executed, again.json)
        == (later, if again.inputHash == first.inputHash then result else None)
  {
    AttemptsOnlyExtend(Journaled(j, first.step, first.inputHash, first.executed, first.json).0, between);
  }

  /** Overlapping attempts need not: the later one to complete returns its own result, while the journal keeps the other. */
  lemma OverlappingAttemptsMayDisagree(step: Step, inputHash: string, x: string, y: string)
    requires step.Named() && x != y
    ensures var j := Run(map[], [Begin(step, inputHash), Begin(step, inputHash), Complete(step, inputHash, x, true)]);
      && Begun(Run(map[], [Begin(step, inputHash)]), step, inputHash).1 == Some(None)
      && Completed(j, step, inputHash, y, true) == (j, true)
      && j[step.Key()].response == Some(x)
  {
    var begin, complete := Begin(step, inputHash), Complete(step, inputHash, x, true);
    var begun: Journal := map[step.Key() := Entry(inputHash, None)];
    assert Next(map[], begin) == begun && Next(begun, begin) == begun;
    assert Run(map[], [begin]) == Run(Next(map[], begin), []) == begun;
    assert [begin, begin, complete][1..] == [begin, complete] && [begin, complete][1..] == [complete] && [complete][1..] == [];
    assert Run(begun, [begin, complete]) == Run(Next(begun, begin), [complete]) == Run(Next(begun, complete), []);
  }

  /**
   Exactly when they disagree. An attempt begins, finds nothing recorded, and completes with y after anything else
   has happened: it returns y, and the journal holds another result if and only if someone recorded one meanwhile.
   */
  lemma AttemptsDisagreeWithEarlierResults(j: Journal, step: Step, inputHash: string, between: seq<Event>, y: string)
    requires Begun(j, step, inputHash).1 == Some(None)
    ensures var later := Run(Begun(j, step, inputHash).0, between);
      var (after, ok) := Completed(later, step, inputHash, y, true);
      && step.Key() in later && step.Key() in after && ok
      && (after[step.Key()].response != Some(y) <==> later[step.Key()].response.Some? && later[step.Key()].response != Some(y))
  {
    JournalsOnlyExtend(Begun(j, step, inputHash).0, between);
  }

  class WorkflowStepJournal {
    var entries: map<(string, string), Entry>
    ghost var executions: seq<Option<string>>

    constructor ()
      ensures entries == map[] && executions == []
    {
      entries, executions := map[], [];
    }

    method BeginWorkflowStep(step: Step, inputHash: string) returns (r: Option<Option<string>>)
      modifies this`entries
      ensures (entries, r) == Begun(old(entries), step, inputHash)
      ensures Extends(old(entries), entries)
      ensures r.Some? ==> step.Key() in entries && entries[step.Key()] == Entry(inputHash, r.value)
    {
      if !step.Named() {
        return None;
      }
      if step.Key() !in entries {
        entries := entries[step.Key() := Entry(inputHash, None)];
        return Some(None);
      }
      if entries[step.Key()].inputHash != inputHash {
        return None;
      }
      r := Some(entries[step.Key()].response);
    }

    method CompleteWorkflowStep(step: Step, inputHash: string, output: string, json: bool) returns (ok: bool)
      modifies this`entries
      ensures (entries, ok) == Completed(old(entries), step, inputHash, output, json)
      ensures Extends(old(entries), entries)
      ensures ok ==> step.Key() in entries && entries[step.Key()].response.Some?
    {
      if !step.Named() || !json {
        return false;
      }
      if step.Key() !in entries || entries[step.Key()].inputHash != inputHash {
        return false;
      }
      if entries[step.Key()].response.Some? {
        return true;
      }
      entries := entries[step.Key() := Entry(inputHash, Some(output))];
      ok := true;
    }

    /** The activity itself may do anything, fail, or die. */
    method Execute() returns (r: Option<string>)
      modifies this`executions
      ensures executions == old(executions) + [r]
    {
      r := *;
      executions := executions + [r];
    }

    /** Runs the activity unless its result is already recorded. ran says whether it ran. */
    method JournalActivity(step: Step, inputHash: string, json: bool)
      returns (r: Option<string>, ran: bool, ghost executed: Option<string>)
      modifies this
      ensures (entries, r) == Journaled(old(entries), step, inputHash, executed, json)
      ensures Extends(old(entries), entries)
      ensures r.Some? ==> step.Key() in entries && entries[step.Key()] == Entry(inputHash, r)
      ensures var unfinished :=
          step.Key() in old(entries) ==> old(entries)[step.Key()] == Entry(inputHash, None);
        ran <==> step.Named() && unfinished
      ensures executions == old(executions) + (if ran then [executed] else [])
    {
      r, ran, executed := None, false, None;
      var replay := BeginWorkflowStep(step, inputHash);
      if replay.None? {
        return;
      }
      if replay.value.Some? {
        return replay.value, false, None;
      }
      ran := true;
      var result := Execute();
      executed := result;
      if result.None? {
        return;
      }
      var ok := CompleteWorkflowStep(step, inputHash, result.value, json);
      r := if ok then result else None;
    }
  }
}
