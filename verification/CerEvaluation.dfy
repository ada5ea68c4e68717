/**
 The character-error-rate evaluator: it fills the distance table, walks it back, rescores substitutions
 between Han characters that share a reading, and decides the release gate.

 The texts arrive normalized, and the readings as a lexicon.
 */
module CerEvaluation {
  import opened Wrappers
  import opened Ordering
  import opened EditScripts

  datatype Kind = MatchOp | SubstitutionOp | DeletionOp | InsertionOp

  datatype EditOperation = EditOperation(
    index: nat,
    kind: Kind,
    reference: string,
    hypothesis: string,
    referenceIndex: Option<nat>,
    hypothesisIndex: Option<nat>,
    standardCost: nat,
    toneAwareCost: nat,
    referenceReadings: seq<string>,
    hypothesisReadings: seq<string>,
    sharedReadings: seq<string>,
    reclassified: bool)

  /** The operation recorded for edit e, the index-th of its script, taken at position (i, j) of the texts. */
  function Operation(e: Edit, index: nat, i: nat, j: nat): EditOperation {
    match e
    case Match(c) =>
      EditOperation(index, MatchOp, [c], [c], Some(i), Some(j), 0, 0, [], [], [], false)
    case Substitution(a, b) =>
      EditOperation(index, SubstitutionOp, [a], [b], Some(i), Some(j), 1, 0, [], [], [], false)
    case Deletion(a) =>
      EditOperation(index, DeletionOp, [a], [], Some(i), None, 1, 0, [], [], [], false)
    case Insertion(b) =>
      EditOperation(index, InsertionOp, [], [b], None, Some(j), 1, 0, [], [], [], false)
  }

  /** A script written out as numbered operations, each knowing where it acts in both texts. */
  function Operations(script: Script): seq<EditOperation> {
    match script
    case Nothing => []
    case Then(init, e) =>
      Operations(init) + [Operation(e, |Operations(init)|, |init.Source()|, |init.Target()|)]
  }

  /** The first `rows` rows of the table hold the distances of their prefixes. */
  ghost predicate Filled(distance: array2<nat>, reference: string, hypothesis: string, rows: nat)
    reads distance
  {
    && distance.Length0 == |reference| + 1 && distance.Length1 == |hypothesis| + 1
    && rows <= |reference| + 1
    && forall i, j :: 0 <= i < rows && 0 <= j <= |hypothesis| ==>
         distance[i, j] == Distance(Standard, reference, hypothesis, i, j)
  }

  /** Row i of the table holds distances up to column `columns`. */
  ghost predicate RowFilled(distance: array2<nat>, reference: string, hypothesis: string, i: nat, columns: nat)
    reads distance
  {
    && distance.Length0 == |reference| + 1 && distance.Length1 == |hypothesis| + 1
    && i <= |reference| && columns <= |hypothesis| + 1
    && forall j :: 0 <= j < columns ==> distance[i, j] == Distance(Standard, reference, hypothesis, i, j)
  }

  method FillTable(reference: string, hypothesis: string) returns (distance: array2<nat>)
    ensures fresh(distance)
    ensures Filled(distance, reference, hypothesis, |reference| + 1)
  {
    hide Distance;
    distance := new nat[|reference| + 1, |hypothesis| + 1];
    for i := 0 to |reference| + 1
      invariant forall k :: 0 <= k < i ==> distance[k, 0] == k
    {
      distance[i, 0] := i;
    }
    for j := 0 to |hypothesis| + 1
      invariant forall k :: 0 <= k <= |reference| ==> distance[k, 0] == k
      invariant RowFilled(distance, reference, hypothesis, 0, j)
    {
      distance[0, j] := j;
      OneStep(Standard, reference, hypothesis, 0, j);
    }
    for i := 1 to |reference| + 1
      invariant forall k :: 0 <= k <= |reference| ==> distance[k, 0] == k
      invariant Filled(distance, reference, hypothesis, i)
    {
      OneStep(Standard, reference, hypothesis, i, 0);
      for j := 1 to |hypothesis| + 1
        invariant forall k :: 0 <= k <= |reference| ==> distance[k, 0] == k
        invariant Filled(distance, reference, hypothesis, i)
        invariant RowFilled(distance, reference, hypothesis, i, j)
      {
        var cost := 1;
        if reference[i - 1] == hypothesis[j - 1] {
          cost := 0;
        }
        OneStep(Standard, reference, hypothesis, i, j);
        distance[i, j] := Min3(distance[i - 1, j - 1] + cost, distance[i - 1, j] + 1, distance[i, j - 1] + 1);
      }
    }
  }

  function Min3(first: nat, second: nat, third: nat): (m: nat)
    ensures m <= first && m <= second && m <= third && m in {first, second, third}
  {
    if first <= second && first <= third then first
    else if second <= third then second
    else third
  }

  /** The part of a script's operations that the traceback has already emitted, last edit first. */
  ghost predicate EmittedFrom(operations: seq<EditOperation>, pending: seq<EditOperation>, reversed: seq<EditOperation>) {
    && |operations| == |pending| + |reversed|
    && operations[..|pending|] == pending
    && forall k :: 0 <= k < |reversed| ==> operations[|operations| - 1 - k] == reversed[k].(index := |operations| - 1 - k)
  }

  /** An aligned script covers exactly the characters it aligns. */
  lemma {:induction false} AlignedLengths(script: Script, r: string, h: string, i: nat, j: nat)
    requires i <= |r| && j <= |h| && script.Aligns(r, h, i, j)
    ensures |script.Source()| == i && |script.Target()| == j
  {
    if script.Then? {
      AlignedLengths(script.init, r, h, i - script.last.Taken(), j - script.last.Given());
    }
  }

  lemma TraceLengths(r: string, h: string, i: nat, j: nat)
    requires i <= |r| && j <= |h|
    ensures |Trace(r, h, i, j).Source()| == i && |Trace(r, h, i, j).Target()| == j
  {
    TraceIsOptimal(r, h, i, j);
    AlignedLengths(Trace(r, h, i, j), r, h, i, j);
  }

  /** Moves the last pending operation to the reversed part, where its number is still blank. */
  lemma EmitLast(operations: seq<EditOperation>, pending: seq<EditOperation>, reversed: seq<EditOperation>,
                 init: seq<EditOperation>, last: EditOperation)
    requires EmittedFrom(operations, pending, reversed)
    requires pending == init + [last.(index := |init|)]
    ensures EmittedFrom(operations, init, reversed + [last])
  {
    assert operations[|init|] == operations[..|pending|][|init|] == pending[|init|];
    assert operations[..|init|] == operations[..|pending|][..|init|] == init;
  }

  lemma OperationsOfExtension(init: Script, e: Edit)
    ensures Operations(Then(init, e)) ==
      Operations(init) + [Operation(e, 0, |init.Source()|, |init.Target()|).(index := |Operations(init)|)]
  {
  }

  /** What the traceback's edit at (i, j) adds to the operations of the script before it. */
  lemma TraceOperation(r: string, h: string, i: nat, j: nat)
    requires i <= |r| && j <= |h| && i + j > 0
    ensures var e := TraceEdit(r, h, i, j);
      var i', j' := i - e.Taken(), j - e.Given();
      var init := Operations(Trace(r, h, i', j'));
      Operations(Trace(r, h, i, j)) == init + [Operation(e, 0, i', j').(index := |init|)]
  {
    hide Distance, TraceEdit, Trace, Operations, Operation;
    var e := TraceEdit(r, h, i, j);
    var init := Trace(r, h, i - e.Taken(), j - e.Given());
    TraceExtension(r, h, i, j);
    TraceLengths(r, h, i - e.Taken(), j - e.Given());
    OperationsOfExtension(init, e);
  }

  lemma NothingEmitted(operations: seq<EditOperation>)
    ensures EmittedFrom(operations, operations, [])
  {
  }

  lemma TraceOperationsStartEmpty(r: string, h: string)
    ensures Operations(Trace(r, h, 0, 0)) == []
  {
  }

  method NumberFromTheLeft(reversed: seq<EditOperation>, ghost target: seq<EditOperation>) returns (operations: array<EditOperation>)
    requires EmittedFrom(target, [], reversed)
    ensures fresh(operations) && operations[..] == target
  {
    operations := new EditOperation[|reversed|];
    for index := 0 to |reversed|
      invariant forall k :: 0 <= k < index ==> operations[k] == target[k]
    {
      operations[index] := reversed[|reversed| - 1 - index].(index := index);
    }
  }

  /** Walks the filled table back and returns the operations left to right. */
  method LevenshteinOperations(reference: string, hypothesis: string) returns (operations: array<EditOperation>)
    ensures fresh(operations)
    ensures operations[..] == Operations(Trace(reference, hypothesis, |reference|, |hypothesis|))
  {
    hide Distance, Operations, Operation, Trace, EmittedFrom;
    var distance := FillTable(reference, hypothesis);
    var i, j := |reference|, |hypothesis|;
    var reversed: seq<EditOperation> := [];
    ghost var target := Operations(Trace(reference, hypothesis, i, j));
    NothingEmitted(target);
    while i > 0 || j > 0
      invariant 0 <= i <= |reference| && 0 <= j <= |hypothesis|
      invariant Filled(distance, reference, hypothesis, |reference| + 1)
      invariant EmittedFrom(target, Operations(Trace(reference, hypothesis, i, j)), reversed)
      decreases i + j
    {
      ghost var e := TraceEdit(reference, hypothesis, i, j);
      ghost var i', j' := i - e.Taken(), j - e.Given();
      TraceOperation(reference, hypothesis, i, j);
      EmitLast(target, Operations(Trace(reference, hypothesis, i, j)), reversed,
               Operations(Trace(reference, hypothesis, i', j')), Operation(e, 0, i', j'));
      var operation;
      if i > 0 && j > 0 && reference[i - 1] == hypothesis[j - 1] && distance[i, j] == distance[i - 1, j - 1] {
        i, j := i - 1, j - 1;
        operation := Operation(Match(reference[i]), 0, i, j);
      } else if i > 0 && j > 0 && distance[i, j] == distance[i - 1, j - 1] + 1 {
        i, j := i - 1, j - 1;
        operation := Operation(Substitution(reference[i], hypothesis[j]), 0, i, j);
      } else if i > 0 && distance[i, j] == distance[i - 1, j] + 1 {
        i := i - 1;
        operation := Operation(Deletion(reference[i]), 0, i, j);
      } else {
        assert e.Insertion?;
        j := j - 1;
        operation := Operation(Insertion(hypothesis[j]), 0, i, j);
      }
      assert (i, j) == (i', j') && operation == Operation(e, 0, i, j);
      reversed := reversed + [operation];
    }
    TraceOperationsStartEmpty(reference, hypothesis);
    operations := NumberFromTheLeft(reversed, target);
  }

  // ---- Scoring ----

  datatype Status = DiagnosticPassed | DiagnosticFailed | Passed | Failed

  datatype Metric = Metric(errors: nat, reference: nat, status: Status)

  /** At most two errors per hundred reference characters pass; only the release gate's verdict is binding. */
  function MetricOf(errors: nat, reference: nat, releaseGate: bool): Metric {
    var failed := errors * 100 > reference * 2;
    var status :=
      if releaseGate then (if failed then Failed else Passed)
      else if failed then DiagnosticFailed else DiagnosticPassed;
    Metric(errors, reference, status)
  }

  function CommonReadings(reference: seq<string>, hypothesis: seq<string>): (shared: seq<string>)
    ensures forall reading :: reading in shared <==> reading in reference && reading in hypothesis
  {
    if hypothesis == [] then []
    else if hypothesis[0] in reference then [hypothesis[0]] + CommonReadings(reference, hypothesis[1..])
    else CommonReadings(reference, hypothesis[1..])
  }

  /** The hypothesis readings that the reference has too, in text order. */
  method SharedReadings(reference: seq<string>, hypothesis: seq<string>) returns (shared: seq<string>)
    ensures multiset(shared) == multiset(CommonReadings(reference, hypothesis))
    ensures SortedBy(shared, TextLeq)
  {
    var seen := {};
    for k := 0 to |reference|
      invariant seen == set reading | reading in reference[..k]
    {
      seen := seen + {reference[k]};
    }
    assert reference[..|reference|] == reference;
    var unsorted := [];
    for k := 0 to |hypothesis|
      invariant unsorted + CommonReadings(reference, hypothesis[k..]) == CommonReadings(reference, hypothesis)
    {
      if hypothesis[k] in seen {
        unsorted := unsorted + [hypothesis[k]];
      }
    }
    TextOrder();
    shared := Sort(unsorted, TextLeq);
  }

  /** A substitution carries the two characters its rescoring reads. */
  predicate Readable(operation: EditOperation) {
    operation.kind.SubstitutionOp? ==> operation.reference != [] && operation.hypothesis != []
  }

  /** after is before with its tone-aware score filled in. */
  ghost predicate Rescored(lexicon: Lexicon, before: EditOperation, after: EditOperation)
    requires Readable(before)
  {
    if before.kind.SubstitutionOp? && before.reference[0] in lexicon.han && before.hypothesis[0] in lexicon.han then
      var left, right := lexicon.Readings(before.reference[0]), lexicon.Readings(before.hypothesis[0]);
      var shared := after.sharedReadings;
      && multiset(shared) == multiset(CommonReadings(left, right))
      && SortedBy(shared, TextLeq)
      && after == before.(
           referenceReadings := left, hypothesisReadings := right, sharedReadings := shared,
           reclassified := if shared != [] then true else before.reclassified,
           toneAwareCost := if shared != [] then 0 else before.standardCost)
    else after == before.(toneAwareCost := before.standardCost)
  }

  function StandardErrors(operations: seq<EditOperation>): nat {
    if operations == [] then 0
    else StandardErrors(operations[..|operations| - 1]) + operations[|operations| - 1].standardCost
  }

  function ToneAwareErrors(operations: seq<EditOperation>): nat {
    if operations == [] then 0
    else ToneAwareErrors(operations[..|operations| - 1]) + operations[|operations| - 1].toneAwareCost
  }

  /** Every operation a script produces is readable. */
  lemma {:induction false} OperationsAreReadable(script: Script)
    ensures forall k :: 0 <= k < |Operations(script)| ==> Readable(Operations(script)[k])
  {
    if script.Then? {
      OperationsAreReadable(script.init);
    }
  }

  /** A rescored operation is charged what tone-aware scoring charges its edit. */
  lemma RescoredCost(lexicon: Lexicon, e: Edit, index: nat, i: nat, j: nat, after: EditOperation)
    requires Rescored(lexicon, Operation(e, index, i, j), after)
    ensures after.standardCost == Standard.EditCost(e)
    ensures after.toneAwareCost == ToneAware(lexicon).EditCost(e)
  {
    if e.Substitution? {
      var left, right := lexicon.Readings(e.replaced), lexicon.Readings(e.replacement);
      var common := CommonReadings(left, right);
      if e.replaced in lexicon.han && e.replacement in lexicon.han {
        assert after.sharedReadings == [] <==> common == [] by {
          assert |multiset(after.sharedReadings)| == |multiset(common)|;
        }
        if common != [] {
          assert common[0] in left && common[0] in right;
        }
      }
    }
  }

  /** The error totals over rescored operations are the two costs of the script. */
  lemma {:induction false} ErrorsAreCosts(lexicon: Lexicon, script: Script, operations: seq<EditOperation>)
    requires |operations| == |Operations(script)|
    requires forall k :: 0 <= k < |operations| ==>
      Readable(Operations(script)[k]) && Rescored(lexicon, Operations(script)[k], operations[k])
    ensures StandardErrors(operations) == script.Cost(Standard)
    ensures ToneAwareErrors(operations) == script.Cost(ToneAware(lexicon))
  {
    if script.Then? {
      var n := |operations| - 1;
      var init := operations[..n];
      assert Operations(script)[n] == Operation(script.last, n, |script.init.Source()|, |script.init.Target()|);
      forall k | 0 <= k < n ensures Rescored(lexicon, Operations(script.init)[k], init[k]) {
        assert Operations(script)[k] == Operations(script.init)[k];
      }
      ErrorsAreCosts(lexicon, script.init, init);
      RescoredCost(lexicon, script.last, n, |script.init.Source()|, |script.init.Target()|, operations[n]);
    }
  }

  // ---- What the evidence says by itself ----

  function ReferenceText(operations: seq<EditOperation>): string {
    if operations == [] then [] else ReferenceText(operations[..|operations| - 1]) + operations[|operations| - 1].reference
  }

  function HypothesisText(operations: seq<EditOperation>): string {
    if operations == [] then [] else HypothesisText(operations[..|operations| - 1]) + operations[|operations| - 1].hypothesis
  }

  /** The operation knows its number, the characters it acts on, where they stand in both texts, and its standard charge. */
  predicate Tells(operation: EditOperation, index: nat, i: nat, j: nat) {
    && operation.index == index
    && operation.referenceIndex == (if operation.reference == [] then None else Some(i))
    && operation.hypothesisIndex == (if operation.hypothesis == [] then None else Some(j))
    && operation.standardCost == (if operation.reference == operation.hypothesis then 0 else 1)
    && match operation.kind
       case MatchOp => |operation.reference| == 1 && operation.hypothesis == operation.reference
       case SubstitutionOp => |operation.reference| == 1 == |operation.hypothesis| && operation.hypothesis != operation.reference
       case DeletionOp => |operation.reference| == 1 && operation.hypothesis == []
       case InsertionOp => operation.reference == [] && |operation.hypothesis| == 1
  }

  /** Read in order, the operations spell both texts. */
  predicate Spells(operations: seq<EditOperation>, reference: string, hypothesis: string) {
    && ReferenceText(operations) == reference && HypothesisText(operations) == hypothesis
    && forall k :: 0 <= k < |operations| ==>
         Tells(operations[k], k, |ReferenceText(operations[..k])|, |HypothesisText(operations[..k])|)
  }

  /** The readings and the tone-aware charge: a substitution of Han characters that share a reading is free. */
  ghost predicate Weighs(lexicon: Lexicon, operation: EditOperation)
    requires Readable(operation)
  {
    if operation.kind.SubstitutionOp? && operation.reference[0] in lexicon.han && operation.hypothesis[0] in lexicon.han then
      && operation.referenceReadings == lexicon.Readings(operation.reference[0])
      && operation.hypothesisReadings == lexicon.Readings(operation.hypothesis[0])
      && (forall reading :: reading in operation.sharedReadings <==>
            reading in operation.referenceReadings && reading in operation.hypothesisReadings)
      && (operation.reclassified <==> operation.sharedReadings != [])
      && operation.toneAwareCost == (if operation.reclassified then 0 else operation.standardCost)
    else
      && operation.referenceReadings == operation.hypothesisReadings == operation.sharedReadings == []
      && !operation.reclassified && operation.toneAwareCost == operation.standardCost
  }

  /** Rescoring changes the tone-aware fields only. */
  predicate SameEdit(before: EditOperation, after: EditOperation) {
    after == before.(toneAwareCost := after.toneAwareCost, referenceReadings := after.referenceReadings,
                     hypothesisReadings := after.hypothesisReadings, sharedReadings := after.sharedReadings,
                     reclassified := after.reclassified)
  }

  lemma {:induction false} SameTexts(before: seq<EditOperation>, after: seq<EditOperation>)
    requires |before| == |after| && forall k :: 0 <= k < |before| ==> SameEdit(before[k], after[k])
    ensures ReferenceText(after) == ReferenceText(before) && HypothesisText(after) == HypothesisText(before)
    decreases |before|
  {
    if before != [] {
      SameTexts(before[..|before| - 1], after[..|after| - 1]);
    }
  }

  lemma SameSpelling(before: seq<EditOperation>, after: seq<EditOperation>, reference: string, hypothesis: string)
    requires |before| == |after| && forall k :: 0 <= k < |before| ==> SameEdit(before[k], after[k])
    requires Spells(before, reference, hypothesis)
    ensures Spells(after, reference, hypothesis)
  {
    SameTexts(before, after);
    forall k | 0 <= k < |after|
      ensures Tells(after[k], k, |ReferenceText(after[..k])|, |HypothesisText(after[..k])|)
    {
      SameTexts(before[..k], after[..k]);
      assert Tells(before[k], k, |ReferenceText(before[..k])|, |HypothesisText(before[..k])|);
    }
  }

  /** The operations of a script whose substitutions change something spell the texts the script joins. */
  lemma {:induction false} OperationsSpell(script: Script)
    requires forall e :: script.Contains(e) && e.Substitution? ==> e.replaced != e.replacement
    ensures Spells(Operations(script), script.Source(), script.Target())
  {
    hide Spells, Tells, Operation;
    if script.Then? {
      var init, e := script.init, script.last;
      var before := Operations(init);
      assert forall other :: init.Contains(other) ==> script.Contains(other);
      OperationsSpell(init);
      assert script.Contains(e);
      OperationTells(e, |before|, |init.Source()|, |init.Target()|);
      SpellingGrows(before, Operation(e, |before|, |init.Source()|, |init.Target()|), init.Source(), init.Target());
    } else {
      NothingSpells();
    }
  }

  lemma OperationTells(e: Edit, index: nat, i: nat, j: nat)
    requires e.Substitution? ==> e.replaced != e.replacement
    ensures var operation := Operation(e, index, i, j);
      Tells(operation, index, i, j) && operation.reference == e.Source() && operation.hypothesis == e.Target()
  {
  }

  lemma NothingSpells()
    ensures Spells([], [], [])
  {
  }

  lemma SpellingGrows(before: seq<EditOperation>, last: EditOperation, reference: string, hypothesis: string)
    requires Spells(before, reference, hypothesis) && Tells(last, |before|, |reference|, |hypothesis|)
    ensures Spells(before + [last], reference + last.reference, hypothesis + last.hypothesis)
  {
    hide Tells;
    var after := before + [last];
    assert after[..|before|] == before;
    forall k | 0 <= k < |before| ensures Tells(after[k], k, |ReferenceText(after[..k])|, |HypothesisText(after[..k])|) {
      assert after[..k] == before[..k];
    }
  }

  lemma {:induction false} OperationsStartUnweighed(script: Script, k: nat)
    requires k < |Operations(script)|
    ensures var operation := Operations(script)[k];
      !operation.reclassified && operation.referenceReadings == operation.hypothesisReadings == operation.sharedReadings == []
  {
    if script.Then? && k < |Operations(script.init)| {
      OperationsStartUnweighed(script.init, k);
    }
  }

  lemma RescoredWeighs(lexicon: Lexicon, before: EditOperation, after: EditOperation)
    requires Readable(before) && Rescored(lexicon, before, after)
    requires !before.reclassified && before.referenceReadings == before.hypothesisReadings == before.sharedReadings == []
    ensures SameEdit(before, after) && Readable(after) && Weighs(lexicon, after)
  {
    if before.kind.SubstitutionOp? && before.reference[0] in lexicon.han && before.hypothesis[0] in lexicon.han {
      var common := CommonReadings(lexicon.Readings(before.reference[0]), lexicon.Readings(before.hypothesis[0]));
      forall reading ensures reading in after.sharedReadings <==> reading in common {
        assert reading in multiset(after.sharedReadings) <==> reading in multiset(common);
      }
    }
  }

  lemma {:induction false} EvidenceSpeaks(lexicon: Lexicon, r: string, h: string, operations: seq<EditOperation>)
    requires var before := Operations(Trace(r, h, |r|, |h|));
      && |operations| == |before|
      && forall k :: 0 <= k < |before| ==> Readable(before[k]) && Rescored(lexicon, before[k], operations[k])
    ensures Spells(operations, r, h)
    ensures forall k :: 0 <= k < |operations| ==> Readable(operations[k]) && Weighs(lexicon, operations[k])
  {
    hide Distance, Trace, Operations, Rescored, Readable, Spells, SameEdit, Weighs;
    var script := Trace(r, h, |r|, |h|);
    var before := Operations(script);
    TraceIsTheFirstOptimalScript(r, h);
    forall e | script.Contains(e) && e.Substitution? ensures e.replaced != e.replacement {
      SubstitutionsDiffer(r, h, |r|, |h|, e);
    }
    OperationsSpell(script);
    forall k | 0 <= k < |before|
      ensures SameEdit(before[k], operations[k]) && Readable(operations[k]) && Weighs(lexicon, operations[k])
    {
      OperationsStartUnweighed(script, k);
      RescoredWeighs(lexicon, before[k], operations[k]);
    }
    SameSpelling(before, operations, r, h);
  }

  datatype Evidence = Evidence(operations: seq<EditOperation>, standard: Metric, toneAware: Metric)

  datatype EvaluationError = EmptyText

  method Evaluate(reference: string, hypothesis: string, lexicon: Lexicon) returns (r: Result<Evidence, EvaluationError>)
    ensures r.Err? <==> reference == [] || hypothesis == []
    ensures r.Ok? ==>
      var script := Trace(reference, hypothesis, |reference|, |hypothesis|);
      && |r.value.operations| == |Operations(script)|
      && (forall k :: 0 <= k < |r.value.operations| ==>
            Readable(Operations(script)[k]) && Rescored(lexicon, Operations(script)[k], r.value.operations[k]))
    ensures r.Ok? ==> Spells(r.value.operations, reference, hypothesis)
    ensures r.Ok? ==> forall k :: 0 <= k < |r.value.operations| ==>
      Readable(r.value.operations[k]) && Weighs(lexicon, r.value.operations[k])
    ensures r.Ok? ==>
      var errors := Distance(Standard, reference, hypothesis, |reference|, |hypothesis|);
      && r.value.standard.errors == errors && r.value.standard.reference == |reference|
      && r.value.standard.status == (if errors * 100 <= |reference| * 2 then DiagnosticPassed else DiagnosticFailed)
    ensures r.Ok? ==>
      var errors := Trace(reference, hypothesis, |reference|, |hypothesis|).Cost(ToneAware(lexicon));
      && r.value.toneAware.errors == errors && r.value.toneAware.reference == |reference|
      && r.value.toneAware.status == (if errors * 100 <= |reference| * 2 then Passed else Failed)
  {
    hide Distance, Operations, Trace, Spells, Weighs;
    if reference == [] || hypothesis == [] {
      return Err(EmptyText);
    }
    var operations := LevenshteinOperations(reference, hypothesis);
    ghost var script := Trace(reference, hypothesis, |reference|, |hypothesis|);
    OperationsAreReadable(script);
    var standardErrors, toneAwareErrors := RescoreAll(lexicon, operations);
    TraceIsOptimal(reference, hypothesis, |reference|, |hypothesis|);
    ErrorsAreCosts(lexicon, script, operations[..]);
    EvidenceSpeaks(lexicon, reference, hypothesis, operations[..]);
    r := Ok(Evidence(operations[..],
                     MetricOf(standardErrors, |reference|, false),
                     MetricOf(toneAwareErrors, |reference|, true)));
  }

  lemma ErrorsOneMore(done: seq<EditOperation>, operation: EditOperation)
    ensures StandardErrors(done + [operation]) == StandardErrors(done) + operation.standardCost
    ensures ToneAwareErrors(done + [operation]) == ToneAwareErrors(done) + operation.toneAwareCost
  {
    assert (done + [operation])[..|done|] == done;
  }

  lemma NoErrors()
    ensures StandardErrors([]) == ToneAwareErrors([]) == 0
  {
  }

  /** Rescores every operation in place and adds up both totals. */
  method RescoreAll(lexicon: Lexicon, operations: array<EditOperation>) returns (standardErrors: nat, toneAwareErrors: nat)
    requires forall k :: 0 <= k < operations.Length ==> Readable(operations[k])
    modifies operations
    ensures forall k :: 0 <= k < operations.Length ==> Rescored(lexicon, old(operations[k]), operations[k])
    ensures standardErrors == StandardErrors(operations[..]) && toneAwareErrors == ToneAwareErrors(operations[..])
  {
    hide Rescored, Readable, StandardErrors, ToneAwareErrors;
    ghost var was := operations[..];
    standardErrors, toneAwareErrors := 0, 0;
    NoErrors();
    for index := 0 to operations.Length
      invariant forall k :: index <= k < operations.Length ==> operations[k] == was[k]
      invariant forall k :: 0 <= k < |was| ==> Readable(was[k])
      invariant forall k :: 0 <= k < index ==> Rescored(lexicon, was[k], operations[k])
      invariant standardErrors == StandardErrors(operations[..index])
      invariant toneAwareErrors == ToneAwareErrors(operations[..index])
    {
      ghost var done := operations[..index];
      var rescored := Rescore(lexicon, operations[index]);
      operations[index] := rescored;
      assert operations[..index] == done;
      assert operations[..index + 1] == done + [rescored];
      ErrorsOneMore(done, rescored);
      standardErrors := standardErrors + rescored.standardCost;
      toneAwareErrors := toneAwareErrors + rescored.toneAwareCost;
    }
    assert operations[..operations.Length] == operations[..];
  }

  method Rescore(lexicon: Lexicon, before: EditOperation) returns (after: EditOperation)
    requires Readable(before)
    ensures Rescored(lexicon, before, after)
  {
    after := before.(toneAwareCost := before.standardCost);
    if before.kind == SubstitutionOp {
      var left, right := before.reference[0], before.hypothesis[0];
      if left in lexicon.han && right in lexicon.han {
        var shared := SharedReadings(lexicon.Readings(left), lexicon.Readings(right));
        after := after.(referenceReadings := lexicon.Readings(left), hypothesisReadings := lexicon.Readings(right),
                        sharedReadings := shared);
        if |shared| > 0 {
          after := after.(toneAwareCost := 0, reclassified := true);
        }
      }
    }
  }

  /**
   What the release gate can and cannot be talked into: it passes whenever the standard error rate does,
   and fails whenever even the best tone-aware alignment is over the threshold.
   */
  lemma {:induction false} GateFollowsTheAlignment(lexicon: Lexicon, r: string, h: string)
    ensures var gate := MetricOf(Trace(r, h, |r|, |h|).Cost(ToneAware(lexicon)), |r|, true).status;
      && (Distance(Standard, r, h, |r|, |h|) * 100 <= |r| * 2 ==> gate == Passed)
      && (Distance(ToneAware(lexicon), r, h, |r|, |h|) * 100 > |r| * 2 ==> gate == Failed)
  {
    hide Distance, Trace;
    TraceIsOptimal(r, h, |r|, |h|);
    ToneAwareErrorsAreBounded(lexicon, r, h);
  }
}
