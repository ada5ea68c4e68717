/**
 Edit scripts between two texts, the distance the evaluator tabulates, and the script its traceback picks.

 A script is read left to right; the traceback builds it right to left, so the recursions below
 peel scripts from the right.
 */
module EditScripts {

  datatype Edit =
    | Match(kept: char)
    | Substitution(replaced: char, replacement: char)
    | Deletion(removed: char)
    | Insertion(added: char)
  {
    function Source(): string {
      match this
      case Match(c) => [c]
      case Substitution(a, _) => [a]
      case Deletion(a) => [a]
      case Insertion(_) => []
    }

    function Target(): string {
      match this
      case Match(c) => [c]
      case Substitution(_, b) => [b]
      case Deletion(_) => []
      case Insertion(b) => [b]
    }

    /** Characters taken from the source text. */
    function Taken(): nat { |Source()| }

    /** Characters given to the target text. */
    function Given(): nat { |Target()| }

    /** Position in the documented tie-break: match, substitution, deletion, insertion. */
    function Rank(): nat {
      match this
      case Match(_) => 0
      case Substitution(_, _) => 1
      case Deletion(_) => 2
      case Insertion(_) => 3
    }
  }

  /** Han characters and their Mandarin readings; a character without an entry has none. */
  datatype Lexicon = Lexicon(han: set<char>, readings: map<char, seq<string>>) {
    function Readings(c: char): seq<string> {
      if c in readings then readings[c] else []
    }

    predicate SharesReading(a: char, b: char) {
      && a in han && b in han
      && exists reading :: reading in Readings(a) && reading in Readings(b)
    }
  }

  /** Standard scoring charges every edit; tone-aware scoring forgives substitutions sharing a reading. */
  datatype Scoring = Standard | ToneAware(lexicon: Lexicon) {
    predicate Forgives(a: char, b: char) {
      ToneAware? && lexicon.SharesReading(a, b)
    }

    function EditCost(e: Edit): nat {
      match e
      case Match(_) => 0
      case Substitution(a, b) => if Forgives(a, b) then 0 else 1
      case Deletion(_) => 1
      case Insertion(_) => 1
    }

    /** Cheapest way to turn a into b in place. */
    function PairCost(a: char, b: char): nat {
      if a == b then 0 else EditCost(Substitution(a, b))
    }
  }

  /** A left-to-right sequence of edits, taken apart at its right end. */
  datatype Script = Nothing | Then(init: Script, last: Edit)
  {
    function Source(): string {
      match this
      case Nothing => []
      case Then(init, e) => init.Source() + e.Source()
    }

    function Target(): string {
      match this
      case Nothing => []
      case Then(init, e) => init.Target() + e.Target()
    }

    function Cost(scoring: Scoring): nat {
      match this
      case Nothing => 0
      case Then(init, e) => init.Cost(scoring) + scoring.EditCost(e)
    }

    predicate Contains(e: Edit) {
      Then? && (e == last || init.Contains(e))
    }

    ghost predicate Transforms(r: string, h: string) {
      Source() == r && Target() == h
    }

    /** `Transforms` for the first i characters of r and j of h, read off the edits from the right. */
    predicate Aligns(r: string, h: string, i: nat, j: nat)
      requires i <= |r| && j <= |h|
    {
      match this
      case Nothing => i == 0 && j == 0
      case Then(init, e) => Fits(e, r, h, i, j) && init.Aligns(r, h, i - e.Taken(), j - e.Given())
    }

    /** Precedes or equals other when the two are compared edit by edit from the right under the tie-break. */
    predicate PrecedesFromTheRight(other: Script) {
      if Nothing? || other.Nothing? then this == other
      else if last.Rank() == other.last.Rank() then init.PrecedesFromTheRight(other.init)
      else last.Rank() < other.last.Rank()
    }
  }

  /** Whether e can be the last edit on the way to the first i characters of r and j of h. */
  predicate Fits(e: Edit, r: string, h: string, i: nat, j: nat)
    requires i <= |r| && j <= |h|
  {
    match e
    case Match(c) => i > 0 && j > 0 && r[i - 1] == c == h[j - 1]
    case Substitution(a, b) => i > 0 && j > 0 && r[i - 1] == a && h[j - 1] == b
    case Deletion(a) => i > 0 && r[i - 1] == a
    case Insertion(b) => j > 0 && h[j - 1] == b
  }

  function Min(a: int, b: int): int { if a <= b then a else b }

  function Max(a: int, b: int): int { if a >= b then a else b }

  /** Distance between the first i characters of r and the first j characters of h. */
  function Distance(scoring: Scoring, r: string, h: string, i: nat, j: nat): nat
    requires i <= |r| && j <= |h|
    decreases i + j
  {
    if i == 0 then j
    else if j == 0 then i
    else Min(Distance(scoring, r, h, i - 1, j - 1) + scoring.PairCost(r[i - 1], h[j - 1]),
             Min(Distance(scoring, r, h, i - 1, j) + 1, Distance(scoring, r, h, i, j - 1) + 1))
  }

  // ---- Reading a script from the right loses nothing ----

  lemma SplitLast(text: string, head: string, tail: string, n: nat)
    requires n <= |text|
    ensures text[..n] == head + tail <==> |tail| <= n && text[n - |tail|..n] == tail && text[..n - |tail|] == head
  {
    if text[..n] == head + tail {
      assert text[n - |tail|..n] == text[..n][|head|..] == tail;
      assert text[..n - |tail|] == text[..n][..|head|] == head;
    }
    if |tail| <= n && text[n - |tail|..n] == tail {
      assert text[..n] == text[..n - |tail|] + tail;
    }
  }

  lemma FitsMeansSuffix(e: Edit, r: string, h: string, i: nat, j: nat)
    requires i <= |r| && j <= |h|
    ensures Fits(e, r, h, i, j) <==>
      && e.Taken() <= i && r[i - e.Taken()..i] == e.Source()
      && e.Given() <= j && h[j - e.Given()..j] == e.Target()
  {
    assert i > 0 ==> r[i - 1..i] == [r[i - 1]];
    assert j > 0 ==> h[j - 1..j] == [h[j - 1]];
  }

  /** A script aligns two prefixes exactly when its source and target are those prefixes. */
  lemma {:induction false} AlignsMeansTransforms(script: Script, r: string, h: string, i: nat, j: nat)
    requires i <= |r| && j <= |h|
    ensures script.Aligns(r, h, i, j) <==> script.Transforms(r[..i], h[..j])
  {
    hide Fits;
    if script.Then? {
      var init, e := script.init, script.last;
      FitsMeansSuffix(e, r, h, i, j);
      SplitLast(r, init.Source(), e.Source(), i);
      SplitLast(h, init.Target(), e.Target(), j);
      if Fits(e, r, h, i, j) {
        AlignsMeansTransforms(init, r, h, i - e.Taken(), j - e.Given());
      }
    }
  }

  lemma NothingToEdit(scoring: Scoring, r: string, h: string)
    ensures Distance(scoring, r, h, 0, 0) == 0
  {
  }

  /** The recurrence at cell (i, j), on the borders and inside. */
  ghost predicate Recurs(scoring: Scoring, r: string, h: string, i: nat, j: nat)
    requires i <= |r| && j <= |h|
  {
    && (i == 0 ==> Distance(scoring, r, h, i, j) == j)
    && (j == 0 ==> Distance(scoring, r, h, i, j) == i)
    && (i > 0 && j > 0 ==>
          Distance(scoring, r, h, i, j) ==
            Min(Distance(scoring, r, h, i - 1, j - 1) + scoring.PairCost(r[i - 1], h[j - 1]),
                Min(Distance(scoring, r, h, i - 1, j) + 1, Distance(scoring, r, h, i, j - 1) + 1)))
  }

  lemma OneStep(scoring: Scoring, r: string, h: string, i: nat, j: nat)
    requires i <= |r| && j <= |h|
    ensures Recurs(scoring, r, h, i, j)
  {
    hide Scoring.PairCost;
  }

  // ---- The tabulated distance is the minimum over every edit script ----

  /** One more edit moves to a cell that is at most that edit's cost further. */
  lemma EditsAreCharged(scoring: Scoring, e: Edit, r: string, h: string, i: nat, j: nat)
    requires i <= |r| && j <= |h| && Fits(e, r, h, i, j)
    ensures Distance(scoring, r, h, i, j) <= Distance(scoring, r, h, i - e.Taken(), j - e.Given()) + scoring.EditCost(e)
  {
    hide Distance;
    OneStep(scoring, r, h, i, j);
    OneStep(scoring, r, h, i - e.Taken(), j - e.Given());
  }

  /** No script whatsoever turns r[..i] into h[..j] for less than the distance. */
  lemma {:induction false} DistanceIsLowerBound(scoring: Scoring, script: Script, r: string, h: string, i: nat, j: nat)
    requires i <= |r| && j <= |h| && script.Aligns(r, h, i, j)
    ensures Distance(scoring, r, h, i, j) <= script.Cost(scoring)
  {
    hide Distance;
    NothingToEdit(scoring, r, h);
    if script.Then? {
      var e := script.last;
      DistanceIsLowerBound(scoring, script.init, r, h, i - e.Taken(), j - e.Given());
      EditsAreCharged(scoring, e, r, h, i, j);
    }
  }

  /** An edit that fits and whose cost accounts for the whole step to cell (i, j). */
  predicate Tight(scoring: Scoring, e: Edit, r: string, h: string, i: nat, j: nat)
    requires i <= |r| && j <= |h|
  {
    && Fits(e, r, h, i, j)
    && Distance(scoring, r, h, i, j) == Distance(scoring, r, h, i - e.Taken(), j - e.Given()) + scoring.EditCost(e)
  }

  /** The recurrence picks one of three predecessors, so some edit is always tight. */
  lemma SomeEditIsTight(scoring: Scoring, r: string, h: string, i: nat, j: nat) returns (e: Edit)
    requires i <= |r| && j <= |h| && i + j > 0
    ensures Tight(scoring, e, r, h, i, j)
  {
    hide Distance;
    OneStep(scoring, r, h, i, j);
    if i == 0 { OneStep(scoring, r, h, 0, j - 1); }
    if j == 0 { OneStep(scoring, r, h, i - 1, 0); }
    var d := Distance(scoring, r, h, i, j);
    if i == 0 {
      e := Insertion(h[j - 1]);
    } else if j == 0 {
      e := Deletion(r[i - 1]);
    } else if d == Distance(scoring, r, h, i - 1, j) + 1 {
      e := Deletion(r[i - 1]);
    } else if d == Distance(scoring, r, h, i, j - 1) + 1 {
      e := Insertion(h[j - 1]);
    } else {
      e := if r[i - 1] == h[j - 1] then Match(r[i - 1]) else Substitution(r[i - 1], h[j - 1]);
    }
  }

  /** Some script reaches the distance, so with `DistanceIsLowerBound` it is the exact minimum. */
  lemma {:induction false} DistanceIsAttained(scoring: Scoring, r: string, h: string, i: nat, j: nat) returns (script: Script)
    requires i <= |r| && j <= |h|
    ensures script.Aligns(r, h, i, j)
    ensures script.Cost(scoring) == Distance(scoring, r, h, i, j)
    decreases i + j
  {
    hide Distance;
    NothingToEdit(scoring, r, h);
    if i + j == 0 {
      script := Nothing;
    } else {
      var e := SomeEditIsTight(scoring, r, h, i, j);
      var init := DistanceIsAttained(scoring, r, h, i - e.Taken(), j - e.Given());
      script := Then(init, e);
    }
  }

  // ---- Neighbouring cells ----

  /** Cells one step apart, in either direction, differ by at most one. */
  lemma {:induction false} NeighboursDifferByAtMostOne(scoring: Scoring, r: string, h: string, i: nat, j: nat)
    requires i <= |r| && j <= |h|
    ensures i > 0 ==> -1 <= Distance(scoring, r, h, i, j) - Distance(scoring, r, h, i - 1, j) <= 1
    ensures j > 0 ==> -1 <= Distance(scoring, r, h, i, j) - Distance(scoring, r, h, i, j - 1) <= 1
    decreases i + j
  {
    hide Distance, Scoring.EditCost;
    OneStep(scoring, r, h, i, j);
    if i > 0 { OneStep(scoring, r, h, i - 1, j); }
    if j > 0 { OneStep(scoring, r, h, i, j - 1); }
    if i > 0 && j > 0 {
      NeighboursDifferByAtMostOne(scoring, r, h, i - 1, j);
      NeighboursDifferByAtMostOne(scoring, r, h, i, j - 1);
    }
  }

  /** Equal characters never make the prefixes harder: their cell repeats the diagonal one. */
  lemma EqualCharactersKeepTheDiagonal(scoring: Scoring, r: string, h: string, i: nat, j: nat)
    requires 0 < i <= |r| && 0 < j <= |h| && r[i - 1] == h[j - 1]
    ensures Distance(scoring, r, h, i, j) == Distance(scoring, r, h, i - 1, j - 1)
  {
    hide Distance;
    OneStep(scoring, r, h, i, j);
    NeighboursDifferByAtMostOne(scoring, r, h, i - 1, j);
    NeighboursDifferByAtMostOne(scoring, r, h, i, j - 1);
  }

  /** The distance is at most the longer text. */
  lemma {:induction false} DistanceIsAtMostTheLongerText(scoring: Scoring, r: string, h: string, i: nat, j: nat)
    requires i <= |r| && j <= |h|
    ensures Distance(scoring, r, h, i, j) <= Max(i, j)
    decreases i + j
  {
    if i > 0 && j > 0 {
      DistanceIsAtMostTheLongerText(scoring, r, h, i - 1, j - 1);
    }
  }

  // ---- The traceback ----

  /** The edit the traceback takes at cell (i, j): the first guard that holds, in the source's order. */
  function TraceEdit(r: string, h: string, i: nat, j: nat): (e: Edit)
    requires i <= |r| && j <= |h| && i + j > 0
    ensures Fits(e, r, h, i, j)
  {
    if i > 0 && j > 0 && r[i - 1] == h[j - 1] && Distance(Standard, r, h, i, j) == Distance(Standard, r, h, i - 1, j - 1)
      then Match(r[i - 1])
    else if i > 0 && j > 0 && Distance(Standard, r, h, i, j) == Distance(Standard, r, h, i - 1, j - 1) + 1
      then Substitution(r[i - 1], h[j - 1])
    else if i > 0 && Distance(Standard, r, h, i, j) == Distance(Standard, r, h, i - 1, j) + 1
      then Deletion(r[i - 1])
    else Insertion(h[j - 1])
  }

  function Trace(r: string, h: string, i: nat, j: nat): Script
    requires i <= |r| && j <= |h|
    decreases i + j
  {
    if i + j == 0 then Nothing
    else
      var e := TraceEdit(r, h, i, j);
      Then(Trace(r, h, i - e.Taken(), j - e.Given()), e)
  }

  lemma NothingToTrace(r: string, h: string)
    ensures Trace(r, h, 0, 0) == Nothing
  {
  }

  lemma TraceExtension(r: string, h: string, i: nat, j: nat)
    requires i <= |r| && j <= |h| && i + j > 0
    ensures var e := TraceEdit(r, h, i, j); Trace(r, h, i, j) == Then(Trace(r, h, i - e.Taken(), j - e.Given()), e)
  {
    hide Distance, TraceEdit;
  }

  /** Each edit of the traceback is tight, and a substitution joins different characters although no guard says so. */
  lemma TraceEditIsTight(r: string, h: string, i: nat, j: nat)
    requires i <= |r| && j <= |h| && i + j > 0
    ensures var e := TraceEdit(r, h, i, j);
      && Tight(Standard, e, r, h, i, j)
      && (e.Substitution? ==> e.replaced != e.replacement)
  {
    hide Distance;
    OneStep(Standard, r, h, i, j);
    if j == 0 { OneStep(Standard, r, h, i - 1, 0); }
    if i == 0 { OneStep(Standard, r, h, 0, j - 1); }
    if i > 0 && j > 0 && r[i - 1] == h[j - 1] {
      EqualCharactersKeepTheDiagonal(Standard, r, h, i, j);
    }
  }

  /** Every other tight edit comes no earlier in the tie-break. */
  lemma TraceEditComesFirst(r: string, h: string, i: nat, j: nat, other: Edit)
    requires i <= |r| && j <= |h| && i + j > 0 && Tight(Standard, other, r, h, i, j)
    ensures TraceEdit(r, h, i, j).Rank() <= other.Rank()
  {
  }

  /** The emitted script replays the texts and costs exactly the distance. */
  lemma {:induction false} TraceIsOptimal(r: string, h: string, i: nat, j: nat)
    requires i <= |r| && j <= |h|
    ensures Trace(r, h, i, j).Aligns(r, h, i, j)
    ensures Trace(r, h, i, j).Cost(Standard) == Distance(Standard, r, h, i, j)
    decreases i + j
  {
    hide Distance, TraceEdit, Trace, Scoring.EditCost;
    NothingToEdit(Standard, r, h);
    NothingToTrace(r, h);
    if i + j > 0 {
      var e := TraceEdit(r, h, i, j);
      TraceExtension(r, h, i, j);
      TraceEditIsTight(r, h, i, j);
      TraceIsOptimal(r, h, i - e.Taken(), j - e.Given());
    }
  }

  /** No emitted substitution joins equal characters. */
  lemma {:induction false} SubstitutionsDiffer(r: string, h: string, i: nat, j: nat, e: Edit)
    requires i <= |r| && j <= |h| && Trace(r, h, i, j).Contains(e) && e.Substitution?
    ensures e.replaced != e.replacement
    decreases i + j
  {
    hide Distance;
    var last := TraceEdit(r, h, i, j);
    TraceEditIsTight(r, h, i, j);
    if e != last {
      SubstitutionsDiffer(r, h, i - last.Taken(), j - last.Given(), e);
    }
  }

  /** A script that reaches the distance is tight at its last edit, and so is what precedes it. */
  lemma OptimalScriptsAreTight(scoring: Scoring, script: Script, r: string, h: string, i: nat, j: nat)
    requires i <= |r| && j <= |h| && script.Then?
    requires script.Aligns(r, h, i, j) && script.Cost(scoring) == Distance(scoring, r, h, i, j)
    ensures Tight(scoring, script.last, r, h, i, j)
    ensures script.init.Cost(scoring) == Distance(scoring, r, h, i - script.last.Taken(), j - script.last.Given())
  {
    hide Distance;
    var e := script.last;
    DistanceIsLowerBound(scoring, script.init, r, h, i - e.Taken(), j - e.Given());
    EditsAreCharged(scoring, e, r, h, i, j);
  }

  /** Two edits that fit the same cell and rank alike are the same edit. */
  lemma RankDetermines(e: Edit, f: Edit, r: string, h: string, i: nat, j: nat)
    requires i <= |r| && j <= |h| && Fits(e, r, h, i, j) && Fits(f, r, h, i, j) && e.Rank() == f.Rank()
    ensures e == f
  {
  }

  /** Among all optimal scripts the traceback's is the first from the right under the tie-break. */
  lemma {:induction false} TraceComesFirst(r: string, h: string, i: nat, j: nat, other: Script)
    requires i <= |r| && j <= |h|
    requires other.Aligns(r, h, i, j) && other.Cost(Standard) == Distance(Standard, r, h, i, j)
    ensures Trace(r, h, i, j).PrecedesFromTheRight(other)
    decreases i + j
  {
    hide Distance, TraceEdit, Trace, Tight;
    NothingToTrace(r, h);
    if i + j > 0 {
      var mine, theirs := TraceEdit(r, h, i, j), other.last;
      TraceExtension(r, h, i, j);
      OptimalScriptsAreTight(Standard, other, r, h, i, j);
      TraceEditComesFirst(r, h, i, j, theirs);
      if mine.Rank() == theirs.Rank() {
        RankDetermines(mine, theirs, r, h, i, j);
        TraceComesFirst(r, h, i - theirs.Taken(), j - theirs.Given(), other.init);
      }
    }
  }

  /** Two scripts for the same texts that precede each other are the same, so the first one is unique. */
  lemma {:induction false} FirstScriptIsUnique(s: Script, t: Script, r: string, h: string, i: nat, j: nat)
    requires i <= |r| && j <= |h| && s.Aligns(r, h, i, j) && t.Aligns(r, h, i, j)
    requires s.PrecedesFromTheRight(t) && t.PrecedesFromTheRight(s)
    ensures s == t
    decreases i + j
  {
    if s.Then? {
      RankDetermines(s.last, t.last, r, h, i, j);
      FirstScriptIsUnique(s.init, t.init, r, h, i - s.last.Taken(), j - s.last.Given());
    }
  }

  /** Every cell of the table is the least cost of any script between its prefixes, and some script has that cost. */
  lemma {:induction false} DistanceIsMinimumCost(scoring: Scoring, r: string, h: string, i: nat, j: nat)
    requires i <= |r| && j <= |h|
    ensures forall script: Script :: script.Transforms(r[..i], h[..j]) ==> Distance(scoring, r, h, i, j) <= script.Cost(scoring)
    ensures exists script: Script :: script.Transforms(r[..i], h[..j]) && script.Cost(scoring) == Distance(scoring, r, h, i, j)
  {
    hide Distance, Script.Aligns;
    forall script: Script | script.Transforms(r[..i], h[..j])
      ensures Distance(scoring, r, h, i, j) <= script.Cost(scoring)
    {
      AlignsMeansTransforms(script, r, h, i, j);
      DistanceIsLowerBound(scoring, script, r, h, i, j);
    }
    var best := DistanceIsAttained(scoring, r, h, i, j);
    AlignsMeansTransforms(best, r, h, i, j);
  }

  /**
   The evaluator's alignment: it replays the reference into the hypothesis at the edit distance, and every
   other script either costs more or comes later from the right.
   */
  lemma TraceIsTheFirstOptimalScript(r: string, h: string)
    ensures var trace := Trace(r, h, |r|, |h|);
      && trace.Transforms(r, h)
      && trace.Cost(Standard) == Distance(Standard, r, h, |r|, |h|)
      && forall other: Script :: other.Transforms(r, h) ==>
           trace.Cost(Standard) < other.Cost(Standard)
           || (trace.Cost(Standard) == other.Cost(Standard) && trace.PrecedesFromTheRight(other))
  {
    hide Distance, Trace, Script.Aligns;
    assert r[..|r|] == r && h[..|h|] == h;
    TraceIsOptimal(r, h, |r|, |h|);
    AlignsMeansTransforms(Trace(r, h, |r|, |h|), r, h, |r|, |h|);
    forall other: Script | other.Transforms(r, h)
      ensures Distance(Standard, r, h, |r|, |h|) <= other.Cost(Standard)
      ensures Distance(Standard, r, h, |r|, |h|) == other.Cost(Standard) ==> Trace(r, h, |r|, |h|).PrecedesFromTheRight(other)
    {
      AlignsMeansTransforms(other, r, h, |r|, |h|);
      DistanceIsLowerBound(Standard, other, r, h, |r|, |h|);
      if Distance(Standard, r, h, |r|, |h|) == other.Cost(Standard) {
        TraceComesFirst(r, h, |r|, |h|, other);
      }
    }
  }

  // ---- Tone-aware scoring of the standard script ----

  /** Forgiving substitutions never makes a script dearer. */
  lemma {:induction false} ForgivingNeverCosts(lexicon: Lexicon, script: Script)
    ensures script.Cost(ToneAware(lexicon)) <= script.Cost(Standard)
  {
    if script.Then? {
      ForgivingNeverCosts(lexicon, script.init);
    }
  }

  /**
   The tone-aware errors of the emitted script lie between the best any alignment could do under
   tone-aware scoring and the standard errors, which the longer text bounds.
   */
  lemma {:induction false} ToneAwareErrorsAreBounded(lexicon: Lexicon, r: string, h: string)
    ensures var script := Trace(r, h, |r|, |h|);
      Distance(ToneAware(lexicon), r, h, |r|, |h|) <= script.Cost(ToneAware(lexicon))
      <= script.Cost(Standard) <= Max(|r|, |h|)
  {
    var script := Trace(r, h, |r|, |h|);
    TraceIsOptimal(r, h, |r|, |h|);
    DistanceIsLowerBound(ToneAware(lexicon), script, r, h, |r|, |h|);
    ForgivingNeverCosts(lexicon, script);
    DistanceIsAtMostTheLongerText(Standard, r, h, |r|, |h|);
  }

  /** No character of r is a different character of h said the same way. */
  ghost predicate SoundsApart(lexicon: Lexicon, r: string, h: string) {
    forall a, b :: a in r && b in h && a != b ==> !lexicon.SharesReading(a, b)
  }

  /** Without homophones across the texts there is nothing to forgive. */
  lemma {:induction false} NothingToForgive(lexicon: Lexicon, r: string, h: string, i: nat, j: nat)
    requires i <= |r| && j <= |h| && SoundsApart(lexicon, r, h)
    ensures Distance(ToneAware(lexicon), r, h, i, j) == Distance(Standard, r, h, i, j)
    decreases i + j
  {
    hide Distance, Lexicon.SharesReading;
    OneStep(ToneAware(lexicon), r, h, i, j);
    OneStep(Standard, r, h, i, j);
    if i > 0 && j > 0 {
      assert r[i - 1] in r && h[j - 1] in h;
      NothingToForgive(lexicon, r, h, i - 1, j - 1);
      NothingToForgive(lexicon, r, h, i - 1, j);
      NothingToForgive(lexicon, r, h, i, j - 1);
    }
  }

  /** For one pair of texts: rescoring is exact when no two of their different characters sound alike. */
  lemma {:induction false} RescoringIsExactApart(lexicon: Lexicon, r: string, h: string)
    requires SoundsApart(lexicon, r, h)
    ensures Trace(r, h, |r|, |h|).Cost(ToneAware(lexicon)) == Distance(ToneAware(lexicon), r, h, |r|, |h|)
  {
    hide Distance, Trace, SoundsApart;
    NothingToForgive(lexicon, r, h, |r|, |h|);
    TraceIsOptimal(r, h, |r|, |h|);
    ToneAwareErrorsAreBounded(lexicon, r, h);
  }

  lemma ShiftedDistances(a: char, b: char, c: char, d: char)
    requires a != b && b != c && c != d
    ensures Distance(Standard, [a, b, c], [b, c, d], 2, 2) == 2 == Distance(Standard, [a, b, c], [b, c, d], 3, 3)
  {
    hide Distance;
    var r, h := [a, b, c], [b, c, d];
    OneStep(Standard, r, h, 0, 0);
    OneStep(Standard, r, h, 0, 1);
    OneStep(Standard, r, h, 0, 2);
    OneStep(Standard, r, h, 0, 3);
    OneStep(Standard, r, h, 1, 0);
    OneStep(Standard, r, h, 2, 0);
    OneStep(Standard, r, h, 3, 0);
    OneStep(Standard, r, h, 1, 1);
    OneStep(Standard, r, h, 1, 2);
    OneStep(Standard, r, h, 1, 3);
    OneStep(Standard, r, h, 2, 1);
    OneStep(Standard, r, h, 2, 2);
    OneStep(Standard, r, h, 2, 3);
    OneStep(Standard, r, h, 3, 1);
    OneStep(Standard, r, h, 3, 2);
    OneStep(Standard, r, h, 3, 3);
  }

  /** The standard script shifts a text along with an insertion or a deletion, although three homophones cost nothing. */
  lemma {:induction false} ShiftsMissHomophones(lexicon: Lexicon, a: char, b: char, c: char, d: char)
    requires a != b && b != c && c != d
    requires lexicon.SharesReading(a, b) && lexicon.SharesReading(b, c) && lexicon.SharesReading(c, d)
    ensures var r, h := [a, b, c], [b, c, d];
      Distance(ToneAware(lexicon), r, h, 3, 3) == 0 < Trace(r, h, 3, 3).Cost(ToneAware(lexicon))
  {
    hide Distance, Lexicon.SharesReading;
    var r, h, tone := [a, b, c], [b, c, d], ToneAware(lexicon);
    var one := Then(Nothing, Substitution(a, b));
    var two := Then(one, Substitution(b, c));
    var free := Then(two, Substitution(c, d));
    assert one.Cost(tone) == 0 && one.Aligns(r, h, 1, 1);
    assert two.Cost(tone) == 0 && two.Aligns(r, h, 2, 2);
    DistanceIsLowerBound(tone, free, r, h, 3, 3);
    ShiftedDistances(a, b, c, d);
    assert !TraceEdit(r, h, 3, 3).Match? && !TraceEdit(r, h, 3, 3).Substitution?;
  }

  predicate Over(text: string, alphabet: set<char>) {
    forall c :: c in text ==> c in alphabet
  }

  ghost predicate HasHomophones(lexicon: Lexicon, alphabet: set<char>) {
    exists a, b :: a in alphabet && b in alphabet && a != b && lexicon.SharesReading(a, b)
  }

  /** The rescored script of every pair of texts over the alphabet reaches their tone-aware minimum. */
  ghost predicate RescoringIsExact(lexicon: Lexicon, alphabet: set<char>) {
    forall r: string, h: string :: Over(r, alphabet) && Over(h, alphabet) ==>
      Trace(r, h, |r|, |h|).Cost(ToneAware(lexicon)) == Distance(ToneAware(lexicon), r, h, |r|, |h|)
  }

  /**
   Exactly when rescoring the standard script is as good as aligning under tone-aware scoring: the characters
   texts are written in hold no two homophones. Any two, a and b, already break it on "aba" and "bab".
   */
  lemma {:induction false} RescoringIsExactWithoutHomophones(lexicon: Lexicon, alphabet: set<char>)
    ensures RescoringIsExact(lexicon, alphabet) <==> !HasHomophones(lexicon, alphabet)
  {
    hide Distance, Trace, Script.Cost, Lexicon.SharesReading;
    if HasHomophones(lexicon, alphabet) {
      var a, b :| a in alphabet && b in alphabet && a != b && lexicon.SharesReading(a, b);
      assert lexicon.SharesReading(b, a) by { ReadingsAreSharedBothWays(lexicon, a, b); }
      ShiftsMissHomophones(lexicon, a, b, a, b);
      assert Over([a, b, a], alphabet) && Over([b, a, b], alphabet);
    } else {
      forall r: string, h: string | Over(r, alphabet) && Over(h, alphabet)
        ensures Trace(r, h, |r|, |h|).Cost(ToneAware(lexicon)) == Distance(ToneAware(lexicon), r, h, |r|, |h|)
      {
        RescoringIsExactApart(lexicon, r, h);
      }
    }
  }

  lemma ReadingsAreSharedBothWays(lexicon: Lexicon, a: char, b: char)
    requires lexicon.SharesReading(a, b)
    ensures lexicon.SharesReading(b, a)
  {
  }

  /** The Han characters for "is", "matter", "world" and "city": the Mandarin table reads all four shi, fourth tone. */
  const SHI: Lexicon := Lexicon(
    {'\U{662F}', '\U{4E8B}', '\U{4E16}', '\U{5E02}'},
    map['\U{662F}' := ["sh\U{EC}"], '\U{4E8B}' := ["sh\U{EC}"], '\U{4E16}' := ["sh\U{EC}"], '\U{5E02}' := ["sh\U{EC}"]])

  /** A text the evaluator charges two errors under tone-aware scoring although every character sounds right. */
  lemma StandardScriptCanMissHomophones()
    ensures var r, h := "\U{662F}\U{4E8B}\U{4E16}", "\U{4E8B}\U{4E16}\U{5E02}";
      Distance(ToneAware(SHI), r, h, 3, 3) == 0 < Trace(r, h, 3, 3).Cost(ToneAware(SHI))
  {
    hide Distance, Trace;
    assert forall c :: c in SHI.han ==> "sh\U{EC}" in SHI.Readings(c);
    ShiftsMissHomophones(SHI, '\U{662F}', '\U{4E8B}', '\U{4E16}', '\U{5E02}');
  }
}
