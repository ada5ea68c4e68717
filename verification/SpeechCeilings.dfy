/**
 Whether the AFP ceiling of a subscription or a batch can be passed unnoticed.

 The running total is an int64 that wraps around, and it is compared with the ceiling after every paid cue. A total
 that would leave the range turns negative and passes the comparison. What decides whether that can happen is known
 before anything is paid: the ceiling, the units of the completed cues, and what each remaining cue may report.
 */
module SpeechCeilings {
  import opened Wrappers
  import opened Text
  import opened Budget
  import opened PostProduction

  // ---- Totals that wrap around ----

  /**
   What a cue may add, in grains. Completed: exactly this. Open: what the provider reports, after which the total is
   compared. Closed: no attempt for the cue is ever accepted.
   */
  datatype Entry = Completed(units: nat) | Open(least: nat, most: nat) | Closed

  const OUT_OF_RANGE := MAX_INT64 + 1

  /** What one character costs on the metered route. */
  const PER_CHARACTER := 135

  /** Units are reported one by one, or as whole characters. */
  predicate IsGrain(grain: int) {
    grain == 1 || grain == PER_CHARACTER
  }

  function Total(units: seq<int>): int {
    if units == [] then 0 else Total(units[..|units| - 1]) + units[|units| - 1]
  }

  function Least(a: int, b: int): int { if a <= b then a else b }

  /** What the total shows after this many grains. */
  function Shown(grain: int, grains: int): int64 {
    Wrap(grain * grains)
  }

  /** The most grains within the ceiling. */
  function Cap(grain: int, ceiling: nat): nat
    requires IsGrain(grain)
  {
    ceiling / grain
  }

  /** The fewest grains beyond the range. */
  function Turn(grain: int): nat
    requires IsGrain(grain)
  {
    if grain == 1 then OUT_OF_RANGE else OUT_OF_RANGE / PER_CHARACTER + 1
  }

  /** Every comparison after an open entry lets these grains pass. */
  predicate Passes(entries: seq<Entry>, grain: int, ceiling: nat, grains: seq<int>) {
    && |entries| == |grains|
    && (entries == [] ||
        var n := |entries| - 1;
        && Passes(entries[..n], grain, ceiling, grains[..n])
        && Adds(entries[n], grain, ceiling, grains[n], Total(grains)))
  }

  predicate Adds(entry: Entry, grain: int, ceiling: nat, last: int, total: int) {
    match entry
    case Completed(c) => last == c
    case Open(least, most) => least <= last <= most && Shown(grain, total) as int <= ceiling
    case Closed => false
  }

  /**
   Which totals can be reached without ever leaving the int64 range: all from least to most, if alive. escaped:
   some comparison can be passed with a total beyond the range.
   */
  datatype Reach = Reach(alive: bool, least: nat, most: nat, escaped: bool)

  function Reached(entries: seq<Entry>, cap: nat, turn: nat): Reach {
    if entries == [] then Reach(true, 0, 0, false)
    else Extended(Reached(entries[..|entries| - 1], cap, turn), entries[|entries| - 1], cap, turn)
  }

  function Extended(r: Reach, entry: Entry, cap: nat, turn: nat): Reach {
    match entry
    case Completed(c) => r.(least := r.least + c, most := r.most + c)
    case Open(least, most) =>
      Reach(r.alive && r.least + least <= cap, r.least + least, Least(r.most + most, cap),
            r.escaped || (r.alive && r.most + most >= turn))
    case Closed => r.(alive := false, escaped := false)
  }

  predicate CanOverrun(entries: seq<Entry>, grain: int, ceiling: nat)
    requires IsGrain(grain)
  {
    var r := Reached(entries, Cap(grain, ceiling), Turn(grain));
    r.escaped || (r.alive && r.most >= Turn(grain))
  }

  /** What is added in any case. */
  function Floor(entries: seq<Entry>): nat {
    if entries == [] then 0
    else
      Floor(entries[..|entries| - 1]) +
      (match entries[|entries| - 1] case Completed(c) => c case Open(least, _) => least case Closed => 0)
  }

  predicate Sensible(entries: seq<Entry>) {
    forall entry :: entry in entries && entry.Open? ==> entry.least <= entry.most
  }

  lemma WrapIsExact(n: int)
    requires 0 <= n <= MAX_INT64
    ensures Wrap(n) as int == n
  {
  }

  lemma WrapAbsorbs(a: int, b: int)
    ensures Wrap(Wrap(a) as int + b) == Wrap(a + b)
  {
    var turns := (a + OUT_OF_RANGE) / TWO_64;
    assert Wrap(a) as int == a - turns * TWO_64;
    assert (a + b + OUT_OF_RANGE - turns * TWO_64) % TWO_64 == (a + b + OUT_OF_RANGE) % TWO_64;
  }

  /** Before the turn the total is shown as it is. */
  lemma ShownIsExact(grain: int, ceiling: nat, grains: nat)
    requires IsGrain(grain) && grains < Turn(grain)
    ensures Shown(grain, grains) as int == grain * grains
    ensures grain * grains <= ceiling <==> grains <= Cap(grain, ceiling)
  {
    if grain == PER_CHARACTER {
      assert grain * grains == PER_CHARACTER * grains;
    }
  }

  /** From the turn on, and for as long again, it shows as negative. */
  lemma ShownTurnsNegative(grain: int, grains: nat, floor: nat)
    requires IsGrain(grain) && Turn(grain) <= grains <= Turn(grain) + floor && grain * (floor + 1) <= OUT_OF_RANGE
    ensures Shown(grain, grains) < 0 && grain * grains > MAX_INT64
  {
    if grain == PER_CHARACTER {
      assert grain * grains == PER_CHARACTER * grains && grain * (floor + 1) == PER_CHARACTER * (floor + 1);
    }
  }

  lemma RoomBelowTheTurn(grain: int, floor: nat)
    requires IsGrain(grain) && grain * (floor + 1) <= OUT_OF_RANGE
    ensures floor < Turn(grain)
  {
    if grain == PER_CHARACTER {
      assert grain * (floor + 1) == PER_CHARACTER * (floor + 1);
    }
  }

  lemma CapsStayBelowTheTurn(grain: int, ceiling: nat)
    requires IsGrain(grain) && ceiling <= MAX_INT64
    ensures Cap(grain, ceiling) < Turn(grain)
  {
  }

  lemma {:induction false} LeastIsFloor(entries: seq<Entry>, cap: nat, turn: nat)
    requires Sensible(entries)
    ensures Reached(entries, cap, turn).least == Floor(entries)
    ensures Reached(entries, cap, turn).alive ==> Reached(entries, cap, turn).least <= Reached(entries, cap, turn).most
    decreases |entries|
  {
    if entries != [] {
      LastIsSensible(entries);
      LeastIsFloor(entries[..|entries| - 1], cap, turn);
    }
  }

  lemma LastIsSensible(entries: seq<Entry>)
    requires Sensible(entries) && entries != []
    ensures var n := |entries| - 1;
      Sensible(entries[..n]) && (entries[n].Open? ==> entries[n].least <= entries[n].most)
  {
    var n := |entries| - 1;
    assert entries[n] in entries;
    forall entry | entry in entries[..n] ensures entry in entries {
    }
  }

  /** As long as nothing can escape, what passes is a total in reach. */
  lemma {:induction false} PassingIsReached(entries: seq<Entry>, grain: int, ceiling: nat, grains: seq<int>)
    requires IsGrain(grain) && Passes(entries, grain, ceiling, grains)
    requires !Reached(entries, Cap(grain, ceiling), Turn(grain)).escaped
    ensures var r := Reached(entries, Cap(grain, ceiling), Turn(grain)); r.alive && r.least <= Total(grains) <= r.most
    decreases |entries|
  {
    hide Shown, Cap, Turn, IsGrain;
    if entries != [] {
      var n := |entries| - 1;
      PassingIsReached(entries[..n], grain, ceiling, grains[..n]);
      if entries[n].Open? && Total(grains) < Turn(grain) {
        ShownIsExact(grain, ceiling, Total(grains));
      }
    }
  }

  /** Then the last comparison tells the truth. */
  lemma TotalsStayBelow(entries: seq<Entry>, grain: int, ceiling: nat, grains: seq<int>)
    requires IsGrain(grain) && Passes(entries, grain, ceiling, grains) && Shown(grain, Total(grains)) as int <= ceiling
    requires !CanOverrun(entries, grain, ceiling)
    ensures 0 <= grain * Total(grains) <= ceiling
  {
    PassingIsReached(entries, grain, ceiling, grains);
    ShownIsExact(grain, ceiling, Total(grains));
  }

  /** Every total in reach is attained by grains that pass. */
  lemma {:induction false} ReachedIsPassed(entries: seq<Entry>, grain: int, ceiling: nat, total: nat) returns (grains: seq<int>)
    requires IsGrain(grain) && ceiling <= MAX_INT64 && Sensible(entries)
    requires var r := Reached(entries, Cap(grain, ceiling), Turn(grain)); r.alive && r.least <= total <= r.most
    ensures Passes(entries, grain, ceiling, grains) && Total(grains) == total
    decreases |entries|
  {
    hide Shown, Cap, Turn, IsGrain, Sensible;
    if entries == [] {
      grains := [];
    } else {
      var n := |entries| - 1;
      var r := Reached(entries[..n], Cap(grain, ceiling), Turn(grain));
      LastIsSensible(entries);
      LeastIsFloor(entries[..n], Cap(grain, ceiling), Turn(grain));
      var last := match entries[n]
        case Completed(c) => c
        case Open(least, _) => if total - least <= r.most then least else total - r.most
        case Closed => 0;
      var init := ReachedIsPassed(entries[..n], grain, ceiling, total - last);
      grains := init + [last];
      assert grains[..n] == init;
      if entries[n].Open? {
        CapsStayBelowTheTurn(grain, ceiling);
        ShownIsExact(grain, ceiling, total);
      }
    }
  }

  /** One more entry after a total beyond the range: what is added in any case is added. */
  lemma EscapedPasses(entries: seq<Entry>, grain: int, ceiling: nat, init: seq<int>) returns (grains: seq<int>)
    requires IsGrain(grain) && Sensible(entries) && grain * (Floor(entries) + 1) <= OUT_OF_RANGE
    requires entries != [] && !entries[|entries| - 1].Closed? && Passes(entries[..|entries| - 1], grain, ceiling, init)
    requires Turn(grain) <= Total(init) <= Turn(grain) + Floor(entries[..|entries| - 1])
    ensures Passes(entries, grain, ceiling, grains) && Turn(grain) <= Total(grains) <= Turn(grain) + Floor(entries)
  {
    hide Shown, Turn, IsGrain, Sensible;
    var n := |entries| - 1;
    LastIsSensible(entries);
    grains := init + [match entries[n] case Completed(c) => c case Open(least, _) => least case Closed => 0];
    assert grains[..n] == init;
    ShownTurnsNegative(grain, Total(grains), Floor(entries));
  }

  /** An escape is attained too, by grains that land just beyond the range. */
  lemma {:induction false} EscapesPass(entries: seq<Entry>, grain: int, ceiling: nat) returns (grains: seq<int>)
    requires IsGrain(grain) && ceiling <= MAX_INT64 && Sensible(entries) && grain * (Floor(entries) + 1) <= OUT_OF_RANGE
    requires Reached(entries, Cap(grain, ceiling), Turn(grain)).escaped
    ensures Passes(entries, grain, ceiling, grains) && Turn(grain) <= Total(grains) <= Turn(grain) + Floor(entries)
    decreases |entries|
  {
    hide Shown, Cap, Turn, IsGrain, Sensible, Passes;
    var n := |entries| - 1;
    var r := Reached(entries[..n], Cap(grain, ceiling), Turn(grain));
    LastIsSensible(entries);
    FloorsGrow(entries, grain);
    if r.escaped {
      var init := EscapesPass(entries[..n], grain, ceiling);
      grains := EscapedPasses(entries, grain, ceiling, init);
    } else {
      grains := FirstEscape(entries, grain, ceiling);
    }
  }

  lemma FloorsGrow(entries: seq<Entry>, grain: int)
    requires IsGrain(grain) && entries != [] && grain * (Floor(entries) + 1) <= OUT_OF_RANGE
    ensures grain * (Floor(entries[..|entries| - 1]) + 1) <= OUT_OF_RANGE
  {
  }

  lemma FirstEscape(entries: seq<Entry>, grain: int, ceiling: nat) returns (grains: seq<int>)
    requires IsGrain(grain) && ceiling <= MAX_INT64 && Sensible(entries) && grain * (Floor(entries) + 1) <= OUT_OF_RANGE
    requires entries != [] && Reached(entries, Cap(grain, ceiling), Turn(grain)).escaped
    requires !Reached(entries[..|entries| - 1], Cap(grain, ceiling), Turn(grain)).escaped
    ensures Passes(entries, grain, ceiling, grains) && Total(grains) == Turn(grain)
  {
    hide Shown, Cap, Turn, IsGrain, Sensible;
    var n := |entries| - 1;
    var r := Reached(entries[..n], Cap(grain, ceiling), Turn(grain));
    LastIsSensible(entries);
    LeastIsFloor(entries[..n], Cap(grain, ceiling), Turn(grain));
    RoomBelowTheTurn(grain, Floor(entries));
    var before := Least(r.most, Turn(grain) - entries[n].least);
    var init := ReachedIsPassed(entries[..n], grain, ceiling, before);
    grains := init + [Turn(grain) - before];
    assert grains[..n] == init;
    ShownTurnsNegative(grain, Turn(grain), Floor(entries));
  }

  /** So the ceiling can be passed unnoticed exactly when the entries say so. */
  lemma {:induction false} OverrunsPass(entries: seq<Entry>, grain: int, ceiling: nat) returns (grains: seq<int>)
    requires IsGrain(grain) && ceiling <= MAX_INT64 && Sensible(entries) && grain * (Floor(entries) + 1) <= OUT_OF_RANGE
    requires CanOverrun(entries, grain, ceiling)
    ensures Passes(entries, grain, ceiling, grains)
    ensures Shown(grain, Total(grains)) as int <= ceiling < grain * Total(grains)
  {
    hide Shown, Cap, Turn, IsGrain, Sensible;
    if Reached(entries, Cap(grain, ceiling), Turn(grain)).escaped {
      grains := EscapesPass(entries, grain, ceiling);
    } else {
      LeastIsFloor(entries, Cap(grain, ceiling), Turn(grain));
      RoomBelowTheTurn(grain, Floor(entries));
      grains := ReachedIsPassed(entries, grain, ceiling, Turn(grain));
    }
    ShownTurnsNegative(grain, Total(grains), Floor(entries));
  }

  // ---- Requests ----

  /** The ceiling the running total is compared with. */
  function Ceiling(request: Request): int64
    requires request.speech.subscription || request.speech.batch.Some?
  {
    if request.speech.subscription then request.speech.maximumAFPMilli else request.speech.batch.value.maximumAFPMilli
  }

  /** The metered route reports whole characters. */
  function Grain(request: Request): (grain: int)
    ensures IsGrain(grain)
  {
    if request.speech.agentPlan then PER_CHARACTER else 1
  }

  /** Some attempt for the cue carries an identity and evidence that are accepted. */
  predicate Acceptable(request: Request, cue: Cue) {
    request.speech.v2 ==>
      && CueCeiling(request, cue).Some? && CueCeiling(request, cue).value >= 0 && request.speech.maximumCashMicros == 0
      && (request.identify(cue).jobID != "" ==> !Blank(request.identify(cue).jobID))
      && (request.speech.batch.None? ==> cue.id == request.speech.authorizedCueID)
  }

  /** The most units an attempt for the cue may report. */
  function UnitBound(request: Request, cue: Cue): nat
    requires request.speech.subscription ==> request.speech.maximumAFPMilli >= 0
    requires Acceptable(request, cue)
  {
    var own := if request.speech.agentPlan then 600 * PER_CHARACTER else MAX_INT64;
    var authorized := if request.speech.v2 then Least(own, CueCeiling(request, cue).value as int) else own;
    if request.speech.subscription then Least(authorized, request.speech.maximumAFPMilli as int) else authorized
  }

  /** On the metered route an attempt reports one character at least. */
  function OpenEntry(request: Request, cue: Cue): (entry: Entry)
    requires request.speech.subscription ==> request.speech.maximumAFPMilli >= 0
    ensures !entry.Completed?
  {
    var least := if request.speech.agentPlan then 1 else 0;
    if Acceptable(request, cue) && least <= UnitBound(request, cue) / Grain(request)
      then Open(least, UnitBound(request, cue) / Grain(request)) else Closed
  }

  /** The completed attempt for this cue. */
  ghost function CompletedFor(attempts: seq<Attempt>, id: string): (attempt: Attempt)
    requires id in CompletedIDs(attempts)
    ensures attempt in attempts && attempt.cueID == id
  {
    var i :| 0 <= i < |attempts| && attempts[i].cueID == id;
    attempts[i]
  }

  /** Completed units count only under a subscription. */
  ghost function EntryOf(request: Request, cue: Cue): Entry
    requires request.speech.subscription ==> request.speech.maximumAFPMilli >= 0
  {
    var completed := request.speech.completedAttempts;
    if cue.id !in CompletedIDs(completed) then OpenEntry(request, cue)
    else if request.speech.subscription && CompletedFor(completed, cue.id).usage.outputUnits >= 0
      then Completed(CompletedFor(completed, cue.id).usage.outputUnits as int / Grain(request))
    else Completed(0)
  }

  ghost function Entries(request: Request, cues: seq<Cue>): (entries: seq<Entry>)
    requires request.speech.subscription ==> request.speech.maximumAFPMilli >= 0
    ensures |entries| == |cues|
  {
    if cues == [] then [] else Entries(request, cues[..|cues| - 1]) + [EntryOf(request, cues[|cues| - 1])]
  }

  /** The units of each attempt that count. */
  function Counted(request: Request, cues: seq<Cue>, attempts: seq<Attempt>): (units: seq<int>)
    requires |cues| == |attempts|
    ensures |units| == |cues|
  {
    if cues == [] then []
    else
      var n := |cues| - 1;
      Counted(request, cues[..n], attempts[..n]) + [CountedUnits(request, cues[n], attempts[n])]
  }

  function CountedUnits(request: Request, cue: Cue, attempt: Attempt): int {
    if Counts(request, cue) then attempt.usage.outputUnits as int else 0
  }

  /** The running total is the counted units, wrapped around. */
  lemma {:induction false} RunningWraps(request: Request, cues: seq<Cue>, attempts: seq<Attempt>)
    requires |cues| == |attempts|
    ensures Running(request, cues, attempts) == Wrap(Total(Counted(request, cues, attempts)))
    decreases |cues|
  {
    hide Wrap, Counts;
    WrapIsExact(0);
    if cues != [] {
      var n := |cues| - 1;
      var before := Counted(request, cues[..n], attempts[..n]);
      RunningWraps(request, cues[..n], attempts[..n]);
      assert Counted(request, cues, attempts)[..n] == before;
      WrapAbsorbs(Total(before), attempts[n].usage.outputUnits as int);
    }
  }

  /** What every theorem below asks of a request: a ceiling applies, and neither it nor the budget is negative. */
  predicate Limited(request: Request) {
    && request.speech.budgetMaximumMicros >= 0
    && (request.speech.subscription || request.speech.batch.Some?) && Ceiling(request) >= 0
  }

  /** A completed cue has one attempt, with whole characters. */
  lemma CompletedAttemptsAreUnique(request: Request, attempt: Attempt)
    requires Covered(request) && attempt in request.speech.completedAttempts
    ensures attempt.cueID in CompletedIDs(request.speech.completedAttempts)
    ensures CompletedFor(request.speech.completedAttempts, attempt.cueID) == attempt
    ensures attempt.usage.outputUnits >= 0 && attempt.usage.outputUnits as int % PER_CHARACTER == 0
  {
    var completed := request.speech.completedAttempts;
    var i :| 0 <= i < |completed| && completed[i] == attempt;
    assert completed[i].cueID in CompletedIDs(completed);
    var found := CompletedFor(completed, attempt.cueID);
    assert found.cueID == attempt.cueID;
    var j :| 0 <= j < |completed| && completed[j] == found;
    assert WasCompleted(request, completed[i]);
    hide WasCompleted;
    assert DistinctAttempts(completed) && completed[i].cueID == completed[j].cueID;
    assert i == j;
    WasCompletedUnits(request, attempt);
  }

  lemma WasCompletedUnits(request: Request, attempt: Attempt)
    requires WasCompleted(request, attempt)
    ensures attempt.usage.outputUnits >= 0 && attempt.usage.outputUnits as int % PER_CHARACTER == 0
  {
  }

  /** An accepted attempt keeps to its cue's bound, in grains, and the total after it to the ceiling. */
  lemma PaidUnitsAreBounded(request: Request, cue: Cue, k: nat, attempt: Attempt, running: int64)
    requires request.speech.budgetMaximumMicros >= 0 && (request.speech.subscription || request.speech.batch.Some?)
    requires request.speech.subscription ==> request.speech.maximumAFPMilli >= 0
    requires PaidFits(request, cue, k, attempt, running)
    ensures Acceptable(request, cue) && 0 <= attempt.usage.outputUnits as int <= UnitBound(request, cue)
    ensures request.speech.agentPlan ==>
      attempt.usage.outputUnits as int == PER_CHARACTER * attempt.usage.generatedChars as int && attempt.usage.generatedChars >= 1
    ensures running <= Ceiling(request)
  {
    hide CueCeiling;
  }

  lemma LastOfEntries(request: Request, cues: seq<Cue>)
    requires (request.speech.subscription ==> request.speech.maximumAFPMilli >= 0) && cues != []
    ensures var n := |cues| - 1;
      Entries(request, cues)[..n] == Entries(request, cues[..n]) && Entries(request, cues)[n] == EntryOf(request, cues[n])
  {
  }

  lemma LastOfCounted(request: Request, cues: seq<Cue>, attempts: seq<Attempt>)
    requires |cues| == |attempts| && cues != []
    ensures var n := |cues| - 1;
      Counted(request, cues, attempts) == Counted(request, cues[..n], attempts[..n]) + [CountedUnits(request, cues[n], attempts[n])]
  {
  }

  lemma PassesOneMore(entries: seq<Entry>, grain: int, ceiling: nat, grains: seq<int>)
    requires |entries| == |grains| && entries != []
    ensures var n := |entries| - 1;
      Passes(entries, grain, ceiling, grains) <==>
        Passes(entries[..n], grain, ceiling, grains[..n]) && Adds(entries[n], grain, ceiling, grains[n], Total(grains))
  {
  }

  /** The units are these grains, one by one. */
  predicate Measures(grain: int, grains: seq<int>, units: seq<int>) {
    |grains| == |units| && forall i :: 0 <= i < |grains| ==> units[i] == grain * grains[i]
  }

  lemma {:induction false} MeasuredTotal(grain: int, grains: seq<int>, units: seq<int>)
    requires IsGrain(grain) && Measures(grain, grains, units)
    ensures Total(units) == grain * Total(grains)
    decreases |grains|
  {
    if grains != [] {
      MeasuredTotal(grain, grains[..|grains| - 1], units[..|grains| - 1]);
    }
  }

  /** What a finalization accepted passes every comparison. */
  lemma {:induction false} FittingPasses(request: Request, cues: seq<Cue>, attempts: seq<Attempt>) returns (grains: seq<int>)
    requires Limited(request) && Covered(request) && Fits(request, cues, attempts)
    ensures Passes(Entries(request, cues), Grain(request), Ceiling(request) as nat, grains)
    ensures Measures(Grain(request), grains, Counted(request, cues, attempts))
    decreases |cues|
  {
    hide Covered, Wrap, Grain, Entries, EntryOf, Counted, CountedUnits, Passes, Adds, Total, PaidFits, CompletedIDs, Remaining, Running;
    if cues == [] {
      grains := [];
      NothingPasses(Grain(request), Ceiling(request) as nat);
      assert Entries(request, cues) == [] && Counted(request, cues, attempts) == [];
    } else {
      var n := |cues| - 1;
      var k := |Remaining(cues[..n], CompletedIDs(request.speech.completedAttempts))|;
      var init := FittingPasses(request, cues[..n], attempts[..n]);
      LastOfEntries(request, cues);
      LastOfCounted(request, cues, attempts);
      var last := LastGrains(request, cues[n], k, attempts[n], Running(request, cues, attempts));
      grains := init + [last];
      assert grains[..n] == init;
      MeasuredTotal(Grain(request), grains, Counted(request, cues, attempts));
      RunningWraps(request, cues, attempts);
      LastFits(request, cues[n], k, attempts[n], Running(request, cues, attempts), last, Total(grains));
      PassesOneMore(Entries(request, cues), Grain(request), Ceiling(request) as nat, grains);
    }
  }

  lemma NothingPasses(grain: int, ceiling: nat)
    ensures Passes([], grain, ceiling, [])
  {
  }

  /** The attempt was found completed, or is accepted as the k-th that is paid for. */
  predicate Joins(request: Request, cue: Cue, k: nat, attempt: Attempt, running: int64)
    requires request.speech.budgetMaximumMicros >= 0
  {
    if cue.id in CompletedIDs(request.speech.completedAttempts) then attempt in request.speech.completedAttempts
    else PaidFits(request, cue, k, attempt, running)
  }

  lemma LastGrains(request: Request, cue: Cue, k: nat, attempt: Attempt, running: int64) returns (last: int)
    requires Limited(request) && Covered(request) && attempt.cueID == cue.id && Joins(request, cue, k, attempt, running)
    ensures CountedUnits(request, cue, attempt) == Grain(request) * last
  {
    hide Covered, PaidFits, CompletedFor, CompletedIDs;
    last := CountedUnits(request, cue, attempt) / Grain(request);
    if cue.id in CompletedIDs(request.speech.completedAttempts) {
      CompletedAttemptsAreUnique(request, attempt);
    } else {
      PaidUnitsAreBounded(request, cue, k, attempt, running);
    }
  }

  /** One accepted attempt against its entry. */
  lemma LastFits(request: Request, cue: Cue, k: nat, attempt: Attempt, running: int64, last: int, total: int)
    requires Limited(request) && Covered(request) && attempt.cueID == cue.id && Joins(request, cue, k, attempt, running)
    requires CountedUnits(request, cue, attempt) == Grain(request) * last && running == Shown(Grain(request), total)
    ensures Adds(EntryOf(request, cue), Grain(request), Ceiling(request) as nat, last, total)
  {
    hide Covered, PaidFits, CompletedFor, CompletedIDs, Shown;
    if cue.id in CompletedIDs(request.speech.completedAttempts) {
      CompletedAttemptsAreUnique(request, attempt);
    } else {
      PaidUnitsAreBounded(request, cue, k, attempt, running);
      hide UnitBound, Acceptable;
    }
  }

  /** Outside a subscription the total is compared after every cue that counts. */
  lemma {:induction false} BatchTotalsAreCompared(request: Request, cues: seq<Cue>, attempts: seq<Attempt>)
    requires Limited(request) && Fits(request, cues, attempts) && !request.speech.subscription
    ensures Running(request, cues, attempts) <= Ceiling(request)
    decreases |cues|
  {
    hide Wrap, CompletedIDs, Remaining, PaidFits;
    if cues != [] {
      var n := |cues| - 1;
      var ids := CompletedIDs(request.speech.completedAttempts);
      BatchTotalsAreCompared(request, cues[..n], attempts[..n]);
      if cues[n].id !in ids {
        PaidUnitsAreBounded(request, cues[n], |Remaining(cues[..n], ids)|, attempts[n], Running(request, cues, attempts));
      }
    }
  }

  /** Whether the request, as it stands, lets its ceiling be passed. */
  ghost predicate Overruns(request: Request)
    requires Limited(request)
  {
    CanOverrun(Entries(request, request.cues), Grain(request), Ceiling(request) as nat)
  }

  /** Unless its entries can overrun, an accepted request really stays within its ceiling: what counts, counted exactly. */
  lemma CeilingsHold(request: Request, attempts: seq<Attempt>)
    requires Limited(request) && Accepted(request, attempts) && !Overruns(request)
    ensures |attempts| == |request.cues|
    ensures 0 <= Total(Counted(request, request.cues, attempts)) <= Ceiling(request) as int
  {
    var grains := FittingPasses(request, request.cues, attempts);
    RunningWraps(request, request.cues, attempts);
    MeasuredTotal(Grain(request), grains, Counted(request, request.cues, attempts));
    if !request.speech.subscription {
      BatchTotalsAreCompared(request, request.cues, attempts);
    }
    hide Covered, CanOverrun, Wrap, Entries, Grain, Counted, Total, Passes;
    NothingRuns(request);
    TotalsStayBelow(Entries(request, request.cues), Grain(request), Ceiling(request) as nat, grains);
  }

  lemma NothingRuns(request: Request)
    ensures Running(request, [], []) == 0
  {
  }

  // ---- What the provider may report ----

  /** An attempt the provider may return for this cue, reporting any number of units the route allows. */
  function Reporting(request: Request, cue: Cue, units: int64): Attempt {
    var speech := request.speech;
    var jobID := if speech.v2 && request.identify(cue).jobID != "" then request.identify(cue).jobID else "j";
    var usage := if speech.agentPlan then Usage((units as int / PER_CHARACTER) as int64, units, MILLI_AFP, false)
      else Usage(0, units, "", false);
    Attempt(cue.id, jobID, "r", "u", "c", "l", speech.route, request.evidence, usage,
            Cost(0, Some(0), speech.budgetCurrency, "v", INCLUDED), true)
  }

  lemma ReportingFits(request: Request, cue: Cue, k: nat, grains: int, running: int64)
    requires Limited(request) && OpenEntry(request, cue).Open? && running <= Ceiling(request)
    requires OpenEntry(request, cue).least <= grains <= OpenEntry(request, cue).most
    ensures 0 <= Grain(request) * grains <= MAX_INT64
    ensures PaidFits(request, cue, k, Reporting(request, cue, (Grain(request) * grains) as int64), running)
  {
    LettersAreNotBlank();
    hide Blank, AuthorizationFor, BudgetOf;
    BudgetsAreNatural(request, k);
    if request.speech.agentPlan {
      assert Grain(request) * grains == PER_CHARACTER * grains;
    }
  }

  lemma LettersAreNotBlank()
    ensures !Blank("j") && !Blank("r") && !Blank("u") && !Blank("c") && !Blank("l") && !Blank("v")
  {
    assert 'j' in "j" && 'r' in "r" && 'u' in "u" && 'c' in "c" && 'l' in "l" && 'v' in "v";
  }

  lemma BudgetsAreNatural(request: Request, k: nat)
    requires request.speech.budgetMaximumMicros >= 0
    ensures BudgetOf(request, k) >= 0
  {
  }

  /** Some attempt at this cue adds these grains. */
  lemma NextAttempt(request: Request, cue: Cue, k: nat, last: int, total: int) returns (attempt: Attempt)
    requires Limited(request) && Covered(request) && Adds(EntryOf(request, cue), Grain(request), Ceiling(request) as nat, last, total)
    ensures attempt.cueID == cue.id && CountedUnits(request, cue, attempt) == Grain(request) * last
    ensures Joins(request, cue, k, attempt, Shown(Grain(request), total))
  {
    hide Covered, OpenEntry, PaidFits, CompletedIDs, Shown, Grain;
    var completed := request.speech.completedAttempts;
    if cue.id in CompletedIDs(completed) {
      attempt := CompletedFor(completed, cue.id);
      CompletedAttemptsAreUnique(request, attempt);
      WholeGrains(request, attempt.usage.outputUnits as int);
    } else {
      ReportingFits(request, cue, k, last, Shown(Grain(request), total));
      attempt := Reporting(request, cue, (Grain(request) * last) as int64);
    }
  }

  lemma WholeGrains(request: Request, units: nat)
    requires units % PER_CHARACTER == 0
    ensures Grain(request) * (units / Grain(request)) == units
  {
  }

  /** Whatever grains pass the comparisons, there are attempts that report them and are accepted. */
  lemma {:induction false} PassingFits(request: Request, cues: seq<Cue>, grains: seq<int>) returns (attempts: seq<Attempt>)
    requires Limited(request) && Covered(request)
    requires Passes(Entries(request, cues), Grain(request), Ceiling(request) as nat, grains)
    ensures |attempts| == |cues| && Fits(request, cues, attempts)
    ensures Measures(Grain(request), grains, Counted(request, cues, attempts))
    decreases |cues|
  {
    hide Covered, Wrap, Grain, Entries, EntryOf, Counted, CountedUnits, Counts, Fits, Passes, Adds, Total;
    hide CompletedIDs, PaidFits, Remaining, Running;
    PassesHasLength(Entries(request, cues), Grain(request), Ceiling(request) as nat, grains);
    if cues == [] {
      attempts := [];
      NothingFits(request);
      assert grains == [] == Counted(request, cues, attempts);
    } else {
      var n := |cues| - 1;
      var k := |Remaining(cues[..n], CompletedIDs(request.speech.completedAttempts))|;
      LastOfEntries(request, cues);
      PassesOneMore(Entries(request, cues), Grain(request), Ceiling(request) as nat, grains);
      var init := PassingFits(request, cues[..n], grains[..n]);
      var attempt := NextAttempt(request, cues[n], k, grains[n], Total(grains));
      attempts := init + [attempt];
      assert attempts[..n] == init && cues[..n + 1] == cues;
      LastOfCounted(request, cues, attempts);
      MeasuredTotal(Grain(request), grains, Counted(request, cues, attempts));
      RunningWraps(request, cues, attempts);
      FitsOneMore(request, cues, init, n, attempt);
    }
  }

  lemma PassesHasLength(entries: seq<Entry>, grain: int, ceiling: nat, grains: seq<int>)
    requires Passes(entries, grain, ceiling, grains)
    ensures |entries| == |grains|
  {
  }

  lemma NothingFits(request: Request)
    requires request.speech.budgetMaximumMicros >= 0
    ensures Fits(request, [], [])
  {
  }

  lemma {:induction false} EntriesAreSensible(request: Request, cues: seq<Cue>)
    requires Limited(request)
    ensures Sensible(Entries(request, cues))
    decreases |cues|
  {
    hide UnitBound, Acceptable, Grain;
    if cues != [] {
      EntriesAreSensible(request, cues[..|cues| - 1]);
      LastOfEntries(request, cues);
    }
  }

  /** What can be finalized at all, if the provider returns complete evidence. */
  predicate Payable(request: Request)
    requires request.speech.budgetMaximumMicros >= 0
  {
    Covered(request) && request.evidence != PENDING_KEY && (request.speech.subscription || Affordable(request))
  }

  /** Whatever attempts are accepted, what counts of them keeps to the ceiling. */
  ghost predicate StaysBelow(request: Request)
    requires Limited(request)
  {
    forall attempts :: Accepted(request, attempts) ==>
      |attempts| == |request.cues| && Total(Counted(request, request.cues, attempts)) <= Ceiling(request) as int
  }

  /** What is counted in any case, completed units and one character for each metered cue, leaves room in the range. */
  ghost predicate Roomy(request: Request)
    requires Limited(request)
  {
    Grain(request) * (Floor(Entries(request, request.cues)) + 1) <= OUT_OF_RANGE
  }

  /**
   Exactly when a ceiling holds whatever the provider reports, on every route, under a subscription or a batch, with
   or without the v2 identities: when the request's entries cannot overrun.
   */
  lemma {:induction false} CeilingsHoldUnlessTheyOverrun(request: Request)
    requires Limited(request) && Payable(request) && Roomy(request)
    ensures StaysBelow(request) <==> !Overruns(request)
  {
    hide Covered, CanOverrun, Entries, Wrap, Counted, Affordable, Grain, Fits, Passes;
    if Overruns(request) {
      EntriesAreSensible(request, request.cues);
      var grains := OverrunsPass(Entries(request, request.cues), Grain(request), Ceiling(request) as nat);
      var attempts := PassingFits(request, request.cues, grains);
      RunningWraps(request, request.cues, attempts);
      MeasuredTotal(Grain(request), grains, Counted(request, request.cues, attempts));
      assert Accepted(request, attempts);
    } else {
      forall attempts | Accepted(request, attempts)
        ensures |attempts| == |request.cues| && Total(Counted(request, request.cues, attempts)) <= Ceiling(request) as int
      {
        CeilingsHold(request, attempts);
      }
    }
  }

  /** Off the metered route, and where nothing counts in any case, the reach of the entries decides. */
  lemma ReachDecides(request: Request)
    requires Limited(request) && Payable(request) && !request.speech.agentPlan && Floor(Entries(request, request.cues)) == 0
    ensures var r := Reached(Entries(request, request.cues), Ceiling(request) as nat, OUT_OF_RANGE);
      StaysBelow(request) <==> !r.escaped && !(r.alive && r.most >= OUT_OF_RANGE)
  {
    hide Covered, Entries, Reached, Floor, StaysBelow, Affordable;
    CeilingsHoldUnlessTheyOverrun(request);
  }

  /** Under a negative ceiling, which a wrapped batch maximum can be, no cue is ever paid for. */
  lemma {:induction false} NegativeCeilingsAcceptNothing(request: Request, cues: seq<Cue>, attempts: seq<Attempt>)
    requires request.speech.budgetMaximumMicros >= 0 && !request.speech.subscription && request.speech.batch.Some?
    requires Ceiling(request) < 0 && Fits(request, cues, attempts)
    ensures Remaining(cues, CompletedIDs(request.speech.completedAttempts)) == [] && Running(request, cues, attempts) == 0
    decreases |cues|
  {
    hide CompletedIDs, PaidFits, Wrap;
    if cues != [] {
      var n := |cues| - 1;
      var ids := CompletedIDs(request.speech.completedAttempts);
      NegativeCeilingsAcceptNothing(request, cues[..n], attempts[..n]);
      if cues[n].id !in ids {
        PaidUnitsAreBounded(request, cues[n], 0, attempts[n], Running(request, cues, attempts));
        WrapIsExact(attempts[n].usage.outputUnits as int);
      }
    }
  }

  // ---- Subscriptions ----

  /** The true number of units. */
  function Units(attempts: seq<Attempt>): int {
    if attempts == [] then 0 else Units(attempts[..|attempts| - 1]) + attempts[|attempts| - 1].usage.outputUnits as int
  }

  /** Under a subscription everything counts. */
  lemma {:induction false} SubscriptionsCountAll(request: Request, cues: seq<Cue>, attempts: seq<Attempt>)
    requires request.speech.subscription && |cues| == |attempts|
    ensures Total(Counted(request, cues, attempts)) == Units(attempts)
    decreases |cues|
  {
    if cues != [] {
      var n := |cues| - 1;
      SubscriptionsCountAll(request, cues[..n], attempts[..n]);
      assert Counted(request, cues, attempts)[..n] == Counted(request, cues[..n], attempts[..n]);
    }
  }

  /** On any route, then, a subscription whose entries cannot overrun really stays within its ceiling. */
  lemma SubscriptionsStayBelowTheirCeiling(request: Request, attempts: seq<Attempt>)
    requires Limited(request) && request.speech.subscription && Accepted(request, attempts) && !Overruns(request)
    ensures Units(attempts) <= request.speech.maximumAFPMilli as int
  {
    CeilingsHold(request, attempts);
    SubscriptionsCountAll(request, request.cues, attempts);
  }

  /** Outside the v2 identities, on a route where units need not follow the characters. */
  predicate Unattributed(request: Request) {
    !request.speech.v2 && !request.speech.agentPlan
  }

  function Opens(entries: seq<Entry>): nat {
    if entries == [] then 0 else Opens(entries[..|entries| - 1]) + (if entries[|entries| - 1].Open? then 1 else 0)
  }

  /** Where nothing completed counts and one attempt may use up the ceiling, only the number of open entries matters. */
  lemma {:induction false} EvenReach(entries: seq<Entry>, ceiling: nat, bound: nat)
    requires forall entry :: entry in entries ==> entry in {Completed(0), Open(0, bound)}
    requires ceiling <= bound <= MAX_INT64
    ensures Floor(entries) == 0
    ensures Reached(entries, ceiling, OUT_OF_RANGE)
         == Reach(true, 0, if Opens(entries) == 0 then 0 else ceiling, Opens(entries) >= 2 && ceiling + bound >= OUT_OF_RANGE)
    decreases |entries|
  {
    if entries != [] {
      var n := |entries| - 1;
      assert entries[n] in entries;
      forall entry | entry in entries[..n] ensures entry in {Completed(0), Open(0, bound)} { assert entry in entries; }
      EvenReach(entries[..n], ceiling, bound);
    }
  }

  /** One open entry for every cue still to be paid for. */
  lemma {:induction false} RemainingIsOpen(request: Request, cues: seq<Cue>)
    requires Limited(request) && Unattributed(request)
    ensures Opens(Entries(request, cues)) == |Remaining(cues, CompletedIDs(request.speech.completedAttempts))|
    decreases |cues|
  {
    hide CompletedIDs, CompletedFor;
    if cues != [] {
      RemainingIsOpen(request, cues[..|cues| - 1]);
      LastOfEntries(request, cues);
    }
  }

  lemma {:induction false} EvenEntries(request: Request, cues: seq<Cue>)
    requires Limited(request) && Unattributed(request)
    requires request.speech.completedAttempts == [] || !request.speech.subscription
    ensures var bound := if request.speech.subscription then request.speech.maximumAFPMilli as nat else MAX_INT64;
      forall entry :: entry in Entries(request, cues) ==> entry in {Completed(0), Open(0, bound)}
    decreases |cues|
  {
    hide Entries, EntryOf;
    if cues == [] {
      NothingEntered(request);
    } else {
      var n := |cues| - 1;
      EvenEntries(request, cues[..n]);
      LastOfEntries(request, cues);
      EvenEntry(request, cues[n]);
      assert Entries(request, cues) == Entries(request, cues[..n]) + [EntryOf(request, cues[n])];
    }
  }

  lemma NothingEntered(request: Request)
    requires request.speech.subscription ==> request.speech.maximumAFPMilli >= 0
    ensures Entries(request, []) == []
  {
  }

  lemma EvenEntry(request: Request, cue: Cue)
    requires Limited(request) && Unattributed(request)
    requires request.speech.completedAttempts == [] || !request.speech.subscription
    ensures var bound := if request.speech.subscription then request.speech.maximumAFPMilli as nat else MAX_INT64;
      EntryOf(request, cue) in {Completed(0), Open(0, bound)}
  {
    assert CompletedIDs([]) == {};
  }

  /**
   A fresh subscription outside v2 and off the metered route keeps to its ceiling, whatever the provider reports,
   exactly if it has at most one cue or twice the ceiling is an int64.
   */
  lemma {:induction false} FreshSubscriptionsStayBelowTheirCeiling(request: Request)
    requires Limited(request) && Unattributed(request) && Payable(request)
    requires request.speech.subscription && request.speech.completedAttempts == []
    ensures StaysBelow(request) <==> |request.cues| <= 1 || 2 * request.speech.maximumAFPMilli as int <= MAX_INT64
  {
    EvenEntries(request, request.cues);
    RemainingIsOpen(request, request.cues);
    NoneCompleted(request.cues);
    assert CompletedIDs([]) == {};
    EvenReach(Entries(request, request.cues), Ceiling(request) as nat, request.speech.maximumAFPMilli as nat);
    hide Payable, Entries, StaysBelow, Remaining, Reached, Floor, Opens;
    ReachDecides(request);
  }

  /** Without a batch a v2 request pays for its one authorized cue and no other. */
  lemma {:induction false} OnlyTheAuthorizedCueIsPaid(request: Request, cues: seq<Cue>, attempts: seq<Attempt>)
    requires request.speech.budgetMaximumMicros >= 0 && Fits(request, cues, attempts)
    requires request.speech.v2 && request.speech.batch.None? && request.speech.completedAttempts == []
    ensures forall i :: 0 <= i < |cues| ==> cues[i].id == request.speech.authorizedCueID
    decreases |cues|
  {
    hide AttemptFits, Running, Remaining, BudgetOf;
    assert CompletedIDs([]) == {};
    if cues != [] {
      OnlyTheAuthorizedCueIsPaid(request, cues[..|cues| - 1], attempts[..|cues| - 1]);
    }
  }

  /** So a v2 subscription always keeps to its ceiling. */
  lemma AuthorizedSubscriptionsStayBelowTheirCeiling(request: Request)
    requires Limited(request) && UniqueIDs(request.cues)
    requires request.speech.v2 && request.speech.subscription && request.speech.batch.None?
    ensures StaysBelow(request)
  {
    hide UnitBound, Grain;
    forall attempts | Accepted(request, attempts)
      ensures |attempts| == |request.cues| && Total(Counted(request, request.cues, attempts)) <= Ceiling(request) as int
    {
      OnlyTheAuthorizedCueIsPaid(request, request.cues, attempts);
      assert |request.cues| <= 1;
      SingleEntries(request);
      CeilingsHold(request, attempts);
    }
  }

  lemma SingleEntries(request: Request)
    requires Limited(request) && |request.cues| <= 1 && request.speech.completedAttempts == [] && request.speech.subscription
    ensures !Overruns(request)
  {
    var entries, cap, turn := Entries(request, request.cues), Cap(Grain(request), Ceiling(request) as nat), Turn(Grain(request));
    CapsStayBelowTheTurn(Grain(request), Ceiling(request) as nat);
    if request.cues != [] {
      assert CompletedIDs([]) == {};
      assert entries == [OpenEntry(request, request.cues[0])];
      OpenEntriesStayBelow(request, request.cues[0]);
      hide Entries, OpenEntry, Cap, Turn;
      SingleReach(entries[0], cap, turn);
    }
  }

  lemma OpenEntriesStayBelow(request: Request, cue: Cue)
    requires Limited(request) && request.speech.subscription
    ensures var entry := OpenEntry(request, cue); entry.Open? ==> entry.most <= Cap(Grain(request), Ceiling(request) as nat)
  {
  }

  lemma SingleReach(entry: Entry, cap: nat, turn: nat)
    requires cap < turn && !entry.Completed? && (entry.Open? ==> entry.most <= cap)
    ensures var r := Reached([entry], cap, turn); !r.escaped && r.most <= cap
  {
    assert [entry][..0] == [];
  }

  // ---- Room to spare ----

  function CompletedTotal(entries: seq<Entry>): nat {
    if entries == [] then 0
    else
      var n := |entries| - 1;
      CompletedTotal(entries[..n]) + (if entries[n].Completed? then entries[n].units else 0)
  }

  function BoundTotal(entries: seq<Entry>): nat {
    if entries == [] then 0
    else
      BoundTotal(entries[..|entries| - 1]) +
      (match entries[|entries| - 1] case Completed(c) => c case Open(_, most) => most case Closed => 0)
  }

  lemma RangeEndsBeforeTheTurn(grain: int, grains: nat)
    requires IsGrain(grain) && grain * grains <= MAX_INT64
    ensures grains < Turn(grain)
  {
    if grain == PER_CHARACTER {
      assert grain * grains == PER_CHARACTER * grains;
    }
  }

  /** Room for one more attempt below the range is always enough. */
  lemma {:induction false} RoomIsEnough(entries: seq<Entry>, cap: nat, turn: nat, bound: nat)
    requires forall entry :: entry in entries && entry.Open? ==> entry.most <= bound
    requires cap + CompletedTotal(entries) + bound < turn
    ensures var r := Reached(entries, cap, turn); r.most <= cap + CompletedTotal(entries) && !r.escaped
    decreases |entries|
  {
    if entries != [] {
      var n := |entries| - 1;
      assert entries[n] in entries;
      forall entry | entry in entries[..n] && entry.Open? ensures entry.most <= bound { assert entry in entries; }
      RoomIsEnough(entries[..n], cap, turn, bound);
    }
  }

  /** If everything at its most fits the range, nothing wraps around. */
  lemma {:induction false} RoomForAllIsEnough(entries: seq<Entry>, cap: nat, turn: nat)
    requires BoundTotal(entries) < turn
    ensures var r := Reached(entries, cap, turn); r.most <= BoundTotal(entries) && !r.escaped
    decreases |entries|
  {
    if entries != [] {
      RoomForAllIsEnough(entries[..|entries| - 1], cap, turn);
    }
  }

  /** The most grains one open entry adds. */
  function MostGrains(request: Request): int
    requires request.speech.subscription || request.speech.agentPlan
  {
    if request.speech.agentPlan then 600 else request.speech.maximumAFPMilli as int
  }

  lemma {:induction false} OpenEntriesAreBounded(request: Request, cues: seq<Cue>)
    requires Limited(request) && (request.speech.subscription || request.speech.agentPlan)
    ensures forall entry :: entry in Entries(request, cues) && entry.Open? ==> entry.most <= MostGrains(request)
    decreases |cues|
  {
    if cues != [] {
      OpenEntriesAreBounded(request, cues[..|cues| - 1]);
      LastOfEntries(request, cues);
    }
  }

  /**
   A request with room cannot overrun: the ceiling, what is completed and one more attempt together fit the range.
   Under a subscription one attempt is at most the ceiling, and on the metered route at most 600 characters.
   */
  lemma RequestsWithRoomCannotOverrun(request: Request)
    requires Limited(request) && (request.speech.subscription || request.speech.agentPlan)
    requires Ceiling(request) as int + Grain(request) * (CompletedTotal(Entries(request, request.cues)) + MostGrains(request)) <= MAX_INT64
    ensures !Overruns(request)
  {
    var entries, grain := Entries(request, request.cues), Grain(request);
    var cap := Cap(grain, Ceiling(request) as nat);
    OpenEntriesAreBounded(request, request.cues);
    hide Entries;
    if grain == PER_CHARACTER {
      assert grain * (cap + CompletedTotal(entries) + MostGrains(request)) <= MAX_INT64;
    }
    RangeEndsBeforeTheTurn(grain, cap + CompletedTotal(entries) + MostGrains(request));
    RoomIsEnough(entries, cap, Turn(grain), MostGrains(request));
  }

  lemma {:induction false} MeteredBounds(request: Request, cues: seq<Cue>)
    requires Limited(request) && request.speech.agentPlan
    ensures BoundTotal(Entries(request, cues)) <= CompletedTotal(Entries(request, cues)) + 600 * |cues|
    decreases |cues|
  {
    if cues != [] {
      MeteredBounds(request, cues[..|cues| - 1]);
      LastOfEntries(request, cues);
    }
  }

  /** On the metered route a ceiling holds, whatever it is, unless 600 characters for every cue leave the int64 range. */
  lemma MeteredRequestsStayBelowTheirCeiling(request: Request)
    requires Limited(request) && request.speech.agentPlan
    requires PER_CHARACTER * (CompletedTotal(Entries(request, request.cues)) + 600 * |request.cues|) <= MAX_INT64
    ensures StaysBelow(request)
  {
    var entries, ceiling := Entries(request, request.cues), Ceiling(request) as nat;
    MeteredBounds(request, request.cues);
    hide Entries;
    RoomForAllIsEnough(entries, Cap(PER_CHARACTER, ceiling), Turn(PER_CHARACTER));
    forall attempts | Accepted(request, attempts)
      ensures |attempts| == |request.cues| && Total(Counted(request, request.cues, attempts)) <= ceiling
    {
      CeilingsHold(request, attempts);
    }
  }

  // ---- Batches ----

  /**
   Outside a subscription and outside v2 nothing bounds one attempt's units off the metered route, so a batch keeps to
   its ceiling only if it authorizes at most one cue, or no units at all.
   */
  lemma {:induction false} BatchesStayBelowTheirCeiling(request: Request)
    requires Limited(request) && Unattributed(request) && Payable(request) && !request.speech.subscription
    ensures StaysBelow(request) <==> |request.speech.batch.value.cues| <= 1 || request.speech.batch.value.maximumAFPMilli == 0
  {
    EvenEntries(request, request.cues);
    RemainingIsOpen(request, request.cues);
    EvenReach(Entries(request, request.cues), Ceiling(request) as nat, MAX_INT64);
    hide Entries, StaysBelow, Remaining, Reached, Floor, Opens;
    ReachDecides(request);
  }

  function AuthorizedTotal(authorizations: seq<CueAuthorization>): int {
    if authorizations == [] then 0
    else AuthorizedTotal(authorizations[..|authorizations| - 1]) + authorizations[|authorizations| - 1].maximumAFPMilli as int
  }

  lemma {:induction false} RemainingAreCues(cues: seq<Cue>, completed: set<string>)
    ensures forall cue :: cue in Remaining(cues, completed) ==> cue in cues
  {
    if cues != [] {
      RemainingAreCues(cues[..|cues| - 1], completed);
    }
  }

  lemma {:induction false} RemainingIDsAreUnique(cues: seq<Cue>, completed: set<string>)
    requires UniqueIDs(cues)
    ensures UniqueIDs(Remaining(cues, completed))
  {
    if cues != [] {
      var init, last := cues[..|cues| - 1], cues[|cues| - 1];
      var remaining := Remaining(init, completed);
      RemainingIDsAreUnique(init, completed);
      RemainingAreCues(init, completed);
      forall i | 0 <= i < |remaining| ensures remaining[i].id != last.id {
        assert remaining[i] in init;
      }
    }
  }

  lemma {:induction false} AuthorizationIsFound(authorizations: seq<CueAuthorization>, k: nat)
    requires k < |authorizations|
    requires forall i, j :: 0 <= i < j < |authorizations| ==> authorizations[i].cueID != authorizations[j].cueID
    ensures AuthorizationFor(authorizations, authorizations[k].cueID) == Some(authorizations[k])
    decreases |authorizations|
  {
    if k > 0 {
      AuthorizationIsFound(authorizations[1..], k - 1);
    }
  }

  /** A v2 batch outside a subscription whose authorizations are not negative. */
  predicate Attributed(request: Request) {
    && request.speech.v2 && !request.speech.subscription && request.speech.batch.Some?
    && forall k :: 0 <= k < |request.speech.batch.value.cues| ==> request.speech.batch.value.cues[k].maximumAFPMilli >= 0
  }

  /** It allows no cash, and every cue has a job: what the configuration's own validation demands. */
  predicate Validated(request: Request) {
    && request.speech.maximumCashMicros == 0
    && forall i :: 0 <= i < |request.cues| ==> !Blank(request.identify(request.cues[i]).jobID)
  }

  /** The k-th remaining cue may use exactly what the k-th authorization allows, and no more than its route does. */
  lemma BoundsAreAuthorized(request: Request, i: nat)
    requires Attributed(request) && Covered(request) && UniqueIDs(request.cues) && i < |request.cues|
    requires request.cues[i].id !in CompletedIDs(request.speech.completedAttempts)
    ensures var k := |Remaining(request.cues[..i], CompletedIDs(request.speech.completedAttempts))|;
      var authorizations := request.speech.batch.value.cues;
      && k < |authorizations|
      && (Validated(request) ==> Acceptable(request, request.cues[i]))
      && (Acceptable(request, request.cues[i]) ==>
            UnitBound(request, request.cues[i])
              == Least(if request.speech.agentPlan then 600 * PER_CHARACTER else MAX_INT64, authorizations[k].maximumAFPMilli as int))
  {
    var ids := CompletedIDs(request.speech.completedAttempts);
    var remaining, k := Remaining(request.cues, ids), |Remaining(request.cues[..i], ids)|;
    var authorizations := request.speech.batch.value.cues;
    RemainingIDsAreUnique(request.cues, ids);
    RemainingAt(request.cues, ids, i);
    assert forall i :: 0 <= i < |remaining| ==> Authorizes(request, authorizations[i], remaining[i]);
    hide Covered, Remaining, CompletedIDs, Blank;
    AuthorizationIsFound(authorizations, k);
  }

  lemma LastOfAuthorized(authorizations: seq<CueAuthorization>, k: nat)
    requires k < |authorizations|
    ensures AuthorizedTotal(authorizations[..k + 1]) == AuthorizedTotal(authorizations[..k]) + authorizations[k].maximumAFPMilli as int
  {
    assert authorizations[..k + 1][..k] == authorizations[..k];
  }

  /** Up to the k-th, no authorization takes the total out of the range from anywhere within the ceiling. */
  predicate InRange(authorizations: seq<CueAuthorization>, ceiling: nat, k: nat)
    requires k <= |authorizations|
  {
    forall j :: 0 <= j < k ==>
      Least(AuthorizedTotal(authorizations[..j]), ceiling) + authorizations[j].maximumAFPMilli as int <= MAX_INT64
  }

  lemma {:induction false} AuthorizedTotalsAreNatural(authorizations: seq<CueAuthorization>, k: nat)
    requires k <= |authorizations| && forall j :: 0 <= j < |authorizations| ==> authorizations[j].maximumAFPMilli >= 0
    ensures AuthorizedTotal(authorizations[..k]) >= 0
  {
    if k > 0 {
      AuthorizedTotalsAreNatural(authorizations, k - 1);
      LastOfAuthorized(authorizations, k - 1);
    }
  }

  /** What a batch's authorizations let its total reach. */
  lemma {:induction false} AuthorizedReach(request: Request, i: nat)
    requires Limited(request) && Attributed(request) && Validated(request) && !request.speech.agentPlan
    requires Covered(request) && UniqueIDs(request.cues) && i <= |request.cues|
    ensures var k := |Remaining(request.cues[..i], CompletedIDs(request.speech.completedAttempts))|;
      var authorizations, ceiling := request.speech.batch.value.cues, Ceiling(request) as nat;
      && k <= |authorizations| && Floor(Entries(request, request.cues[..i])) == 0
      && AuthorizedTotal(authorizations[..k]) >= 0
      && Reached(Entries(request, request.cues[..i]), ceiling, OUT_OF_RANGE)
           == Reach(true, 0, Least(AuthorizedTotal(authorizations[..k]), ceiling), !InRange(authorizations, ceiling, k))
  {
    hide Covered, CompletedIDs, CompletedFor, Remaining, Entries, AuthorizedTotal, UnitBound, Acceptable, Blank;
    var ids, authorizations := CompletedIDs(request.speech.completedAttempts), request.speech.batch.value.cues;
    if i == 0 {
      NothingRemains(request.cues, ids);
      NothingAddsUp(request);
      assert request.cues[..0] == [] && authorizations[..0] == [];
    } else {
      var k := |Remaining(request.cues[..i - 1], ids)|;
      AuthorizedReach(request, i - 1);
      assert request.cues[..i][..i - 1] == request.cues[..i - 1];
      LastOfEntries(request, request.cues[..i]);
      RemainingAt(request.cues, ids, i - 1);
      if request.cues[i - 1].id !in ids {
        BoundsAreAuthorized(request, i - 1);
        LastOfAuthorized(authorizations, k);
        AuthorizedTotalsAreNatural(authorizations, k + 1);
      }
    }
  }

  lemma NothingAddsUp(request: Request)
    requires request.speech.subscription ==> request.speech.maximumAFPMilli >= 0
    ensures Entries(request, []) == [] && AuthorizedTotal([]) == 0
  {
  }

  /**
   A v2 batch off the metered route keeps to its ceiling, whatever the provider reports, exactly if every cue's own
   authorization, added to what the cues before it may use within the ceiling, is an int64.
   */
  lemma {:induction false} AttributedBatchesStayBelowTheirCeiling(request: Request)
    requires Limited(request) && Payable(request) && UniqueIDs(request.cues)
    requires Attributed(request) && Validated(request) && !request.speech.agentPlan
    ensures var batch := request.speech.batch.value;
      StaysBelow(request) <==> InRange(batch.cues, batch.maximumAFPMilli as nat, |batch.cues|)
  {
    hide Entries, StaysBelow, Remaining, InRange, Reached, Floor, CompletedIDs, Affordable, Covered, AuthorizedTotal;
    AuthorizedReach(request, |request.cues|);
    assert request.cues[..|request.cues|] == request.cues;
    AllAreAuthorized(request);
    ReachDecides(request);
  }

  lemma AllAreAuthorized(request: Request)
    requires Covered(request) && request.speech.batch.Some?
    ensures |Remaining(request.cues, CompletedIDs(request.speech.completedAttempts))| == |request.speech.batch.value.cues|
  {
  }

  /** So far, no cue may use more than its authorization. */
  lemma {:induction false} BoundsAddUp(request: Request, i: nat)
    requires Limited(request) && Attributed(request) && Covered(request) && UniqueIDs(request.cues) && i <= |request.cues|
    ensures var k := |Remaining(request.cues[..i], CompletedIDs(request.speech.completedAttempts))|;
      && k <= |request.speech.batch.value.cues|
      && Grain(request) * BoundTotal(Entries(request, request.cues[..i])) <= AuthorizedTotal(request.speech.batch.value.cues[..k])
  {
    hide Covered, CompletedIDs, CompletedFor, Remaining, Entries, AuthorizedTotal, UnitBound, Acceptable, Blank;
    var ids, authorizations := CompletedIDs(request.speech.completedAttempts), request.speech.batch.value.cues;
    if i == 0 {
      NothingRemains(request.cues, ids);
      NothingAddsUp(request);
      assert request.cues[..0] == [] && authorizations[..0] == [];
    } else {
      var k := |Remaining(request.cues[..i - 1], ids)|;
      BoundsAddUp(request, i - 1);
      assert request.cues[..i][..i - 1] == request.cues[..i - 1];
      LastOfEntries(request, request.cues[..i]);
      RemainingAt(request.cues, ids, i - 1);
      if request.cues[i - 1].id !in ids {
        BoundsAreAuthorized(request, i - 1);
        LastOfAuthorized(authorizations, k);
      }
    }
  }

  /** On any route it does if its authorizations add up inside the range. */
  lemma AuthorizedBatchesStayBelowTheirCeiling(request: Request, attempts: seq<Attempt>)
    requires Limited(request) && UniqueIDs(request.cues) && Accepted(request, attempts) && Attributed(request)
    requires AuthorizedTotal(request.speech.batch.value.cues) <= MAX_INT64
    ensures |attempts| == |request.cues|
    ensures 0 <= Total(Counted(request, request.cues, attempts)) <= request.speech.batch.value.maximumAFPMilli as int
  {
    var all, ids := request.cues, CompletedIDs(request.speech.completedAttempts);
    BoundsAddUp(request, |all|);
    assert all[..|all|] == all;
    assert |Remaining(all, ids)| == |request.speech.batch.value.cues|;
    assert request.speech.batch.value.cues[..|Remaining(all, ids)|] == request.speech.batch.value.cues;
    hide Remaining, Entries, AuthorizedTotal, BoundTotal;
    RangeEndsBeforeTheTurn(Grain(request), BoundTotal(Entries(request, all)));
    RoomForAllIsEnough(Entries(request, all), Cap(Grain(request), Ceiling(request) as nat), Turn(Grain(request)));
    CeilingsHold(request, attempts);
  }

  // ---- Requests that fail ----

  /** Two cues under the largest ceiling can pass far beyond it, and one cue cannot. */
  lemma {:induction false} CeilingsNearTheRangeFail(a: Cue, b: Cue)
    ensures StaysBelow(Wide([a]))
    ensures exists attempts: seq<Attempt> :: Accepted(Wide([a, b]), attempts) && Units(attempts) > MAX_INT64
  {
    FreshSubscriptionsStayBelowTheirCeiling(Wide([a]));
    FreshSubscriptionsStayBelowTheirCeiling(Wide([a, b]));
    assert !StaysBelow(Wide([a, b]));
    hide Units, Counted;
    var attempts :| Accepted(Wide([a, b]), attempts)
      && !(|attempts| == 2 && Total(Counted(Wide([a, b]), [a, b], attempts)) <= MAX_INT64);
    SubscriptionsCountAll(Wide([a, b]), [a, b], attempts);
  }

  /** A subscription with the largest ceiling there is. */
  function Wide(cues: seq<Cue>): (request: Request)
    ensures Limited(request) && Unattributed(request) && Payable(request)
  {
    Request("mock_only", cues, Config("m", false, 0, "CNY", true, false, "", 0x7fff_ffff_ffff_ffff, 0, None, []),
            cue => Identity("j", "h"), false)
  }

  /** A v2 batch of three cues, each allowed any int64. Its maximum is their sum as int64 addition makes it. */
  function Threefold(a: Cue, b: Cue, c: Cue): Request {
    var batch := Batch(0x7fff_ffff_ffff_fffd, [AnyUnits(a), AnyUnits(b), AnyUnits(c)]);
    Request("mock_only", [a, b, c], Config("m", false, 3, "CNY", false, true, "", 0, 0, Some(batch), []), IdentityOf, false)
  }

  function IdentityOf(cue: Cue): Identity {
    Identity("speech-v2-" + cue.id, cue.id)
  }

  function AnyUnits(cue: Cue): CueAuthorization {
    CueAuthorization(cue.id, IdentityOf(cue).jobID, IdentityOf(cue).inputHash, cue.characters, 0x7fff_ffff_ffff_ffff)
  }

  /** Validation adds up the authorizations in int64 as well and finds nothing wrong, but the total can pass the maximum. */
  lemma {:induction false} WrappedBatchesFail(a: Cue, b: Cue, c: Cue)
    requires a.id != b.id && b.id != c.id && a.id != c.id
    ensures var request := Threefold(a, b, c);
      var batch := request.speech.batch.value;
      && Limited(request) && Payable(request) && Attributed(request) && Validated(request)
      && Wrap(AuthorizedTotal(batch.cues)) == batch.maximumAFPMilli
      && !StaysBelow(request)
  {
    var request := Threefold(a, b, c);
    ThreefoldIsCovered(a, b, c);
    ThreefoldIsAttributed(a, b, c);
    hide Threefold, Payable, StaysBelow, Limited, Attributed, Validated, UniqueIDs, InRange, AuthorizedTotal;
    AttributedBatchesStayBelowTheirCeiling(request);
  }

  lemma NotInRange(authorizations: seq<CueAuthorization>, ceiling: nat)
    requires |authorizations| == 3 && AuthorizedTotal(authorizations[..1]) == MAX_INT64 == authorizations[1].maximumAFPMilli as int
    requires ceiling > 0
    ensures !InRange(authorizations, ceiling, 3)
  {
  }

  lemma ThreefoldAddsUp(a: Cue, b: Cue, c: Cue)
    ensures AuthorizedTotal([AnyUnits(a)]) == MAX_INT64 && AuthorizedTotal([AnyUnits(a), AnyUnits(b), AnyUnits(c)]) == 3 * MAX_INT64
  {
    var x, y, z := AnyUnits(a), AnyUnits(b), AnyUnits(c);
    assert [x, y, z][..2] == [x, y] && [x, y][..1] == [x] && [x][..0] == [];
    assert AuthorizedTotal([x]) == AuthorizedTotal([]) + MAX_INT64;
    assert AuthorizedTotal([x, y]) == AuthorizedTotal([x]) + MAX_INT64;
  }

  lemma ThreefoldIsCovered(a: Cue, b: Cue, c: Cue)
    requires a.id != b.id && b.id != c.id && a.id != c.id
    ensures Limited(Threefold(a, b, c)) && Payable(Threefold(a, b, c)) && UniqueIDs(Threefold(a, b, c).cues)
  {
    hide IdentityOf;
    var request := Threefold(a, b, c);
    NoneCompleted(request.cues);
    assert CompletedIDs(request.speech.completedAttempts) == {};
  }

  lemma JobsAreNamed(cue: Cue)
    ensures !Blank(IdentityOf(cue).jobID)
  {
    assert 's' in "speech-v2-" + cue.id;
  }

  lemma ThreefoldIsAttributed(a: Cue, b: Cue, c: Cue)
    ensures var request := Threefold(a, b, c);
      var batch := request.speech.batch.value;
      && Attributed(request) && Validated(request) && !request.speech.agentPlan && batch.maximumAFPMilli >= 0
      && Wrap(AuthorizedTotal(batch.cues)) == batch.maximumAFPMilli
      && !InRange(batch.cues, batch.maximumAFPMilli as nat, |batch.cues|)
  {
    hide AuthorizedTotal, InRange, Blank, IdentityOf, AnyUnits;
    ThreefoldAddsUp(a, b, c);
    JobsAreNamed(a);
    JobsAreNamed(b);
    JobsAreNamed(c);
    AnyUnitsAreAllowed(a);
    AnyUnitsAreAllowed(b);
    AnyUnitsAreAllowed(c);
    var authorizations := [AnyUnits(a), AnyUnits(b), AnyUnits(c)];
    assert authorizations[..1] == [AnyUnits(a)];
    NotInRange(authorizations, 0x7fff_ffff_ffff_fffd);
  }

  lemma AnyUnitsAreAllowed(cue: Cue)
    ensures AnyUnits(cue).maximumAFPMilli as int == MAX_INT64
  {
  }
}
