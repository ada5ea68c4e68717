/**
 The immutable revision store: compare-and-append chains with idempotent append and rollback.

 Hashing enters as two digest functions. Nothing here assumes they are free of collisions, except the
 lemmas that say so with `CollisionFree`.
 */
module Revisions {
  import opened Wrappers
  import opened Text

  /** The fields a revision ID is derived from. Evidence IDs are kept sorted and unique, so a set carries them. */
  datatype IdentityMaterial = IdentityMaterial(
    kind: string,
    aggregateID: string,
    parentID: string,
    rollbackOf: string,
    schemaVersion: string,
    contentHash: string,
    evidenceIDs: set<string>)

  datatype Digests = Digests(content: (string, string) -> string, identity: IdentityMaterial -> string) {
    function RevisionID(material: IdentityMaterial): string {
      "rev-" + identity(material)
    }
  }

  ghost predicate CollisionFree(digests: Digests) {
    forall a: IdentityMaterial, b: IdentityMaterial :: digests.identity(a) == digests.identity(b) ==> a == b
  }

  ghost predicate ContentCollisionFree(digests: Digests) {
    forall schema: string, payload: string, schema': string, payload': string ::
      digests.content(schema, payload) == digests.content(schema', payload') ==> schema == schema' && payload == payload'
  }

  datatype Revision = Revision(
    id: string,
    kind: string,
    aggregateID: string,
    number: nat,
    parentID: string,
    rollbackOf: string,
    schemaVersion: string,
    contentHash: string,
    payload: string,
    evidenceIDs: set<string>,
    createdBy: string,
    createdAt: nat)
  {
    function Material(): IdentityMaterial {
      IdentityMaterial(kind, aggregateID, parentID, rollbackOf, schemaVersion, contentHash, evidenceIDs)
    }

    predicate Repeats(contentHash: string, evidenceIDs: set<string>) {
      this.contentHash == contentHash && this.evidenceIDs == evidenceIDs
    }
  }

  /** A payload is absent, has no JSON encoding, or is known by its canonical JSON. */
  datatype Payload = Missing | Unencodable | Json(text: string)

  datatype CreateInput = CreateInput(
    kind: string,
    aggregateID: string,
    parentID: string,
    rollbackOf: string,
    schemaVersion: string,
    payload: Payload,
    evidenceIDs: set<string>,
    createdBy: string,
    createdAt: nat)

  datatype Error = ValidationFailed | Conflict | NotFound | EncodingFailed

  function ChainKey(kind: string, aggregateID: string): string {
    kind + ['\0'] + aggregateID
  }

  datatype Store = Store(byID: map<string, Revision>, chains: map<string, seq<string>>) {
    function Chain(kind: string, aggregateID: string): seq<string> {
      ChainAt(ChainKey(kind, aggregateID))
    }

    function ChainAt(key: string): seq<string> {
      if key in chains then chains[key] else []
    }

    /** ID of the newest revision of a chain, or the empty ID. */
    function LatestID(kind: string, aggregateID: string): string {
      var chain := Chain(kind, aggregateID);
      if chain == [] then "" else chain[|chain| - 1]
    }
  }

  const EMPTY := Store(map[], map[])

  function WellFormed(input: CreateInput): Option<Error> {
    if Blank(input.kind) || Blank(input.aggregateID) || Blank(input.schemaVersion) || Blank(input.createdBy)
      then Some(ValidationFailed)
    else if input.payload.Missing? || input.createdAt == 0 then Some(ValidationFailed)
    else if input.payload.Unencodable? then Some(EncodingFailed)
    else None
  }

  /** Compare-and-append: a parent that is not the newest revision, or a foreign rollback target, is a conflict. */
  predicate Admissible(s: Store, input: CreateInput) {
    && input.parentID == s.LatestID(input.kind, input.aggregateID)
    && (input.rollbackOf != "" ==>
          && input.rollbackOf in s.byID
          && s.byID[input.rollbackOf].kind == input.kind
          && s.byID[input.rollbackOf].aggregateID == input.aggregateID)
  }

  function ContentHash(digests: Digests, input: CreateInput): string
    requires input.payload.Json?
  {
    digests.content(input.schemaVersion, input.payload.text)
  }

  function IdentityOf(digests: Digests, input: CreateInput): IdentityMaterial
    requires input.payload.Json?
  {
    IdentityMaterial(input.kind, input.aggregateID, input.parentID, input.rollbackOf,
                      input.schemaVersion, ContentHash(digests, input), input.evidenceIDs)
  }

  function NewRevision(digests: Digests, s: Store, input: CreateInput): Revision
    requires input.payload.Json?
  {
    Revision(digests.RevisionID(IdentityOf(digests, input)), input.kind, input.aggregateID,
             |s.Chain(input.kind, input.aggregateID)| + 1, input.parentID, input.rollbackOf, input.schemaVersion,
             ContentHash(digests, input), input.payload.text, input.evidenceIDs, input.createdBy, input.createdAt)
  }

  function Append(s: Store, revision: Revision): Store {
    var key := ChainKey(revision.kind, revision.aggregateID);
    Store(s.byID[revision.id := revision], s.chains[key := s.ChainAt(key) + [revision.id]])
  }

  /** The newest revision already says this, and no rollback link needs recording. */
  predicate AlreadySaid(digests: Digests, s: Store, input: CreateInput)
    requires input.payload.Json?
  {
    var latest := s.LatestID(input.kind, input.aggregateID);
    && s.Chain(input.kind, input.aggregateID) != [] && input.rollbackOf == "" && latest in s.byID
    && s.byID[latest].Repeats(ContentHash(digests, input), input.evidenceIDs)
  }

  /** What one atomic create does to the store and what it returns. */
  function Created(digests: Digests, s: Store, input: CreateInput): (Store, Result<Revision, Error>) {
    if WellFormed(input).Some? then (s, Err(WellFormed(input).value))
    else if !Admissible(s, input) then (s, Err(Conflict))
    else if AlreadySaid(digests, s, input) then (s, Ok(s.byID[s.LatestID(input.kind, input.aggregateID)]))
    else
      var revision := NewRevision(digests, s, input);
      if revision.id in s.byID then (s, Ok(s.byID[revision.id]))
      else (Append(s, revision), Ok(revision))
  }

  // ---- What every reachable store satisfies ----

  /** The k-th revision of a chain: numbered, linked to its exact predecessor, and news unless it rolls back. */
  ghost predicate Linked(digests: Digests, s: Store, key: string, k: nat)
    requires k < |s.ChainAt(key)|
  {
    var chain := s.ChainAt(key);
    && chain[k] in s.byID
    && var revision := s.byID[chain[k]];
       && revision.id == chain[k] == digests.RevisionID(revision.Material())
       && revision.contentHash == digests.content(revision.schemaVersion, revision.payload)
       && ChainKey(revision.kind, revision.aggregateID) == key
       && revision.number == k + 1
       && revision.parentID == (if k == 0 then "" else chain[k - 1])
       && (k > 0 && revision.rollbackOf == "" ==>
             && chain[k - 1] in s.byID
             && !s.byID[chain[k - 1]].Repeats(revision.contentHash, revision.evidenceIDs))
       && (revision.rollbackOf != "" ==>
             && revision.rollbackOf in s.byID
             && s.byID[revision.rollbackOf].kind == revision.kind
             && s.byID[revision.rollbackOf].aggregateID == revision.aggregateID
             && s.byID[revision.rollbackOf].number <= k)
  }

  /** A stored revision sits in its own chain at the place its number names. */
  ghost predicate Placed(s: Store, id: string)
    requires id in s.byID
  {
    var revision := s.byID[id];
    var chain := s.Chain(revision.kind, revision.aggregateID);
    0 < revision.number <= |chain| && chain[revision.number - 1] == id
  }

  ghost predicate Valid(digests: Digests, s: Store) {
    && (forall key, k: nat :: k < |s.ChainAt(key)| ==> Linked(digests, s, key, k))
    && (forall id :: id in s.byID ==> Placed(s, id))
  }

  /** later keeps every revision and every chain of s, only adding at the ends. */
  ghost predicate Extends(s: Store, later: Store) {
    && (forall id :: id in s.byID ==> id in later.byID && later.byID[id] == s.byID[id])
    && (forall key :: s.ChainAt(key) <= later.ChainAt(key))
  }

  lemma ChainIDsAreDistinct(digests: Digests, s: Store, key: string, i: nat, j: nat)
    requires Valid(digests, s) && i < |s.ChainAt(key)| && j < |s.ChainAt(key)|
    requires s.ChainAt(key)[i] == s.ChainAt(key)[j]
    ensures i == j
  {
    assert Linked(digests, s, key, i) && Linked(digests, s, key, j);
  }

  lemma NoEmptyIDs(digests: Digests, s: Store, key: string, k: nat)
    requires Valid(digests, s) && k < |s.ChainAt(key)|
    ensures s.ChainAt(key)[k] != ""
  {
    assert Linked(digests, s, key, k);
  }

  /** An append lands in a valid store when its ID is new. */
  lemma AppendKeepsValid(digests: Digests, s: Store, input: CreateInput)
    requires Valid(digests, s) && WellFormed(input).None? && Admissible(s, input)
    requires !AlreadySaid(digests, s, input)
    requires NewRevision(digests, s, input).id !in s.byID
    ensures Valid(digests, Append(s, NewRevision(digests, s, input)))
  {
    var revision := NewRevision(digests, s, input);
    var t := Append(s, revision);
    var own := ChainKey(input.kind, input.aggregateID);
    AppendKeepsPlaces(digests, s, revision);
    forall key, k: nat | k < |t.ChainAt(key)| ensures Linked(digests, t, key, k) {
      hide Linked, Placed, AlreadySaid, NewRevision;
      if k < |s.ChainAt(key)| {
        assert Linked(digests, s, key, k);
        OldLinksStay(digests, s, revision, key, k);
      } else {
        assert key == own && k == |s.ChainAt(own)|;
        NewLinkHolds(digests, s, input);
      }
    }
  }

  lemma OldLinksStay(digests: Digests, s: Store, revision: Revision, key: string, k: nat)
    requires k < |s.ChainAt(key)| && Linked(digests, s, key, k) && revision.id !in s.byID
    ensures k < |Append(s, revision).ChainAt(key)| && Linked(digests, Append(s, revision), key, k)
  {
  }

  /** The appended revision follows the one that was newest, and says something new unless it rolls back. */
  lemma NewLinkHolds(digests: Digests, s: Store, input: CreateInput)
    requires Valid(digests, s) && WellFormed(input).None? && Admissible(s, input)
    requires !AlreadySaid(digests, s, input)
    requires NewRevision(digests, s, input).id !in s.byID
    ensures var t, own := Append(s, NewRevision(digests, s, input)), ChainKey(input.kind, input.aggregateID);
      |t.ChainAt(own)| == |s.ChainAt(own)| + 1 && Linked(digests, t, own, |s.ChainAt(own)|)
  {
    var k, own := |s.Chain(input.kind, input.aggregateID)|, ChainKey(input.kind, input.aggregateID);
    if k > 0 {
      assert Linked(digests, s, own, k - 1);
      NoEmptyIDs(digests, s, own, k - 1);
    }
    if input.rollbackOf != "" {
      assert Placed(s, input.rollbackOf);
    }
    hide Valid;
  }

  lemma AppendKeepsPlaces(digests: Digests, s: Store, revision: Revision)
    requires Valid(digests, s) && revision.id !in s.byID
    requires revision.number == |s.Chain(revision.kind, revision.aggregateID)| + 1
    ensures var t := Append(s, revision); forall id :: id in t.byID ==> Placed(t, id)
  {
    hide Linked;
    var t := Append(s, revision);
    forall id | id in t.byID ensures Placed(t, id) {
      if id in s.byID {
        assert Placed(s, id);
      }
    }
  }

  /** Creating keeps the store valid and never changes or removes what is there, whatever the digests. */
  lemma {:induction false} CreateKeepsValid(digests: Digests, s: Store, input: CreateInput)
    requires Valid(digests, s)
    ensures Valid(digests, Created(digests, s, input).0)
    ensures Extends(s, Created(digests, s, input).0)
  {
    hide Valid;
    if WellFormed(input).None? && Admissible(s, input) && !AlreadySaid(digests, s, input)
       && NewRevision(digests, s, input).id !in s.byID {
      AppendKeepsValid(digests, s, input);
    }
  }

  /** With collision-free IDs the early return for an existing ID is never taken. */
  lemma ExistingIDIsUnreachable(digests: Digests, s: Store, input: CreateInput)
    requires CollisionFree(digests) && Valid(digests, s)
    requires WellFormed(input).None? && Admissible(s, input)
    ensures NewRevision(digests, s, input).id !in s.byID
  {
    var id := NewRevision(digests, s, input).id;
    if id in s.byID {
      var existing := s.byID[id];
      assert Placed(s, id);
      var key := ChainKey(existing.kind, existing.aggregateID);
      var k := existing.number - 1;
      assert Linked(digests, s, key, k);
      assert id[4..] == digests.identity(existing.Material()) == digests.identity(IdentityOf(digests, input));
      assert existing.Material() == IdentityOf(digests, input);
      var last := |s.ChainAt(key)| - 1;
      NoEmptyIDs(digests, s, key, last);
      if k > 0 {
        ChainIDsAreDistinct(digests, s, key, k - 1, last);
      }
      assert false;
    }
  }

  /**
   What a create comes to, in the caller's terms: a malformed input is refused, then a parent that is not the newest
   revision or a foreign rollback target; what the newest revision already says is returned and nothing changes;
   everything else is appended once, as it was given.
   */
  ghost predicate Outcome(digests: Digests, s: Store, input: CreateInput, t: Store, r: Result<Revision, Error>) {
    var chain := s.Chain(input.kind, input.aggregateID);
    var newest := if chain == [] then None else Some(chain[|chain| - 1]);
    if Blank(input.kind) || Blank(input.aggregateID) || Blank(input.schemaVersion) || Blank(input.createdBy)
       || input.payload == Missing || input.createdAt == 0 then
      t == s && r == Err(ValidationFailed)
    else if input.payload == Unencodable then
      t == s && r == Err(EncodingFailed)
    else if input.parentID != (if newest.None? then "" else newest.value) then
      t == s && r == Err(Conflict)
    else if input.rollbackOf != "" && !(input.rollbackOf in s.byID && s.byID[input.rollbackOf].kind == input.kind
                                        && s.byID[input.rollbackOf].aggregateID == input.aggregateID) then
      t == s && r == Err(Conflict)
    else if input.rollbackOf == "" && newest.Some? && newest.value in s.byID
            && s.byID[newest.value].schemaVersion == input.schemaVersion && s.byID[newest.value].payload == input.payload.text
            && s.byID[newest.value].evidenceIDs == input.evidenceIDs then
      t == s && r == Ok(s.byID[newest.value])
    else
      && r.Ok? && r.value.id !in s.byID
      && t.byID == s.byID[r.value.id := r.value]
      && t.chains == s.chains[input.kind + "\0" + input.aggregateID := chain + [r.value.id]]
      && r.value == Revision(r.value.id, input.kind, input.aggregateID, |chain| + 1, input.parentID, input.rollbackOf,
                             input.schemaVersion, digests.content(input.schemaVersion, input.payload.text),
                             input.payload.text, input.evidenceIDs, input.createdBy, input.createdAt)
  }

  /** The digests tell different contents and different revisions apart. */
  ghost predicate Telling(digests: Digests) {
    CollisionFree(digests) && ContentCollisionFree(digests)
  }

  /** With digests free of collisions no edit is lost and nothing is said twice. */
  lemma NoEditIsLost(digests: Digests, s: Store, input: CreateInput)
    requires Telling(digests) && Valid(digests, s)
    ensures Outcome(digests, s, input, Created(digests, s, input).0, Created(digests, s, input).1)
  {
    if WellFormed(input).None? && Admissible(s, input) {
      ExistingIDIsUnreachable(digests, s, input);
      var key, n := ChainKey(input.kind, input.aggregateID), |s.Chain(input.kind, input.aggregateID)|;
      if n > 0 {
        assert Linked(digests, s, key, n - 1);
      }
      hide Valid, CollisionFree;
    }
  }

  lemma NewestParentIsNoConflict(digests: Digests, s: Store, input: CreateInput)
    requires input.rollbackOf == "" && input.parentID == s.LatestID(input.kind, input.aggregateID)
    ensures var r := Created(digests, s, input).1; r.Ok? || (r.error != Conflict && r.error != NotFound)
  {
  }

  /** With collision-free IDs a rollback that succeeds always appends, even when it repeats the newest revision. */
  lemma RollbackGrowsByOne(digests: Digests, s: Store, input: CreateInput)
    requires CollisionFree(digests) && Valid(digests, s) && input.rollbackOf != ""
    requires Created(digests, s, input).1.Ok?
    ensures var (t, r) := Created(digests, s, input);
      && t.Chain(input.kind, input.aggregateID) == s.Chain(input.kind, input.aggregateID) + [r.value.id]
      && r.value.rollbackOf == input.rollbackOf
  {
    hide Valid;
    ExistingIDIsUnreachable(digests, s, input);
  }

  // ---- Runs of a store ----

  function Run(digests: Digests, s: Store, inputs: seq<CreateInput>): Store
    decreases |inputs|
  {
    if inputs == [] then s else Run(digests, Created(digests, s, inputs[0]).0, inputs[1..])
  }

  lemma {:induction false} RunGoesOn(digests: Digests, s: Store, inputs: seq<CreateInput>, next: CreateInput)
    ensures Run(digests, s, []) == s && Run(digests, s, inputs + [next]) == Created(digests, Run(digests, s, inputs), next).0
    decreases |inputs|
  {
    hide Created;
    if inputs == [] {
      assert inputs + [next] == [next];
    } else {
      assert (inputs + [next])[1..] == inputs[1..] + [next];
      RunGoesOn(digests, Created(digests, s, inputs[0]).0, inputs[1..], next);
    }
  }

  lemma {:induction false} RunKeepsValid(digests: Digests, s: Store, inputs: seq<CreateInput>)
    requires Valid(digests, s)
    ensures Valid(digests, Run(digests, s, inputs)) && Extends(s, Run(digests, s, inputs))
    decreases |inputs|
  {
    hide Valid, Created;
    if inputs != [] {
      CreateKeepsValid(digests, s, inputs[0]);
      RunKeepsValid(digests, Created(digests, s, inputs[0]).0, inputs[1..]);
    }
  }

  /** Every reachable store is valid: linear gapless chains, exact predecessors, no idle repetition. */
  lemma ReachableStoresAreValid(digests: Digests, inputs: seq<CreateInput>)
    ensures Valid(digests, Run(digests, EMPTY, inputs))
  {
    RunKeepsValid(digests, EMPTY, inputs);
  }

  /** Chains never fork: two stored revisions of one chain with the same parent are the same revision. */
  lemma NoForks(digests: Digests, s: Store, a: string, b: string)
    requires Valid(digests, s) && a in s.byID && b in s.byID
    requires ChainKey(s.byID[a].kind, s.byID[a].aggregateID) == ChainKey(s.byID[b].kind, s.byID[b].aggregateID)
    requires s.byID[a].parentID == s.byID[b].parentID
    ensures a == b
  {
    var key := ChainKey(s.byID[a].kind, s.byID[a].aggregateID);
    var i, j := s.byID[a].number - 1, s.byID[b].number - 1;
    assert Placed(s, a) && Placed(s, b);
    assert Linked(digests, s, key, i) && Linked(digests, s, key, j);
    if i > 0 { NoEmptyIDs(digests, s, key, i - 1); }
    if j > 0 { NoEmptyIDs(digests, s, key, j - 1); }
    if i > 0 && j > 0 { ChainIDsAreDistinct(digests, s, key, i - 1, j - 1); }
  }

  // ---- Chain keys ----

  /** Kinds without NUL keep the chains of different aggregates apart. */
  lemma {:induction false} ChainKeysAreDistinct(kind: string, aggregateID: string, kind': string, aggregateID': string)
    requires '\0' !in kind && '\0' !in kind' && ChainKey(kind, aggregateID) == ChainKey(kind', aggregateID')
    ensures kind == kind' && aggregateID == aggregateID'
  {
    var key := ChainKey(kind, aggregateID);
    assert key[|kind|] == '\0' && key[|kind'|] == '\0';
    assert forall k :: 0 <= k < |kind| ==> key[k] == kind[k];
    assert forall k :: 0 <= k < |kind'| ==> key[k] == kind'[k];
    assert |kind| == |kind'|;
    assert kind == key[..|kind|] == kind' && aggregateID == key[|kind| + 1..] == aggregateID';
  }

  /** So a chain read back under NUL-free kinds holds only revisions of the aggregate asked for. */
  lemma ChainBelongsToItsAggregate(digests: Digests, s: Store, kind: string, aggregateID: string, k: nat)
    requires Valid(digests, s) && k < |s.Chain(kind, aggregateID)|
    requires '\0' !in kind && forall id :: id in s.byID ==> '\0' !in s.byID[id].kind
    ensures var id := s.Chain(kind, aggregateID)[k];
      id in s.byID && s.byID[id].kind == kind && s.byID[id].aggregateID == aggregateID
  {
    var key := ChainKey(kind, aggregateID);
    assert Linked(digests, s, key, k);
    var revision := s.byID[s.ChainAt(key)[k]];
    ChainKeysAreDistinct(kind, aggregateID, revision.kind, revision.aggregateID);
  }

  // ---- The store object ----

  /** Decoding a stored payload to a generic value and encoding it again, which may reorder its fields. */
  type Recoding = string -> Payload

  class RevisionStore {
    const digests: Digests
    const recode: Recoding
    var byID: map<string, Revision>
    var chains: map<string, seq<string>>

    function State(): Store
      reads this
    {
      Store(byID, chains)
    }

    constructor (digests: Digests, recode: Recoding)
      ensures State() == EMPTY && this.digests == digests && this.recode == recode
    {
      this.digests, this.recode := digests, recode;
      byID, chains := map[], map[];
    }

    method Create(input: CreateInput) returns (r: Result<Revision, Error>)
      modifies this
      ensures (State(), r) == Created(digests, old(State()), input)
      ensures Telling(digests) && old(Valid(digests, State())) ==> Outcome(digests, old(State()), input, State(), r)
    {
      hide Valid, Telling, Outcome;
      if Telling(digests) && Valid(digests, State()) {
        NoEditIsLost(digests, State(), input);
      }
      if Blank(input.kind) || Blank(input.aggregateID) || Blank(input.schemaVersion) || Blank(input.createdBy) {
        return Err(ValidationFailed);
      }
      if input.payload.Missing? || input.createdAt == 0 {
        return Err(ValidationFailed);
      }
      if input.payload.Unencodable? {
        return Err(EncodingFailed);
      }
      var key := ChainKey(input.kind, input.aggregateID);
      var chain := if key in chains then chains[key] else [];
      if |chain| == 0 && input.parentID != "" {
        return Err(Conflict);
      }
      if |chain| > 0 && input.parentID != chain[|chain| - 1] {
        return Err(Conflict);
      }
      if input.rollbackOf != "" {
        if input.rollbackOf !in byID || byID[input.rollbackOf].kind != input.kind
           || byID[input.rollbackOf].aggregateID != input.aggregateID {
          return Err(Conflict);
        }
      }
      var contentHash := digests.content(input.schemaVersion, input.payload.text);
      if |chain| > 0 && input.rollbackOf == "" && chain[|chain| - 1] in byID {
        var latest := byID[chain[|chain| - 1]];
        if latest.contentHash == contentHash && latest.evidenceIDs == input.evidenceIDs {
          return Ok(latest);
        }
      }
      var id := digests.RevisionID(IdentityMaterial(
        input.kind, input.aggregateID, input.parentID, input.rollbackOf, input.schemaVersion, contentHash, input.evidenceIDs));
      if id in byID {
        return Ok(byID[id]);
      }
      var revision := Revision(id, input.kind, input.aggregateID, |chain| + 1, input.parentID, input.rollbackOf,
                               input.schemaVersion, contentHash, input.payload.text, input.evidenceIDs,
                               input.createdBy, input.createdAt);
      byID := byID[id := revision];
      chains := chains[key := chain + [id]];
      r := Ok(revision);
    }

    method Get(id: string) returns (r: Option<Revision>)
      ensures r == if id in byID then Some(byID[id]) else None
    {
      r := if id in byID then Some(byID[id]) else None;
    }

    method Latest(kind: string, aggregateID: string) returns (r: Option<Revision>)
      requires Valid(digests, State())
      ensures State().Chain(kind, aggregateID) == [] ==> r.None?
      ensures State().Chain(kind, aggregateID) != [] ==>
        var id := State().LatestID(kind, aggregateID);
        id in byID && r == Some(byID[id]) && r.value.id == id && r.value.number == |State().Chain(kind, aggregateID)|
    {
      var key := ChainKey(kind, aggregateID);
      var chain := if key in chains then chains[key] else [];
      if |chain| == 0 {
        return None;
      }
      assert Linked(digests, State(), key, |chain| - 1);
      r := Some(byID[chain[|chain| - 1]]);
    }

    /** The whole chain, oldest first. */
    method History(kind: string, aggregateID: string) returns (revisions: seq<Revision>)
      requires Valid(digests, State())
      ensures |revisions| == |State().Chain(kind, aggregateID)|
      ensures forall k :: 0 <= k < |revisions| ==>
        var id := State().Chain(kind, aggregateID)[k];
        id in byID && revisions[k] == byID[id] && revisions[k].id == id && revisions[k].number == k + 1
    {
      var key := ChainKey(kind, aggregateID);
      var chain := if key in chains then chains[key] else [];
      revisions := [];
      for n := 0 to |chain|
        invariant |revisions| == n
        invariant forall k :: 0 <= k < n ==>
          chain[k] in byID && revisions[k] == byID[chain[k]] && revisions[k].id == chain[k] && revisions[k].number == k + 1
      {
        assert Linked(digests, State(), key, n);
        revisions := revisions + [byID[chain[n]]];
      }
    }

    /** With no other client in between, reads the newest revision and appends after it. */
    method CreateNext(kind: string, aggregateID: string, payload: Payload, evidenceIDs: set<string>, actor: string, at: nat)
      returns (r: Result<Revision, Error>)
      requires Valid(digests, State())
      modifies this
      ensures Valid(digests, State()) && Extends(old(State()), State())
      ensures (State(), r) == Created(digests, old(State()), NextInput(old(State()), kind, aggregateID, payload, evidenceIDs, actor, at))
      ensures r.Ok? || (r.error != Conflict && r.error != NotFound)
      ensures Telling(digests) ==>
        Outcome(digests, old(State()),
                CreateInput(kind, aggregateID, old(State()).LatestID(kind, aggregateID), "", "v1", payload, evidenceIDs, actor, at),
                State(), r)
    {
      var latest := Latest(kind, aggregateID);
      var parent := "";
      if latest.Some? {
        parent := latest.value.id;
      }
      hide Valid, Created;
      ghost var input := NextInput(State(), kind, aggregateID, payload, evidenceIDs, actor, at);
      CreateKeepsValid(digests, State(), input);
      NewestParentIsNoConflict(digests, State(), input);
      r := Create(CreateInput(kind, aggregateID, parent, "", REVISION_SCHEMA_VERSION, payload, evidenceIDs, actor, at));
    }

    /** Appends a revision that says again what an earlier one of the same aggregate said. */
    method Rollback(kind: string, aggregateID: string, targetID: string, actor: string, at: nat)
      returns (r: Result<Revision, Error>)
      requires Valid(digests, State())
      modifies this
      ensures Valid(digests, State()) && Extends(old(State()), State())
      ensures !RollbackTarget(old(State()), kind, aggregateID, targetID) ==> r == Err(NotFound) && State() == old(State())
      ensures RollbackTarget(old(State()), kind, aggregateID, targetID) ==>
        (State(), r) == Created(digests, old(State()), RollbackInput(old(State()), kind, aggregateID, targetID, recode, actor, at))
      ensures Telling(digests) && RollbackTarget(old(State()), kind, aggregateID, targetID) && r.Ok? ==>
        && State().Chain(kind, aggregateID) == old(State()).Chain(kind, aggregateID) + [r.value.id]
        && SaysAgain(old(State()).byID[targetID], recode, actor, at, r.value)
    {
      if targetID !in byID || byID[targetID].kind != kind || byID[targetID].aggregateID != aggregateID {
        return Err(NotFound);
      }
      var target := byID[targetID];
      assert Placed(State(), targetID);
      var latest := Latest(kind, aggregateID);
      if latest.None? {
        return Err(NotFound);
      }
      ghost var input := RollbackInput(State(), kind, aggregateID, targetID, recode, actor, at);
      hide Valid, Created, Outcome, Telling, Extends, Placed;
      CreateKeepsValid(digests, State(), input);
      RollbackSaysAgain(digests, State(), kind, aggregateID, targetID, recode, actor, at);
      r := Create(CreateInput(kind, aggregateID, latest.value.id, target.id, target.schemaVersion,
                              recode(target.payload), target.evidenceIDs, actor, at));
    }
  }

  const REVISION_SCHEMA_VERSION := "v1"

  function NextInput(
      s: Store, kind: string, aggregateID: string, payload: Payload, evidenceIDs: set<string>, actor: string, at: nat): CreateInput {
    CreateInput(kind, aggregateID, s.LatestID(kind, aggregateID), "", REVISION_SCHEMA_VERSION, payload, evidenceIDs, actor, at)
  }

  predicate RollbackTarget(s: Store, kind: string, aggregateID: string, targetID: string) {
    targetID in s.byID && s.byID[targetID].kind == kind && s.byID[targetID].aggregateID == aggregateID
  }

  function RollbackInput(
      s: Store, kind: string, aggregateID: string, targetID: string, recode: Recoding, actor: string, at: nat): CreateInput
    requires RollbackTarget(s, kind, aggregateID, targetID)
  {
    var target := s.byID[targetID];
    CreateInput(kind, aggregateID, s.LatestID(kind, aggregateID), target.id, target.schemaVersion,
                recode(target.payload), target.evidenceIDs, actor, at)
  }

  /** revision repeats target's content, link and evidence under a new author. */
  predicate SaysAgain(target: Revision, recode: Recoding, actor: string, at: nat, revision: Revision) {
    && revision.rollbackOf == target.id && revision.schemaVersion == target.schemaVersion
    && recode(target.payload) == Json(revision.payload) && revision.evidenceIDs == target.evidenceIDs
    && revision.createdBy == actor && revision.createdAt == at
  }

  lemma RollbackSaysAgain(digests: Digests, s: Store, kind: string, aggregateID: string, targetID: string,
                          recode: Recoding, actor: string, at: nat)
    requires Valid(digests, s) && RollbackTarget(s, kind, aggregateID, targetID)
    ensures var (t, r) := Created(digests, s, RollbackInput(s, kind, aggregateID, targetID, recode, actor, at));
      Telling(digests) && r.Ok? ==>
        t.Chain(kind, aggregateID) == s.Chain(kind, aggregateID) + [r.value.id]
        && SaysAgain(s.byID[targetID], recode, actor, at, r.value)
  {
    var input := RollbackInput(s, kind, aggregateID, targetID, recode, actor, at);
    var target := s.byID[targetID];
    assert Placed(s, targetID);
    assert Linked(digests, s, ChainKey(kind, aggregateID), target.number - 1);
    NoEmptyIDs(digests, s, ChainKey(kind, aggregateID), target.number - 1);
    hide Valid, Telling;
    if Telling(digests) {
      NoEditIsLost(digests, s, input);
    }
    hide Created;
  }
}
