/**
 The dependency graph between revisions and the closure of revisions a change makes stale.
 Graphs may have cycles.
 */
module Dependencies {
  import opened Ordering
  import opened Wrappers
  import opened Text
  import Revisions

  datatype RevisionRef = RevisionRef(id: string, kind: string, aggregateID: string, number: int, contentHash: string)

  function RefOf(revision: Revisions.Revision): RevisionRef {
    RevisionRef(revision.id, revision.kind, revision.aggregateID, revision.number, revision.contentHash)
  }

  datatype Dependency = Dependency(producer: RevisionRef, consumer: RevisionRef, role: string)

  predicate HexSHA256(hash: string) {
    |hash| == 64 && forall c :: c in hash ==> '0' <= c <= '9' || 'a' <= c <= 'f'
  }

  predicate CompleteRef(ref: RevisionRef) {
    && !Blank(ref.id) && !Blank(ref.kind) && !Blank(ref.aggregateID) && !Blank(ref.contentHash)
    && ref.number >= 1 && HexSHA256(ref.contentHash)
  }

  /** A complete reference names everything, is numbered, and pins its content by 64 lower-case hexadecimal digits. */
  lemma CompleteMeans(ref: RevisionRef)
    ensures CompleteRef(ref) <==>
      && (forall text :: text in [ref.id, ref.kind, ref.aggregateID] ==> !Blank(text)) && ref.number > 0
      && |ref.contentHash| == 64 && (forall c :: c in ref.contentHash ==> c in "0123456789abcdef")
  {
    forall c: char ensures ('0' <= c <= '9' || 'a' <= c <= 'f') <==> c in "0123456789abcdef" {
    }
    if ref.contentHash != [] {
      assert ref.contentHash[0] in ref.contentHash;
    }
  }

  type Graph = map<string, seq<Dependency>>

  function Edges(g: Graph, producerID: string): seq<Dependency> {
    if producerID in g then g[producerID] else []
  }

  /** One edge of g leads from a to b. */
  ghost predicate Feeds(g: Graph, a: string, b: string) {
    exists d :: d in Edges(g, a) && d.consumer.id == b
  }

  /** A nonempty walk along the edges of g. */
  ghost predicate Walk(g: Graph, path: seq<string>) {
    && path != []
    && forall k :: 0 <= k < |path| - 1 ==> Feeds(g, path[k], path[k + 1])
  }

  ghost predicate Reaches(g: Graph, from: string, to: string) {
    exists path :: Walk(g, path) && path[0] == from && path[|path| - 1] == to
  }

  lemma ReachesItself(g: Graph, a: string)
    ensures Reaches(g, a, a)
  {
    assert Walk(g, [a]);
  }

  lemma ReachesNext(g: Graph, from: string, a: string, d: Dependency)
    requires Reaches(g, from, a) && d in Edges(g, a)
    ensures Reaches(g, from, d.consumer.id)
  {
    var path :| Walk(g, path) && path[0] == from && path[|path| - 1] == a;
    var longer := path + [d.consumer.id];
    assert Feeds(g, a, d.consumer.id);
    assert Walk(g, longer);
  }

  /** A set that holds the start and every successor of its members holds everything reachable. */
  lemma {:induction false} ClosedSetsHoldWalks(g: Graph, closed: set<string>, path: seq<string>)
    requires Walk(g, path) && path[0] in closed
    requires forall a, d :: a in closed && d in Edges(g, a) ==> d.consumer.id in closed
    ensures path[|path| - 1] in closed
    decreases |path|
  {
    if |path| > 1 {
      assert Feeds(g, path[0], path[1]);
      var d :| d in Edges(g, path[0]) && d.consumer.id == path[1];
      assert forall k :: 0 <= k < |path| - 2 ==> Feeds(g, path[1..][k], path[1..][k + 1]) by {
        forall k | 0 <= k < |path| - 2 ensures Feeds(g, path[1..][k], path[1..][k + 1]) {
          assert Feeds(g, path[k + 1], path[k + 2]);
        }
      }
      ClosedSetsHoldWalks(g, closed, path[1..]);
    }
  }

  // ---- The order of the impacted revisions ----

  predicate RefLeq(a: RevisionRef, b: RevisionRef) {
    if a.kind != b.kind then TextLeq(a.kind, b.kind)
    else if a.aggregateID != b.aggregateID then TextLeq(a.aggregateID, b.aggregateID)
    else a.number <= b.number
  }

  lemma RefOrder()
    ensures TotalPreorder(RefLeq)
  {
    forall a, b ensures RefLeq(a, b) || RefLeq(b, a) {
      TextLeqTotal(a.kind, b.kind);
      TextLeqTotal(a.aggregateID, b.aggregateID);
    }
    forall a, b, c | RefLeq(a, b) && RefLeq(b, c) ensures RefLeq(a, c) {
      RefLeqTransitive(a, b, c);
    }
  }

  lemma RefLeqTransitive(a: RevisionRef, b: RevisionRef, c: RevisionRef)
    requires RefLeq(a, b) && RefLeq(b, c)
    ensures RefLeq(a, c)
  {
    hide TextLeq;
    TextLeqTotal(a.kind, b.kind);
    TextLeqTotal(b.kind, c.kind);
    TextLeqTotal(a.aggregateID, b.aggregateID);
    TextLeqTotal(b.aggregateID, c.aggregateID);
    if a.kind != b.kind && b.kind != c.kind {
      TextLeqTransitive(a.kind, b.kind, c.kind);
    } else if a.kind == b.kind == c.kind && a.aggregateID != b.aggregateID && b.aggregateID != c.aggregateID {
      TextLeqTransitive(a.aggregateID, b.aggregateID, c.aggregateID);
    }
  }

  // ---- What Impacted promises ----

  /** The IDs a list of references names. */
  ghost function IDs(refs: seq<RevisionRef>): set<string> {
    set ref | ref in refs :: ref.id
  }

  /** Exactly one reference, taken from some edge, for every revision reachable from the producer but itself. */
  ghost predicate IsClosure(g: Graph, producerID: string, refs: seq<RevisionRef>) {
    && (forall i, j :: 0 <= i < j < |refs| ==> refs[i].id != refs[j].id)
    && (forall id :: id in IDs(refs) <==> id != producerID && Reaches(g, producerID, id))
    && (forall ref :: ref in refs ==> exists a, d :: d in Edges(g, a) && d.consumer == ref)
  }

  /** Breadth-first search: what has been seen, what still waits, and what has been collected. */
  ghost predicate Searching(g: Graph, producerID: string, seen: set<string>, queue: seq<string>, refs: seq<RevisionRef>) {
    && producerID in seen
    && (forall id :: id in queue ==> id in seen)
    && (forall id :: id in seen ==> Reaches(g, producerID, id))
    && IDs(refs) == seen - {producerID}
    && (forall i, j :: 0 <= i < j < |refs| ==> refs[i].id != refs[j].id)
    && (forall ref :: ref in refs ==> exists a, d :: d in Edges(g, a) && d.consumer == ref)
  }

  /** Everything seen and no longer waiting has had all its edges followed. */
  ghost predicate Expanded(g: Graph, seen: set<string>, queue: seq<string>) {
    forall a, d :: a in seen && a !in queue && d in Edges(g, a) ==> d.consumer.id in seen
  }

  /** As `Expanded`, except that of current's edges only the first k have been followed. */
  ghost predicate ExpandedBut(g: Graph, seen: set<string>, queue: seq<string>, current: string, k: nat) {
    && (forall a, d :: a in seen && a != current && a !in queue && d in Edges(g, a) ==> d.consumer.id in seen)
    && k <= |Edges(g, current)|
    && forall m :: 0 <= m < k ==> Edges(g, current)[m].consumer.id in seen
  }

  lemma BeginExpansion(g: Graph, seen: set<string>, queue: seq<string>)
    requires queue != [] && Expanded(g, seen, queue)
    ensures ExpandedBut(g, seen, queue[1..], queue[0], 0)
  {
    assert queue == [queue[0]] + queue[1..];
  }

  lemma FollowEdge(g: Graph, seen: set<string>, queue: seq<string>, current: string, k: nat)
    requires ExpandedBut(g, seen, queue, current, k) && k < |Edges(g, current)|
    ensures var id := Edges(g, current)[k].consumer.id;
      if id in seen then ExpandedBut(g, seen, queue, current, k + 1)
      else ExpandedBut(g, seen + {id}, queue + [id], current, k + 1)
  {
  }

  lemma EndExpansion(g: Graph, seen: set<string>, queue: seq<string>, current: string)
    requires ExpandedBut(g, seen, queue, current, |Edges(g, current)|)
    ensures Expanded(g, seen, queue)
  {
  }

  /** Every consumer the graph mentions. */
  ghost function Consumers(g: Graph): set<string> {
    set a, d | a in g && d in g[a] :: d.consumer.id
  }

  lemma EmptyQueueIsClosed(g: Graph, producerID: string, seen: set<string>, refs: seq<RevisionRef>)
    requires Searching(g, producerID, seen, [], refs) && Expanded(g, seen, [])
    ensures IsClosure(g, producerID, refs)
  {
    forall id | Reaches(g, producerID, id) ensures id in seen {
      var path :| Walk(g, path) && path[0] == producerID && path[|path| - 1] == id;
      ClosedSetsHoldWalks(g, seen, path);
    }
  }

  lemma StartSearch(g: Graph, producerID: string)
    ensures Searching(g, producerID, {producerID}, [producerID], [])
  {
    ReachesItself(g, producerID);
  }

  lemma NothingExpanded(g: Graph, producerID: string)
    ensures Expanded(g, {producerID}, [producerID])
  {
  }

  lemma Dequeue(g: Graph, producerID: string, seen: set<string>, queue: seq<string>, refs: seq<RevisionRef>)
    requires Searching(g, producerID, seen, queue, refs) && queue != []
    ensures Searching(g, producerID, seen, queue[1..], refs) && queue[0] in seen
  {
  }

  lemma CollectOne(g: Graph, producerID: string, seen: set<string>, queue: seq<string>, refs: seq<RevisionRef>, a: string, d: Dependency)
    requires Searching(g, producerID, seen, queue, refs)
    requires a in seen && d in Edges(g, a) && d.consumer.id !in seen
    ensures Searching(g, producerID, seen + {d.consumer.id}, queue + [d.consumer.id], refs + [d.consumer])
  {
    ReachesNext(g, producerID, a, d);
    forall ref | ref in refs ensures ref.id in seen {
      assert ref.id in IDs(refs);
    }
    assert IDs(refs + [d.consumer]) == IDs(refs) + {d.consumer.id};
  }

  // ---- The graph object ----

  predicate SameEdge(existing: Dependency, d: Dependency) {
    existing.consumer.id == d.consumer.id && existing.role == d.role
  }

  /** The graph after recording d, unless an edge to the same consumer in the same role is there already. */
  function Added(g: Graph, d: Dependency): Graph {
    if exists existing :: existing in Edges(g, d.producer.id) && SameEdge(existing, d) then g
    else g[d.producer.id := Edges(g, d.producer.id) + [d]]
  }

  datatype Error = ValidationFailed

  predicate Complete(d: Dependency) {
    CompleteRef(d.producer) && CompleteRef(d.consumer) && d.role != ""
  }

  class DependencyGraph {
    var downstream: Graph

    constructor ()
      ensures downstream == map[]
    {
      downstream := map[];
    }

    method Add(d: Dependency) returns (r: Result<(), Error>)
      modifies this
      ensures Complete(d) ==> r.Ok? && downstream == Added(old(downstream), d)
      ensures !Complete(d) ==> r == Err(ValidationFailed) && downstream == old(downstream)
      ensures r.Ok? <==> CompleteRef(d.producer) && CompleteRef(d.consumer) && d.role != ""
      ensures var before, after := old(Edges(downstream, d.producer.id)), Edges(downstream, d.producer.id);
        && (r.Err? ==> after == before)
        && (r.Ok? ==> after == before + (if exists k :: 0 <= k < |before| && before[k].consumer.id == d.consumer.id
                                                         && before[k].role == d.role then [] else [d]))
      ensures forall id :: id != d.producer.id ==> Edges(downstream, id) == old(Edges(downstream, id))
    {
      if !CompleteRef(d.producer) || !CompleteRef(d.consumer) || d.role == "" {
        return Err(ValidationFailed);
      }
      var edges := Edges(downstream, d.producer.id);
      for k := 0 to |edges|
        invariant forall m :: 0 <= m < k ==> !SameEdge(edges[m], d)
        invariant downstream == old(downstream)
      {
        if edges[k].consumer.id == d.consumer.id && edges[k].role == d.role {
          assert SameEdge(edges[k], d);
          return Ok(());
        }
      }
      downstream := downstream[d.producer.id := edges + [d]];
      r := Ok(());
    }

    /** Breadth-first search from the producer, then the deterministic order. Terminates on cycles. */
    method Impacted(producerID: string) returns (refs: seq<RevisionRef>)
      ensures IsClosure(downstream, producerID, refs)
      ensures SortedBy(refs, RefLeq)
    {
      hide Reaches, RefLeq, Searching, IsClosure, Expanded, ExpandedBut;
      var g := downstream;
      var seen, queue := {producerID}, [producerID];
      var collected: seq<RevisionRef> := [];
      StartSearch(g, producerID);
      NothingExpanded(g, producerID);
      ghost var all := Consumers(g) + {producerID};
      while |queue| > 0
        invariant Searching(g, producerID, seen, queue, collected)
        invariant Expanded(g, seen, queue)
        invariant seen <= all
        decreases |all - seen|, |queue|
      {
        ghost var unseen := all - seen;
        var current := queue[0];
        Dequeue(g, producerID, seen, queue, collected);
        BeginExpansion(g, seen, queue);
        queue := queue[1..];
        var edges := Edges(g, current);
        ghost var started := |queue|;
        for k := 0 to |edges|
          invariant current in seen && seen <= all
          invariant Searching(g, producerID, seen, queue, collected)
          invariant ExpandedBut(g, seen, queue, current, k)
          invariant all - seen <= unseen
          invariant |queue| > started ==> all - seen < unseen
          invariant |queue| >= started
        {
          var consumer := edges[k].consumer;
          FollowEdge(g, seen, queue, current, k);
          if consumer.id !in seen {
            CollectOne(g, producerID, seen, queue, collected, current, edges[k]);
            assert consumer.id in all;
            assert consumer.id in unseen;
            seen := seen + {consumer.id};
            collected := collected + [consumer];
            queue := queue + [consumer.id];
          }
        }
        EndExpansion(g, seen, queue, current);
        SubsetsAreNoLarger(all - seen, unseen);
      }
      EmptyQueueIsClosed(g, producerID, seen, collected);
      RefOrder();
      refs := Sort(collected, RefLeq);
      RearrangedClosure(g, producerID, collected, refs);
    }
  }

  lemma SubsetsAreNoLarger<T>(a: set<T>, b: set<T>)
    requires a <= b
    ensures |a| <= |b| && (a < b ==> |a| < |b|)
  {
    assert b == a + (b - a);
  }

  lemma RearrangedIDsAreDistinct(refs: seq<RevisionRef>, sorted: seq<RevisionRef>, i: nat, j: nat)
    requires multiset(refs) == multiset(sorted) && i < j < |sorted|
    requires forall i, j :: 0 <= i < j < |refs| ==> refs[i].id != refs[j].id
    ensures sorted[i].id != sorted[j].id
  {
    assert sorted[i] in multiset(refs) && sorted[j] in multiset(refs);
    var a :| 0 <= a < |refs| && refs[a] == sorted[i];
    var b :| 0 <= b < |refs| && refs[b] == sorted[j];
    if sorted[i].id == sorted[j].id {
      assert a == b;
      Twice(sorted, i, j);
      Once(refs, a);
    }
  }

  /** Rearranging a closure leaves it a closure. */
  lemma RearrangedClosure(g: Graph, producerID: string, refs: seq<RevisionRef>, sorted: seq<RevisionRef>)
    requires IsClosure(g, producerID, refs) && multiset(refs) == multiset(sorted)
    ensures IsClosure(g, producerID, sorted)
  {
    hide Reaches;
    assert forall ref :: ref in refs <==> ref in multiset(refs);
    assert forall ref :: ref in sorted <==> ref in multiset(sorted);
    assert IDs(refs) == IDs(sorted);
    forall i, j | 0 <= i < j < |sorted| ensures sorted[i].id != sorted[j].id {
      RearrangedIDsAreDistinct(refs, sorted, i, j);
    }
  }

  lemma Twice<T>(s: seq<T>, i: nat, j: nat)
    requires i < j < |s| && s[i] == s[j]
    ensures multiset(s)[s[i]] >= 2
  {
    assert s == s[..i] + [s[i]] + s[i + 1..j] + [s[j]] + s[j + 1..];
  }

  lemma Once<T>(s: seq<T>, k: nat)
    requires k < |s| && forall m :: 0 <= m < |s| && m != k ==> s[m] != s[k]
    ensures multiset(s)[s[k]] == 1
  {
    assert s == s[..k] + [s[k]] + s[k + 1..];
    assert s[k] !in s[..k] && s[k] !in s[k + 1..];
  }

  // ---- The order in which edges were added does not matter ----

  /** The consumers are references to revisions of one store. */
  ghost predicate FromStore(store: Revisions.Store, refs: seq<RevisionRef>) {
    forall ref :: ref in refs ==> ref.id in store.byID && ref == RefOf(store.byID[ref.id])
  }

  /** Within one store the order separates references: kind, aggregate and number name one revision. */
  lemma StoreRefsAreSeparated(digests: Revisions.Digests, store: Revisions.Store, refs: seq<RevisionRef>)
    requires Revisions.Valid(digests, store) && FromStore(store, refs)
    ensures Separates(refs, RefLeq)
  {
    hide TextLeq;
    forall x, y | x in refs && y in refs && RefLeq(x, y) && RefLeq(y, x) ensures x == y {
      TextLeqTotal(x.kind, y.kind);
      TextLeqTotal(x.aggregateID, y.aggregateID);
      assert Revisions.Placed(store, x.id) && Revisions.Placed(store, y.id);
      var chain := store.Chain(x.kind, x.aggregateID);
      assert x.id == store.byID[x.id].id && y.id == store.byID[y.id].id;
      assert chain[x.number - 1] == x.id && chain[y.number - 1] == y.id;
    }
  }

  lemma SameElementsSameMultiset<T>(a: seq<T>, b: seq<T>)
    requires Distinct(a) && Distinct(b) && forall x :: x in a <==> x in b
    ensures multiset(a) == multiset(b)
  {
    forall x ensures multiset(a)[x] == multiset(b)[x] {
      if x in a {
        var i :| 0 <= i < |a| && a[i] == x;
        var j :| 0 <= j < |b| && b[j] == x;
        Once(a, i);
        Once(b, j);
      }
    }
  }

  /**
   Two graphs with the same edges between IDs give the same sorted closure, however their edges were added,
   as long as their references come from one store.
   */
  lemma ClosureIgnoresInsertionOrder(digests: Revisions.Digests, store: Revisions.Store, g: Graph, h: Graph,
                                     producerID: string, refs: seq<RevisionRef>, refs': seq<RevisionRef>)
    requires Revisions.Valid(digests, store) && FromStore(store, refs) && FromStore(store, refs')
    requires forall a, b :: Feeds(g, a, b) <==> Feeds(h, a, b)
    requires IsClosure(g, producerID, refs) && SortedBy(refs, RefLeq)
    requires IsClosure(h, producerID, refs') && SortedBy(refs', RefLeq)
    ensures refs == refs'
  {
    hide RefLeq, Revisions.Valid;
    forall id ensures Reaches(g, producerID, id) <==> Reaches(h, producerID, id) {
      SameEdgesSameReach(g, h, producerID, id);
    }
    assert IDs(refs) == IDs(refs');
    forall ref ensures ref in refs <==> ref in refs' {
      if ref in refs { assert ref.id in IDs(refs'); }
      if ref in refs' { assert ref.id in IDs(refs); }
    }
    SameElementsSameMultiset(refs, refs');
    StoreRefsAreSeparated(digests, store, refs);
    SortedArrangementIsUnique(refs, refs', RefLeq);
  }

  lemma SameEdgesSameReach(g: Graph, h: Graph, from: string, to: string)
    requires forall a, b :: Feeds(g, a, b) <==> Feeds(h, a, b)
    ensures Reaches(g, from, to) <==> Reaches(h, from, to)
  {
    hide Feeds;
    if path :| Walk(g, path) && path[0] == from && path[|path| - 1] == to {
      assert Walk(h, path);
    }
    if path :| Walk(h, path) && path[0] == from && path[|path| - 1] == to {
      assert Walk(g, path);
    }
  }

  /** Adding dependencies one after another. */
  function AddAll(g: Graph, dependencies: seq<Dependency>): Graph
    decreases |dependencies|
  {
    if dependencies == [] then g else AddAll(Added(g, dependencies[0]), dependencies[1..])
  }

  lemma AddedFeeds(g: Graph, d: Dependency, a: string, b: string)
    ensures Feeds(Added(g, d), a, b) <==> Feeds(g, a, b) || (d.producer.id == a && d.consumer.id == b)
  {
    if Feeds(g, a, b) {
      var e :| e in Edges(g, a) && e.consumer.id == b;
      assert e in Edges(Added(g, d), a);
    }
    if d.producer.id == a && d.consumer.id == b {
      if existing :| existing in Edges(g, a) && SameEdge(existing, d) {
        assert existing in Edges(Added(g, d), a);
      } else {
        assert d in Edges(Added(g, d), a);
      }
    }
  }

  /** The edges between IDs are exactly those added, so any order of the same dependencies gives the same ones. */
  lemma {:induction false} AddAllFeeds(g: Graph, dependencies: seq<Dependency>, a: string, b: string)
    ensures Feeds(AddAll(g, dependencies), a, b) <==>
      Feeds(g, a, b) || exists d :: d in dependencies && d.producer.id == a && d.consumer.id == b
    decreases |dependencies|
  {
    hide Feeds, Added;
    if dependencies != [] {
      AddedFeeds(g, dependencies[0], a, b);
      AddAllFeeds(Added(g, dependencies[0]), dependencies[1..], a, b);
      assert dependencies == [dependencies[0]] + dependencies[1..];
    }
  }

  /** Every edge was in the graph before or is one of those added. */
  lemma {:induction false} EdgesWereAdded(g: Graph, dependencies: seq<Dependency>, a: string, d: Dependency)
    requires d in Edges(AddAll(g, dependencies), a)
    ensures d in Edges(g, a) || d in dependencies
    decreases |dependencies|
  {
    if dependencies != [] {
      EdgesWereAdded(Added(g, dependencies[0]), dependencies[1..], a, d);
    }
  }

  /** The references a closure collects are consumers that were added. */
  lemma CollectedFromStore(store: Revisions.Store, dependencies: seq<Dependency>, producerID: string, refs: seq<RevisionRef>)
    requires forall d :: d in dependencies ==> FromStore(store, [d.consumer])
    requires IsClosure(AddAll(map[], dependencies), producerID, refs)
    ensures FromStore(store, refs)
  {
    hide Reaches;
    forall ref | ref in refs ensures ref.id in store.byID && ref == RefOf(store.byID[ref.id]) {
      var a, d :| d in Edges(AddAll(map[], dependencies), a) && d.consumer == ref;
      EdgesWereAdded(map[], dependencies, a, d);
      assert d.consumer in [d.consumer];
    }
  }

  /** What a change makes stale depends only on which dependencies were recorded, not on when or how often. */
  lemma SameDependenciesSameClosure(digests: Revisions.Digests, store: Revisions.Store, added: seq<Dependency>, added': seq<Dependency>,
                                    producerID: string, refs: seq<RevisionRef>, refs': seq<RevisionRef>)
    requires Revisions.Valid(digests, store) && forall d :: d in added ==> FromStore(store, [d.consumer])
    requires forall d :: d in added <==> d in added'
    requires IsClosure(AddAll(map[], added), producerID, refs) && SortedBy(refs, RefLeq)
    requires IsClosure(AddAll(map[], added'), producerID, refs') && SortedBy(refs', RefLeq)
    ensures refs == refs'
  {
    hide IsClosure, SortedBy, AddAll, Feeds, FromStore, Revisions.Valid;
    var g, h := AddAll(map[], added), AddAll(map[], added');
    CollectedFromStore(store, added, producerID, refs);
    CollectedFromStore(store, added', producerID, refs');
    forall a, b ensures Feeds(g, a, b) <==> Feeds(h, a, b) {
      AddAllFeeds(map[], added, a, b);
      AddAllFeeds(map[], added', a, b);
      NothingFeeds(a, b);
    }
    ClosureIgnoresInsertionOrder(digests, store, g, h, producerID, refs, refs');
  }

  lemma NothingFeeds(a: string, b: string)
    ensures !Feeds(map[], a, b)
  {
  }
}
