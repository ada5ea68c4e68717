/** Total preorders, sortedness, and the sorting routine the source takes from its standard library. */
module Ordering {

  ghost predicate TotalPreorder<T(!new)>(leq: (T, T) -> bool) {
    && (forall x, y :: leq(x, y) || leq(y, x))
    && (forall x, y, z :: leq(x, y) && leq(y, z) ==> leq(x, z))
  }

  ghost predicate SortedBy<T>(s: seq<T>, leq: (T, T) -> bool) {
    forall i, j :: 0 <= i < j < |s| ==> leq(s[i], s[j])
  }

  ghost predicate Distinct<T>(s: seq<T>) {
    forall i, j :: 0 <= i < j < |s| ==> s[i] != s[j]
  }

  /** `leq` ties only equal elements of s. */
  ghost predicate Separates<T>(s: seq<T>, leq: (T, T) -> bool) {
    forall x, y :: x in s && y in s && leq(x, y) && leq(y, x) ==> x == y
  }

  /** Splices x in at k, where everything before k is at most x and everything from k on at least x. */
  lemma InsertionKeepsOrder<T(!new)>(s: seq<T>, k: nat, x: T, leq: (T, T) -> bool)
    requires TotalPreorder(leq) && SortedBy(s, leq) && k <= |s|
    requires forall m :: 0 <= m < k ==> leq(s[m], x)
    requires forall m :: k <= m < |s| ==> leq(x, s[m])
    ensures SortedBy(s[..k] + [x] + s[k..], leq)
    ensures multiset(s[..k] + [x] + s[k..]) == multiset(s) + multiset{x}
  {
    assert s == s[..k] + s[k..];
    var t := s[..k] + [x] + s[k..];
    forall i, j | 0 <= i < j < |t| ensures leq(t[i], t[j]) {
      var before := if i < k then s[i] else if i == k then x else s[i - 1];
      assert t[i] == before;
    }
  }

  /** Sorts by insertion; equal elements may come out in either order, as with the library's unstable sort. */
  method Sort<T(!new)>(values: seq<T>, leq: (T, T) -> bool) returns (sorted: seq<T>)
    requires TotalPreorder(leq)
    ensures multiset(sorted) == multiset(values)
    ensures SortedBy(sorted, leq)
  {
    sorted := [];
    for n := 0 to |values|
      invariant multiset(sorted) == multiset(values[..n])
      invariant SortedBy(sorted, leq)
    {
      var x := values[n];
      var k := |sorted|;
      while k > 0 && !leq(sorted[k - 1], x)
        invariant 0 <= k <= |sorted|
        invariant forall m :: k <= m < |sorted| ==> leq(x, sorted[m])
      {
        k := k - 1;
      }
      InsertionKeepsOrder(sorted, k, x, leq);
      assert values[..n + 1] == values[..n] + [x];
      sorted := sorted[..k] + [x] + sorted[k..];
    }
    assert values[..|values|] == values;
  }

  /** Removing the head of a sequence removes one occurrence from its multiset. */
  lemma SplitHead<T>(s: seq<T>)
    requires s != []
    ensures multiset(s[1..]) == multiset(s) - multiset{s[0]}
  {
    assert s == [s[0]] + s[1..];
  }

  /** A multiset has only one arrangement that is sorted by an order separating its elements. */
  lemma {:induction false} SortedArrangementIsUnique<T>(a: seq<T>, b: seq<T>, leq: (T, T) -> bool)
    requires multiset(a) == multiset(b)
    requires SortedBy(a, leq) && SortedBy(b, leq) && Separates(a, leq)
    ensures a == b
  {
    if a == [] {
      assert |multiset(b)| == 0;
    } else {
      assert |multiset(a)| == |a| && |multiset(b)| == |b|;
      assert a[0] in multiset(b) && b[0] in multiset(a);
      var i :| 0 <= i < |b| && b[i] == a[0];
      var j :| 0 <= j < |a| && a[j] == b[0];
      assert a[0] == b[0];
      SplitHead(a);
      SplitHead(b);
      forall x, y | x in a[1..] && y in a[1..] && leq(x, y) && leq(y, x)
        ensures x == y
      {
        assert x in a && y in a;
      }
      SortedArrangementIsUnique(a[1..], b[1..], leq);
    }
  }

  /** Lexicographic order on text, by code point. */
  predicate TextLeq(a: string, b: string) {
    a == [] || (b != [] && (a[0] < b[0] || (a[0] == b[0] && TextLeq(a[1..], b[1..]))))
  }

  lemma TextLeqTotal(a: string, b: string)
    ensures TextLeq(a, b) || TextLeq(b, a)
    ensures TextLeq(a, b) && TextLeq(b, a) ==> a == b
  {
    if a != [] && b != [] {
      TextLeqTotal(a[1..], b[1..]);
      assert a == [a[0]] + a[1..] && b == [b[0]] + b[1..];
    }
  }

  lemma TextLeqTransitive(a: string, b: string, c: string)
    requires TextLeq(a, b) && TextLeq(b, c)
    ensures TextLeq(a, c)
  {
    if a != [] && b[0] == a[0] == c[0] {
      TextLeqTransitive(a[1..], b[1..], c[1..]);
    }
  }

  lemma TextOrder()
    ensures TotalPreorder(TextLeq)
  {
    forall a, b ensures TextLeq(a, b) || TextLeq(b, a) {
      TextLeqTotal(a, b);
    }
    forall a, b, c | TextLeq(a, b) && TextLeq(b, c) ensures TextLeq(a, c) {
      TextLeqTransitive(a, b, c);
    }
  }
}
