/**
 Latency statistics over live evidence: samples are cold, hot or unclassified by how long their group had been
 idle, and each statistic is a nearest-rank percentile.

 Times are counted in nanoseconds, and a sample is complete only after it started.
 */
module LiveEvidence {
  import opened Wrappers
  import opened Ordering

  datatype Sample = Sample(group: string, manifestID: string, startedAt: int, completedAt: int, latencyMillis: int) {
    predicate Valid() {
      startedAt < completedAt
    }
  }

  datatype Protocol = Protocol(coldIdleMinSeconds: int, hotWindowMaxSeconds: int)

  datatype Temperature = Cold | Hot | Unclassified

  const SECOND := 1_000_000_000

  function Classify(protocol: Protocol, idle: int): Temperature {
    if idle >= protocol.coldIdleMinSeconds * SECOND then Cold
    else if idle <= protocol.hotWindowMaxSeconds * SECOND then Hot
    else Unclassified
  }

  // ---- What the temperatures mean, without any order on the samples ----

  predicate Apart(x: Sample, y: Sample) {
    x.completedAt <= y.startedAt || y.completedAt <= x.startedAt
  }

  /** No two samples of one group overlap; the same sample twice would. */
  ghost predicate NoOverlap(samples: multiset<Sample>) {
    forall x, y :: x in samples && y in samples && x.group == y.group && (x != y || samples[x] > 1) ==> Apart(x, y)
  }

  predicate Before(y: Sample, x: Sample) {
    y.group == x.group && y.completedAt <= x.startedAt
  }

  /** idle is how long x's group had done nothing when x started. */
  ghost predicate IsIdle(all: set<Sample>, x: Sample, idle: int) {
    && (exists y :: y in all && Before(y, x) && idle == x.startedAt - y.completedAt)
    && (forall y :: y in all && Before(y, x) ==> idle <= x.startedAt - y.completedAt)
  }

  /** The first sample of a group is an unclassified baseline. */
  ghost function TemperatureOf(protocol: Protocol, all: set<Sample>, x: Sample): Temperature {
    if exists idle :: IsIdle(all, x, idle) then
      var idle :| IsIdle(all, x, idle);
      Classify(protocol, idle)
    else Unclassified
  }

  lemma IdleDecides(protocol: Protocol, all: set<Sample>, x: Sample, idle: int)
    requires IsIdle(all, x, idle)
    ensures TemperatureOf(protocol, all, x) == Classify(protocol, idle)
  {
  }

  lemma FirstIsUnclassified(protocol: Protocol, all: set<Sample>, x: Sample)
    requires forall y :: y in all ==> !Before(y, x)
    ensures TemperatureOf(protocol, all, x) == Unclassified
  {
  }

  /**
   A sample is cold after an idle time of the minimum or more, hot after a shorter one within the window, and
   unclassified otherwise, or when nothing of its group was done before it.
   */
  lemma IdlenessDecides(protocol: Protocol, all: set<Sample>, x: Sample)
    ensures TemperatureOf(protocol, all, x) == Cold <==>
      exists idle :: IsIdle(all, x, idle) && protocol.coldIdleMinSeconds * 1_000_000_000 <= idle
    ensures TemperatureOf(protocol, all, x) == Hot <==>
      exists idle :: IsIdle(all, x, idle)
        && idle < protocol.coldIdleMinSeconds * 1_000_000_000 && idle <= protocol.hotWindowMaxSeconds * 1_000_000_000
  {
    if idle :| IsIdle(all, x, idle) {
      IdleDecides(protocol, all, x, idle);
    }
  }

  function SetOf(samples: seq<Sample>): set<Sample> {
    set sample | sample in samples
  }

  /** The latencies of those samples that have this temperature among all. */
  ghost function Latencies(protocol: Protocol, all: set<Sample>, samples: seq<Sample>, temperature: Temperature): seq<int> {
    if samples == [] then []
    else
      Latencies(protocol, all, samples[..|samples| - 1], temperature)
      + (if TemperatureOf(protocol, all, samples[|samples| - 1]) == temperature then [samples[|samples| - 1].latencyMillis] else [])
  }

  lemma {:induction false} LatenciesSplit(protocol: Protocol, all: set<Sample>, a: seq<Sample>, b: seq<Sample>, temperature: Temperature)
    ensures Latencies(protocol, all, a + b, temperature)
         == Latencies(protocol, all, a, temperature) + Latencies(protocol, all, b, temperature)
  {
    hide TemperatureOf;
    if b == [] {
      assert a + b == a;
    } else {
      assert (a + b)[..|a + b| - 1] == a + b[..|b| - 1];
      LatenciesSplit(protocol, all, a, b[..|b| - 1], temperature);
    }
  }

  /** Each sample has exactly one temperature, so the three counts add up to all samples. */
  lemma {:induction false} EverySampleCountsOnce(protocol: Protocol, all: set<Sample>, samples: seq<Sample>)
    ensures |Latencies(protocol, all, samples, Cold)| + |Latencies(protocol, all, samples, Hot)|
            + |Latencies(protocol, all, samples, Unclassified)| == |samples|
  {
    hide TemperatureOf;
    if samples != [] {
      EverySampleCountsOnce(protocol, all, samples[..|samples| - 1]);
    }
  }

  /** One sample's latency can be taken out of the middle. */
  lemma TakingOneOut(protocol: Protocol, all: set<Sample>, head: seq<Sample>, x: Sample, tail: seq<Sample>, temperature: Temperature)
    ensures multiset(Latencies(protocol, all, head + [x] + tail, temperature))
         == multiset(Latencies(protocol, all, head + tail, temperature)) + multiset(Latencies(protocol, all, [x], temperature))
  {
    hide Latencies;
    LatenciesSplit(protocol, all, head + [x], tail, temperature);
    LatenciesSplit(protocol, all, head, [x], temperature);
    LatenciesSplit(protocol, all, head, tail, temperature);
    var h, m, t := Latencies(protocol, all, head, temperature), Latencies(protocol, all, [x], temperature),
                   Latencies(protocol, all, tail, temperature);
    assert Latencies(protocol, all, head + [x] + tail, temperature) == h + m + t;
    assert multiset(h + m + t) == multiset(h) + multiset(m) + multiset(t) == multiset(h + t) + multiset(m);
  }

  lemma TakingLastOut(protocol: Protocol, all: set<Sample>, a: seq<Sample>, temperature: Temperature)
    requires a != []
    ensures multiset(Latencies(protocol, all, a, temperature))
         == multiset(Latencies(protocol, all, a[..|a| - 1], temperature))
            + multiset(Latencies(protocol, all, [a[|a| - 1]], temperature))
  {
    hide Latencies;
    var init, last := a[..|a| - 1], [a[|a| - 1]];
    assert a == init + last;
    LatenciesSplit(protocol, all, init, last, temperature);
  }

  lemma RemovingOne<T>(a: seq<T>, head: seq<T>, x: T, tail: seq<T>)
    requires a != [] && a[|a| - 1] == x && multiset(a) == multiset(head + [x] + tail)
    ensures multiset(a[..|a| - 1]) == multiset(head + tail)
  {
    var whole := head + [x] + tail;
    assert a == a[..|a| - 1] + [x];
    assert multiset(a[..|a| - 1]) == multiset(a) - multiset{x};
    assert multiset(whole) == multiset(head) + multiset{x} + multiset(tail);
    assert multiset(head + tail) == multiset(whole) - multiset{x};
  }

  /** Rearranging the samples rearranges their latencies. */
  lemma {:induction false} LatenciesRearrange(
      protocol: Protocol, all: set<Sample>, a: seq<Sample>, b: seq<Sample>, temperature: Temperature)
    requires multiset(a) == multiset(b)
    ensures multiset(Latencies(protocol, all, a, temperature)) == multiset(Latencies(protocol, all, b, temperature))
    decreases |a|
  {
    hide TemperatureOf;
    if a == [] {
      assert |multiset(b)| == 0;
    } else {
      hide Latencies;
      var x, n := a[|a| - 1], |a| - 1;
      var head, tail := AroundOne(a, b);
      RemovingOne(a, head, x, tail);
      LatenciesRearrange(protocol, all, a[..n], head + tail, temperature);
      TakingLastOut(protocol, all, a, temperature);
      TakingOneOut(protocol, all, head, x, tail, temperature);
    }
  }

  // ---- One group ----

  /** Earlier starts first; equal starts by manifest. */
  predicate Earlier(x: Sample, y: Sample) {
    x.startedAt < y.startedAt || (x.startedAt == y.startedAt && TextLeq(x.manifestID, y.manifestID))
  }

  lemma EarlierIsAnOrder()
    ensures TotalPreorder(Earlier)
  {
    TextOrder();
  }

  /** The first n samples of the group lie one after the other. */
  ghost predicate Chained(group: seq<Sample>, n: nat)
    requires n <= |group|
  {
    forall i :: 0 < i < n ==> group[i - 1].completedAt <= group[i].startedAt
  }

  lemma {:induction false} ChainedInOrder(group: seq<Sample>, n: nat, i: nat, j: nat)
    requires n <= |group| && Chained(group, n) && (forall k :: 0 <= k < |group| ==> group[k].Valid()) && i < j < n
    ensures group[i].completedAt <= group[j].startedAt
  {
    if i < j - 1 {
      ChainedInOrder(group, n, i, j - 1);
      assert group[j - 1].Valid();
    }
  }

  /** Among all samples, those of this group are exactly these, and they are sorted by start. */
  ghost predicate GroupOf(all: set<Sample>, group: seq<Sample>, name: string) {
    && (forall i :: 0 <= i < |group| ==> group[i] in all && group[i].group == name && group[i].Valid())
    && (forall y :: y in all && y.group == name ==> y in group)
    && SortedBy(group, Earlier)
  }

  lemma StartsInOrder(group: seq<Sample>, i: nat)
    requires SortedBy(group, Earlier) && i < |group|
    ensures forall j :: i <= j < |group| ==> group[i].startedAt <= group[j].startedAt
  {
    forall j | i < j < |group| ensures group[i].startedAt <= group[j].startedAt {
      assert Earlier(group[i], group[j]);
    }
  }

  /** In a chain, every sample before the i-th is complete by the one just before it; no later sample is. */
  lemma PredecessorIsLatest(all: set<Sample>, group: seq<Sample>, name: string, i: nat, y: Sample)
    requires GroupOf(all, group, name) && i < |group| && Chained(group, i + 1)
    requires y in all && Before(y, group[i])
    ensures i > 0 && y.completedAt <= group[i - 1].completedAt
  {
    var j :| 0 <= j < |group| && group[j] == y;
    assert y.Valid() && y.completedAt <= group[i].startedAt;
    assert forall k :: 0 <= k < |group| ==> group[k].Valid();
    StartsInOrder(group, i);
    hide GroupOf, SortedBy, Before, Chained;
    if j >= i {
      assert false;
    } else if j < i - 1 {
      ChainedInOrder(group, i + 1, j, i - 1);
      assert group[i - 1].Valid();
    }
  }

  lemma TemperatureInGroup(protocol: Protocol, all: set<Sample>, group: seq<Sample>, name: string, i: nat)
    requires GroupOf(all, group, name) && i < |group| && Chained(group, i + 1)
    ensures TemperatureOf(protocol, all, group[i])
         == if i == 0 then Unclassified else Classify(protocol, group[i].startedAt - group[i - 1].completedAt)
  {
    hide TemperatureOf, Classify;
    var x := group[i];
    forall y | y in all && Before(y, x) ensures i > 0 && y.completedAt <= group[i - 1].completedAt {
      PredecessorIsLatest(all, group, name, i, y);
    }
    if i == 0 {
      FirstIsUnclassified(protocol, all, x);
    } else {
      assert Before(group[i - 1], x);
      IdleDecides(protocol, all, x, x.startedAt - group[i - 1].completedAt);
    }
  }

  /** One more classified sample at the end. */
  lemma LatenciesOneMore(protocol: Protocol, all: set<Sample>, group: seq<Sample>, i: nat, temperature: Temperature)
    requires i < |group|
    ensures Latencies(protocol, all, group[..i + 1], temperature)
         == Latencies(protocol, all, group[..i], temperature)
            + (if TemperatureOf(protocol, all, group[i]) == temperature then [group[i].latencyMillis] else [])
  {
    hide TemperatureOf;
    assert group[..i + 1][..i] == group[..i];
  }

  /** The classified latencies of one sorted group; None: some sample starts before the one before it is complete. */
  method ClassifyGroup(protocol: Protocol, group: seq<Sample>, ghost all: set<Sample>, ghost name: string)
    returns (r: Option<(seq<int>, seq<int>, nat)>)
    requires GroupOf(all, group, name)
    ensures r.Some? <==> Chained(group, |group|)
    ensures r.Some? ==>
      && r.value.0 == Latencies(protocol, all, group, Cold) && r.value.1 == Latencies(protocol, all, group, Hot)
      && r.value.2 == |Latencies(protocol, all, group, Unclassified)|
  {
    hide TemperatureOf, GroupOf, Latencies;
    var cold: seq<int>, hot: seq<int>, unclassified := [], [], 0;
    NothingClassified(protocol, all, group);
    var index := 0;
    if |group| > 0 {
      FirstClassified(protocol, all, group, name);
      unclassified, index := 1, 1;
    }
    while index < |group|
      invariant index <= |group| && (index == 0 ==> group == [])
      invariant Chained(group, index)
      invariant cold == Latencies(protocol, all, group[..index], Cold) && hot == Latencies(protocol, all, group[..index], Hot)
      invariant unclassified == |Latencies(protocol, all, group[..index], Unclassified)|
    {
      var previous, current := group[index - 1], group[index];
      if current.startedAt < previous.completedAt {
        return None;
      }
      TemperatureInGroup(protocol, all, group, name, index);
      OneMoreOfEach(protocol, all, group, index);
      var idle := current.startedAt - previous.completedAt;
      if idle >= protocol.coldIdleMinSeconds * SECOND {
        cold := cold + [current.latencyMillis];
      } else if idle <= protocol.hotWindowMaxSeconds * SECOND {
        hot := hot + [current.latencyMillis];
      } else {
        unclassified := unclassified + 1;
      }
      index := index + 1;
    }
    assert group[..index] == group;
    r := Some((cold, hot, unclassified));
  }

  lemma NothingClassified(protocol: Protocol, all: set<Sample>, group: seq<Sample>)
    ensures group[..0] == [] && forall temperature :: Latencies(protocol, all, [], temperature) == []
  {
  }

  lemma FirstClassified(protocol: Protocol, all: set<Sample>, group: seq<Sample>, name: string)
    requires GroupOf(all, group, name) && group != []
    ensures Latencies(protocol, all, group[..1], Cold) == [] && Latencies(protocol, all, group[..1], Hot) == []
    ensures |Latencies(protocol, all, group[..1], Unclassified)| == 1
  {
    TemperatureInGroup(protocol, all, group, name, 0);
    hide TemperatureOf, GroupOf;
    assert group[..1][..0] == [] && group[..1][0] == group[0];
  }

  lemma OneMoreOfEach(protocol: Protocol, all: set<Sample>, group: seq<Sample>, i: nat)
    requires i < |group|
    ensures forall temperature :: Latencies(protocol, all, group[..i + 1], temperature)
              == Latencies(protocol, all, group[..i], temperature)
                 + (if TemperatureOf(protocol, all, group[i]) == temperature then [group[i].latencyMillis] else [])
  {
    forall temperature ensures Latencies(protocol, all, group[..i + 1], temperature)
              == Latencies(protocol, all, group[..i], temperature)
                 + (if TemperatureOf(protocol, all, group[i]) == temperature then [group[i].latencyMillis] else []) {
      LatenciesOneMore(protocol, all, group, i, temperature);
    }
  }

  // ---- Chains and overlaps ----

  lemma {:induction false} TwoPlaces<T>(s: seq<T>, x: T)
    requires multiset(s)[x] > 1
    ensures exists i, j :: 0 <= i < j < |s| && s[i] == x && s[j] == x
  {
    var n := |s| - 1;
    assert s == s[..n] + [s[n]];
    if s[n] == x {
      assert x in multiset(s[..n]);
      var i :| 0 <= i < n && s[..n][i] == x;
      assert s[i] == x && s[n] == x;
    } else {
      TwoPlaces(s[..n], x);
      var i, j :| 0 <= i < j < n && s[..n][i] == x && s[..n][j] == x;
      assert s[i] == x && s[j] == x;
    }
  }

  lemma TwiceCounts<T>(s: seq<T>, i: nat, j: nat)
    requires i < j < |s| && s[i] == s[j]
    ensures multiset(s)[s[i]] > 1
  {
    assert s == s[..j] + [s[j]] + s[j + 1..];
    assert s[..j][i] == s[i];
    assert s[i] in multiset(s[..j]);
  }

  /** A sorted group is a chain exactly when nothing in it overlaps. */
  lemma ChainsAreApart(all: set<Sample>, group: seq<Sample>, name: string)
    requires GroupOf(all, group, name)
    ensures Chained(group, |group|) <==> NoOverlap(multiset(group))
  {
    hide GroupOf, Apart;
    if Chained(group, |group|) {
      var m := multiset(group);
      forall x, y | x in m && y in m && (x != y || m[x] > 1) ensures Apart(x, y) {
        hide Chained;
        ChainedPairsAreApart(all, group, name, x, y);
      }
    } else {
      var i :| 0 < i < |group| && group[i - 1].completedAt > group[i].startedAt;
      BrokenChainsOverlap(all, group, name, i);
    }
  }

  lemma BrokenChainsOverlap(all: set<Sample>, group: seq<Sample>, name: string, i: nat)
    requires GroupOf(all, group, name) && 0 < i < |group| && group[i - 1].completedAt > group[i].startedAt
    ensures !NoOverlap(multiset(group))
  {
    var x, y := group[i - 1], group[i];
    hide GroupOf, Apart, NoOverlap, Sample.Valid;
    NeighboursTouch(all, group, name, i);
    if x == y { TwiceCounts(group, i - 1, i); }
    assert x in group && y in group;
    TouchingOverlap(multiset(group), x, y);
  }

  lemma TouchingOverlap(m: multiset<Sample>, x: Sample, y: Sample)
    requires x in m && y in m && x.group == y.group && (x != y || m[x] > 1) && !Apart(x, y)
    ensures !NoOverlap(m)
  {
    hide Apart;
  }

  lemma NeighboursTouch(all: set<Sample>, group: seq<Sample>, name: string, i: nat)
    requires GroupOf(all, group, name) && 0 < i < |group| && group[i - 1].completedAt > group[i].startedAt
    ensures group[i - 1].group == group[i].group && !Apart(group[i - 1], group[i])
  {
    var x, y := group[i - 1], group[i];
    StartsInOrder(group, i - 1);
    assert x.Valid() && y.Valid() && x.group == y.group && x.startedAt <= y.startedAt;
    hide GroupOf, SortedBy;
  }

  lemma ChainedPairsAreApart(all: set<Sample>, group: seq<Sample>, name: string, x: Sample, y: Sample)
    requires GroupOf(all, group, name) && Chained(group, |group|)
    requires x in multiset(group) && y in multiset(group) && (x != y || multiset(group)[x] > 1)
    ensures Apart(x, y)
  {
    assert forall k :: 0 <= k < |group| ==> group[k].Valid();
    hide GroupOf, Chained;
    var i, j := TheirPlaces(group, x, y);
    if i < j {
      ChainedInOrder(group, |group|, i, j);
    } else {
      ChainedInOrder(group, |group|, j, i);
    }
  }

  lemma TheirPlaces(group: seq<Sample>, x: Sample, y: Sample) returns (i: nat, j: nat)
    requires x in multiset(group) && y in multiset(group) && (x != y || multiset(group)[x] > 1)
    ensures i < |group| && j < |group| && i != j && group[i] == x && group[j] == y
  {
    if x == y {
      TwoPlaces(group, x);
      i, j :| 0 <= i < j < |group| && group[i] == x && group[j] == y;
    } else {
      i :| 0 <= i < |group| && group[i] == x;
      j :| 0 <= j < |group| && group[j] == y;
    }
  }

  // ---- Groups ----

  function Filter(samples: seq<Sample>, name: string): seq<Sample> {
    if samples == [] then []
    else
      Filter(samples[..|samples| - 1], name)
      + (if samples[|samples| - 1].group == name then [samples[|samples| - 1]] else [])
  }

  /** The samples of some of the groups. */
  function Within(samples: seq<Sample>, names: set<string>): seq<Sample> {
    if samples == [] then []
    else
      Within(samples[..|samples| - 1], names)
      + (if samples[|samples| - 1].group in names then [samples[|samples| - 1]] else [])
  }

  lemma {:induction false} FilterCounts(samples: seq<Sample>, name: string, x: Sample)
    ensures multiset(Filter(samples, name))[x] == if x.group == name then multiset(samples)[x] else 0
  {
    if samples != [] {
      FilterCounts(samples[..|samples| - 1], name, x);
      assert samples == samples[..|samples| - 1] + [samples[|samples| - 1]];
    }
  }

  lemma {:induction false} WithinCounts(samples: seq<Sample>, names: set<string>, x: Sample)
    ensures multiset(Within(samples, names))[x] == if x.group in names then multiset(samples)[x] else 0
  {
    if samples != [] {
      WithinCounts(samples[..|samples| - 1], names, x);
      assert samples == samples[..|samples| - 1] + [samples[|samples| - 1]];
    }
  }

  /** Taking in one more group. */
  lemma OneMoreGroup(samples: seq<Sample>, names: set<string>, name: string)
    requires name !in names
    ensures multiset(Within(samples, names + {name})) == multiset(Within(samples, names) + Filter(samples, name))
  {
    var more, parts := multiset(Within(samples, names + {name})), multiset(Within(samples, names)) + multiset(Filter(samples, name));
    hide Within, Filter;
    forall x ensures more[x] == parts[x] {
      WithinCounts(samples, names + {name}, x);
      WithinCounts(samples, names, x);
      FilterCounts(samples, name, x);
    }
    assert more == parts;
  }

  lemma AllGroups(samples: seq<Sample>, names: set<string>)
    requires forall i :: 0 <= i < |samples| ==> samples[i].group in names
    ensures multiset(Within(samples, names)) == multiset(samples)
  {
    var within := multiset(Within(samples, names));
    hide Within;
    forall x ensures within[x] == multiset(samples)[x] {
      WithinCounts(samples, names, x);
      if x in multiset(samples) { assert x in samples; }
    }
    assert within == multiset(samples);
  }

  function Names(samples: seq<Sample>): set<string> {
    if samples == [] then {} else Names(samples[..|samples| - 1]) + {samples[|samples| - 1].group}
  }

  lemma {:induction false} NamesName(samples: seq<Sample>, i: nat)
    requires i < |samples|
    ensures samples[i].group in Names(samples)
  {
    if i < |samples| - 1 {
      NamesName(samples[..|samples| - 1], i);
    }
  }

  lemma {:induction false} UnnamedAreEmpty(samples: seq<Sample>, name: string)
    requires name !in Names(samples)
    ensures Filter(samples, name) == []
  {
    if samples != [] {
      UnnamedAreEmpty(samples[..|samples| - 1], name);
    }
  }

  lemma PartsDoNotOverlap(samples: seq<Sample>, name: string)
    requires NoOverlap(multiset(samples))
    ensures NoOverlap(multiset(Filter(samples, name)))
  {
    var m, part := multiset(samples), multiset(Filter(samples, name));
    hide Filter, Apart;
    forall x, y | x in part && y in part && x.group == y.group && (x != y || part[x] > 1) ensures Apart(x, y) {
      FilterCounts(samples, name, x);
      FilterCounts(samples, name, y);
      assert x in m && y in m && part[x] == m[x];
    }
  }

  /** Samples that overlap do so within some group. */
  lemma OverlapsAreInGroups(samples: seq<Sample>)
    requires forall name :: name in Names(samples) ==> NoOverlap(multiset(Filter(samples, name)))
    ensures NoOverlap(multiset(samples))
  {
    var m := multiset(samples);
    hide Filter, Apart, Names;
    forall x, y | x in m && y in m && x.group == y.group && (x != y || m[x] > 1) ensures Apart(x, y) {
      var part := multiset(Filter(samples, x.group));
      var i :| 0 <= i < |samples| && samples[i] == x;
      NamesName(samples, i);
      FilterCounts(samples, x.group, x);
      FilterCounts(samples, x.group, y);
      assert NoOverlap(part) && x in part && y in part && part[x] == m[x];
    }
  }

  lemma {:induction false} FilteredAreThere(samples: seq<Sample>, name: string, y: Sample)
    ensures y in Filter(samples, name) <==> y in samples && y.group == name
  {
    if samples != [] {
      FilteredAreThere(samples[..|samples| - 1], name, y);
      assert samples == samples[..|samples| - 1] + [samples[|samples| - 1]];
    }
  }

  /** Sorting a group's samples makes it a group of all samples. */
  lemma SortedGroups(samples: seq<Sample>, name: string, group: seq<Sample>)
    requires forall sample :: sample in samples ==> sample.Valid()
    requires multiset(group) == multiset(Filter(samples, name)) && SortedBy(group, Earlier)
    ensures GroupOf(SetOf(samples), group, name)
  {
    forall y ensures y in group <==> y in samples && y.group == name {
      FilteredAreThere(samples, name, y);
      assert y in group <==> y in multiset(group);
      assert y in Filter(samples, name) <==> y in multiset(Filter(samples, name));
    }
    hide Filter;
    forall i | 0 <= i < |group| ensures group[i] in SetOf(samples) && group[i].group == name && group[i].Valid() {
      assert group[i] in group;
    }
  }

  ghost predicate AreGroups(groups: map<string, seq<Sample>>, samples: seq<Sample>) {
    groups.Keys == Names(samples) && forall name :: name in groups ==> groups[name] == Filter(samples, name)
  }

  method GroupSamples(samples: seq<Sample>) returns (groups: map<string, seq<Sample>>)
    ensures AreGroups(groups, samples)
  {
    hide AreGroups;
    groups := map[];
    NoGroups(samples);
    var i := 0;
    while i < |samples|
      invariant 0 <= i <= |samples| && AreGroups(groups, samples[..i])
    {
      var attempt := samples[i];
      GroupsOneMore(groups, samples, i);
      groups := groups[attempt.group := (if attempt.group in groups then groups[attempt.group] else []) + [attempt]];
      i := i + 1;
    }
    assert samples[..i] == samples;
  }

  lemma NoGroups(samples: seq<Sample>)
    ensures AreGroups(map[], samples[..0])
  {
  }

  lemma GroupsOneMore(groups: map<string, seq<Sample>>, samples: seq<Sample>, i: nat)
    requires i < |samples| && AreGroups(groups, samples[..i])
    ensures var name := samples[i].group;
      AreGroups(groups[name := (if name in groups then groups[name] else []) + [samples[i]]], samples[..i + 1])
  {
    var init, more, name := samples[..i], samples[..i + 1], samples[i].group;
    assert more[..|more| - 1] == init && more[|more| - 1] == samples[i];
    if name !in groups { UnnamedAreEmpty(init, name); }
    var bigger := groups[name := (if name in groups then groups[name] else []) + [samples[i]]];
    assert bigger.Keys == groups.Keys + {name};
    forall other | other in bigger ensures bigger[other] == Filter(more, other) {
      if other != name { assert other in groups; }
    }
  }

  // ---- The whole derivation ----

  /** The latencies of these temperatures, in some order, and how many samples have none. */
  ghost predicate Derives(protocol: Protocol, samples: seq<Sample>, cold: seq<int>, hot: seq<int>, unclassified: nat) {
    && multiset(cold) == multiset(Latencies(protocol, SetOf(samples), samples, Cold))
    && multiset(hot) == multiset(Latencies(protocol, SetOf(samples), samples, Hot))
    && unclassified == |Latencies(protocol, SetOf(samples), samples, Unclassified)|
  }

  /** What has been derived from the groups done so far. */
  ghost predicate Partial(protocol: Protocol, samples: seq<Sample>, done: set<string>, cold: seq<int>, hot: seq<int>, unclassified: nat) {
    && multiset(cold) == multiset(Latencies(protocol, SetOf(samples), Within(samples, done), Cold))
    && multiset(hot) == multiset(Latencies(protocol, SetOf(samples), Within(samples, done), Hot))
    && unclassified == |Latencies(protocol, SetOf(samples), Within(samples, done), Unclassified)|
  }

  lemma GroupAdds(protocol: Protocol, samples: seq<Sample>, done: set<string>, name: string, group: seq<Sample>, temperature: Temperature)
    requires name !in done && multiset(group) == multiset(Filter(samples, name))
    ensures var all := SetOf(samples);
      multiset(Latencies(protocol, all, Within(samples, done + {name}), temperature))
        == multiset(Latencies(protocol, all, Within(samples, done), temperature)) + multiset(Latencies(protocol, all, group, temperature))
  {
    hide Latencies, Within, Filter;
    var all, before, part := SetOf(samples), Within(samples, done), Filter(samples, name);
    OneMoreGroup(samples, done, name);
    LatenciesRearrange(protocol, all, Within(samples, done + {name}), before + part, temperature);
    LatenciesSplit(protocol, all, before, part, temperature);
    LatenciesRearrange(protocol, all, group, part, temperature);
  }

  lemma PartialGrows(protocol: Protocol, samples: seq<Sample>, done: set<string>, name: string, group: seq<Sample>,
                     cold: seq<int>, hot: seq<int>, unclassified: nat)
    requires Partial(protocol, samples, done, cold, hot, unclassified)
    requires name !in done && multiset(group) == multiset(Filter(samples, name))
    ensures var all := SetOf(samples);
      Partial(protocol, samples, done + {name}, cold + Latencies(protocol, all, group, Cold), hot + Latencies(protocol, all, group, Hot),
              unclassified + |Latencies(protocol, all, group, Unclassified)|)
  {
    hide Latencies, Within, Filter, SetOf;
    GroupAdds(protocol, samples, done, name, group, Cold);
    GroupAdds(protocol, samples, done, name, group, Hot);
    GroupAdds(protocol, samples, done, name, group, Unclassified);
    var all := SetOf(samples);
    SizesAdd(Latencies(protocol, all, Within(samples, done + {name}), Unclassified),
             Latencies(protocol, all, Within(samples, done), Unclassified), Latencies(protocol, all, group, Unclassified));
  }

  lemma SizesAdd(whole: seq<int>, a: seq<int>, b: seq<int>)
    requires multiset(whole) == multiset(a) + multiset(b)
    ensures |whole| == |a| + |b|
  {
    assert |multiset(whole)| == |whole| && |multiset(a)| == |a| && |multiset(b)| == |b|;
  }

  /** Splits the samples by temperature, group by group in whatever order; None: some samples of one group overlap. */
  method DeriveTemperatureLatencies(protocol: Protocol, samples: seq<Sample>) returns (r: Option<(seq<int>, seq<int>, nat)>)
    requires forall sample :: sample in samples ==> sample.Valid()
    ensures r.Some? <==> NoOverlap(multiset(samples))
    ensures r.Some? ==> Derives(protocol, samples, r.value.0, r.value.1, r.value.2)
  {
    hide Latencies, Within, Filter, GroupOf, NoOverlap, TemperatureOf, Derives, Partial;
    hide Names, Apart, Earlier;
    var groups := GroupSamples(samples);
    ghost var all := SetOf(samples);
    EarlierIsAnOrder();
    var cold: seq<int>, hot: seq<int>, unclassified := [], [], 0;
    NothingDerived(protocol, samples);
    var names, done := groups.Keys, {};
    while done != names
      invariant done <= names
      invariant forall name :: name in done ==> NoOverlap(multiset(Filter(samples, name)))
      invariant Partial(protocol, samples, done, cold, hot, unclassified)
      decreases |names - done|
    {
      var name :| name in names - done;
      var group := Sort(groups[name], Earlier);
      SortedGroups(samples, name, group);
      ChainsAreApart(all, group, name);
      var classified := ClassifyGroup(protocol, group, all, name);
      if classified.None? {
        OverlappingGroups(samples, name, group);
        return None;
      }
      SameOverlaps(samples, name, group);
      PartialGrows(protocol, samples, done, name, group, cold, hot, unclassified);
      cold, hot := cold + classified.value.0, hot + classified.value.1;
      unclassified := unclassified + classified.value.2;
      done := done + {name};
      assert names - done < names - (done - {name});
    }
    OverlapsAreInGroups(samples);
    PartialIsAll(protocol, samples, cold, hot, unclassified);
    r := Some((cold, hot, unclassified));
  }

  lemma SameOverlaps(samples: seq<Sample>, name: string, group: seq<Sample>)
    requires multiset(group) == multiset(Filter(samples, name))
    ensures NoOverlap(multiset(group)) <==> NoOverlap(multiset(Filter(samples, name)))
  {
  }

  lemma OverlappingGroups(samples: seq<Sample>, name: string, group: seq<Sample>)
    requires multiset(group) == multiset(Filter(samples, name)) && !NoOverlap(multiset(group))
    ensures !NoOverlap(multiset(samples))
  {
    hide NoOverlap, Filter;
    if NoOverlap(multiset(samples)) { PartsDoNotOverlap(samples, name); }
  }

  lemma NothingDerived(protocol: Protocol, samples: seq<Sample>)
    ensures Partial(protocol, samples, {}, [], [], 0)
  {
    hide Latencies, Within;
    var within := Within(samples, {});
    NothingWithin(samples);
    LatenciesOfNothing(protocol, SetOf(samples));
  }

  lemma {:induction false} NothingWithin(samples: seq<Sample>)
    ensures Within(samples, {}) == []
  {
    if samples != [] {
      NothingWithin(samples[..|samples| - 1]);
    }
  }

  lemma LatenciesOfNothing(protocol: Protocol, all: set<Sample>)
    ensures forall temperature :: Latencies(protocol, all, [], temperature) == []
  {
  }

  lemma PartialIsAll(protocol: Protocol, samples: seq<Sample>, cold: seq<int>, hot: seq<int>, unclassified: nat)
    requires Partial(protocol, samples, Names(samples), cold, hot, unclassified)
    ensures Derives(protocol, samples, cold, hot, unclassified)
  {
    hide Latencies, Within, SetOf, Names;
    var all, within := SetOf(samples), Within(samples, Names(samples));
    forall i | 0 <= i < |samples| ensures samples[i].group in Names(samples) {
      NamesName(samples, i);
    }
    AllGroups(samples, Names(samples));
    LatenciesRearrange(protocol, all, within, samples, Cold);
    LatenciesRearrange(protocol, all, within, samples, Hot);
    LatenciesRearrange(protocol, all, within, samples, Unclassified);
    SizesAdd(Latencies(protocol, all, within, Unclassified), Latencies(protocol, all, samples, Unclassified), []);
  }

  /** Two samples of one group that start at the same time always overlap. */
  lemma EqualStartsOverlap(samples: seq<Sample>, i: nat, j: nat)
    requires (forall sample :: sample in samples ==> sample.Valid()) && i < j < |samples|
    requires samples[i].group == samples[j].group && samples[i].startedAt == samples[j].startedAt
    ensures !NoOverlap(multiset(samples))
  {
    var x, y := samples[i], samples[j];
    assert x in samples && y in samples;
    assert !Apart(x, y);
    if x == y { TwiceCounts(samples, i, j); }
  }

  // ---- Nearest-rank percentiles ----

  /** How many values are at most v. */
  function AtMost(values: seq<int>, v: int): nat {
    if values == [] then 0 else AtMost(values[..|values| - 1], v) + (if values[|values| - 1] <= v then 1 else 0)
  }

  /** The smallest value with at least percentile percent of the values at or below it. */
  ghost predicate IsPercentile(values: seq<int>, percentile: int, v: int) {
    && v in values && AtMost(values, v) * 100 >= percentile * |values|
    && forall w :: w in values && w < v ==> AtMost(values, w) * 100 < percentile * |values|
  }

  predicate Leq(x: int, y: int) {
    x <= y
  }

  lemma {:induction false} AtMostSplits(a: seq<int>, b: seq<int>, v: int)
    ensures AtMost(a + b, v) == AtMost(a, v) + AtMost(b, v)
  {
    if b == [] {
      assert a + b == a;
    } else {
      assert (a + b)[..|a + b| - 1] == a + b[..|b| - 1];
      AtMostSplits(a, b[..|b| - 1], v);
    }
  }

  lemma {:induction false} AtMostAll(values: seq<int>, v: int)
    requires forall i :: 0 <= i < |values| ==> values[i] <= v
    ensures AtMost(values, v) == |values|
  {
    if values != [] {
      AtMostAll(values[..|values| - 1], v);
    }
  }

  lemma {:induction false} AtMostNone(values: seq<int>, v: int)
    requires forall i :: 0 <= i < |values| ==> values[i] > v
    ensures AtMost(values, v) == 0
  {
    if values != [] {
      AtMostNone(values[..|values| - 1], v);
    }
  }

  lemma AtMostWithout(head: seq<int>, x: int, tail: seq<int>, v: int)
    ensures AtMost(head + [x] + tail, v) == AtMost(head + tail, v) + AtMost([x], v)
  {
    hide AtMost;
    AtMostSplits(head + [x], tail, v);
    AtMostSplits(head, [x], v);
    AtMostSplits(head, tail, v);
  }

  lemma AtMostLast(a: seq<int>, v: int)
    requires a != []
    ensures AtMost(a, v) == AtMost(a[..|a| - 1], v) + AtMost([a[|a| - 1]], v)
  {
    assert [a[|a| - 1]][..0] == [];
  }

  lemma {:induction false} AtMostRearranges(a: seq<int>, b: seq<int>, v: int)
    requires multiset(a) == multiset(b)
    ensures AtMost(a, v) == AtMost(b, v)
    decreases |a|
  {
    hide AtMost;
    if a == [] {
      assert |multiset(b)| == 0;
    } else {
      var x, n := a[|a| - 1], |a| - 1;
      var head, tail := AroundOne(a, b);
      RemovingOne(a, head, x, tail);
      AtMostRearranges(a[..n], head + tail, v);
      AtMostLast(a, v);
      AtMostWithout(head, x, tail, v);
    }
  }

  /** The last element of a sequence is somewhere in every rearrangement of it. */
  lemma AroundOne<T>(a: seq<T>, b: seq<T>) returns (head: seq<T>, tail: seq<T>)
    requires a != [] && multiset(a) == multiset(b)
    ensures b == head + [a[|a| - 1]] + tail
  {
    var x := a[|a| - 1];
    assert x in multiset(b);
    var k :| 0 <= k < |b| && b[k] == x;
    head, tail := b[..k], b[k + 1..];
  }

  /** In sorted values, the rank-th has at least rank values at or below it, and anything smaller has fewer. */
  lemma RanksInOrder(sorted: seq<int>, rank: nat)
    requires SortedBy(sorted, Leq) && 1 <= rank <= |sorted|
    ensures AtMost(sorted, sorted[rank - 1]) >= rank
    ensures forall w :: w < sorted[rank - 1] ==> AtMost(sorted, w) < rank
  {
    var v := sorted[rank - 1];
    assert sorted == sorted[..rank] + sorted[rank..];
    AtMostSplits(sorted[..rank], sorted[rank..], v);
    forall i | 0 <= i < rank ensures sorted[i] <= v {
      if i < rank - 1 { assert Leq(sorted[i], sorted[rank - 1]); }
    }
    AtMostAll(sorted[..rank], v);
    forall w | w < v ensures AtMost(sorted, w) < rank {
      FewerBelow(sorted, rank, w);
    }
  }

  lemma FewerBelow(sorted: seq<int>, rank: nat, w: int)
    requires SortedBy(sorted, Leq) && 1 <= rank <= |sorted| && w < sorted[rank - 1]
    ensures AtMost(sorted, w) < rank
  {
    var low, high := sorted[..rank - 1], sorted[rank - 1..];
    assert sorted == low + high;
    AtMostSplits(low, high, w);
    forall i | 0 <= i < |high| ensures high[i] > w {
      if i > 0 { assert Leq(sorted[rank - 1], sorted[rank - 1 + i]); }
    }
    AtMostNone(high, w);
    CountsAtMostAll(low, w);
  }

  lemma {:induction false} CountsAtMostAll(values: seq<int>, v: int)
    ensures AtMost(values, v) <= |values|
  {
    if values != [] {
      CountsAtMostAll(values[..|values| - 1], v);
    }
  }

  method NearestRankPercentile(values: seq<int>, percentile: int) returns (r: Option<int>)
    ensures r.Some? <==> values != [] && 1 <= percentile <= 100
    ensures r.Some? ==> IsPercentile(values, percentile, r.value)
  {
    if values == [] {
      return None;
    }
    if percentile < 1 || percentile > 100 {
      return None;
    }
    var sorted := Sort(values, Leq);
    assert |sorted| == |values| by { assert |multiset(sorted)| == |sorted| && |multiset(values)| == |values|; }
    var rank := (percentile * |sorted| + 99) / 100;
    RankFits(percentile, |sorted|, rank);
    RanksInOrder(sorted, rank);
    SortedPercentile(values, sorted, percentile, rank);
    r := Some(sorted[rank - 1]);
  }

  /** The rank is the least number of values that makes the percentage. */
  lemma RankFits(percentile: int, n: nat, rank: int)
    requires 1 <= percentile <= 100 && n > 0 && rank == (percentile * n + 99) / 100
    ensures 1 <= rank <= n && percentile * n <= rank * 100 < percentile * n + 100
  {
    assert percentile * n >= n;
    assert percentile * n <= 100 * n;
  }

  lemma SortedPercentile(values: seq<int>, sorted: seq<int>, percentile: int, rank: nat)
    requires multiset(sorted) == multiset(values) && |sorted| == |values| && 1 <= rank <= |sorted|
    requires percentile * |values| <= rank * 100 < percentile * |values| + 100
    requires AtMost(sorted, sorted[rank - 1]) >= rank
    requires forall w :: w < sorted[rank - 1] ==> AtMost(sorted, w) < rank
    ensures IsPercentile(values, percentile, sorted[rank - 1])
  {
    hide AtMost;
    var v := sorted[rank - 1];
    assert v in multiset(sorted);
    AtMostRearranges(sorted, values, v);
    forall w | w in values && w < v ensures AtMost(values, w) * 100 < percentile * |values| {
      AtMostRearranges(sorted, values, w);
      assert AtMost(sorted, w) <= rank - 1;
    }
  }

  /** A percentile is determined by the values alone, in whatever order they come. */
  lemma PercentilesIgnoreOrder(a: seq<int>, b: seq<int>, percentile: int, v: int, w: int)
    requires multiset(a) == multiset(b) && IsPercentile(a, percentile, v) && IsPercentile(b, percentile, w)
    ensures v == w
  {
    hide AtMost;
    assert |a| == |b| by { assert |multiset(a)| == |a| && |multiset(b)| == |b|; }
    AtMostRearranges(a, b, v);
    AtMostRearranges(a, b, w);
    assert v in multiset(a) && w in multiset(b);
    assert v in b && w in a;
  }

  // ---- The evaluation ----

  datatype Evaluation = Evaluation(coldP95: int, hotP95: int, coldSamples: nat, hotSamples: nat, unclassifiedSamples: nat)

  /** The percentile of the latencies, or zero if there are none. */
  ghost predicate Summarizes(latencies: seq<int>, p95: int) {
    if latencies == [] then p95 == 0 else IsPercentile(latencies, 95, p95)
  }

  /** What the evaluation says about the samples. */
  ghost predicate Evaluates(protocol: Protocol, samples: seq<Sample>, e: Evaluation) {
    && Summarizes(Latencies(protocol, SetOf(samples), samples, Cold), e.coldP95)
    && Summarizes(Latencies(protocol, SetOf(samples), samples, Hot), e.hotP95)
    && e.coldSamples == |Latencies(protocol, SetOf(samples), samples, Cold)|
    && e.hotSamples == |Latencies(protocol, SetOf(samples), samples, Hot)|
    && e.unclassifiedSamples == |Latencies(protocol, SetOf(samples), samples, Unclassified)|
  }

  /** The temperature part of the evaluation; requireBoth: the plan asks for cold and hot samples. */
  method Evaluate(protocol: Protocol, samples: seq<Sample>, requireBoth: bool) returns (r: Option<Evaluation>)
    requires forall sample :: sample in samples ==> sample.Valid()
    ensures r.Some? ==> NoOverlap(multiset(samples)) && Evaluates(protocol, samples, r.value)
    ensures r.Some? ==> r.value.coldSamples + r.value.hotSamples + r.value.unclassifiedSamples == |samples|
    ensures r.Some? <==>
      && NoOverlap(multiset(samples))
      && (requireBoth ==> Latencies(protocol, SetOf(samples), samples, Cold) != []
                          && Latencies(protocol, SetOf(samples), samples, Hot) != [])
  {
    hide Latencies, NoOverlap, IsPercentile, SetOf;
    var derived := DeriveTemperatureLatencies(protocol, samples);
    if derived.None? {
      return None;
    }
    var (cold, hot, unclassified) := derived.value;
    ghost var all := SetOf(samples);
    SizesAdd(cold, Latencies(protocol, all, samples, Cold), []);
    SizesAdd(hot, Latencies(protocol, all, samples, Hot), []);
    EverySampleCountsOnce(protocol, all, samples);
    if requireBoth && (cold == [] || hot == []) {
      return None;
    }
    var coldP95 := NearestRankPercentile(cold, 95);
    var hotP95 := NearestRankPercentile(hot, 95);
    SummariesIgnoreOrder(cold, Latencies(protocol, all, samples, Cold), coldP95);
    SummariesIgnoreOrder(hot, Latencies(protocol, all, samples, Hot), hotP95);
    r := Some(Evaluation(if coldP95.Some? then coldP95.value else 0, if hotP95.Some? then hotP95.value else 0,
                         |cold|, |hot|, unclassified));
  }

  lemma SummariesIgnoreOrder(a: seq<int>, b: seq<int>, p95: Option<int>)
    requires multiset(a) == multiset(b)
    requires p95.Some? <==> a != []
    requires p95.Some? ==> IsPercentile(a, 95, p95.value)
    ensures Summarizes(b, if p95.Some? then p95.value else 0)
  {
    assert |a| == |b| by { assert |multiset(a)| == |a| && |multiset(b)| == |b|; }
    if p95.Some? {
      var v := p95.value;
      assert v in multiset(a);
      hide AtMost;
      AtMostRearranges(a, b, v);
      forall w | w in b && w < v ensures AtMost(b, w) * 100 < 95 * |b| {
        assert w in multiset(b);
        AtMostRearranges(a, b, w);
      }
    }
  }

  /** The same evidence in any order, grouped and iterated in any order, has one evaluation. */
  lemma EvidenceOrderDoesNotMatter(protocol: Protocol, a: seq<Sample>, b: seq<Sample>, e: Evaluation, f: Evaluation)
    requires multiset(a) == multiset(b) && Evaluates(protocol, a, e) && Evaluates(protocol, b, f)
    ensures e == f
  {
    assert SetOf(a) == SetOf(b) by {
      forall x ensures x in a <==> x in b {
        assert x in a <==> x in multiset(a);
        assert x in b <==> x in multiset(b);
      }
    }
    hide Latencies, SetOf, IsPercentile;
    var all := SetOf(a);
    forall temperature ensures multiset(Latencies(protocol, all, a, temperature)) == multiset(Latencies(protocol, all, b, temperature)) {
      LatenciesRearrange(protocol, all, a, b, temperature);
    }
    SizesAdd(Latencies(protocol, all, a, Cold), Latencies(protocol, all, b, Cold), []);
    SizesAdd(Latencies(protocol, all, a, Hot), Latencies(protocol, all, b, Hot), []);
    SizesAdd(Latencies(protocol, all, a, Unclassified), Latencies(protocol, all, b, Unclassified), []);
    if e.coldSamples > 0 {
      PercentilesIgnoreOrder(Latencies(protocol, all, a, Cold), Latencies(protocol, all, b, Cold), 95, e.coldP95, f.coldP95);
    }
    if e.hotSamples > 0 {
      PercentilesIgnoreOrder(Latencies(protocol, all, a, Hot), Latencies(protocol, all, b, Hot), 95, e.hotP95, f.hotP95);
    }
  }
}
