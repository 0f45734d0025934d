/** Projection barriers: sorted partition vectors, their canonical bytes and their comparison. */
module Barriers {
  import opened Common
  import NulText
  import opened JavaText
  import opened Framing
  import opened Sorting

  const MAX_BARRIER_PARTITIONS := 1_024

  datatype Partition = Partition(topic: Text, partition: int, requiredNextOffset: int)

  datatype Barrier = Barrier(barrierVersion: int, barrierId: Text, installationId: Text, queryId: Text, queryDefinitionVersion: int,
                             projectionTopologyVersion: int, routingVersion: int, partitionSetChecksum: Checksum, capturedAt: int,
                             partitions: seq<Partition>, barrierChecksum: Checksum)

  predicate SamePlace(a: Partition, b: Partition) {
    a.topic == b.topic && a.partition == b.partition
  }

  predicate Distinct(ps: seq<Partition>) {
    forall i, j :: 0 <= i < j < |ps| ==> !SamePlace(ps[i], ps[j])
  }

  // ---------------------------------------------------------------------------------------
  // The constructor
  // ---------------------------------------------------------------------------------------

  /** By topic in UTF-16 order, then by partition. */
  function PartitionLe(a: Partition, b: Partition): bool {
    if a.topic == b.topic then a.partition <= b.partition else LexLe(a.topic, b.topic)
  }

  lemma PartitionOrder()
    ensures Preorder(PartitionLe)
    ensures forall a, b :: PartitionLe(a, b) && PartitionLe(b, a) ==> SamePlace(a, b)
  {
    hide LexLe;
    forall a, b ensures PartitionLe(a, b) || PartitionLe(b, a) ensures PartitionLe(a, b) && PartitionLe(b, a) ==> SamePlace(a, b) {
      LexOrder(a.topic, b.topic, []);
    }
    forall a, b, c | PartitionLe(a, b) && PartitionLe(b, c) ensures PartitionLe(a, c) {
      LexOrder(a.topic, b.topic, c.topic);
      LexOrder(b.topic, c.topic, []);
    }
  }

  datatype Vector = Sorted(partitions: seq<Partition>) | OutOfBounds | Duplicate

  lemma AdjacentSuffices(ps: seq<Partition>)
    requires Ascending(ps, PartitionLe)
    ensures Distinct(ps) <==> forall i :: 1 <= i < |ps| ==> !SamePlace(ps[i - 1], ps[i])
  {
    hide PartitionLe;
    PartitionOrder();
    if forall i :: 1 <= i < |ps| ==> !SamePlace(ps[i - 1], ps[i]) {
      forall i, j | 0 <= i < j < |ps| ensures !SamePlace(ps[i], ps[j]) {
        assert PartitionLe(ps[i], ps[i + 1]) && !SamePlace(ps[i + 1 - 1], ps[i + 1]);
        assert i + 1 < j ==> PartitionLe(ps[i + 1], ps[j]);
        if SamePlace(ps[i], ps[j]) {
          SamePlaceOrder(ps[i], ps[j], ps[i + 1]);
        }
      }
    }
  }

  lemma SamePlaceOrder(a: Partition, b: Partition, c: Partition)
    requires SamePlace(a, b)
    ensures PartitionLe(c, b) == PartitionLe(c, a)
  {
  }

  lemma DistinctOfPermutation(xs: seq<Partition>, ys: seq<Partition>)
    requires multiset(xs) == multiset(ys) && Distinct(xs)
    ensures Distinct(ys)
  {
    forall i, j | 0 <= i < j < |ys| ensures !SamePlace(ys[i], ys[j]) {
      var a, b := PairOfPermutation(xs, ys, i, j);
    }
  }

  /** Sorting first makes the adjacent check find every duplicate. */
  method SortPartitions(given: seq<Partition>) returns (r: Vector)
    ensures r == OutOfBounds <==> !(1 <= |given| <= MAX_BARRIER_PARTITIONS)
    ensures r == Duplicate <==> 1 <= |given| <= MAX_BARRIER_PARTITIONS && !Distinct(given)
    ensures r.Sorted? ==> Distinct(r.partitions) && Ascending(r.partitions, PartitionLe) && multiset(r.partitions) == multiset(given)
  {
    hide Sort, PartitionLe;
    var partitions := Sort(given, PartitionLe);
    PartitionOrder();
    SortSorts(given, PartitionLe);
    if partitions == [] || |partitions| > MAX_BARRIER_PARTITIONS {
      return OutOfBounds;
    }
    AdjacentSuffices(partitions);
    assert Distinct(given) <==> Distinct(partitions) by {
      if Distinct(given) { DistinctOfPermutation(given, partitions); }
      if Distinct(partitions) { DistinctOfPermutation(partitions, given); }
    }
    for index := 1 to |partitions|
      invariant forall i :: 1 <= i < index ==> !SamePlace(partitions[i - 1], partitions[i])
    {
      var previous, current := partitions[index - 1], partitions[index];
      if previous.topic == current.topic && previous.partition == current.partition {
        return Duplicate;
      }
    }
    return Sorted(partitions);
  }

  /** The stored order does not depend on the order given. */
  lemma {:induction false} VectorIsCanonical(xs: seq<Partition>, ys: seq<Partition>)
    requires Distinct(xs) && Ascending(xs, PartitionLe) && Ascending(ys, PartitionLe)
    ensures xs == ys <==> multiset(xs) == multiset(ys)
  {
    hide PartitionLe;
    PartitionOrder();
    if multiset(xs) == multiset(ys) {
      assert Strict(xs, PartitionLe);
      OrderedIsUnique(xs, ys, PartitionLe);
    }
  }

  // ---------------------------------------------------------------------------------------
  // Comparison keys
  // ---------------------------------------------------------------------------------------

  function Units(s: string): (t: Text)
    requires forall i :: 0 <= i < |s| ==> '0' <= s[i] <= '9'
    ensures |t| == |s| && forall i :: 0 <= i < |t| ==> t[i] == s[i] as int
  {
    seq(|s|, i requires 0 <= i < |s| => s[i] as int)
  }

  /** `topic + '\0' + partition`. */
  function Key(topic: Text, partition: nat): Text {
    topic + [0] + Units(NulText.Digits(partition))
  }

  /** The key determines topic and partition, for topics with NULs too. */
  lemma {:induction false} KeyInjective(t: Text, p: nat, u: Text, q: nat)
    ensures Key(t, p) == Key(u, q) <==> t == u && p == q
  {
    hide NulText.Digits;
    if Key(t, p) == Key(u, q) {
      LastNul(t, Units(NulText.Digits(p)), u, Units(NulText.Digits(q)));
      UnitsInjective(NulText.Digits(p), NulText.Digits(q));
      NulText.DigitsRoundTrip(p);
      NulText.DigitsRoundTrip(q);
    }
  }

  /** The last NUL splits a text in one way only. */
  lemma LastNul(t: Text, d: Text, u: Text, e: Text)
    requires t + [0] + d == u + [0] + e
    requires (forall i :: 0 <= i < |d| ==> d[i] != 0) && forall i :: 0 <= i < |e| ==> e[i] != 0
    ensures t == u && d == e
  {
    var k, l := t + [0] + d, u + [0] + e;
    assert k[|t|] == 0 && forall i :: |t| < i < |k| ==> k[i] == d[i - |t| - 1];
    assert l[|u|] == 0 && forall i :: |u| < i < |l| ==> l[i] == e[i - |u| - 1];
    assert |t| == |u|;
    assert k[..|t|] == t && l[..|u|] == u && k[|t| + 1..] == d && l[|u| + 1..] == e;
  }

  lemma UnitsInjective(s: string, r: string)
    requires (forall i :: 0 <= i < |s| ==> '0' <= s[i] <= '9') && forall i :: 0 <= i < |r| ==> '0' <= r[i] <= '9'
    requires Units(s) == Units(r)
    ensures s == r
  {
    forall i | 0 <= i < |s| ensures s[i] == r[i] {
      assert Units(s)[i] == Units(r)[i];
    }
  }

  // ---------------------------------------------------------------------------------------
  // Comparison
  // ---------------------------------------------------------------------------------------

  datatype Result = EQUAL | ADVANCED | INCOMPARABLE | CONFLICT

  predicate SameVersions(a: Barrier, b: Barrier) {
    && a.barrierVersion == b.barrierVersion && a.queryDefinitionVersion == b.queryDefinitionVersion
    && a.projectionTopologyVersion == b.projectionTopologyVersion && a.routingVersion == b.routingVersion
  }

  ghost predicate Covered(ps: seq<Partition>, p: Partition) {
    exists q :: q in ps && SamePlace(p, q)
  }

  ghost predicate AllCovered(a: seq<Partition>, b: seq<Partition>) {
    forall p :: p in a ==> Covered(b, p)
  }

  ghost predicate SamePartitions(a: seq<Partition>, b: seq<Partition>) {
    AllCovered(a, b) && AllCovered(b, a)
  }

  /** No partition lies behind. */
  ghost predicate Dominated(a: seq<Partition>, b: seq<Partition>) {
    forall p, q :: p in a && q in b && SamePlace(p, q) ==> p.requiredNextOffset <= q.requiredNextOffset
  }

  /** Some partition is ahead. */
  ghost predicate Ahead(a: seq<Partition>, b: seq<Partition>) {
    exists p, q :: p in a && q in b && SamePlace(p, q) && p.requiredNextOffset < q.requiredNextOffset
  }

  /** Component-wise comparison, stated on the partitions themselves. */
  ghost function Comparison(a: Barrier, b: Barrier): Result {
    if !SameVersions(a, b) || !SamePartitions(a.partitions, b.partitions) then INCOMPARABLE
    else if !Dominated(a.partitions, b.partitions) then CONFLICT
    else if Ahead(a.partitions, b.partitions) then ADVANCED
    else EQUAL
  }

  /** What the constructors of partition and barrier guarantee. */
  predicate ValidVector(ps: seq<Partition>) {
    Distinct(ps) && forall i :: 0 <= i < |ps| ==> ps[i].partition >= 0
  }

  function KeyOf(p: Partition): Text
    requires p.partition >= 0
  {
    Key(p.topic, p.partition)
  }

  ghost predicate Keyed(ps: seq<Partition>, k: Text)
    requires ValidVector(ps)
  {
    exists i :: 0 <= i < |ps| && KeyOf(ps[i]) == k
  }

  /** The offsets by key hold every partition once, and nothing else. */
  ghost predicate Represents(values: map<Text, int>, ps: seq<Partition>)
    requires ValidVector(ps)
  {
    && (forall i :: 0 <= i < |ps| ==> KeyOf(ps[i]) in values && values[KeyOf(ps[i])] == ps[i].requiredNextOffset)
    && (forall k :: k in values ==> Keyed(ps, k))
  }

  lemma KeyOfInjective(p: Partition, q: Partition)
    requires p.partition >= 0 && q.partition >= 0
    ensures KeyOf(p) == KeyOf(q) <==> SamePlace(p, q)
  {
    KeyInjective(p.topic, p.partition, q.topic, q.partition);
  }

  lemma OnePut(values: map<Text, int>, ps: seq<Partition>, i: nat)
    requires ValidVector(ps) && i < |ps| && Represents(values, ps[..i])
    ensures Represents(values[KeyOf(ps[i]) := ps[i].requiredNextOffset], ps[..i + 1])
  {
    hide KeyOf;
    var after := values[KeyOf(ps[i]) := ps[i].requiredNextOffset];
    forall j | 0 <= j < i + 1 ensures KeyOf(ps[j]) in after && after[KeyOf(ps[j])] == ps[j].requiredNextOffset {
      KeyOfInjective(ps[j], ps[i]);
      assert j < i ==> ps[..i][j] == ps[j];
    }
    forall k | k in after ensures Keyed(ps[..i + 1], k) {
      if k in values {
        assert Keyed(ps[..i], k);
        var j :| 0 <= j < i && KeyOf(ps[..i][j]) == k;
        assert ps[..i + 1][j] == ps[..i][j];
      } else {
        assert ps[..i + 1][i] == ps[i];
      }
    }
  }

  method Offsets(ps: seq<Partition>) returns (values: map<Text, int>)
    requires ValidVector(ps)
    ensures Represents(values, ps)
  {
    hide Represents;
    values := map[];
    NothingPut(ps);
    for i := 0 to |ps|
      invariant Represents(values, ps[..i])
    {
      OnePut(values, ps, i);
      values := values[KeyOf(ps[i]) := ps[i].requiredNextOffset];
    }
    assert ps[..|ps|] == ps;
  }

  lemma NothingPut(ps: seq<Partition>)
    requires ValidVector(ps)
    ensures Represents(map[], ps[..0])
  {
  }

  /** The entry of a partition, and the partition of an entry. */
  lemma EntryOf(x: map<Text, int>, a: seq<Partition>, p: Partition)
    requires ValidVector(a) && Represents(x, a) && p in a
    ensures p.partition >= 0 && KeyOf(p) in x && x[KeyOf(p)] == p.requiredNextOffset
  {
    hide KeyOf;
    var i :| 0 <= i < |a| && a[i] == p;
  }

  lemma PartitionAt(x: map<Text, int>, a: seq<Partition>, k: Text) returns (p: Partition)
    requires ValidVector(a) && Represents(x, a) && k in x
    ensures p in a && p.partition >= 0 && KeyOf(p) == k && x[k] == p.requiredNextOffset
  {
    hide KeyOf;
    assert Keyed(a, k);
    var i :| 0 <= i < |a| && KeyOf(a[i]) == k;
    p := a[i];
  }

  lemma SameKey(p: Partition, q: Partition)
    requires SamePlace(p, q) && p.partition >= 0
    ensures KeyOf(p) == KeyOf(q)
  {
  }

  /** The keys of one map are keys of the other exactly when its partitions are covered. */
  lemma KeysMatch(x: map<Text, int>, a: seq<Partition>, y: map<Text, int>, b: seq<Partition>)
    requires ValidVector(a) && ValidVector(b) && Represents(x, a) && Represents(y, b)
    ensures x.Keys <= y.Keys <==> AllCovered(a, b)
  {
    hide KeyOf, Represents, ValidVector;
    if x.Keys <= y.Keys {
      forall p | p in a ensures Covered(b, p) {
        EntryOf(x, a, p);
        var q := PartitionAt(y, b, KeyOf(p));
        KeyOfInjective(p, q);
      }
    }
    if AllCovered(a, b) {
      forall k | k in x ensures k in y {
        var p := PartitionAt(x, a, k);
        var q := CoverOf(a, b, p);
        EntryOf(y, b, q);
        SameKey(p, q);
      }
    }
  }

  /** Offsets of one place are found under one key. */
  lemma ValuesMatch(x: map<Text, int>, a: seq<Partition>, y: map<Text, int>, b: seq<Partition>)
    requires ValidVector(a) && ValidVector(b) && Represents(x, a) && Represents(y, b) && x.Keys == y.Keys
    ensures Dominated(a, b) <==> forall k :: k in x ==> x[k] <= y[k]
    ensures Ahead(a, b) <==> exists k :: k in x && x[k] < y[k]
  {
    hide KeyOf, Represents, ValidVector;
    forall p, q | p in a && q in b && SamePlace(p, q)
      ensures exists k :: k in x && x[k] == p.requiredNextOffset && y[k] == q.requiredNextOffset
    {
      EntryOf(x, a, p);
      EntryOf(y, b, q);
      SameKey(p, q);
    }
    forall k | k in x ensures OffsetsAt(a, b, x[k], y[k]) {
      var p := PartitionAt(x, a, k);
      var q := PartitionAt(y, b, k);
      KeyOfInjective(p, q);
    }
  }

  /** Some place has these offsets in the two vectors. */
  ghost predicate OffsetsAt(a: seq<Partition>, b: seq<Partition>, m: int, n: int) {
    exists p, q :: p in a && q in b && SamePlace(p, q) && p.requiredNextOffset == m && q.requiredNextOffset == n
  }

  method Compare(previous: Barrier, next: Barrier) returns (r: Result)
    requires ValidVector(previous.partitions) && ValidVector(next.partitions)
    ensures r == Comparison(previous, next)
  {
    hide Represents, Dominated, Ahead, Covered;
    if !SameVersions(previous, next) {
      return INCOMPARABLE;
    }
    var oldOffsets := Offsets(previous.partitions);
    var newOffsets := Offsets(next.partitions);
    KeysMatch(oldOffsets, previous.partitions, newOffsets, next.partitions);
    KeysMatch(newOffsets, next.partitions, oldOffsets, previous.partitions);
    if oldOffsets.Keys != newOffsets.Keys {
      return INCOMPARABLE;
    }
    ValuesMatch(oldOffsets, previous.partitions, newOffsets, next.partitions);
    var advanced := false;
    var entries := oldOffsets.Keys;
    while entries != {}
      invariant entries <= oldOffsets.Keys
      invariant forall k :: k in oldOffsets && k !in entries ==> oldOffsets[k] <= newOffsets[k]
      invariant advanced <==> exists k :: k in oldOffsets && k !in entries && oldOffsets[k] < newOffsets[k]
    {
      var key :| key in entries;
      var nextOffset := newOffsets[key];
      if nextOffset < oldOffsets[key] {
        return CONFLICT;
      }
      advanced := advanced || nextOffset > oldOffsets[key];
      entries := entries - {key};
    }
    return if advanced then ADVANCED else EQUAL;
  }

  // ---------------------------------------------------------------------------------------
  // The order
  // ---------------------------------------------------------------------------------------

  /** A consumer of barriers may move from `a` to `b`. */
  ghost predicate AtLeast(a: Barrier, b: Barrier) {
    Comparison(a, b) == EQUAL || Comparison(a, b) == ADVANCED
  }

  lemma OnePerPlace(ps: seq<Partition>, p: Partition, q: Partition)
    requires Distinct(ps) && p in ps && q in ps && SamePlace(p, q)
    ensures p == q
  {
  }

  lemma {:induction false} Reflexive(a: Barrier)
    requires Distinct(a.partitions)
    ensures Comparison(a, a) == EQUAL
  {
    hide Distinct;
    forall p, q | p in a.partitions && q in a.partitions && SamePlace(p, q) ensures p == q {
      OnePerPlace(a.partitions, p, q);
    }
  }

  lemma CoverOf(a: seq<Partition>, b: seq<Partition>, p: Partition) returns (q: Partition)
    requires AllCovered(a, b) && p in a
    ensures q in b && SamePlace(p, q)
  {
    hide SamePlace;
    assert Covered(b, p);
    q :| q in b && SamePlace(p, q);
  }

  lemma NotBehind(a: seq<Partition>, b: seq<Partition>, p: Partition, q: Partition)
    requires Dominated(a, b) && p in a && q in b && SamePlace(p, q)
    ensures p.requiredNextOffset <= q.requiredNextOffset
  {
    hide SamePlace;
  }

  lemma IsAhead(a: seq<Partition>, b: seq<Partition>, p: Partition, q: Partition)
    requires p in a && q in b && SamePlace(p, q) && p.requiredNextOffset < q.requiredNextOffset
    ensures Ahead(a, b)
  {
    hide SamePlace;
  }

  lemma AheadAt(a: seq<Partition>, b: seq<Partition>) returns (p: Partition, q: Partition)
    requires Ahead(a, b)
    ensures p in a && q in b && SamePlace(p, q) && p.requiredNextOffset < q.requiredNextOffset
  {
    hide SamePlace;
    p, q :| p in a && q in b && SamePlace(p, q) && p.requiredNextOffset < q.requiredNextOffset;
  }

  lemma DominatesUnlessAhead(a: seq<Partition>, b: seq<Partition>)
    ensures Dominated(a, b) <==> !Ahead(b, a)
  {
    hide SamePlace;
    forall p, q ensures SamePlace(p, q) == SamePlace(q, p) {
      SamePlaceSymmetric(p, q);
    }
  }

  lemma SamePlaceSymmetric(p: Partition, q: Partition)
    ensures SamePlace(p, q) == SamePlace(q, p)
  {
  }

  lemma SameOffsets(a: seq<Partition>, b: seq<Partition>, p: Partition)
    requires AllCovered(a, b) && Dominated(a, b) && !Ahead(a, b) && p in a
    ensures p in b
  {
    hide AllCovered, Dominated, Ahead;
    var q := CoverOf(a, b, p);
    NotBehind(a, b, p, q);
    if p.requiredNextOffset < q.requiredNextOffset {
      IsAhead(a, b, p, q);
    }
    assert p == q;
  }

  /** Barriers that reach each other are equal, and equal ones hold the same offsets. */
  lemma {:induction false} Antisymmetric(a: Barrier, b: Barrier)
    ensures AtLeast(a, b) && AtLeast(b, a) <==> Comparison(a, b) == EQUAL
    ensures Comparison(a, b) == EQUAL <==> Comparison(b, a) == EQUAL
    ensures Comparison(a, b) == EQUAL ==> forall p :: p in a.partitions <==> p in b.partitions
  {
    hide Dominated, Ahead, Covered;
    var x, y := a.partitions, b.partitions;
    DominatesUnlessAhead(x, y);
    DominatesUnlessAhead(y, x);
    if Comparison(a, b) == EQUAL {
      forall p | p in x ensures p in y {
        SameOffsets(x, y, p);
      }
      forall p | p in y ensures p in x {
        SameOffsets(y, x, p);
      }
    }
  }

  /** The order is transitive, and one step ahead stays ahead. */
  lemma {:induction false} Transitive(a: Barrier, b: Barrier, c: Barrier)
    requires AtLeast(a, b) && AtLeast(b, c)
    ensures Comparison(a, c) == if Comparison(a, b) == EQUAL && Comparison(b, c) == EQUAL then EQUAL else ADVANCED
  {
    hide Dominated, Ahead, Covered;
    var x, y, z := a.partitions, b.partitions, c.partitions;
    CoveredThrough(x, y, z);
    CoveredThrough(z, y, x);
    AheadThrough(x, y, z);
  }

  lemma CoveredThrough(a: seq<Partition>, b: seq<Partition>, c: seq<Partition>)
    requires AllCovered(a, b) && AllCovered(b, c)
    ensures AllCovered(a, c)
  {
    hide AllCovered;
    assert AllCovered(a, c) by {
      forall p | p in a ensures Covered(c, p) {
        var q := CoverOf(a, b, p);
        var r := CoverOf(b, c, q);
        assert SamePlace(p, r);
      }
      CoversAll(a, c);
    }
  }

  lemma CoversAll(a: seq<Partition>, b: seq<Partition>)
    requires forall p :: p in a ==> Covered(b, p)
    ensures AllCovered(a, b)
  {
    hide Covered;
  }

  lemma AheadThrough(a: seq<Partition>, b: seq<Partition>, c: seq<Partition>)
    requires AllCovered(a, b) && AllCovered(b, a) && AllCovered(b, c) && AllCovered(c, b)
    requires Dominated(a, b) && Dominated(b, c)
    ensures Dominated(a, c) && (Ahead(a, c) <==> Ahead(a, b) || Ahead(b, c))
  {
    hide AllCovered, Dominated, Ahead;
    if Ahead(a, b) {
      var p, q := AheadAt(a, b);
      var r := CoverOf(b, c, q);
      NotBehind(b, c, q, r);
      IsAhead(a, c, p, r);
    }
    if Ahead(b, c) {
      var q, r := AheadAt(b, c);
      var p := CoverOf(b, a, q);
      NotBehind(a, b, p, q);
      IsAhead(a, c, p, r);
    }
    if Ahead(a, c) {
      var p, r := AheadAt(a, c);
      var q := CoverOf(a, b, p);
      if p.requiredNextOffset < q.requiredNextOffset {
        IsAhead(a, b, p, q);
      } else {
        IsAhead(b, c, q, r);
      }
    }
    DominatesUnlessAhead(a, c);
    if Ahead(c, a) {
      var r, p := AheadAt(c, a);
      var q := CoverOf(a, b, p);
      NotBehind(a, b, p, q);
      NotBehind(b, c, q, r);
    }
  }

  /** Every barrier was accepted after the one before it. */
  ghost predicate Chain(bs: seq<Barrier>) {
    && (forall i :: 0 <= i < |bs| ==> Distinct(bs[i].partitions))
    && forall i :: 1 <= i < |bs| ==> AtLeast(bs[i - 1], bs[i])
  }

  ghost predicate Advances(bs: seq<Barrier>, k: int) {
    1 <= k < |bs| && Comparison(bs[k - 1], bs[k]) == ADVANCED
  }

  /** A chain of accepted barriers never regresses between any two of its members, and has advanced
      between them exactly when some step on the way did. */
  lemma {:induction false} ChainsNeverRegress(bs: seq<Barrier>, i: nat, j: nat)
    requires Chain(bs) && i <= j < |bs|
    ensures AtLeast(bs[i], bs[j])
    ensures Comparison(bs[i], bs[j]) == ADVANCED <==> exists k :: i < k <= j && Advances(bs, k)
    decreases j
  {
    hide Comparison, Distinct;
    if i == j {
      Reflexive(bs[i]);
    } else {
      ChainsNeverRegress(bs, i, j - 1);
      assert AtLeast(bs[j - 1], bs[j]);
      Transitive(bs[i], bs[j - 1], bs[j]);
      assert Comparison(bs[j - 1], bs[j]) == ADVANCED <==> Advances(bs, j);
    }
  }

  // ---------------------------------------------------------------------------------------
  // Canonical bytes
  // ---------------------------------------------------------------------------------------

  function HeadItems(b: Barrier): seq<Item> {
    [ Int32(b.barrierVersion), TextItem(b.barrierId), TextItem(b.installationId), TextItem(b.queryId), Int32(b.queryDefinitionVersion),
      Int64(b.projectionTopologyVersion), Int64(b.routingVersion), Block(b.partitionSetChecksum), Int32(|b.partitions|) ]
  }

  function PartitionItems(ps: seq<Partition>): (items: seq<Item>)
    ensures |items| == 3 * |ps|
  {
    if ps == [] then []
    else
      var p := ps[|ps| - 1];
      PartitionItems(ps[..|ps| - 1]) + [TextItem(p.topic)] + [Int32(p.partition)] + [Int64(p.requiredNextOffset)]
  }

  function BarrierBytes(b: Barrier): seq<Byte> {
    WriteItems(HeadItems(b) + PartitionItems(b.partitions))
  }

  method PutHead(b: Barrier, output: DataOutput)
    requires output.Valid() && output.items == []
    modifies output
    ensures output.Valid() && output.items == HeadItems(b)
  {
    hide WriteItems, TextItem;
    output.PutInt(b.barrierVersion);
    output.PutText(b.barrierId);
    output.PutText(b.installationId);
    output.PutText(b.queryId);
    output.PutInt(b.queryDefinitionVersion);
    output.PutLong(b.projectionTopologyVersion);
    output.PutLong(b.routingVersion);
    output.PutBytes(b.partitionSetChecksum);
    output.PutInt(|b.partitions|);
  }

  method CanonicalBytes(b: Barrier) returns (bytes: seq<Byte>)
    ensures bytes == BarrierBytes(b)
  {
    hide WriteItems, TextItem, HeadItems;
    var output := new DataOutput();
    PutHead(b, output);
    for i := 0 to |b.partitions|
      invariant output.Valid() && output.items == HeadItems(b) + PartitionItems(b.partitions[..i])
    {
      output.PutText(b.partitions[i].topic);
      output.PutInt(b.partitions[i].partition);
      output.PutLong(b.partitions[i].requiredNextOffset);
      assert b.partitions[..i + 1][..i] == b.partitions[..i];
    }
    assert b.partitions[..|b.partitions|] == b.partitions;
    return output.bytes;
  }

  // ---------------------------------------------------------------------------------------
  // Decoding
  // ---------------------------------------------------------------------------------------

  function HeadKinds(): seq<Kind> {
    [OfInt32, OfBlock, OfBlock, OfBlock, OfInt32, OfInt64, OfInt64, OfBlock, OfInt32]
  }

  function PartitionKinds(n: nat): (kinds: seq<Kind>)
    ensures |kinds| == 3 * n
  {
    if n == 0 then [] else PartitionKinds(n - 1) + [OfBlock] + [OfInt32] + [OfInt64]
  }

  predicate IsPlace(topic: Item, partition: Item, offset: Item) {
    IsText(topic) && partition.Int32? && offset.Int64?
  }

  function PlacesOf(items: seq<Item>): Option<seq<Partition>>
    requires |items| % 3 == 0
  {
    if items == [] then Some([])
    else
      var n := |items|;
      var front := PlacesOf(items[..n - 3]);
      if front.None? || !IsPlace(items[n - 3], items[n - 2], items[n - 1]) then None
      else Some(front.value + [Partition(TextOf(items[n - 3]), items[n - 2].n, items[n - 1].n)])
  }

  /** The fields the bytes hold. */
  datatype Fields = Fields(barrierVersion: int, barrierId: Text, installationId: Text, queryId: Text, queryDefinitionVersion: int,
                             projectionTopologyVersion: int, routingVersion: int, partitionSetChecksum: seq<Byte>,
                             partitions: seq<Partition>)

  function Assemble(head: seq<Item>, places: seq<Partition>): Option<Fields>
    requires KindsOf(head) == HeadKinds()
  {
    assert forall i :: 0 <= i < 9 ==> KindOf(head[i]) == HeadKinds()[i];
    if !IsText(head[1]) || !IsText(head[2]) || !IsText(head[3]) then None
    else Some(Fields(head[0].n, TextOf(head[1]), TextOf(head[2]), TextOf(head[3]), head[4].n, head[5].n, head[6].n, head[7].bytes, places))
  }

  /** Reads a barrier back from its canonical bytes. */
  function Decode(b: seq<Byte>): Option<Fields> {
    var head := ReadItems(HeadKinds(), b);
    if head.None? then None
    else
      assert KindOf(head.value.0[8]) == KindsOf(head.value.0)[8] == OfInt32;
      var count := head.value.0[8].n;
      if count < 0 then None
      else
        var items := ReadItems(PartitionKinds(count), head.value.1);
        if items.None? || items.value.1 != [] then None
        else
          var places := PlacesOf(items.value.0);
          if places.None? then None else Assemble(head.value.0, places.value)
  }

  function CleanPlaces(ps: seq<Partition>): (r: seq<Partition>)
    ensures |r| == |ps| && forall i :: 0 <= i < |ps| ==> r[i] == ps[i].(topic := Replaced(ps[i].topic))
  {
    seq(|ps|, i requires 0 <= i < |ps| => ps[i].(topic := Replaced(ps[i].topic)))
  }

  /** What a reader of the bytes should get: every field but capture time and barrier checksum, with
      unpaired surrogates replaced. */
  function FieldsOf(b: Barrier): Fields {
    Fields(b.barrierVersion, Replaced(b.barrierId), Replaced(b.installationId), Replaced(b.queryId), b.queryDefinitionVersion,
            b.projectionTopologyVersion, b.routingVersion, b.partitionSetChecksum, CleanPlaces(b.partitions))
  }

  lemma {:induction false} PlacesRoundTrip(ps: seq<Partition>)
    ensures PlacesOf(PartitionItems(ps)) == Some(CleanPlaces(ps)) && KindsOf(PartitionItems(ps)) == PartitionKinds(|ps|)
  {
    hide TextItem, IsText, TextOf, Replaced;
    if ps != [] {
      var n := |ps| - 1;
      PlacesRoundTrip(ps[..n]);
      ReadsAsText(ps[n].topic);
      var items := PartitionItems(ps);
      assert items[..3 * n] == PartitionItems(ps[..n]);
      TextIsBlock(ps[n].topic);
      assert KindsOf(items) == KindsOf(items[..3 * n]) + [KindOf(items[3 * n])] + [KindOf(items[3 * n + 1])] + [KindOf(items[3 * n + 2])];
      assert CleanPlaces(ps) == CleanPlaces(ps[..n]) + [ps[n].(topic := Replaced(ps[n].topic))];
    }
  }

  lemma TextIsBlock(t: Text)
    ensures KindOf(TextItem(t)) == OfBlock
  {
  }

  lemma AssembleRoundTrip(b: Barrier)
    ensures KindsOf(HeadItems(b)) == HeadKinds() && HeadItems(b)[8] == Int32(|b.partitions|)
    ensures Assemble(HeadItems(b), CleanPlaces(b.partitions)) == Some(FieldsOf(b))
  {
    hide Utf8, FromUtf8, Replaced;
    ReadsAsText(b.barrierId);
    ReadsAsText(b.installationId);
    ReadsAsText(b.queryId);
  }

  /** The decoder recovers every covered field from the canonical bytes. */
  lemma {:induction false} BarrierRoundTrip(b: Barrier)
    requires ValidBarrier(b)
    ensures Decode(BarrierBytes(b)) == Some(FieldsOf(b))
  {
    hide ReadItems, WriteItems, Assemble, FieldsOf, HeadItems, PartitionItems, KindsOf, PartitionKinds, HeadKinds, AllFit, PlacesOf;
    var h, m := HeadItems(b), PartitionItems(b.partitions);
    AssembleRoundTrip(b);
    PlacesRoundTrip(b.partitions);
    WriteItemsAdd(h, m);
    assert WriteItems(m) + [] == WriteItems(m);
    ItemsRoundTrip(h, WriteItems(m));
    ItemsRoundTrip(m, []);
  }

  predicate ValidBarrier(b: Barrier) {
    AllFit(HeadItems(b)) && AllFit(PartitionItems(b.partitions))
  }

  /** What the bytes cover: not the capture time and not the barrier checksum; texts up to
      unpaired surrogates. */
  predicate SameHead(a: Barrier, b: Barrier) {
    && SameVersions(a, b) && Replaced(a.barrierId) == Replaced(b.barrierId) && Replaced(a.installationId) == Replaced(b.installationId)
    && Replaced(a.queryId) == Replaced(b.queryId) && a.partitionSetChecksum == b.partitionSetChecksum
  }

  predicate SameVector(a: seq<Partition>, b: seq<Partition>) {
    |a| == |b| && forall i :: 0 <= i < |a| ==> SameEntry(a[i], b[i])
  }

  lemma HeadItemsExactlyWhen(a: Barrier, b: Barrier)
    ensures HeadItems(a) == HeadItems(b) <==> SameHead(a, b) && |a.partitions| == |b.partitions|
    ensures KindsOf(HeadItems(a)) == KindsOf(HeadItems(b))
  {
    hide Utf8, Replaced;
    Utf8Injective(a.barrierId, b.barrierId);
    Utf8Injective(a.installationId, b.installationId);
    Utf8Injective(a.queryId, b.queryId);
    if HeadItems(a) == HeadItems(b) {
      assert forall i :: 0 <= i < 9 ==> HeadItems(a)[i] == HeadItems(b)[i];
    }
  }

  predicate SameEntry(p: Partition, q: Partition) {
    Replaced(p.topic) == Replaced(q.topic) && p.partition == q.partition && p.requiredNextOffset == q.requiredNextOffset
  }

  lemma LastPlaces(a: seq<Partition>, b: seq<Partition>)
    requires |a| == |b| > 0
    ensures var n := |a| - 1; SameVector(a, b) <==> SameVector(a[..n], b[..n]) && SameEntry(a[n], b[n])
  {
    hide SameEntry;
    var n := |a| - 1;
    if SameVector(a[..n], b[..n]) && SameEntry(a[n], b[n]) {
      forall i | 0 <= i < |a| ensures SameEntry(a[i], b[i]) {
        assert i < n ==> a[..n][i] == a[i] && b[..n][i] == b[i];
      }
    }
  }

  lemma {:induction false} PartitionItemsExactlyWhen(a: seq<Partition>, b: seq<Partition>)
    requires |a| == |b|
    ensures PartitionItems(a) == PartitionItems(b) <==> SameVector(a, b)
    ensures KindsOf(PartitionItems(a)) == KindsOf(PartitionItems(b))
  {
    hide Utf8, Replaced;
    if a != [] {
      var n := |a| - 1;
      PartitionItemsExactlyWhen(a[..n], b[..n]);
      Utf8Injective(a[n].topic, b[n].topic);
      LastPlaces(a, b);
      var x, y := PartitionItems(a), PartitionItems(b);
      assert x[..3 * n] == PartitionItems(a[..n]) && y[..3 * n] == PartitionItems(b[..n]);
      assert x == y <==> x[..3 * n] == y[..3 * n] && x[3 * n] == y[3 * n] && x[3 * n + 1] == y[3 * n + 1] && x[3 * n + 2] == y[3 * n + 2];
      forall i | 0 <= i < 3 * n + 3 ensures KindOf(x[i]) == KindOf(y[i]) {
        if i < 3 * n {
          assert KindsOf(x[..3 * n])[i] == KindsOf(y[..3 * n])[i];
        }
      }
    }
  }

  /** Two barriers have equal canonical bytes exactly when their covered fields are equal. */
  lemma {:induction false} EqualBarrierBytesExactlyWhen(a: Barrier, b: Barrier)
    requires ValidBarrier(a) && ValidBarrier(b)
    ensures BarrierBytes(a) == BarrierBytes(b) <==> SameHead(a, b) && SameVector(a.partitions, b.partitions)
  {
    hide WriteItems, ReadItems, HeadItems, PartitionItems, SameHead, SameVector, Fits;
    HeadItemsExactlyWhen(a, b);
    var h, k, m, n := HeadItems(a), HeadItems(b), PartitionItems(a.partitions), PartitionItems(b.partitions);
    WriteItemsAdd(h, m);
    WriteItemsAdd(k, n);
    ItemsRoundTrip(h, WriteItems(m));
    ItemsRoundTrip(k, WriteItems(n));
    assert WriteItems(m) + [] == WriteItems(m) && WriteItems(n) + [] == WriteItems(n);
    ItemsRoundTrip(m, []);
    ItemsRoundTrip(n, []);
    if |a.partitions| == |b.partitions| {
      PartitionItemsExactlyWhen(a.partitions, b.partitions);
    } else {
      VectorLengths(a.partitions, b.partitions);
    }
  }

  lemma VectorLengths(a: seq<Partition>, b: seq<Partition>)
    requires |a| != |b|
    ensures !SameVector(a, b)
  {
  }
}
