/** The library sort: the result is determined by being an ordered permutation. */
module Sorting {

  /** The comparator is a total preorder. */
  ghost predicate Preorder<T(!new)>(le: (T, T) -> bool) {
    && (forall a, b :: le(a, b) || le(b, a))
    && forall a, b, c :: le(a, b) && le(b, c) ==> le(a, c)
  }

  ghost predicate Ascending<T>(xs: seq<T>, le: (T, T) -> bool) {
    forall i, j :: 0 <= i < j < |xs| ==> le(xs[i], xs[j])
  }

  function Place<T>(x: T, xs: seq<T>, le: (T, T) -> bool): seq<T> {
    if xs == [] then [x]
    else if le(xs[|xs| - 1], x) then xs + [x]
    else Place(x, xs[..|xs| - 1], le) + [xs[|xs| - 1]]
  }

  /** Stable insertion sort. */
  function Sort<T>(xs: seq<T>, le: (T, T) -> bool): seq<T> {
    if xs == [] then [] else Place(xs[|xs| - 1], Sort(xs[..|xs| - 1], le), le)
  }

  lemma {:induction false} PlaceAdds<T>(x: T, xs: seq<T>, le: (T, T) -> bool)
    ensures multiset(Place(x, xs, le)) == multiset(xs) + multiset{x}
  {
    if xs != [] {
      var n := |xs| - 1;
      assert xs == xs[..n] + [xs[n]];
      PlaceAdds(x, xs[..n], le);
    }
  }

  lemma PlacedAreOld<T>(x: T, xs: seq<T>, le: (T, T) -> bool, i: nat)
    requires i < |Place(x, xs, le)|
    ensures Place(x, xs, le)[i] == x || Place(x, xs, le)[i] in xs
  {
    hide Place;
    PlaceAdds(x, xs, le);
    assert Place(x, xs, le)[i] in multiset(Place(x, xs, le));
  }

  lemma {:induction false} PlaceKeeps<T(!new)>(x: T, xs: seq<T>, le: (T, T) -> bool)
    requires Preorder(le) && Ascending(xs, le)
    ensures Ascending(Place(x, xs, le), le) && multiset(Place(x, xs, le)) == multiset(xs) + multiset{x}
  {
    PlaceAdds(x, xs, le);
    if xs != [] {
      var n := |xs| - 1;
      if !le(xs[n], x) {
        PlaceKeeps(x, xs[..n], le);
        var placed := Place(x, xs[..n], le);
        forall i | 0 <= i < |placed| ensures le(placed[i], xs[n]) {
          PlacedAreOld(x, xs[..n], le, i);
        }
      }
    }
  }

  lemma {:induction false} SortSorts<T(!new)>(xs: seq<T>, le: (T, T) -> bool)
    requires Preorder(le)
    ensures Ascending(Sort(xs, le), le) && multiset(Sort(xs, le)) == multiset(xs) && |Sort(xs, le)| == |xs|
  {
    if xs != [] {
      var n := |xs| - 1;
      assert xs == xs[..n] + [xs[n]];
      SortSorts(xs[..n], le);
      PlaceKeeps(xs[n], Sort(xs[..n], le), le);
    }
    assert |multiset(Sort(xs, le))| == |Sort(xs, le)| && |multiset(xs)| == |xs|;
  }

  /** No two different elements are equal to the comparator. */
  ghost predicate Strict<T>(xs: seq<T>, le: (T, T) -> bool) {
    forall a, b :: a in xs && b in xs && le(a, b) && le(b, a) ==> a == b
  }

  lemma LastIsGreatest<T(!new)>(xs: seq<T>, le: (T, T) -> bool, z: T)
    requires Ascending(xs, le) && Preorder(le) && z in xs
    ensures le(z, xs[|xs| - 1])
  {
    var i :| 0 <= i < |xs| && xs[i] == z;
    assert i < |xs| - 1 ==> le(xs[i], xs[|xs| - 1]);
  }

  lemma SameMembers<T>(xs: seq<T>, ys: seq<T>)
    requires multiset(xs) == multiset(ys)
    ensures |xs| == |ys| && forall z :: z in xs <==> z in ys
  {
    assert |multiset(xs)| == |multiset(ys)|;
    assert forall z :: z in xs <==> z in multiset(xs);
    assert forall z :: z in ys <==> z in multiset(ys);
  }

  lemma DropLast<T>(xs: seq<T>)
    requires xs != []
    ensures multiset(xs[..|xs| - 1]) == multiset(xs) - multiset{xs[|xs| - 1]}
  {
    assert xs == xs[..|xs| - 1] + [xs[|xs| - 1]];
  }

  lemma TwoPositions<T>(xs: seq<T>, i: nat, j: nat)
    requires i < j < |xs| && xs[i] == xs[j]
    ensures multiset(xs)[xs[i]] >= 2
  {
    assert xs == xs[..i] + [xs[i]] + xs[i + 1..j] + [xs[j]] + xs[j + 1..];
  }

  lemma {:induction false} OccursTwice<T>(xs: seq<T>, v: T) returns (i: nat, j: nat)
    requires multiset(xs)[v] >= 2
    ensures i < j < |xs| && xs[i] == v == xs[j]
  {
    var n := |xs| - 1;
    assert xs == xs[..n] + [xs[n]];
    if xs[n] == v {
      assert v in multiset(xs[..n]);
      i, j := var k :| 0 <= k < n && xs[k] == v; k, n;
    } else {
      i, j := OccursTwice(xs[..n], v);
    }
  }

  /** A pair of positions in a permutation is a pair of positions in the original. */
  lemma PairOfPermutation<T>(xs: seq<T>, ys: seq<T>, i: nat, j: nat) returns (a: nat, b: nat)
    requires multiset(xs) == multiset(ys) && i < j < |ys|
    ensures a < |xs| && b < |xs| && a != b && xs[a] == ys[i] && xs[b] == ys[j]
  {
    SameMembers(xs, ys);
    if ys[i] == ys[j] {
      TwoPositions(ys, i, j);
      a, b := OccursTwice(xs, ys[i]);
    } else {
      assert ys[i] in xs && ys[j] in xs;
      a :| a < |xs| && xs[a] == ys[i];
      b :| b < |xs| && xs[b] == ys[j];
    }
  }

  lemma SameLast<T(!new)>(xs: seq<T>, ys: seq<T>, le: (T, T) -> bool)
    requires Ascending(xs, le) && Ascending(ys, le) && Strict(xs, le) && Preorder(le) && multiset(xs) == multiset(ys) && xs != []
    ensures |xs| == |ys| && xs[|xs| - 1] == ys[|xs| - 1]
  {
    hide Preorder, Ascending;
    SameMembers(xs, ys);
    var n := |xs| - 1;
    LastIsGreatest(xs, le, ys[n]);
    LastIsGreatest(ys, le, xs[n]);
  }

  lemma FrontKeeps<T>(xs: seq<T>, le: (T, T) -> bool)
    requires xs != []
    ensures Ascending(xs, le) ==> Ascending(xs[..|xs| - 1], le)
    ensures Strict(xs, le) ==> Strict(xs[..|xs| - 1], le)
  {
    assert forall z :: z in xs[..|xs| - 1] ==> z in xs;
  }

  lemma SameFronts<T>(xs: seq<T>, ys: seq<T>)
    requires |xs| == |ys| > 0 && xs[|xs| - 1] == ys[|ys| - 1] && multiset(xs) == multiset(ys)
    ensures multiset(xs[..|xs| - 1]) == multiset(ys[..|ys| - 1])
    ensures xs[..|xs| - 1] == ys[..|ys| - 1] ==> xs == ys
  {
    DropLast(xs);
    DropLast(ys);
    assert xs == xs[..|xs| - 1] + [xs[|xs| - 1]] && ys == ys[..|ys| - 1] + [ys[|ys| - 1]];
  }

  /** When the comparator tells the elements apart, their ordered permutation is unique. */
  lemma {:induction false} OrderedIsUnique<T(!new)>(xs: seq<T>, ys: seq<T>, le: (T, T) -> bool)
    requires Ascending(xs, le) && Ascending(ys, le) && Strict(xs, le) && Preorder(le) && multiset(xs) == multiset(ys)
    ensures xs == ys
    decreases |xs|
  {
    hide Preorder, Ascending, Strict;
    if xs == [] {
      SameMembers(xs, ys);
    } else {
      SameLast(xs, ys, le);
      SameFronts(xs, ys);
      FrontKeeps(xs, le);
      FrontKeeps(ys, le);
      OrderedIsUnique(xs[..|xs| - 1], ys[..|ys| - 1], le);
    }
  }

  // ---------------------------------------------------------------------------------------
  // Lexicographic order
  // ---------------------------------------------------------------------------------------

  function LexLe(a: seq<int>, b: seq<int>): bool {
    a == [] || (b != [] && (a[0] < b[0] || (a[0] == b[0] && LexLe(a[1..], b[1..]))))
  }

  lemma {:induction false} LexOrder(a: seq<int>, b: seq<int>, c: seq<int>)
    ensures LexLe(a, b) || LexLe(b, a)
    ensures LexLe(a, b) && LexLe(b, c) ==> LexLe(a, c)
    ensures LexLe(a, b) && LexLe(b, a) ==> a == b
  {
    if a != [] && b != [] {
      if c != [] {
        LexOrder(a[1..], b[1..], c[1..]);
      } else {
        LexOrder(a[1..], b[1..], []);
      }
      assert a == [a[0]] + a[1..] && b == [b[0]] + b[1..];
    }
  }
}
