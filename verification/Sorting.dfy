/** Python's `sorted`: a stable sort of items decorated with their key, smallest first.
    Descending sorts use the negated key, which is how `reverse=True` treats equal keys. */
module Sorting {

  function Insert<T>(xs: seq<(real, T)>, x: (real, T)): seq<(real, T)> {
    if xs == [] then [x]
    else if xs[|xs| - 1].0 <= x.0 then xs + [x]
    else Insert(xs[..|xs| - 1], x) + [xs[|xs| - 1]]
  }

  function Sort<T>(xs: seq<(real, T)>): seq<(real, T)> {
    if xs == [] then [] else Insert(Sort(xs[..|xs| - 1]), xs[|xs| - 1])
  }

  function Items<T>(xs: seq<(real, T)>): seq<T> {
    seq(|xs|, i requires 0 <= i < |xs| => xs[i].1)
  }

  ghost predicate Ascending<T>(xs: seq<(real, T)>) {
    forall i, j :: 0 <= i < j < |xs| ==> xs[i].0 <= xs[j].0
  }

  /** The items with one given key, in order. */
  function WithKey<T>(xs: seq<(real, T)>, k: real): seq<(real, T)> {
    if xs == [] then []
    else WithKey(xs[..|xs| - 1], k) + (if xs[|xs| - 1].0 == k then [xs[|xs| - 1]] else [])
  }

  lemma WithKeyPush<T>(xs: seq<(real, T)>, x: (real, T), k: real)
    ensures WithKey(xs + [x], k) == WithKey(xs, k) + (if x.0 == k then [x] else [])
  {
    assert (xs + [x])[..|xs|] == xs;
  }

  lemma {:induction false} InsertMembers<T>(xs: seq<(real, T)>, x: (real, T))
    ensures multiset(Insert(xs, x)) == multiset(xs) + multiset{x}
    ensures forall y :: y in Insert(xs, x) <==> y == x || y in xs
  {
    if xs != [] && xs[|xs| - 1].0 > x.0 {
      assert xs == xs[..|xs| - 1] + [xs[|xs| - 1]];
      InsertMembers(xs[..|xs| - 1], x);
    }
  }

  lemma {:induction false} InsertBound<T>(xs: seq<(real, T)>, x: (real, T), m: real)
    requires x.0 <= m && forall i :: 0 <= i < |xs| ==> xs[i].0 <= m
    ensures forall i :: 0 <= i < |Insert(xs, x)| ==> Insert(xs, x)[i].0 <= m
  {
    if xs != [] && xs[|xs| - 1].0 > x.0 { InsertBound(xs[..|xs| - 1], x, m); }
  }

  lemma {:induction false} InsertAscending<T>(xs: seq<(real, T)>, x: (real, T))
    requires Ascending(xs)
    ensures Ascending(Insert(xs, x))
  {
    if xs != [] && xs[|xs| - 1].0 > x.0 {
      InsertAscending(xs[..|xs| - 1], x);
      InsertBound(xs[..|xs| - 1], x, xs[|xs| - 1].0);
    }
  }

  lemma {:induction false} InsertStable<T>(xs: seq<(real, T)>, x: (real, T), k: real)
    ensures WithKey(Insert(xs, x), k) == WithKey(xs, k) + (if x.0 == k then [x] else [])
  {
    if xs == [] {
      WithKeyPush([], x, k);
    } else if xs[|xs| - 1].0 <= x.0 {
      WithKeyPush(xs, x, k);
    } else {
      var front, last := xs[..|xs| - 1], xs[|xs| - 1];
      InsertStable(front, x, k);
      WithKeyPush(Insert(front, x), last, k);
    }
  }

  /** The result is a sorted, stable rearrangement of the input; for every key the items with
      that key keep their order. */
  lemma {:induction false} SortSpec<T>(xs: seq<(real, T)>, k: real)
    ensures Ascending(Sort(xs)) && multiset(Sort(xs)) == multiset(xs)
    ensures WithKey(Sort(xs), k) == WithKey(xs, k)
    ensures |Sort(xs)| == |xs|
  {
    if xs != [] {
      var front, last := xs[..|xs| - 1], xs[|xs| - 1];
      assert xs == front + [last];
      SortSpec(front, k);
      InsertMembers(Sort(front), last);
      InsertAscending(Sort(front), last);
      InsertStable(Sort(front), last, k);
      assert |multiset(Sort(xs))| == |multiset(xs)|;
    }
  }

  lemma {:induction false} InsertHead<T>(xs: seq<(real, T)>, x: (real, T))
    requires Ascending(xs)
    ensures Insert(xs, x)[0] == if xs == [] || x.0 < xs[0].0 then x else xs[0]
  {
    if xs != [] && xs[|xs| - 1].0 > x.0 { InsertHead(xs[..|xs| - 1], x); }
  }

  /** Item i is the first of those with the least key. */
  ghost predicate FirstLeast<T>(xs: seq<(real, T)>, i: nat) {
    i < |xs| && forall j :: 0 <= j < |xs| ==> if j < i then xs[i].0 < xs[j].0 else xs[i].0 <= xs[j].0
  }

  /** The sorted list begins with it. */
  lemma {:induction false} SortedHead<T>(xs: seq<(real, T)>) returns (i: nat)
    requires xs != []
    ensures FirstLeast(xs, i) && |Sort(xs)| == |xs| && Sort(xs)[0] == xs[i]
  {
    var front, last := xs[..|xs| - 1], xs[|xs| - 1];
    SortSpec(xs, 0.0);
    if front == [] {
      i := 0;
      assert Sort(front) == [];
    } else {
      var k := SortedHead(front);
      SortSpec(front, 0.0);
      InsertHead(Sort(front), last);
      i := if last.0 < front[k].0 then |xs| - 1 else k;
      LeastOfPushed(front, last, k);
      assert xs == front + [last];
    }
  }

  lemma LeastOfPushed<T>(xs: seq<(real, T)>, x: (real, T), i: nat)
    requires FirstLeast(xs, i)
    ensures FirstLeast(xs + [x], if x.0 < xs[i].0 then |xs| else i)
  {
  }

  lemma {:induction false} InsertItems<T>(xs: seq<(real, T)>, x: (real, T))
    ensures multiset(Items(Insert(xs, x))) == multiset(Items(xs)) + multiset{x.1}
  {
    if xs == [] {
      assert Items([x]) == [x.1] && Items(xs) == [];
    } else if xs[|xs| - 1].0 <= x.0 {
      assert Items(xs + [x]) == Items(xs) + [x.1];
    } else {
      var front, last := xs[..|xs| - 1], xs[|xs| - 1];
      InsertItems(front, x);
      assert Items(Insert(front, x) + [last]) == Items(Insert(front, x)) + [last.1];
      assert Items(xs) == Items(front) + [last.1];
    }
  }

  lemma {:induction false} SortItems<T>(xs: seq<(real, T)>)
    ensures multiset(Items(Sort(xs))) == multiset(Items(xs))
  {
    if xs != [] {
      var front, last := xs[..|xs| - 1], xs[|xs| - 1];
      SortItems(front);
      InsertItems(Sort(front), last);
      assert Items(xs) == Items(front) + [last.1];
    }
  }

  lemma SortMembers<T>(xs: seq<(real, T)>, x: (real, T))
    ensures x in Sort(xs) <==> x in xs
  {
    SortSpec(xs, 0.0);
    assert x in Sort(xs) <==> x in multiset(Sort(xs));
  }

  // ----- changing the keys ---------------------------------------------------

  function Rekey<T>(xs: seq<(real, T)>, m: real -> real): seq<(real, T)> {
    seq(|xs|, i requires 0 <= i < |xs| => (m(xs[i].0), xs[i].1))
  }

  ghost predicate KeepsOrder(m: real -> real) {
    forall a, b :: a <= b <==> m(a) <= m(b)
  }

  lemma RekeyPush<T>(xs: seq<(real, T)>, x: (real, T), m: real -> real)
    ensures Rekey(xs + [x], m) == Rekey(xs, m) + [(m(x.0), x.1)]
  {
  }

  lemma {:induction false} InsertRekey<T>(xs: seq<(real, T)>, x: (real, T), m: real -> real)
    requires KeepsOrder(m)
    ensures Insert(Rekey(xs, m), (m(x.0), x.1)) == Rekey(Insert(xs, x), m)
  {
    if xs == [] {
      RekeyPush([], x, m);
    } else {
      var front, last := xs[..|xs| - 1], xs[|xs| - 1];
      assert xs == front + [last];
      RekeyPush(front, last, m);
      assert Rekey(xs, m)[..|xs| - 1] == Rekey(front, m);
      if last.0 <= x.0 {
        RekeyPush(xs, x, m);
      } else {
        InsertRekey(front, x, m);
        RekeyPush(Insert(front, x), last, m);
      }
    }
  }

  /** An order-preserving change of all keys changes nothing about the order of the items. */
  lemma {:induction false} SortRekey<T>(xs: seq<(real, T)>, m: real -> real)
    requires KeepsOrder(m)
    ensures Sort(Rekey(xs, m)) == Rekey(Sort(xs), m)
    ensures Items(Sort(Rekey(xs, m))) == Items(Sort(xs))
  {
    if xs != [] {
      var front, last := xs[..|xs| - 1], xs[|xs| - 1];
      assert Rekey(xs, m)[..|xs| - 1] == Rekey(front, m);
      SortRekey(front, m);
      InsertRekey(Sort(front), last, m);
    }
  }
}
