/** Sorting by a pair of numbers, highest first, equal pairs in their given order: what Python's
    list.sort does in ranking/heuristic.py and in the research selection of graph.py. */
module StableSort {

  type Key = (int, int)

  predicate Above(x: Key, y: Key) { x.0 > y.0 || (x.0 == y.0 && x.1 > y.1) }

  /** Insert x, which came before everything in ys, ahead of the first entry it is not below. */
  function Insert<T>(x: T, ys: seq<T>, key: T -> Key): seq<T> {
    if ys == [] then [x]
    else if Above(key(ys[0]), key(x)) then [ys[0]] + Insert(x, ys[1..], key)
    else [x] + ys
  }

  function Sorted<T>(xs: seq<T>, key: T -> Key): seq<T> {
    if xs == [] then [] else Insert(xs[0], Sorted(xs[1..], key), key)
  }

  ghost predicate Descending<T>(xs: seq<T>, key: T -> Key) {
    forall i, j :: 0 <= i < j < |xs| ==> !Above(key(xs[j]), key(xs[i]))
  }

  /** The entries with one key, in order. */
  function WithKey<T>(xs: seq<T>, key: T -> Key, k: Key): seq<T> {
    if xs == [] then []
    else if key(xs[0]) == k then [xs[0]] + WithKey(xs[1..], key, k)
    else WithKey(xs[1..], key, k)
  }

  lemma {:induction false} WithKeyCons<T>(x: T, xs: seq<T>, key: T -> Key, k: Key)
    ensures WithKey([x] + xs, key, k) == if key(x) == k then [x] + WithKey(xs, key, k) else WithKey(xs, key, k)
  {
    assert ([x] + xs)[1..] == xs;
  }

  lemma {:induction false} InsertIsPermutation<T>(x: T, ys: seq<T>, key: T -> Key)
    ensures multiset(Insert(x, ys, key)) == multiset{x} + multiset(ys)
    ensures |Insert(x, ys, key)| == |ys| + 1
    decreases |ys|
  {
    if ys != [] {
      InsertIsPermutation(x, ys[1..], key);
      assert ys == [ys[0]] + ys[1..];
    }
  }

  lemma {:induction false} InsertIsDescending<T>(x: T, ys: seq<T>, key: T -> Key)
    requires Descending(ys, key)
    ensures Descending(Insert(x, ys, key), key)
    decreases |ys|
  {
    if ys != [] && Above(key(ys[0]), key(x)) {
      var rest := Insert(x, ys[1..], key);
      InsertIsDescending(x, ys[1..], key);
      InsertIsPermutation(x, ys[1..], key);
      forall i | 0 <= i < |rest| ensures !Above(key(rest[i]), key(ys[0])) {
        assert rest[i] in multiset(rest);
        assert rest[i] == x || rest[i] in ys[1..];
      }
    }
  }

  lemma {:induction false} InsertKeepsOrder<T>(x: T, ys: seq<T>, key: T -> Key, k: Key)
    ensures WithKey(Insert(x, ys, key), key, k) == WithKey([x] + ys, key, k)
    decreases |ys|
  {
    if ys != [] && Above(key(ys[0]), key(x)) {
      InsertKeepsOrder(x, ys[1..], key, k);
      WithKeyCons(ys[0], Insert(x, ys[1..], key), key, k);
      WithKeyCons(x, ys[1..], key, k);
      WithKeyCons(x, ys, key, k);
    }
  }

  ghost predicate SameOrder<T>(xs: seq<T>, ys: seq<T>, key: T -> Key) {
    forall k :: WithKey(xs, key, k) == WithKey(ys, key, k)
  }

  /** Sorted is a permutation, highest first, and keeps equal keys in their given order. */
  lemma {:induction false} SortedIsStable<T>(xs: seq<T>, key: T -> Key)
    ensures var r := Sorted(xs, key);
      Descending(r, key) && multiset(r) == multiset(xs) && |r| == |xs| && SameOrder(r, xs, key)
    decreases |xs|
  {
    if xs != [] {
      var rest := Sorted(xs[1..], key);
      SortedIsStable(xs[1..], key);
      InsertIsDescending(xs[0], rest, key);
      InsertIsPermutation(xs[0], rest, key);
      assert xs == [xs[0]] + xs[1..];
      forall k ensures WithKey(Sorted(xs, key), key, k) == WithKey(xs, key, k) {
        InsertKeepsOrder(xs[0], rest, key, k);
        WithKeyCons(xs[0], rest, key, k);
      }
    }
  }

  lemma {:induction false} FirstWithKey<T>(xs: seq<T>, key: T -> Key)
    requires xs != []
    ensures var ws := WithKey(xs, key, key(xs[0])); ws != [] && ws[0] == xs[0]
  {
  }

  /** ... and nothing else does: a descending list with the same entries in the same order under
      every key is the sorted list, so any correct stable sort gives this result. */
  lemma {:induction false} StableSortIsUnique<T>(xs: seq<T>, ys: seq<T>, key: T -> Key)
    requires Descending(xs, key) && Descending(ys, key) && SameOrder(xs, ys, key)
    ensures xs == ys
    decreases |xs|
  {
    if xs != [] { FirstWithKey(xs, key); }
    if ys != [] { FirstWithKey(ys, key); }
    if xs != [] && ys != [] {
      SameHead(xs, ys, key);
      assert xs == [xs[0]] + xs[1..] && ys == [ys[0]] + ys[1..];
      forall k ensures WithKey(xs[1..], key, k) == WithKey(ys[1..], key, k) {
        WithKeyCons(xs[0], xs[1..], key, k);
        WithKeyCons(ys[0], ys[1..], key, k);
        var a, b := WithKey(xs[1..], key, k), WithKey(ys[1..], key, k);
        assert a == ([xs[0]] + a)[1..] && b == ([ys[0]] + b)[1..];
        assert WithKey(xs, key, k) == WithKey(ys, key, k);
      }
      StableSortIsUnique(xs[1..], ys[1..], key);
    }
  }

  lemma {:induction false} SameHead<T>(xs: seq<T>, ys: seq<T>, key: T -> Key)
    requires Descending(xs, key) && Descending(ys, key) && SameOrder(xs, ys, key)
    requires xs != [] && ys != []
    ensures xs[0] == ys[0]
  {
    FirstWithKey(xs, key);
    FirstWithKey(ys, key);
    var j := HasKey(ys, key, key(xs[0]));
    var i := HasKey(xs, key, key(ys[0]));
    assert i > 0 ==> !Above(key(xs[i]), key(xs[0]));
    assert j > 0 ==> !Above(key(ys[j]), key(ys[0]));
  }

  lemma {:induction false} HasKey<T>(xs: seq<T>, key: T -> Key, k: Key) returns (i: nat)
    requires WithKey(xs, key, k) != []
    ensures i < |xs| && key(xs[i]) == k
    decreases |xs|
  {
    if key(xs[0]) == k {
      i := 0;
    } else {
      i := HasKey(xs[1..], key, k);
      i := i + 1;
    }
  }

  /** A list that already is in order stays as it is. */
  lemma {:induction false} SortedOfSorted<T>(xs: seq<T>, key: T -> Key)
    requires Descending(xs, key)
    ensures Sorted(xs, key) == xs
  {
    SortedIsStable(xs, key);
    StableSortIsUnique(Sorted(xs, key), xs, key);
  }
}
