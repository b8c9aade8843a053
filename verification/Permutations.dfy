/** Positions and multisets: what a permutation keeps about pairs of entries. */
module Permutations {

  lemma {:induction false} PairOfPositions<T>(xs: seq<T>, i: nat, j: nat)
    requires i < j < |xs|
    ensures multiset{xs[i], xs[j]} <= multiset(xs)
  {
    var a, b, c := xs[..i], xs[i + 1..j], xs[j + 1..];
    assert xs == a + [xs[i]] + b + [xs[j]] + c;
    assert multiset(xs) == multiset(a) + multiset{xs[i]} + multiset(b) + multiset{xs[j]} + multiset(c);
  }

  lemma {:induction false} PositionsOfPair<T>(xs: seq<T>, x: T, y: T) returns (i: nat, j: nat)
    requires multiset{x, y} <= multiset(xs)
    ensures i < j < |xs| && ((xs[i] == x && xs[j] == y) || (xs[i] == y && xs[j] == x))
  {
    assert multiset(xs)[x] >= multiset{x, y}[x] >= 1;
    assert x in multiset(xs) && x in xs;
    var a :| 0 <= a < |xs| && xs[a] == x;
    var rest := xs[..a] + xs[a + 1..];
    assert xs == xs[..a] + [x] + xs[a + 1..];
    assert multiset(xs) == multiset(rest) + multiset{x};
    assert multiset(rest)[y] + multiset{x}[y] >= multiset{x, y}[y] == multiset{x}[y] + 1;
    assert y in multiset(rest) && y in rest;
    var b :| 0 <= b < |rest| && rest[b] == y;
    var b' := if b < a then b else b + 1;
    assert xs[b'] == y;
    i, j := if a < b' then a else b', if a < b' then b' else a;
  }
}
