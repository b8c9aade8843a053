/** A Python dictionary kept under an entity's own id: its values in insertion order. */
module Dictionary {
  import opened Models

  /** d.get(key), as a position. */
  function Find<T>(xs: seq<T>, idOf: T -> string, key: string): (k: Option<nat>)
    ensures k.Some? ==> k.value < |xs| && idOf(xs[k.value]) == key
    ensures k.None? ==> forall i :: 0 <= i < |xs| ==> idOf(xs[i]) != key
  {
    if xs == [] then None
    else if idOf(xs[|xs| - 1]) == key then Some(|xs| - 1)
    else Find(xs[..|xs| - 1], idOf, key)
  }

  /** d[x.id] = x */
  function Put<T>(xs: seq<T>, idOf: T -> string, x: T): seq<T> {
    match Find(xs, idOf, idOf(x))
    case Some(k) => xs[k := x]
    case None => xs + [x]
  }

  /** Afterwards the key leads to x; entries of other keys stay, in order, and no key is there twice that was not. */
  lemma {:induction false} PutMeans<T>(xs: seq<T>, idOf: T -> string, x: T)
    ensures var r, known := Put(xs, idOf, x), exists i :: 0 <= i < |xs| && idOf(xs[i]) == idOf(x);
      && |r| == |xs| + (if known then 0 else 1)
      && (forall i :: 0 <= i < |xs| && idOf(xs[i]) != idOf(x) ==> r[i] == xs[i])
      && Find(r, idOf, idOf(x)).Some? && r[Find(r, idOf, idOf(x)).value] == x
    decreases |xs|
  {
    if xs != [] && idOf(xs[|xs| - 1]) != idOf(x) {
      var front := xs[..|xs| - 1];
      PutMeans(front, idOf, x);
      var k := Find(front, idOf, idOf(x));
      if k.Some? {
        var r := Put(xs, idOf, x);
        assert r[..|r| - 1] == Put(front, idOf, x);
      }
    }
  }
}
