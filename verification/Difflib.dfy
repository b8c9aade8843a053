/** The matching-block algorithm of Python's difflib.SequenceMatcher without junk
    (isjunk=None, autojunk=False), which citation/verify.py builds its quote coverage on.

    A block (a, b, size) says that `size` characters agree from position a of the first
    string and position b of the second one. All positions are absolute; the searched
    rectangle is alo..ahi of the first string times blo..bhi of the second one. */
module Difflib {

  datatype Match = Match(a: nat, b: nat, size: nat)

  ghost predicate Box(a: string, b: string, alo: nat, ahi: nat, blo: nat, bhi: nat) {
    alo <= ahi <= |a| && blo <= bhi <= |b|
  }

  /** The k characters from i on in the first string are those from j on in the second one. */
  ghost predicate Agree(a: string, b: string, i: nat, j: nat, k: nat)
    requires i + k <= |a| && j + k <= |b|
    decreases k
  {
    k == 0 || (a[i] == b[j] && Agree(a, b, i + 1, j + 1, k - 1))
  }

  lemma {:induction false} AgreeAt(a: string, b: string, i: nat, j: nat, k: nat, t: nat)
    requires i + k <= |a| && j + k <= |b| && Agree(a, b, i, j, k) && t < k
    ensures a[i + t] == b[j + t]
    decreases k
  {
    if t > 0 {
      AgreeAt(a, b, i + 1, j + 1, k - 1, t - 1);
    }
  }

  lemma {:induction false} AgreeFromSlices(a: string, b: string, i: nat, j: nat, k: nat)
    requires i + k <= |a| && j + k <= |b| && a[i..i + k] == b[j..j + k]
    ensures Agree(a, b, i, j, k)
    decreases k
  {
    if k > 0 {
      assert a[i] == a[i..i + k][0] == b[j..j + k][0] == b[j];
      assert a[i + 1..i + k] == a[i..i + k][1..] == b[j..j + k][1..] == b[j + 1..j + k];
      AgreeFromSlices(a, b, i + 1, j + 1, k - 1);
    }
  }

  lemma {:induction false} AgreeJoin(a: string, b: string, i: nat, j: nat, k: nat, l: nat)
    requires i + k + l <= |a| && j + k + l <= |b|
    requires Agree(a, b, i, j, k) && Agree(a, b, i + k, j + k, l)
    ensures Agree(a, b, i, j, k + l)
    decreases k
  {
    if k > 0 {
      AgreeJoin(a, b, i + 1, j + 1, k - 1, l);
    }
  }

  /** How far the two strings agree from (i, j) on, inside the rectangle. */
  function CommonRun(a: string, b: string, i: nat, j: nat, ahi: nat, bhi: nat): (r: nat)
    requires i <= ahi <= |a| && j <= bhi <= |b|
    ensures i + r <= ahi && j + r <= bhi && Agree(a, b, i, j, r)
    decreases ahi - i
  {
    if i < ahi && j < bhi && a[i] == b[j] then
      1 + CommonRun(a, b, i + 1, j + 1, ahi, bhi)
    else 0
  }

  lemma {:induction false} RunIsMaximal(a: string, b: string, i: nat, j: nat, ahi: nat, bhi: nat, k: nat)
    requires i + k <= ahi <= |a| && j + k <= bhi <= |b|
    requires Agree(a, b, i, j, k)
    ensures k <= CommonRun(a, b, i, j, ahi, bhi)
    decreases k
  {
    if k > 0 {
      RunIsMaximal(a, b, i + 1, j + 1, ahi, bhi, k - 1);
    }
  }

  function BestInRow(a: string, b: string, i: nat, j: nat, ahi: nat, bhi: nat): (m: Match)
    requires i <= ahi <= |a| && j <= bhi <= |b|
    ensures m.a == i && j <= m.b && m.a + m.size <= ahi && m.b + m.size <= bhi
    ensures m.size == 0 ==> m.b == j
    ensures Agree(a, b, m.a, m.b, m.size)
    decreases bhi - j
  {
    if j == bhi then Match(i, j, 0)
    else
      var here := Match(i, j, CommonRun(a, b, i, j, ahi, bhi));
      var rest := BestInRow(a, b, i, j + 1, ahi, bhi);
      if here.size >= rest.size then here else rest
  }

  /** find_longest_match: (alo, blo, 0) when nothing agrees. */
  function LongestMatch(a: string, b: string, alo: nat, ahi: nat, blo: nat, bhi: nat): (m: Match)
    requires Box(a, b, alo, ahi, blo, bhi)
    ensures alo <= m.a && blo <= m.b && m.a + m.size <= ahi && m.b + m.size <= bhi
    ensures Agree(a, b, m.a, m.b, m.size)
    ensures m.size == 0 ==> m == Match(alo, blo, 0)
    decreases ahi - alo
  {
    if alo == ahi then Match(alo, blo, 0)
    else
      var here := BestInRow(a, b, alo, blo, ahi, bhi);
      var rest := LongestMatch(a, b, alo + 1, ahi, blo, bhi);
      if here.size >= rest.size then here else rest
  }

  lemma {:induction false} BestInRowIsBest(a: string, b: string, i: nat, j: nat, ahi: nat, bhi: nat, other: nat)
    requires i <= ahi <= |a| && j <= other < bhi <= |b|
    ensures var m, r := BestInRow(a, b, i, j, ahi, bhi), CommonRun(a, b, i, other, ahi, bhi);
      r < m.size || (r == m.size && m.b <= other)
    decreases bhi - j
  {
    if j < other {
      BestInRowIsBest(a, b, i, j + 1, ahi, bhi, other);
    }
  }

  lemma {:induction false} LongestMatchIsBest(a: string, b: string, alo: nat, ahi: nat, blo: nat, bhi: nat, i: nat,
      j: nat)
    requires Box(a, b, alo, ahi, blo, bhi) && alo <= i < ahi && blo <= j < bhi
    ensures var m, r := LongestMatch(a, b, alo, ahi, blo, bhi), CommonRun(a, b, i, j, ahi, bhi);
      r < m.size || (r == m.size && (m.a < i || (m.a == i && m.b <= j)))
    decreases ahi - alo
  {
    if alo < i {
      LongestMatchIsBest(a, b, alo + 1, ahi, blo, bhi, i, j);
    } else {
      BestInRowIsBest(a, b, alo, blo, ahi, bhi, j);
    }
  }

  /** The documented contract: the longest block, of those the one starting earliest in the
      first string, of those the one starting earliest in the second string. */
  ghost predicate IsDocumentedLongest(a: string, b: string, alo: nat, ahi: nat, blo: nat, bhi: nat, m: Match)
    requires Box(a, b, alo, ahi, blo, bhi)
  {
    && InBox(a, b, m, alo, ahi, blo, bhi)
    && forall other: Match :: InBox(a, b, other, alo, ahi, blo, bhi) ==>
         other.size < m.size || (other.size == m.size && (m.a < other.a || (m.a == other.a && m.b <= other.b)))
  }

  ghost predicate InBox(a: string, b: string, m: Match, alo: nat, ahi: nat, blo: nat, bhi: nat)
    requires Box(a, b, alo, ahi, blo, bhi)
  {
    && m.size >= 1 && alo <= m.a && m.a + m.size <= ahi && blo <= m.b && m.b + m.size <= bhi
    && Agree(a, b, m.a, m.b, m.size)
  }

  /** LongestMatch is the one block with the documented contract whenever any block exists. */
  lemma {:induction false} LongestMatchIsDocumented(a: string, b: string, alo: nat, ahi: nat, blo: nat, bhi: nat,
      m: Match)
    requires Box(a, b, alo, ahi, blo, bhi)
    requires InBox(a, b, m, alo, ahi, blo, bhi)
    ensures IsDocumentedLongest(a, b, alo, ahi, blo, bhi, m) <==> m == LongestMatch(a, b, alo, ahi, blo, bhi)
    ensures LongestMatch(a, b, alo, ahi, blo, bhi).size >= m.size
  {
    var best := LongestMatch(a, b, alo, ahi, blo, bhi);
    forall other: Match | InBox(a, b, other, alo, ahi, blo, bhi)
      ensures other.size < best.size ||
        (other.size == best.size && (best.a < other.a || (best.a == other.a && best.b <= other.b)))
    {
      RunIsMaximal(a, b, other.a, other.b, ahi, bhi, other.size);
      LongestMatchIsBest(a, b, alo, ahi, blo, bhi, other.a, other.b);
    }
    assert InBox(a, b, best, alo, ahi, blo, bhi);
  }

  /** get_matching_blocks without its closing (|a|, |b|, 0) entry: the longest match, with
      the blocks of the rectangle before it and of the rectangle after it. Every block lies
      in the searched rectangle and agrees there, the blocks advance, and neighbouring ones
      never touch: the library's step that joins touching blocks changes nothing here. */
  function Blocks(a: string, b: string, alo: nat, ahi: nat, blo: nat, bhi: nat): (bs: seq<Match>)
    requires Box(a, b, alo, ahi, blo, bhi)
    ensures forall m :: m in bs ==> InBox(a, b, m, alo, ahi, blo, bhi)
    ensures Ordered(bs) && Separated(bs)
    decreases ahi - alo
  {
    var m := LongestMatch(a, b, alo, ahi, blo, bhi);
    if m.size == 0 then []
    else
      var left := Blocks(a, b, alo, m.a, blo, m.b);
      var right := Blocks(a, b, m.a + m.size, ahi, m.b + m.size, bhi);
      BlocksCombine(a, b, alo, ahi, blo, bhi, m, left, right);
      left + [m] + right
  }

  /** Blocks advance strictly in both strings and never overlap. */
  ghost predicate Ordered(bs: seq<Match>) {
    forall x, y :: 0 <= x < y < |bs| ==> Precedes(bs[x], bs[y])
  }

  ghost predicate Precedes(m: Match, n: Match) {
    m.a + m.size <= n.a && m.b + m.size <= n.b
  }

  ghost predicate Adjacent(m: Match, n: Match) {
    m.a + m.size == n.a && m.b + m.size == n.b
  }

  ghost predicate Separated(bs: seq<Match>) {
    forall x, y :: 0 <= x < |bs| && y == x + 1 && y < |bs| ==> !Adjacent(bs[x], bs[y])
  }

  lemma {:induction false} OrderedAround(left: seq<Match>, m: Match, right: seq<Match>)
    requires Ordered(left) && Ordered(right)
    requires forall l :: l in left ==> Precedes(l, m)
    requires forall r :: r in right ==> Precedes(m, r)
    ensures Ordered(left + [m] + right)
  {
    var bs := left + [m] + right;
    forall x, y | 0 <= x < y < |bs| ensures Precedes(bs[x], bs[y]) {
      if x < |left| {
        assert Precedes(bs[x], m);
      }
      if y > |left| {
        assert bs[y] == right[y - |left| - 1] && Precedes(m, bs[y]);
      }
    }
  }

  lemma {:induction false} BlocksCombine(a: string, b: string, alo: nat, ahi: nat, blo: nat, bhi: nat, m: Match,
      left: seq<Match>, right: seq<Match>)
    requires Box(a, b, alo, ahi, blo, bhi) && InBox(a, b, m, alo, ahi, blo, bhi)
    requires m == LongestMatch(a, b, alo, ahi, blo, bhi)
    requires (forall l :: l in left ==> InBox(a, b, l, alo, m.a, blo, m.b)) && Ordered(left) && Separated(left)
    requires forall r :: r in right ==> InBox(a, b, r, m.a + m.size, ahi, m.b + m.size, bhi)
    requires Ordered(right) && Separated(right)
    ensures forall n :: n in left + [m] + right ==> InBox(a, b, n, alo, ahi, blo, bhi)
    ensures Ordered(left + [m] + right) && Separated(left + [m] + right)
  {
    forall n | n in left + [m] + right ensures InBox(a, b, n, alo, ahi, blo, bhi) {
      if n in left {
        assert InBox(a, b, n, alo, m.a, blo, m.b);
      } else if n in right {
        assert InBox(a, b, n, m.a + m.size, ahi, m.b + m.size, bhi);
      }
    }
    OrderedAround(left, m, right);
    SeparatedAround(a, b, alo, ahi, blo, bhi, m, left, right);
  }

  lemma {:induction false} SeparatedAround(a: string, b: string, alo: nat, ahi: nat, blo: nat, bhi: nat, m: Match,
      left: seq<Match>, right: seq<Match>)
    requires Box(a, b, alo, ahi, blo, bhi) && m == LongestMatch(a, b, alo, ahi, blo, bhi)
    requires forall n :: n in left + [m] + right ==> InBox(a, b, n, alo, ahi, blo, bhi)
    requires Separated(left) && Separated(right)
    ensures Separated(left + [m] + right)
  {
    var bs := left + [m] + right;
    forall x, y | 0 <= x < |bs| && y == x + 1 && y < |bs| ensures !Adjacent(bs[x], bs[y]) {
      if y < |left| {
        assert !Adjacent(left[x], left[y]);
      } else if x > |left| {
        assert !Adjacent(right[x - |left| - 1], right[y - |left| - 1]);
      } else {
        assert bs[x] in bs && bs[y] in bs && bs[|left|] == m;
        LongestTouchesNothing(a, b, bs[x], bs[y], alo, ahi, blo, bhi);
      }
    }
  }

  lemma {:induction false} TouchingBlocksJoin(a: string, b: string, m: Match, n: Match, alo: nat, ahi: nat,
      blo: nat, bhi: nat)
    requires Box(a, b, alo, ahi, blo, bhi)
    requires InBox(a, b, m, alo, ahi, blo, bhi) && InBox(a, b, n, alo, ahi, blo, bhi) && Adjacent(m, n)
    ensures InBox(a, b, Match(m.a, m.b, m.size + n.size), alo, ahi, blo, bhi)
  {
    AgreeJoin(a, b, m.a, m.b, m.size, n.size);
  }

  /** No block of the rectangle touches its longest match. */
  lemma {:induction false} LongestTouchesNothing(a: string, b: string, m: Match, n: Match, alo: nat, ahi: nat,
      blo: nat, bhi: nat)
    requires Box(a, b, alo, ahi, blo, bhi)
    requires InBox(a, b, m, alo, ahi, blo, bhi) && InBox(a, b, n, alo, ahi, blo, bhi)
    requires LongestMatch(a, b, alo, ahi, blo, bhi) in {m, n}
    ensures !Adjacent(m, n)
  {
    if Adjacent(m, n) {
      TouchingBlocksJoin(a, b, m, n, alo, ahi, blo, bhi);
      LongestMatchIsDocumented(a, b, alo, ahi, blo, bhi, Match(m.a, m.b, m.size + n.size));
    }
  }

  /** The two positions lie on the same side of the block: both before its start or both past its end. */
  ghost predicate Beside(m: Match, i: nat, j: nat) {
    (i < m.a && j < m.b) || (m.a + m.size <= i && m.b + m.size <= j)
  }

  lemma {:induction false} BlocksUnfold(a: string, b: string, alo: nat, ahi: nat, blo: nat, bhi: nat)
    requires Box(a, b, alo, ahi, blo, bhi) && LongestMatch(a, b, alo, ahi, blo, bhi).size > 0
    ensures var m := LongestMatch(a, b, alo, ahi, blo, bhi);
      Blocks(a, b, alo, ahi, blo, bhi) ==
        Blocks(a, b, alo, m.a, blo, m.b) + [m] + Blocks(a, b, m.a + m.size, ahi, m.b + m.size, bhi)
  {
    hide InBox, Ordered, Separated, LongestMatch, Agree;
  }

  lemma {:induction false} InOneOfThree(left: seq<Match>, m: Match, right: seq<Match>, n: Match)
    requires n in left || n == m || n in right
    ensures n in left + [m] + right
  {
  }

  lemma {:induction false} CommonMeansSome(a: string, b: string, alo: nat, ahi: nat, blo: nat, bhi: nat, i: nat, j: nat)
    requires Box(a, b, alo, ahi, blo, bhi) && alo <= i < ahi && blo <= j < bhi && a[i] == b[j]
    ensures LongestMatch(a, b, alo, ahi, blo, bhi).size > 0
  {
    LongestMatchIsBest(a, b, alo, ahi, blo, bhi, i, j);
  }

  /** Nothing is left over: equal characters of the two strings never lie in one gap between blocks, since
      some block holds one of them or runs between them. */
  lemma {:induction false} GapsShareNothing(a: string, b: string, alo: nat, ahi: nat, blo: nat, bhi: nat,
      i: nat, j: nat) returns (m: Match)
    requires Box(a, b, alo, ahi, blo, bhi) && alo <= i < ahi && blo <= j < bhi && a[i] == b[j]
    ensures m in Blocks(a, b, alo, ahi, blo, bhi) && !Beside(m, i, j)
    decreases ahi - alo
  {
    hide LongestMatch, Blocks, Agree, InBox, Ordered, Separated;
    var top := LongestMatch(a, b, alo, ahi, blo, bhi);
    CommonMeansSome(a, b, alo, ahi, blo, bhi, i, j);
    BlocksUnfold(a, b, alo, ahi, blo, bhi);
    m := top;
    if i < top.a && j < top.b {
      m := GapsShareNothing(a, b, alo, top.a, blo, top.b, i, j);
    } else if top.a + top.size <= i && top.b + top.size <= j {
      m := GapsShareNothing(a, b, top.a + top.size, ahi, top.b + top.size, bhi, i, j);
    }
    InOneOfThree(Blocks(a, b, alo, top.a, blo, top.b), top,
                 Blocks(a, b, top.a + top.size, ahi, top.b + top.size, bhi), m);
  }

  function TotalSize(bs: seq<Match>): nat {
    if bs == [] then 0 else bs[0].size + TotalSize(bs[1..])
  }

  /** M of the documentation of ratio(): the number of matched characters. */
  function MatchCount(a: string, b: string): nat {
    TotalSize(Blocks(a, b, 0, |a|, 0, |b|))
  }

  /** ratio(): 2*M / T, and 1 for two empty strings. */
  function Ratio(a: string, b: string): real {
    if |a| + |b| == 0 then 1.0 else (2 * MatchCount(a, b)) as real / (|a| + |b|) as real
  }

  // ----- what M counts: an in-order common subsequence -----

  /** Position pairs that advance strictly in both strings and carry equal characters. */
  ghost predicate CommonSubsequence(a: string, b: string, ps: seq<(nat, nat)>) {
    && (forall x :: 0 <= x < |ps| ==> ps[x].0 < |a| && ps[x].1 < |b| && a[ps[x].0] == b[ps[x].1])
    && (forall x, y :: 0 <= x < y < |ps| ==> ps[x].0 < ps[y].0 && ps[x].1 < ps[y].1)
  }

  function BlockPairs(m: Match): (ps: seq<(nat, nat)>)
    ensures |ps| == m.size
    ensures forall t :: 0 <= t < m.size ==> ps[t] == (m.a + t, m.b + t)
  {
    seq(m.size, t requires 0 <= t => (m.a + t, m.b + t))
  }

  function Pairs(bs: seq<Match>): seq<(nat, nat)> {
    if bs == [] then [] else BlockPairs(bs[0]) + Pairs(bs[1..])
  }

  lemma {:induction false} BlockIsCommon(a: string, b: string, m: Match)
    requires m.a + m.size <= |a| && m.b + m.size <= |b| && Agree(a, b, m.a, m.b, m.size)
    ensures CommonSubsequence(a, b, BlockPairs(m))
  {
    var ps := BlockPairs(m);
    forall t | 0 <= t < m.size ensures a[ps[t].0] == b[ps[t].1] {
      AgreeAt(a, b, m.a, m.b, m.size, t);
    }
  }

  lemma {:induction false} CommonPartsJoin(a: string, b: string, head: seq<(nat, nat)>, tail: seq<(nat, nat)>)
    requires CommonSubsequence(a, b, head) && CommonSubsequence(a, b, tail)
    requires forall x, y :: 0 <= x < |head| && 0 <= y < |tail| ==> head[x].0 < tail[y].0 && head[x].1 < tail[y].1
    ensures CommonSubsequence(a, b, head + tail)
  {
  }

  lemma {:induction false} PairsAreCommon(a: string, b: string, bs: seq<Match>, alo: nat, blo: nat)
    requires alo <= |a| && blo <= |b|
    requires forall m :: m in bs ==> InBox(a, b, m, alo, |a|, blo, |b|)
    requires Ordered(bs)
    ensures var ps := Pairs(bs);
      && |ps| == TotalSize(bs) && CommonSubsequence(a, b, ps)
      && forall x :: 0 <= x < |ps| ==> alo <= ps[x].0 && blo <= ps[x].1
    decreases |bs|
  {
    hide Agree;
    if bs != [] {
      var m, rest := bs[0], bs[1..];
      assert InBox(a, b, m, alo, |a|, blo, |b|);
      forall n | n in rest ensures InBox(a, b, n, m.a + m.size, |a|, m.b + m.size, |b|) {
        var y :| 1 <= y < |bs| && bs[y] == n;
        assert Precedes(bs[0], bs[y]);
        assert InBox(a, b, n, alo, |a|, blo, |b|);
      }
      assert forall x, y :: 0 <= x < y < |rest| ==> rest[x] == bs[x + 1] && rest[y] == bs[y + 1];
      PairsAreCommon(a, b, rest, m.a + m.size, m.b + m.size);
      BlockIsCommon(a, b, m);
      CommonPartsJoin(a, b, BlockPairs(m), Pairs(rest));
    }
  }

  /** The characters M counts really occur, in order, in both strings. */
  lemma {:induction false} MatchCountIsCommon(a: string, b: string) returns (ps: seq<(nat, nat)>)
    ensures CommonSubsequence(a, b, ps) && |ps| == MatchCount(a, b)
  {
    var bs := Blocks(a, b, 0, |a|, 0, |b|);
    ps := Pairs(bs);
    PairsAreCommon(a, b, bs, 0, 0);
  }

  lemma {:induction false} PairBounds(a: string, b: string, ps: seq<(nat, nat)>, x: nat)
    requires CommonSubsequence(a, b, ps) && x < |ps|
    ensures x <= ps[x].0 <= |a| - |ps| + x
    ensures x <= ps[x].1 <= |b| - |ps| + x
  {
    PairLowerBound(a, b, ps, x);
    PairUpperBound(a, b, ps, x);
  }

  lemma {:induction false} PairLowerBound(a: string, b: string, ps: seq<(nat, nat)>, x: nat)
    requires CommonSubsequence(a, b, ps) && x < |ps|
    ensures x <= ps[x].0 && x <= ps[x].1
  {
    if x > 0 {
      PairLowerBound(a, b, ps, x - 1);
    }
  }

  lemma {:induction false} PairUpperBound(a: string, b: string, ps: seq<(nat, nat)>, x: nat)
    requires CommonSubsequence(a, b, ps) && x < |ps|
    ensures ps[x].0 <= |a| - |ps| + x && ps[x].1 <= |b| - |ps| + x
    decreases |ps| - x
  {
    if x + 1 < |ps| {
      PairUpperBound(a, b, ps, x + 1);
    }
  }

  lemma {:induction false} MatchCountBounds(a: string, b: string)
    ensures MatchCount(a, b) <= |a| && MatchCount(a, b) <= |b|
    ensures 0.0 <= Ratio(a, b) <= 1.0
  {
    var ps := MatchCountIsCommon(a, b);
    if |ps| > 0 {
      PairBounds(a, b, ps, 0);
    }
    if |a| + |b| > 0 {
      QuotientBounds(2 * MatchCount(a, b), |a| + |b|);
    }
  }

  lemma {:induction false} QuotientBounds(n: nat, d: nat)
    requires 0 < d && n <= d
    ensures 0.0 <= n as real / d as real <= 1.0
    ensures n as real / d as real == 1.0 <==> n == d
    ensures n as real / d as real == 0.0 <==> n == 0
  {
    var q := n as real / d as real;
    assert q * d as real == n as real;
    assert (q - 1.0) * d as real == n as real - d as real;
  }

  /** The ratio is 1 exactly for equal strings. */
  lemma {:induction false} RatioIsOne(a: string, b: string)
    ensures Ratio(a, b) == 1.0 <==> a == b
  {
    if |a| + |b| > 0 {
      var ps := MatchCountIsCommon(a, b);
      MatchCountBounds(a, b);
      QuotientBounds(2 * |ps|, |a| + |b|);
      if 2 * |ps| == |a| + |b| {
        forall x | 0 <= x < |a| ensures a[x] == b[x] {
          PairBounds(a, b, ps, x);
        }
      }
      if a == b {
        WholeMatch(a, b, 0);
      }
    }
  }

  /** When the first string occurs in the second one, the only block is that occurrence. */
  lemma {:induction false} WholeMatch(a: string, b: string, k: nat)
    requires 0 < |a| && k + |a| <= |b| && b[k..k + |a|] == a
    ensures var bs := Blocks(a, b, 0, |a|, 0, |b|);
      && |bs| == 1 && bs[0].a == 0 && bs[0].size == |a| && MatchCount(a, b) == |a|
  {
    var whole := Match(0, k, |a|);
    assert a[0..|a|] == a;
    AgreeFromSlices(a, b, 0, k, |a|);
    assert InBox(a, b, whole, 0, |a|, 0, |b|);
    LongestMatchIsDocumented(a, b, 0, |a|, 0, |b|, whole);
    var m := LongestMatch(a, b, 0, |a|, 0, |b|);
    assert m.a == 0 && m.size == |a|;
    assert Blocks(a, b, 0, 0, 0, m.b) == [];
    assert Blocks(a, b, |a|, |a|, m.b + |a|, |b|) == [];
    assert Blocks(a, b, 0, |a|, 0, |b|) == [m];
    assert TotalSize([m]) == m.size + TotalSize([]);
  }

  /** Some character is matched exactly when the strings share one. */
  lemma {:induction false} MatchCountIsPositive(a: string, b: string)
    ensures MatchCount(a, b) > 0 <==> exists c :: c in a && c in b
    ensures MatchCount(a, b) > 0 <==> Blocks(a, b, 0, |a|, 0, |b|) != []
  {
    var bs := Blocks(a, b, 0, |a|, 0, |b|);
    if bs != [] {
      var m := bs[0];
      assert m in bs;
      assert a[m.a] == b[m.b];
      assert a[m.a] in a && b[m.b] in b;
    }
    if c :| c in a && c in b {
      var i :| 0 <= i < |a| && a[i] == c;
      var j :| 0 <= j < |b| && b[j] == c;
      assert InBox(a, b, Match(i, j, 1), 0, |a|, 0, |b|);
      LongestMatchIsDocumented(a, b, 0, |a|, 0, |b|, Match(i, j, 1));
    }
  }

  /** The ratio of two strings that are not both empty is 0 exactly when they share no character. */
  lemma {:induction false} RatioIsZero(a: string, b: string)
    requires |a| + |b| > 0
    ensures Ratio(a, b) == 0.0 <==> forall c :: c in a ==> c !in b
  {
    MatchCountIsPositive(a, b);
    MatchCountBounds(a, b);
    QuotientBounds(2 * MatchCount(a, b), |a| + |b|);
  }
}
