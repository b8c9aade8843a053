/** The documentation of citation/verify.py promises two things of a coverage of 0.85: that it is a
    share of the quote, and, in the head of the file, that it is one contiguous run of the quote.
    The code measures a ratio of the shorter string. This module says for exactly which lengths of
    quote and text either promise is kept, and that the contiguous rule is never stricter. */
module QuotePromise {
  import opened Models
  import opened Difflib
  import opened CitationVerify

  /** At least k characters of the quote occur in order in one stretch of the text. */
  ghost predicate InOrder(q: string, t: string, k: nat) {
    exists window: string, ps: seq<(nat, nat)> ::
      Contains(t, window) && CommonSubsequence(q, window, ps) && |ps| >= k
  }

  /** One run of at least 0.85 of the quote occurs in the text. */
  ghost predicate ContiguousIn(q: string, t: string) {
    exists i: nat, k: nat :: i + k <= |q| && 20 * k >= 17 * |q| && OccursSomewhere(t, q, i, k)
  }

  ghost predicate OccursSomewhere(t: string, q: string, i: nat, k: nat)
    requires i + k <= |q|
  {
    Contains(t, q[i..i + k])
  }

  /** 0.85 of n characters, rounded up: the documented share. */
  function Share(n: nat): (k: nat)
    ensures k <= n && 20 * k >= 17 * n && 20 * k < 17 * n + 20
  {
    (17 * n + 19) / 20
  }

  /** 17/23 of n characters, rounded up: what a ratio of 0.85 against a window needs at least. */
  function Needed(n: nat): (k: nat)
    ensures k <= n && 23 * k >= 17 * n && 23 * k < 17 * n + 23
  {
    (17 * n + 22) / 23
  }

  function Min(m: nat, n: nat): nat { if m <= n then m else n }

  function Times(c: char, n: nat): (s: string)
    ensures |s| == n
    ensures forall i :: 0 <= i < n ==> s[i] == c
  {
    seq(n, i => c)
  }

  lemma {:induction false} SwapPairs(t: string, q: string, window: string, k: nat, ps: seq<(nat, nat)>)
    returns (qs: seq<(nat, nat)>)
    requires OccursAt(q, window, k) && CommonSubsequence(t, window, ps)
    ensures CommonSubsequence(q, t, qs) && |qs| == |ps|
  {
    qs := seq(|ps|, x requires 0 <= x < |ps| => (k + ps[x].1, ps[x].0));
    forall x | 0 <= x < |qs| ensures qs[x].0 < |q| && qs[x].1 < |t| && q[qs[x].0] == t[qs[x].1] {
      assert window[ps[x].1] == q[k..k + |window|][ps[x].1];
    }
  }

  lemma {:induction false} NeededIsShared(q: string, t: string)
    requires Coverage(q, t) >= MATCH_THRESHOLD
    ensures InOrder(q, t, Needed(Min(|q|, |t|)))
  {
    var window, ps := CoverageIsSound(q, t);
    assert |ps| >= Needed(Min(|q|, |t|));
    if |q| > |t| {
      var k: nat :| k <= |q| && OccursAt(q, window, k);
      var qs := SwapPairs(t, q, window, k, ps);
      assert OccursAt(t, t, 0);
    }
  }

  // ----- a pair that shares as little as the threshold allows -----

  /** Needed(n) letters a and then letters b. */
  function ShortText(n: nat): (t: string)
    ensures |t| == n
  {
    Times('a', Needed(n)) + Times('b', n - Needed(n))
  }

  /** Letters c and then as many letters a as ShortText(n) has. */
  function LongQuote(m: nat, n: nat): (q: string)
    requires n <= m
    ensures |q| == m
  {
    Times('c', m - Needed(n)) + Times('a', Needed(n))
  }

  lemma {:induction false} OnlyTheLettersAgree(m: nat, n: nat, b: Match)
    requires 0 < n <= m && InBox(ShortText(n), LongQuote(m, n), b, 0, n, 0, m)
    ensures b.a + b.size <= Needed(n) && m - Needed(n) <= b.b
  {
    var t, q := ShortText(n), LongQuote(m, n);
    AgreeAt(t, q, b.a, b.b, b.size, 0);
    AgreeAt(t, q, b.a, b.b, b.size, b.size - 1);
  }

  lemma {:induction false} LettersAreTheBlock(m: nat, n: nat)
    requires 0 < n <= m
    ensures LongestMatch(ShortText(n), LongQuote(m, n), 0, n, 0, m) == Match(0, m - Needed(n), Needed(n))
  {
    var t, q, k := ShortText(n), LongQuote(m, n), Needed(n);
    var letters := Match(0, m - k, k);
    assert t[0..0 + k] == q[m - k..m - k + k];
    AgreeFromSlices(t, q, 0, m - k, k);
    assert InBox(t, q, letters, 0, n, 0, m);
    forall other: Match | InBox(t, q, other, 0, n, 0, m)
      ensures other.size < k || (other.size == k && (0 < other.a || (0 == other.a && m - k <= other.b)))
    {
      OnlyTheLettersAgree(m, n, other);
    }
    assert IsDocumentedLongest(t, q, 0, n, 0, m, letters);
    LongestMatchIsDocumented(t, q, 0, n, 0, m, letters);
  }

  lemma {:induction false} TotalSizeOfParts(left: seq<Match>, right: seq<Match>)
    ensures TotalSize(left + right) == TotalSize(left) + TotalSize(right)
    decreases |left|
  {
    if left == [] {
      assert left + right == right;
    } else {
      assert (left + right)[1..] == left[1..] + right;
      TotalSizeOfParts(left[1..], right);
    }
  }

  lemma {:induction false} SizeOfMiddle(left: seq<Match>, m: Match, right: seq<Match>)
    ensures TotalSize(left + [m] + right) >= m.size
  {
    TotalSizeOfParts(left, [m] + right);
    assert left + [m] + right == left + ([m] + right);
    assert ([m] + right)[0] == m;
  }

  lemma {:induction false} BlocksAround(a: string, b: string, alo: nat, ahi: nat, blo: nat, bhi: nat)
    requires Box(a, b, alo, ahi, blo, bhi) && LongestMatch(a, b, alo, ahi, blo, bhi).size > 0
    ensures var m := LongestMatch(a, b, alo, ahi, blo, bhi);
      Blocks(a, b, alo, ahi, blo, bhi) ==
        Blocks(a, b, alo, m.a, blo, m.b) + [m] + Blocks(a, b, m.a + m.size, ahi, m.b + m.size, bhi)
  {
    hide LongestMatch, InBox, Agree, Ordered, Separated;
  }

  lemma {:induction false} LongestCounts(a: string, b: string, alo: nat, ahi: nat, blo: nat, bhi: nat)
    requires Box(a, b, alo, ahi, blo, bhi) && LongestMatch(a, b, alo, ahi, blo, bhi).size > 0
    ensures TotalSize(Blocks(a, b, alo, ahi, blo, bhi)) >= LongestMatch(a, b, alo, ahi, blo, bhi).size
  {
    hide Blocks, LongestMatch, TotalSize, Ordered, Separated, Agree, InBox;
    var best := LongestMatch(a, b, alo, ahi, blo, bhi);
    BlocksAround(a, b, alo, ahi, blo, bhi);
    SizeOfMiddle(Blocks(a, b, alo, best.a, blo, best.b), best,
                 Blocks(a, b, best.a + best.size, ahi, best.b + best.size, bhi));
  }

  /** The blocks of a rectangle cover at least the size of any one block agreeing in it. */
  lemma {:induction false} BlocksCoverBlock(a: string, b: string, alo: nat, ahi: nat, blo: nat, bhi: nat, m: Match)
    requires Box(a, b, alo, ahi, blo, bhi) && InBox(a, b, m, alo, ahi, blo, bhi)
    ensures TotalSize(Blocks(a, b, alo, ahi, blo, bhi)) >= m.size
  {
    hide LongestMatch, Agree, Blocks;
    LongestMatchIsDocumented(a, b, alo, ahi, blo, bhi, m);
    LongestCounts(a, b, alo, ahi, blo, bhi);
  }

  /** M is at least the size of any one agreeing block. */
  lemma {:induction false} MatchCountCoversBlock(a: string, b: string, m: Match)
    requires InBox(a, b, m, 0, |a|, 0, |b|)
    ensures MatchCount(a, b) >= m.size
  {
    hide Blocks, InBox;
    BlocksCoverBlock(a, b, 0, |a|, 0, |b|, m);
  }

  lemma {:induction false} QuotientReaches(n: nat, d: nat)
    requires d > 0 && 20 * n >= 17 * d
    ensures n as real / d as real >= MATCH_THRESHOLD
  {
    ShareReaches(n as real, d as real);
  }

  lemma {:induction false} ShareReaches(n: real, d: real)
    requires d > 0.0 && 20.0 * n >= 17.0 * d
    ensures n / d >= 0.85
  {
    assert n / d * d == n;
    assert (n / d - 0.85) * d == n - 0.85 * d;
  }

  lemma {:induction false} LettersScore(m: nat, n: nat)
    requires 0 < n <= m
    ensures Ratio(ShortText(n), Times('a', Needed(n))) >= MATCH_THRESHOLD
  {
    var t, w, k := ShortText(n), Times('a', Needed(n)), Needed(n);
    assert t[0..0 + k] == w[0..0 + k];
    AgreeFromSlices(t, w, 0, 0, k);
    hide MatchCount, Agree, ShortText, Times;
    MatchCountCoversBlock(t, w, Match(0, 0, k));
    QuotientReaches(2 * MatchCount(t, w), n + k);
  }

  lemma {:induction false} LettersAreAligned(m: nat, n: nat)
    requires 0 < n <= m
    ensures Match(0, m - Needed(n), Needed(n)) in Alignments(ShortText(n), LongQuote(m, n))
  {
    hide InBox, Ordered, Separated, ShortText, LongQuote, LongestMatch;
    var t, q, k := ShortText(n), LongQuote(m, n), Needed(n);
    var letters := Match(0, m - k, k);
    LettersAreTheBlock(m, n);
    BlocksAround(t, q, 0, n, 0, m);
    assert Blocks(t, q, 0, n, 0, m) == Blocks(t, q, 0, 0, 0, m - k) + [letters] + Blocks(t, q, k, n, m, m);
  }

  /** The pair reaches the threshold whichever of the two is the quote. */
  lemma {:induction false} LettersVerify(m: nat, n: nat)
    requires 0 < n <= m
    ensures Coverage(ShortText(n), LongQuote(m, n)) >= MATCH_THRESHOLD
    ensures n < m ==> Coverage(LongQuote(m, n), ShortText(n)) >= MATCH_THRESHOLD
  {
    hide Alignments, Blocks, Ratio, Scan;
    var t, q, k := ShortText(n), LongQuote(m, n), Needed(n);
    LettersAreAligned(m, n);
    assert Window(t, q, Match(0, m - k, k)) == Times('a', k);
    LettersScore(m, n);
    EarlyStopKeepsVerdict(q, t);
    EarlyStopKeepsVerdict(t, q);
  }

  lemma {:induction false} PairsStartAt(q: string, t: string, ps: seq<(nat, nat)>, from: nat, x: nat)
    requires CommonSubsequence(q, t, ps) && x < |ps| && forall y :: 0 <= y < |ps| ==> from <= ps[y].0
    ensures from + x <= ps[x].0
  {
    if x > 0 {
      PairsStartAt(q, t, ps, from, x - 1);
      assert ps[x - 1].0 < ps[x].0;
    }
  }

  lemma {:induction false} LongQuoteHoldsLittle(m: nat, n: nat, k: nat)
    requires 0 < n <= m && InOrder(LongQuote(m, n), ShortText(n), k)
    ensures k <= Needed(n)
  {
    var t, q, most := ShortText(n), LongQuote(m, n), Needed(n);
    var window: string, ps: seq<(nat, nat)> :|
      Contains(t, window) && CommonSubsequence(q, window, ps) && |ps| >= k;
    var at: nat :| at <= |t| && OccursAt(t, window, at);
    forall y | 0 <= y < |ps| ensures m - most <= ps[y].0 {
      assert window[ps[y].1] == t[at..at + |window|][ps[y].1] == t[at + ps[y].1];
      assert q[ps[y].0] in {'a', 'b'};
    }
    if |ps| > 0 {
      PairsStartAt(q, window, ps, m - most, |ps| - 1);
    }
  }

  lemma {:induction false} ShortQuoteHoldsLittle(m: nat, n: nat, k: nat)
    requires 0 < n <= m && InOrder(ShortText(n), LongQuote(m, n), k)
    ensures k <= Needed(n)
  {
    var q, t, most := ShortText(n), LongQuote(m, n), Needed(n);
    var window: string, ps: seq<(nat, nat)> :|
      Contains(t, window) && CommonSubsequence(q, window, ps) && |ps| >= k;
    var at: nat :| at <= |t| && OccursAt(t, window, at);
    if |ps| > 0 {
      var y := |ps| - 1;
      assert window[ps[y].1] == t[at..at + |window|][ps[y].1] == t[at + ps[y].1];
      assert q[ps[y].0] in {'a', 'c'};
      PairsStartAt(q, window, ps, 0, y);
    }
  }

  // ----- how much of the quote a coverage of 0.85 guarantees -----

  /** Of all quotes of m and texts of n characters exactly this much is guaranteed: 17/23 of the
      shorter one, rounded up. */
  lemma {:induction false} ExactlyNeededIsGuaranteed(m: nat, n: nat, k: nat)
    requires m > 0 && n > 0
    ensures (forall q: string, t: string :: |q| == m && |t| == n && Coverage(q, t) >= MATCH_THRESHOLD ==>
               InOrder(q, t, k))
      <==> k <= Needed(Min(m, n))
  {
    hide Coverage, Needed, ShortText, LongQuote;
    if k <= Needed(Min(m, n)) {
      forall q: string, t: string | |q| == m && |t| == n && Coverage(q, t) >= MATCH_THRESHOLD
        ensures InOrder(q, t, k)
      {
        NeededIsShared(q, t);
      }
    } else if m <= n {
      LettersVerify(n, m);
      if InOrder(ShortText(m), LongQuote(n, m), k) {
        ShortQuoteHoldsLittle(n, m, k);
      }
    } else {
      LettersVerify(m, n);
      if InOrder(LongQuote(m, n), ShortText(n), k) {
        LongQuoteHoldsLittle(m, n, k);
      }
    }
  }

  lemma {:induction false} NothingVerifiesEmpty(q: string, t: string)
    requires q == "" || t == ""
    ensures Coverage(q, t) < MATCH_THRESHOLD
  {
  }

  lemma {:induction false} ShareAgainstNeeded(m: nat, n: nat)
    requires m > 0 && n > 0
    ensures Share(m) <= Needed(Min(m, n)) <==> m <= n && (m <= 3 || m == 7)
  {
  }

  /** The documented promise, 0.85 of the quote, holds of all quotes of m and all texts of n
      characters exactly for quotes of up to three or of seven characters in texts no shorter than
      they are. For any other length the window cut off at the end of the longer string lets a
      smaller share pass. */
  lemma {:induction false} PromiseHoldsExactlyWhen(m: nat, n: nat)
    ensures (forall q: string, t: string :: |q| == m && |t| == n && Coverage(q, t) >= MATCH_THRESHOLD ==>
               InOrder(q, t, Share(m)))
      <==> n == 0 || (m <= n && (m <= 3 || m == 7))
  {
    hide Coverage, InOrder, Share;
    if m > 0 && n > 0 {
      ExactlyNeededIsGuaranteed(m, n, Share(m));
      ShareAgainstNeeded(m, n);
    } else {
      forall q: string, t: string | |q| == m && |t| == n ensures Coverage(q, t) < MATCH_THRESHOLD {
        NothingVerifiesEmpty(q, t);
      }
    }
  }

  /** What is left of it: 17/23 of the quote, for every text no shorter than the quote, and for a
      shorter one exactly while 17/23 of it, rounded up, still is 17/23 of the quote. */
  lemma {:induction false} WeakerShareHoldsExactlyWhen(m: nat, n: nat)
    ensures (forall q: string, t: string :: |q| == m && |t| == n && Coverage(q, t) >= MATCH_THRESHOLD ==>
               InOrder(q, t, Needed(m)))
      <==> n == 0 || Needed(m) <= Needed(n)
    ensures m <= n ==> Needed(m) <= Needed(n)
  {
    hide Coverage, InOrder;
    if m > 0 && n > 0 {
      ExactlyNeededIsGuaranteed(m, n, Needed(m));
    } else {
      forall q: string, t: string | |q| == m && |t| == n ensures Coverage(q, t) < MATCH_THRESHOLD {
        NothingVerifiesEmpty(q, t);
      }
    }
  }

  // ----- one contiguous run -----

  lemma {:induction false} WindowHoldsItsBlock(s: string, l: string, m: Match)
    requires |s| <= |l| && InBox(s, l, m, 0, |s|, 0, |l|)
    ensures var w, start := Window(s, l, m), if m.b < m.a then 0 else m.b - m.a;
      start <= m.b && InBox(s, w, Match(m.a, m.b - start, m.size), 0, |s|, 0, |w|)
  {
    var w, start := Window(s, l, m), if m.b < m.a then 0 else m.b - m.a;
    var here, there := s[m.a..m.a + m.size], w[m.b - start..m.b - start + m.size];
    forall x | 0 <= x < m.size ensures here[x] == there[x] {
      AgreeAt(s, l, m.a, m.b, m.size, x);
    }
    assert here == there;
    AgreeFromSlices(s, w, m.a, m.b - start, m.size);
  }

  lemma {:induction false} LongBlockScores(s: string, l: string, m: Match)
    requires |s| <= |l| && InBox(s, l, m, 0, |s|, 0, |l|) && 20 * m.size >= 17 * |s|
    ensures AlignmentRatio(s, l, m) >= MATCH_THRESHOLD
  {
    WindowHoldsItsBlock(s, l, m);
    hide MatchCount, Agree;
    var w, start := Window(s, l, m), if m.b < m.a then 0 else m.b - m.a;
    MatchCountCoversBlock(s, w, Match(m.a, m.b - start, m.size));
    QuotientReaches(2 * MatchCount(s, w), |s| + |w|);
  }

  lemma {:induction false} LongestIsAligned(s: string, l: string)
    requires LongestMatch(s, l, 0, |s|, 0, |l|).size > 0
    ensures LongestMatch(s, l, 0, |s|, 0, |l|) in Alignments(s, l)
  {
    BlocksAround(s, l, 0, |s|, 0, |l|);
    hide LongestMatch, InBox, Agree, Ordered, Separated, Blocks;
  }

  lemma {:induction false} LongRunVerifies(s: string, l: string, m: Match)
    requires |s| <= |l| && InBox(s, l, m, 0, |s|, 0, |l|) && 20 * m.size >= 17 * |s|
    ensures exists n :: n in Alignments(s, l) && AlignmentRatio(s, l, n) >= MATCH_THRESHOLD
  {
    hide LongestMatch, Agree, AlignmentRatio, Alignments;
    var best := LongestMatch(s, l, 0, |s|, 0, |l|);
    LongestMatchIsDocumented(s, l, 0, |s|, 0, |l|, m);
    LongestIsAligned(s, l);
    LongBlockScores(s, l, best);
  }

  /** The contiguous rule is never stricter than the code: a quote of which one run of at least 0.85
      occurs in the text always reaches the threshold. */
  lemma {:induction false} ContiguousRunVerifies(q: string, t: string)
    requires q != "" && ContiguousIn(q, t)
    ensures Coverage(q, t) >= MATCH_THRESHOLD
  {
    var i: nat, k: nat :| i + k <= |q| && 20 * k >= 17 * |q| && OccursSomewhere(t, q, i, k);
    var run := q[i..i + k];
    var j: nat :| j <= |t| && OccursAt(t, run, j);
    if |q| <= |t| {
      AgreeFromSlices(q, t, i, j, k);
      LongRunVerifies(q, t, Match(i, j, k));
    } else {
      AgreeFromSlices(t, q, j, i, k);
      LongRunVerifies(t, q, Match(j, i, k));
    }
    EarlyStopKeepsVerdict(q, t);
  }

  lemma {:induction false} RunPairs(q: string, i: nat, k: nat) returns (ps: seq<(nat, nat)>)
    requires i + k <= |q|
    ensures CommonSubsequence(q, q[i..i + k], ps) && |ps| == k
  {
    ps := seq(k, x requires 0 <= x < k => (i + x, x));
  }

  lemma {:induction false} RunIsInOrder(q: string, t: string)
    requires ContiguousIn(q, t)
    ensures InOrder(q, t, Share(|q|))
  {
    var i: nat, k: nat :| i + k <= |q| && 20 * k >= 17 * |q| && OccursSomewhere(t, q, i, k);
    hide CommonSubsequence;
    var ps := RunPairs(q, i, k);
    assert Contains(t, q[i..i + k]) && k >= Share(|q|);
  }

  lemma {:induction false} WholePairing(q: string, w: string, ps: seq<(nat, nat)>)
    requires CommonSubsequence(q, w, ps) && 0 < |q| <= |ps| && |w| <= |q|
    ensures q == w
  {
    PairBounds(q, w, ps, 0);
    forall x | 0 <= x < |q| ensures q[x] == w[x] {
      PairBounds(q, w, ps, x);
    }
  }

  lemma {:induction false} SmallQuotesOccur(q: string, t: string)
    requires 0 < |q| <= 3 && |q| <= |t| && Coverage(q, t) >= MATCH_THRESHOLD
    ensures ContiguousIn(q, t)
  {
    hide Coverage;
    var window, ps := QuoteOccursInText(q, t);
    assert |ps| >= |q|;
    WholePairing(q, window, ps);
    assert q == q[0..0 + |q|];
    assert OccursSomewhere(t, q, 0, |q|);
  }

  /** Seven characters with one wrong in the middle, and more text behind. */
  const TYPO_QUOTE: string := "aaabccc"

  function TypoText(n: nat): (t: string)
    requires n >= 7
    ensures |t| == n
  {
    "aaadccc" + Times('e', n - 7)
  }

  lemma {:induction false} TypoBlock(t: string)
    requires |t| >= 7 && t[..7] == "aaadccc" && 'b' !in t
    ensures LongestMatch(TYPO_QUOTE, t, 0, 7, 0, |t|) == Match(0, 0, 3)
  {
    var q, first := TYPO_QUOTE, Match(0, 0, 3);
    assert forall x :: 0 <= x < 7 ==> t[x] == t[..7][x];
    assert q[0..0 + 3] == "aaa" == t[0..0 + 3];
    AgreeFromSlices(q, t, 0, 0, 3);
    assert InBox(q, t, first, 0, 7, 0, |t|);
    forall other: Match | InBox(q, t, other, 0, 7, 0, |t|) ensures other.size <= 3 {
      if other.size >= 4 {
        AgreeAt(q, t, other.a, other.b, other.size, 3 - other.a);
      }
    }
    assert IsDocumentedLongest(q, t, 0, 7, 0, |t|, first);
    LongestMatchIsDocumented(q, t, 0, 7, 0, |t|, first);
  }

  lemma {:induction false} TypoTail(w: string)
    requires w == "aaadccc"
    ensures TotalSize(Blocks(TYPO_QUOTE, w, 3, 7, 3, 7)) >= 3
  {
    var q := TYPO_QUOTE;
    assert q[4..4 + 3] == "ccc" == w[4..4 + 3];
    AgreeFromSlices(q, w, 4, 4, 3);
    assert InBox(q, w, Match(4, 4, 3), 3, 7, 3, 7);
    hide Blocks, LongestMatch;
    BlocksCoverBlock(q, w, 3, 7, 3, 7, Match(4, 4, 3));
  }

  /** M is at least the longest match and what lies behind it. */
  lemma {:induction false} LongestAndBehind(a: string, b: string)
    requires LongestMatch(a, b, 0, |a|, 0, |b|).size > 0
    ensures var m := LongestMatch(a, b, 0, |a|, 0, |b|);
      MatchCount(a, b) >= m.size + TotalSize(Blocks(a, b, m.a + m.size, |a|, m.b + m.size, |b|))
  {
    hide LongestMatch, Agree, Blocks, Ordered, Separated, TotalSize, InBox;
    var m := LongestMatch(a, b, 0, |a|, 0, |b|);
    BlocksAround(a, b, 0, |a|, 0, |b|);
    TwoParts(Blocks(a, b, 0, m.a, 0, m.b), m, Blocks(a, b, m.a + m.size, |a|, m.b + m.size, |b|));
  }

  lemma {:induction false} TypoMatches(w: string)
    requires w == "aaadccc"
    ensures MatchCount(TYPO_QUOTE, w) >= 6
  {
    hide MatchCount, Blocks, TotalSize, LongestMatch;
    assert w[..7] == w;
    TypoBlock(w);
    TypoTail(w);
    LongestAndBehind(TYPO_QUOTE, w);
  }

  lemma {:induction false} TwoParts(left: seq<Match>, m: Match, right: seq<Match>)
    ensures TotalSize(left + [m] + right) >= m.size + TotalSize(right)
  {
    hide TotalSize;
    TotalSizeOfParts(left + [m], right);
    SizeOfMiddle(left, m, []);
    assert left + [m] + [] == left + [m];
  }

  lemma {:induction false} TypoIsAligned(t: string)
    requires |t| >= 7 && t[..7] == "aaadccc" && 'b' !in t
    ensures Match(0, 0, 3) in Alignments(TYPO_QUOTE, t)
    ensures Window(TYPO_QUOTE, t, Match(0, 0, 3)) == "aaadccc"
  {
    TypoBlock(t);
    hide LongestMatch, Alignments, Blocks;
    LongestIsAligned(TYPO_QUOTE, t);
  }

  lemma {:induction false} TypoScores(w: string)
    requires w == "aaadccc"
    ensures Ratio(TYPO_QUOTE, w) >= MATCH_THRESHOLD
  {
    TypoMatches(w);
    hide MatchCount;
    QuotientReaches(2 * MatchCount(TYPO_QUOTE, w), 14);
  }

  lemma {:induction false} TypoVerifies(n: nat)
    requires n >= 7
    ensures Coverage(TYPO_QUOTE, TypoText(n)) >= MATCH_THRESHOLD
  {
    var t := TypoText(n);
    assert t[..7] == "aaadccc" && 'b' !in t;
    hide Alignments, Ratio, Window, Scan, TypoText;
    TypoIsAligned(t);
    TypoScores("aaadccc");
    EarlyStopKeepsVerdict(TYPO_QUOTE, t);
  }

  lemma {:induction false} TypoHasNoRun(n: nat)
    requires n >= 7
    ensures !ContiguousIn(TYPO_QUOTE, TypoText(n))
  {
    var q, t := TYPO_QUOTE, TypoText(n);
    assert 'b' !in t;
    forall i: nat, k: nat | i + k <= |q| && 20 * k >= 17 * |q| ensures !OccursSomewhere(t, q, i, k) {
      assert q[i..i + k][3 - i] == q[3] == 'b';
    }
  }

  lemma {:induction false} TypoLengths(n: nat)
    requires n >= 7
    ensures |TYPO_QUOTE| == 7 && |TypoText(n)| == n
  {
  }

  /** The contiguous rule follows from the code's verdict, for all quotes of m and texts of n
      characters, exactly for quotes of up to three characters in texts no shorter: for longer ones a
      cut-off window or a single wrong character passes without such a run. */
  lemma {:induction false} ContiguousExactlyWhen(m: nat, n: nat)
    ensures (forall q: string, t: string :: |q| == m && |t| == n && Coverage(q, t) >= MATCH_THRESHOLD ==>
               ContiguousIn(q, t))
      <==> n == 0 || (m <= n && m <= 3)
  {
    hide Coverage, InOrder, ContiguousIn, Share, TYPO_QUOTE, TypoText;
    if n == 0 || m == 0 {
      forall q: string, t: string | |q| == m && |t| == n ensures Coverage(q, t) < MATCH_THRESHOLD {
        NothingVerifiesEmpty(q, t);
      }
    } else if m <= n && m <= 3 {
      forall q: string, t: string | |q| == m && |t| == n && Coverage(q, t) >= MATCH_THRESHOLD
        ensures ContiguousIn(q, t)
      {
        SmallQuotesOccur(q, t);
      }
    } else if m == 7 && m <= n {
      TypoLengths(n);
      TypoVerifies(n);
      TypoHasNoRun(n);
    } else {
      PromiseHoldsExactlyWhen(m, n);
      var q: string, t: string :| |q| == m && |t| == n && Coverage(q, t) >= MATCH_THRESHOLD && !InOrder(q, t, Share(m));
      if ContiguousIn(q, t) {
        RunIsInOrder(q, t);
      }
    }
  }
}
