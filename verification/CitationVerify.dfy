/** Verbatim citation checking, split by where a claim's sources come from (citation/verify.py). */
module CitationVerify {
  import opened Models
  import opened Difflib

  const MATCH_THRESHOLD: real := 0.85

  /** A ratio at which the scan over alignments stops looking further. */
  const GOOD_ENOUGH: real := 0.999

  // ----- quote coverage -----

  /** The stretch of the longer string that the shorter one lines up with at block m. */
  function Window(shorter: string, longer: string, m: Match): (w: string)
    requires m.b <= |longer|
    ensures |w| <= |shorter|
    ensures Contains(longer, w)
  {
    var start := if m.b < m.a then 0 else m.b - m.a;
    var end := if start + |shorter| < |longer| then start + |shorter| else |longer|;
    assert OccursAt(longer, longer[start..end], start);
    longer[start..end]
  }

  /** All the alignments tried: one per matching block, then the library's closing entry. */
  function Alignments(shorter: string, longer: string): (bs: seq<Match>)
    ensures forall m :: m in bs ==> m.b <= |longer|
  {
    var bs := Blocks(shorter, longer, 0, |shorter|, 0, |longer|);
    assert forall m :: m in bs ==> InBox(shorter, longer, m, 0, |shorter|, 0, |longer|);
    bs + [Match(|shorter|, |longer|, 0)]
  }

  ghost predicate WithinText(longer: string, bs: seq<Match>) {
    forall m :: m in bs ==> m.b <= |longer|
  }

  function AlignmentRatio(shorter: string, longer: string, m: Match): real
    requires m.b <= |longer|
  {
    Ratio(shorter, Window(shorter, longer, m))
  }

  /** The scan: keep the best ratio so far, stop once it is good enough. */
  function Scan(shorter: string, longer: string, bs: seq<Match>, best: real): real
    requires forall m :: m in bs ==> m.b <= |longer|
  {
    if bs == [] then best
    else
      var r := AlignmentRatio(shorter, longer, bs[0]);
      if r <= best then Scan(shorter, longer, bs[1..], best)
      else if r >= GOOD_ENOUGH then r
      else Scan(shorter, longer, bs[1..], r)
  }

  /** _quote_coverage on the stripped and lowercased strings. */
  function Coverage(q: string, t: string): real {
    if q == "" || t == "" then 0.0
    else
      var shorter, longer := Shorter(q, t), Longer(q, t);
      Scan(shorter, longer, Alignments(shorter, longer), 0.0)
  }

  function Shorter(q: string, t: string): string { if |q| <= |t| then q else t }

  function Longer(q: string, t: string): string { if |q| <= |t| then t else q }

  function Fold(tools: TextTools, s: string): string { tools.lower(tools.strip(s)) }

  method QuoteCoverage(tools: TextTools, quote: string, text: string) returns (best: real)
    ensures best == Coverage(Fold(tools, quote), Fold(tools, text))
  {
    var q := tools.lower(tools.strip(quote));
    var t := tools.lower(tools.strip(text));
    if q == "" || t == "" {
      return 0.0;
    }
    var shorter, longer := Shorter(q, t), Longer(q, t);
    best := 0.0;
    var bs := Alignments(shorter, longer);
    var k := 0;
    while k < |bs|
      invariant 0 <= k <= |bs|
      invariant Scan(shorter, longer, bs[k..], best) == Scan(shorter, longer, bs, 0.0)
    {
      assert bs[k] in bs && bs[k..][0] == bs[k] && bs[k..][1..] == bs[k + 1..];
      var r := AlignmentRatio(shorter, longer, bs[k]);
      if r > best {
        best := r;
        if best >= GOOD_ENOUGH {
          return;
        }
      }
      k := k + 1;
    }
  }

  /** The scan answers the starting value or the ratio of one alignment, and no alignment
      beats it unless it already is good enough. */
  lemma {:induction false} ScanFindsBest(shorter: string, longer: string, bs: seq<Match>, best: real)
    requires WithinText(longer, bs)
    ensures var c := Scan(shorter, longer, bs, best);
      && best <= c
      && (c == best || exists m :: m in bs && AlignmentRatio(shorter, longer, m) == c)
      && (c >= GOOD_ENOUGH || forall m :: m in bs ==> AlignmentRatio(shorter, longer, m) <= c)
    decreases |bs|
  {
    if bs != [] {
      var r := AlignmentRatio(shorter, longer, bs[0]);
      var c := Scan(shorter, longer, bs, best);
      assert bs[0] in bs;
      assert forall m :: m in bs ==> m == bs[0] || m in bs[1..];
      ScanFindsBest(shorter, longer, bs[1..], if r <= best then best else r);
    }
  }

  /** Stopping early never changes the verdict: the coverage reaches the threshold exactly
      when some alignment does. */
  lemma {:induction false} EarlyStopKeepsVerdict(q: string, t: string)
    requires q != "" && t != ""
    ensures Coverage(q, t) >= MATCH_THRESHOLD <==>
      exists m :: m in Alignments(Shorter(q, t), Longer(q, t))
        && AlignmentRatio(Shorter(q, t), Longer(q, t), m) >= MATCH_THRESHOLD
  {
    ScanFindsBest(Shorter(q, t), Longer(q, t), Alignments(Shorter(q, t), Longer(q, t)), 0.0);
  }

  /** What the coverage is: the ratio of one alignment, and of the best one unless that already reaches 0.999. */
  lemma {:induction false} CoverageIsBest(q: string, t: string)
    requires q != "" && t != ""
    ensures var shorter, longer, c := Shorter(q, t), Longer(q, t), Coverage(q, t);
      var bs := Alignments(shorter, longer);
      && (c == 0.0 || exists m :: m in bs && AlignmentRatio(shorter, longer, m) == c)
      && (c < 0.999 ==> forall m :: m in bs ==> AlignmentRatio(shorter, longer, m) <= c)
  {
    ScanFindsBest(Shorter(q, t), Longer(q, t), Alignments(Shorter(q, t), Longer(q, t)), 0.0);
  }

  lemma {:induction false} CoverageRange(q: string, t: string)
    ensures 0.0 <= Coverage(q, t) <= 1.0
  {
    if q != "" && t != "" {
      var shorter, longer := Shorter(q, t), Longer(q, t);
      ScanFindsBest(shorter, longer, Alignments(shorter, longer), 0.0);
      forall m | m in Alignments(shorter, longer) ensures AlignmentRatio(shorter, longer, m) <= 1.0 {
        MatchCountBounds(shorter, Window(shorter, longer, m));
      }
    }
  }

  /** Soundness: a coverage at the threshold comes with one stretch of the longer string, no
      longer than the shorter string, in which at least 17/23 of the shorter string occurs in order. */
  lemma {:induction false} CoverageIsSound(q: string, t: string) returns (window: string, ps: seq<(nat, nat)>)
    requires Coverage(q, t) >= MATCH_THRESHOLD
    ensures Contains(Longer(q, t), window) && |window| <= |Shorter(q, t)|
    ensures CommonSubsequence(Shorter(q, t), window, ps)
    ensures 23 * |ps| >= 17 * |Shorter(q, t)| > 0
  {
    EarlyStopKeepsVerdict(q, t);
    var shorter, longer := Shorter(q, t), Longer(q, t);
    var m :| m in Alignments(shorter, longer) && AlignmentRatio(shorter, longer, m) >= MATCH_THRESHOLD;
    window := Window(shorter, longer, m);
    ps := MatchCountIsCommon(shorter, window);
    MatchCountBounds(shorter, window);
    RatioAtThreshold(2 * |ps|, |shorter| + |window|);
  }

  lemma {:induction false} RatioAtThreshold(n: nat, d: nat)
    requires 0 < d && n as real / d as real >= MATCH_THRESHOLD
    ensures 20 * n >= 17 * d
  {
    var x := n as real / d as real;
    assert x * d as real == n as real;
    assert (x - 0.85) * d as real >= 0.0;
    assert 20.0 * n as real >= 17.0 * d as real;
  }

  /** For a quote no longer than the text it is the quote itself that is found in the text. */
  lemma {:induction false} QuoteOccursInText(q: string, t: string) returns (window: string, ps: seq<(nat, nat)>)
    requires Coverage(q, t) >= MATCH_THRESHOLD && |q| <= |t|
    ensures Contains(t, window) && |window| <= |q|
    ensures CommonSubsequence(q, window, ps) && 23 * |ps| >= 17 * |q|
  {
    window, ps := CoverageIsSound(q, t);
  }

  lemma {:induction false} OccurrenceIsAligned(shorter: string, longer: string, k: nat)
    requires shorter != "" && OccursAt(longer, shorter, k)
    ensures Window(shorter, longer, Alignments(shorter, longer)[0]) == shorter
  {
    WholeMatch(shorter, longer, k);
    var m := Blocks(shorter, longer, 0, |shorter|, 0, |longer|)[0];
    assert InBox(shorter, longer, m, 0, |shorter|, 0, |longer|);
    forall x | 0 <= x < |shorter| ensures longer[m.b + x] == shorter[x] {
      AgreeAt(shorter, longer, 0, m.b, |shorter|, x);
    }
  }

  /** Completeness: coverage is 1 exactly when the shorter string occurs in the longer one. */
  lemma {:induction false} CoverageIsOne(q: string, t: string)
    requires q != "" && t != ""
    ensures Coverage(q, t) == 1.0 <==> Contains(Longer(q, t), Shorter(q, t))
  {
    var shorter, longer := Shorter(q, t), Longer(q, t);
    var bs := Alignments(shorter, longer);
    if Contains(longer, shorter) {
      var k: nat :| OccursAt(longer, shorter, k);
      OccurrenceIsAligned(shorter, longer, k);
      RatioIsOne(shorter, shorter);
      assert bs[0] in bs;
    } else {
      ScanFindsBest(shorter, longer, bs, 0.0);
      if m :| m in bs && AlignmentRatio(shorter, longer, m) == 1.0 {
        RatioIsOne(shorter, Window(shorter, longer, m));
      }
    }
  }

  lemma {:induction false} AgreeingBlockScores(shorter: string, longer: string, m: Match)
    requires m.a < |shorter| && m.b < |longer| && shorter[m.a] == longer[m.b]
    ensures AlignmentRatio(shorter, longer, m) > 0.0
  {
    var w := Window(shorter, longer, m);
    var at := if m.b < m.a then m.b else m.a;
    assert w[at] == longer[m.b] == shorter[m.a];
    assert shorter[m.a] in shorter && w[at] in w;
    RatioIsZero(shorter, w);
    MatchCountBounds(shorter, w);
  }

  lemma {:induction false} SharedCharacterIsAligned(shorter: string, longer: string, c: char) returns (m: Match)
    requires c in shorter && c in longer
    ensures m in Alignments(shorter, longer) && AlignmentRatio(shorter, longer, m) > 0.0
  {
    MatchCountIsPositive(shorter, longer);
    var bs := Blocks(shorter, longer, 0, |shorter|, 0, |longer|);
    m := bs[0];
    assert m in bs && InBox(shorter, longer, m, 0, |shorter|, 0, |longer|);
    AgreeingBlockScores(shorter, longer, m);
  }

  lemma {:induction false} NothingSharedScoresZero(shorter: string, longer: string, m: Match)
    requires shorter != "" && m.b <= |longer| && forall c :: c in shorter ==> c !in longer
    ensures AlignmentRatio(shorter, longer, m) == 0.0
  {
    var w := Window(shorter, longer, m);
    var k: nat :| k <= |longer| && OccursAt(longer, w, k);
    forall d | d in w ensures d in longer {
      assert d in longer[k..k + |w|];
    }
    RatioIsZero(shorter, w);
  }

  /** Coverage is 0 exactly when the two strings share no character. */
  lemma {:induction false} CoverageIsZero(q: string, t: string)
    requires q != "" && t != ""
    ensures Coverage(q, t) == 0.0 <==> forall c :: c in q ==> c !in t
  {
    var shorter, longer := Shorter(q, t), Longer(q, t);
    var bs := Alignments(shorter, longer);
    ScanFindsBest(shorter, longer, bs, 0.0);
    if c :| c in q && c in t {
      var m := SharedCharacterIsAligned(shorter, longer, c);
    } else {
      forall m | m in bs ensures AlignmentRatio(shorter, longer, m) == 0.0 {
        NothingSharedScoresZero(shorter, longer, m);
      }
    }
  }

  // ----- claims -----

  datatype VerifyResult = VerifyResult(isInternal: bool, verified: bool, quote: string, coverage: real)

  /** _origin_of: internal when some ref resolves and every ref that resolves is internal. */
  predicate IsInternal(refs: seq<string>, sources: map<string, Source>) {
    && (exists r :: r in refs && r in sources)
    && (forall r :: r in refs && r in sources ==> sources[r].origin == "internal")
  }

  /** The rule the documentation of _origin_of states: every cited source is internal, any
      unknown ref means the claim is checked. */
  predicate DocumentedInternal(refs: seq<string>, sources: map<string, Source>) {
    refs != [] && forall r :: r in refs ==> r in sources && sources[r].origin == "internal"
  }

  /** The code and its documentation part exactly on a claim that resolves some ref, resolves
      it only to internal sources, and also cites a ref nobody knows. */
  lemma {:induction false} UnknownRefsAreIgnored(refs: seq<string>, sources: map<string, Source>)
    ensures DocumentedInternal(refs, sources) ==> IsInternal(refs, sources)
    ensures IsInternal(refs, sources) && !DocumentedInternal(refs, sources) <==>
      && IsInternal(refs, sources) && exists r :: r in refs && r !in sources
    ensures var internal := Source("D1", "", None, SourceType.Internal, SourceQuality.High, "internal", "");
      IsInternal(["D1", "S-9"], map["D1" := internal]) && !DocumentedInternal(["D1", "S-9"], map["D1" := internal])
  {
    if DocumentedInternal(refs, sources) {
      assert refs[0] in refs;
    }
    var internal := Source("D1", "", None, SourceType.Internal, SourceQuality.High, "internal", "");
    var mixed := ["D1", "S-9"];
    assert mixed[0] in mixed && mixed[1] in mixed;
  }

  function QuoteOf(tools: TextTools, claim: Claim): string {
    tools.strip(if claim.notes != "" then claim.notes else claim.claim)
  }

  function RefCoverage(tools: TextTools, quote: string, texts: map<string, string>, ref: string): real {
    if ref in texts && texts[ref] != "" then Coverage(Fold(tools, quote), Fold(tools, texts[ref])) else 0.0
  }

  /** The best coverage over the cited texts. */
  function BestCoverage(tools: TextTools, quote: string, texts: map<string, string>, refs: seq<string>): real {
    if refs == [] then 0.0
    else
      var last := RefCoverage(tools, quote, texts, refs[|refs| - 1]);
      var before := BestCoverage(tools, quote, texts, refs[..|refs| - 1]);
      if last > before then last else before
  }

  /** verify_claim on the claim with its refs already narrowed to `refs`. */
  function VerifyClaimSpec(tools: TextTools, claim: Claim, refs: seq<string>,
                           sources: map<string, Source>, texts: map<string, string>): VerifyResult
  {
    var quote := QuoteOf(tools, claim);
    if IsInternal(refs, sources) then VerifyResult(true, true, quote, 1.0)
    else
      var best := BestCoverage(tools, quote, texts, refs);
      VerifyResult(false, best >= MATCH_THRESHOLD, quote, best)
  }

  method VerifyClaim(tools: TextTools, claim: Claim, sources: map<string, Source>, texts: map<string, string>)
    returns (r: VerifyResult)
    ensures r == VerifyClaimSpec(tools, claim, claim.sourceRefs, sources, texts)
  {
    hide QuoteOf, Fold, Coverage, IsInternal;
    var quote := QuoteOf(tools, claim);
    if IsInternal(claim.sourceRefs, sources) {
      return VerifyResult(true, true, quote, 1.0);
    }
    var best := 0.0;
    for k := 0 to |claim.sourceRefs|
      invariant best == BestCoverage(tools, quote, texts, claim.sourceRefs[..k])
      invariant best >= 0.0
    {
      var ref := claim.sourceRefs[k];
      assert claim.sourceRefs[..k + 1][..k] == claim.sourceRefs[..k];
      if ref in texts && texts[ref] != "" {
        var c := QuoteCoverage(tools, quote, texts[ref]);
        if c > best {
          best := c;
        }
      }
    }
    assert claim.sourceRefs[..|claim.sourceRefs|] == claim.sourceRefs;
    r := VerifyResult(false, best >= MATCH_THRESHOLD, quote, best);
  }

  lemma {:induction false} BestCoverageIsReached(tools: TextTools, quote: string, texts: map<string, string>,
      refs: seq<string>)
    ensures var c := BestCoverage(tools, quote, texts, refs);
      && (c == 0.0 || exists r :: r in refs && RefCoverage(tools, quote, texts, r) == c)
      && (forall r :: r in refs ==> RefCoverage(tools, quote, texts, r) <= c)
    decreases |refs|
  {
    if refs != [] {
      var front, last := refs[..|refs| - 1], refs[|refs| - 1];
      BestCoverageIsReached(tools, quote, texts, front);
      assert forall r :: r in refs <==> r in front || r == last;
    }
  }

  /** A claim is verified exactly when it is internal, or its quote reaches the threshold in
      the non-empty text of some ref it cites. */
  lemma {:induction false} VerifiedMeansPresent(tools: TextTools, claim: Claim, refs: seq<string>,
                             sources: map<string, Source>, texts: map<string, string>)
    ensures VerifyClaimSpec(tools, claim, refs, sources, texts).verified <==>
      || IsInternal(refs, sources)
      || exists r :: r in refs && r in texts && texts[r] != ""
           && Coverage(Fold(tools, QuoteOf(tools, claim)), Fold(tools, texts[r])) >= MATCH_THRESHOLD
  {
    var quote := QuoteOf(tools, claim);
    BestCoverageIsReached(tools, quote, texts, refs);
    if r :| r in refs && RefCoverage(tools, quote, texts, r) >= MATCH_THRESHOLD {
      assert r in texts && texts[r] != "";
    }
  }
}
