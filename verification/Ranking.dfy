/** Source ranking: junk drop, URL dedup, stable top-k, and the pruning of claim refs
    (ranking/heuristic.py, ranking/pipeline.py). */
module Ranking {
  import opened Models
  import opened Permutations
  import opened StableSort

  /** URL parsing and tokenising, left to the text layer. A missing URL has no canonical form. */
  datatype RankTools = RankTools(
    canonical: Option<string> -> Option<string>, junk: Source -> bool,
    tokens: string -> set<string>, queryWords: string -> set<string>)

  function TypeWeight(t: SourceType): int {
    match t
    case Primary => 3
    case Standard => 3
    case Internal => 2
    case Secondary => 1
    case Marketing => 0
  }

  function QualityWeight(q: SourceQuality): int {
    match q
    case High => 3
    case Medium => 2
    case Low => 1
    case Unknown => 1
  }

  function Authority(s: Source): int { TypeWeight(s.sourceType) + QualityWeight(s.quality) }

  function Relevance(tools: RankTools, words: set<string>, s: Source): int { |tools.tokens(s.title) * words| }

  function RankKey(tools: RankTools, words: set<string>): Source -> Key {
    (s: Source) => (Relevance(tools, words, s), Authority(s))
  }

  predicate SameUrl(tools: RankTools, s: Source, s': Source) {
    tools.canonical(s.url).Some? && tools.canonical(s.url) == tools.canonical(s'.url)
  }

  /** Neither junk nor a repetition of a URL already kept. */
  predicate Survives(tools: RankTools, kept: seq<Source>, s: Source) {
    !tools.junk(s) && forall k :: k in kept ==> !SameUrl(tools, k, s)
  }

  function Survivors(tools: RankTools, sources: seq<Source>): (r: seq<Source>)
    ensures |r| <= |sources|
    ensures forall s :: s in r ==> s in sources
  {
    if sources == [] then []
    else
      var front := Survivors(tools, sources[..|sources| - 1]);
      if Survives(tools, front, sources[|sources| - 1]) then front + [sources[|sources| - 1]] else front
  }

  function TopK(xs: seq<Source>, k: int): seq<Source> {
    if k <= 0 then [] else if |xs| <= k then xs else xs[..k]
  }

  function Ranked(tools: RankTools, sources: seq<Source>, words: set<string>, topK: int): seq<Source> {
    TopK(Sorted(Survivors(tools, sources), RankKey(tools, words)), topK)
  }

  method Rank(tools: RankTools, sources: seq<Source>, words: set<string>, topK: int) returns (r: seq<Source>)
    ensures r == Ranked(tools, sources, words, topK)
  {
    if sources == [] {
      return [];
    }
    var seenUrls: set<string> := {};
    var survivors: seq<Source> := [];
    for i := 0 to |sources|
      invariant survivors == Survivors(tools, sources[..i])
      invariant seenUrls == set k | k in survivors && tools.canonical(k.url).Some? :: tools.canonical(k.url).value
    {
      var s := sources[i];
      assert sources[..i + 1][..i] == sources[..i];
      if !tools.junk(s) {
        var url := tools.canonical(s.url);
        if url.None? || url.value !in seenUrls {
          assert Survives(tools, survivors, s);
          if url.Some? {
            seenUrls := seenUrls + {url.value};
          }
          survivors := survivors + [s];
        }
      }
    }
    assert sources[..|sources|] == sources;
    r := TopK(Sorted(survivors, RankKey(tools, words)), topK);
  }

  // ----- what a ranking is -----

  ghost predicate Clean(tools: RankTools, ss: seq<Source>) {
    && (forall s :: s in ss ==> !tools.junk(s))
    && (forall i, j :: 0 <= i < j < |ss| ==> !SameUrl(tools, ss[i], ss[j]))
  }

  lemma {:induction false} SurvivorsAreClean(tools: RankTools, sources: seq<Source>)
    ensures Clean(tools, Survivors(tools, sources))
    decreases |sources|
  {
    if sources != [] {
      SurvivorsAreClean(tools, sources[..|sources| - 1]);
    }
  }

  lemma {:induction false} CleanSurvives(tools: RankTools, ss: seq<Source>)
    requires Clean(tools, ss)
    ensures Survivors(tools, ss) == ss
    decreases |ss|
  {
    if ss != [] {
      var front, last := ss[..|ss| - 1], ss[|ss| - 1];
      CleanSurvives(tools, front);
      forall k | k in front ensures !SameUrl(tools, k, last) {
        var i :| 0 <= i < |front| && front[i] == k;
        assert !SameUrl(tools, ss[i], ss[|ss| - 1]);
      }
      assert last in ss;
    }
  }

  lemma {:induction false} PermutationStaysClean(tools: RankTools, xs: seq<Source>, ys: seq<Source>)
    requires Clean(tools, xs) && multiset(xs) == multiset(ys)
    ensures Clean(tools, ys)
  {
    forall s | s in ys ensures !tools.junk(s) {
      assert s in multiset(ys);
    }
    forall i, j | 0 <= i < j < |ys| ensures !SameUrl(tools, ys[i], ys[j]) {
      PairOfPositions(ys, i, j);
      var a, b := PositionsOfPair(xs, ys[i], ys[j]);
      assert !SameUrl(tools, xs[a], xs[b]);
    }
  }

  /** kept and cut together are all the survivors, highest first and ties in input order; the cut
      ones are only what exceeds topK, so none of them beats a kept one. */
  ghost predicate TopKSplit(survivors: seq<Source>, kept: seq<Source>, cut: seq<Source>, key: Source -> Key,
      topK: nat) {
    && multiset(kept + cut) == multiset(survivors) && SameOrder(kept + cut, survivors, key)
    && Descending(kept + cut, key)
    && |kept| <= topK && (cut != [] ==> |kept| == topK)
  }

  /** A ranking is the stable top-k of the survivors. */
  lemma {:induction false} RankingIsTopK(tools: RankTools, sources: seq<Source>, words: set<string>,
      topK: nat) returns (cut: seq<Source>)
    ensures TopKSplit(Survivors(tools, sources), Ranked(tools, sources, words, topK), cut, RankKey(tools, words), topK)
  {
    hide Survivors, RankKey, Sorted, WithKey;
    var key := RankKey(tools, words);
    var sorted := Sorted(Survivors(tools, sources), key);
    var r := TopK(sorted, topK);
    SortedIsStable(Survivors(tools, sources), key);
    cut := sorted[|r|..];
    assert r + cut == sorted;
  }

  /** A ranking keeps given sources only, no junk, one per canonical URL, in descending order of
      (relevance, authority). */
  lemma {:induction false} RankingIsClean(tools: RankTools, sources: seq<Source>, words: set<string>, topK: nat)
    ensures var r := Ranked(tools, sources, words, topK);
      (forall s :: s in r ==> s in sources) && Clean(tools, r) && Descending(r, RankKey(tools, words))
  {
    var survivors, key := Survivors(tools, sources), RankKey(tools, words);
    var sorted := Sorted(survivors, key);
    SortedIsStable(survivors, key);
    SurvivorsAreClean(tools, sources);
    PermutationStaysClean(tools, survivors, sorted);
    var r := TopK(sorted, topK);
    assert forall i :: 0 <= i < |r| ==> r[i] == sorted[i];
    forall s | s in r ensures s in sources && !tools.junk(s) {
      assert s in multiset(sorted);
    }
  }

  /** Source i is no junk, and the first that is none under its canonical URL, if it has one. */
  ghost predicate FirstOfItsUrl(tools: RankTools, sources: seq<Source>, i: nat)
    requires i < |sources|
  {
    && !tools.junk(sources[i])
    && (tools.canonical(sources[i].url).Some? ==>
          forall j :: 0 <= j < i && !tools.junk(sources[j]) ==>
            tools.canonical(sources[j].url) != tools.canonical(sources[i].url))
  }

  lemma {:induction false} SurvivorUrls(tools: RankTools, sources: seq<Source>, url: string)
    ensures (exists k :: k in Survivors(tools, sources) && tools.canonical(k.url) == Some(url)) <==>
      exists i :: 0 <= i < |sources| && !tools.junk(sources[i]) && tools.canonical(sources[i].url) == Some(url)
    decreases |sources|
  {
    if sources != [] {
      var front, last := sources[..|sources| - 1], sources[|sources| - 1];
      SurvivorUrls(tools, front, url);
      assert forall i :: 0 <= i < |front| ==> front[i] == sources[i];
      if i :| 0 <= i < |front| && !tools.junk(front[i]) && tools.canonical(front[i].url) == Some(url) {
        assert sources[i] == front[i];
      }
    }
  }

  /** The survivors, one source after the other: each is kept exactly when it is the first of its URL. */
  lemma {:induction false} SurvivorsMean(tools: RankTools, sources: seq<Source>)
    requires sources != []
    ensures var n := |sources| - 1;
      Survivors(tools, sources) ==
        Survivors(tools, sources[..n]) + if FirstOfItsUrl(tools, sources, n) then [sources[n]] else []
  {
    var n := |sources| - 1;
    var front, last := sources[..n], sources[n];
    if tools.canonical(last.url).Some? {
      SurvivorUrls(tools, front, tools.canonical(last.url).value);
    }
    assert forall i :: 0 <= i < n ==> front[i] == sources[i];
  }

  /** How two sources compare: by the query words their titles share; those equal, by type and quality
      added up, where primary and standard are worth one step more than internal, internal one more than
      secondary, that one more than marketing, and high one step more than medium, medium one more than
      low or unknown. */
  lemma {:induction false} KeyMeans(tools: RankTools, words: set<string>, s: Source, s': Source)
    ensures var n, n' := |tools.tokens(s.title) * words|, |tools.tokens(s'.title) * words|;
      var key := RankKey(tools, words);
      && (n > n' ==> Above(key(s), key(s')))
      && (n == n' ==> (Above(key(s), key(s')) <==> TypeSteps(s) + QualitySteps(s) > TypeSteps(s') + QualitySteps(s')))
  {
  }

  /** Steps above a marketing source. */
  function TypeSteps(s: Source): int {
    (if s.sourceType != SourceType.Marketing then 1 else 0)
    + (if s.sourceType in {SourceType.Primary, SourceType.Standard, SourceType.Internal} then 1 else 0)
    + (if s.sourceType in {SourceType.Primary, SourceType.Standard} then 1 else 0)
  }

  /** Steps above a source of low or unknown quality. */
  function QualitySteps(s: Source): int {
    (if s.quality in {SourceQuality.High, SourceQuality.Medium} then 1 else 0)
    + (if s.quality == SourceQuality.High then 1 else 0)
  }

  lemma {:induction false} NothingForNoPlaces(tools: RankTools, sources: seq<Source>, words: set<string>, topK: int)
    ensures topK <= 0 ==> Ranked(tools, sources, words, topK) == []
    ensures topK > 0 && Survivors(tools, sources) != [] ==> Ranked(tools, sources, words, topK) != []
  {
    SortedIsStable(Survivors(tools, sources), RankKey(tools, words));
  }

  /** Ranking a ranking changes nothing. */
  lemma {:induction false} RankIsIdempotent(tools: RankTools, sources: seq<Source>, words: set<string>, topK: int)
    ensures var r := Ranked(tools, sources, words, topK); Ranked(tools, r, words, topK) == r
  {
    var r := Ranked(tools, sources, words, topK);
    if topK > 0 {
      RankingIsClean(tools, sources, words, topK);
      CleanSurvives(tools, r);
      SortedOfSorted(r, RankKey(tools, words));
    }
  }

  // ----- the pipeline over one bundle -----

  /** A bundle while the fan-out still works on it; its fields are rewritten in place. */
  class WorkingBundle {
    var query: string
    var issueId: Option<string>
    var claims: seq<Claim>
    var sources: seq<Source>

    constructor (b: EvidenceBundle)
      ensures query == b.query && issueId == b.issueId && claims == b.claims && sources == b.sources
    {
      query, issueId, claims, sources := b.query, b.issueId, b.claims, b.sources;
    }

    /** apply: rank, let an enabled curator choose among the survivors, prune every claim's refs. */
    method Apply(tools: RankTools, topK: int, curator: Option<seq<Source> -> seq<Source>>)
      modifies this`sources, this`claims
      ensures (sources, claims) == Applied(tools, query, old(sources), old(claims), topK, curator)
    {
      var survivors := Rank(tools, sources, tools.queryWords(query), topK);
      if curator.Some? && survivors != [] {
        survivors := curator.value(survivors);
      }
      sources := survivors;
      var ids := set s | s in survivors :: s.id;
      for i := 0 to |claims|
        invariant sources == survivors && |claims| == |old(claims)|
        invariant forall j :: 0 <= j < |claims| ==>
          claims[j] == if j < i then PrunedClaim(old(claims)[j], ids) else old(claims)[j]
      {
        var c := claims[i];
        claims := claims[i := c.(sourceRefs := PrunedRefs(c.sourceRefs, ids))];
      }
      assert claims == PrunedClaims(old(claims), ids);
    }
  }

  function PrunedRefs(refs: seq<string>, ids: set<string>): (r: seq<string>)
    ensures forall x :: x in r <==> x in refs && x in ids
  {
    if refs == [] then []
    else
      var front := PrunedRefs(refs[..|refs| - 1], ids);
      if refs[|refs| - 1] in ids then front + [refs[|refs| - 1]] else front
  }

  function PrunedClaim(c: Claim, ids: set<string>): Claim { c.(sourceRefs := PrunedRefs(c.sourceRefs, ids)) }

  function PrunedClaims(cs: seq<Claim>, ids: set<string>): (r: seq<Claim>)
    ensures |r| == |cs|
    ensures forall i :: 0 <= i < |cs| ==> r[i] == PrunedClaim(cs[i], ids)
  {
    seq(|cs|, i requires 0 <= i < |cs| => PrunedClaim(cs[i], ids))
  }

  function Applied(tools: RankTools, query: string, sources: seq<Source>, claims: seq<Claim>, topK: int,
                   curator: Option<seq<Source> -> seq<Source>>): (seq<Source>, seq<Claim>)
  {
    var ranked := Ranked(tools, sources, tools.queryWords(query), topK);
    var survivors := if curator.Some? && ranked != [] then curator.value(ranked) else ranked;
    (survivors, PrunedClaims(claims, set s | s in survivors :: s.id))
  }

  lemma {:induction false} PruningIsIdempotent(refs: seq<string>, ids: set<string>)
    requires forall x :: x in refs ==> x in ids
    ensures PrunedRefs(refs, ids) == refs
    decreases |refs|
  {
    if refs != [] {
      PruningIsIdempotent(refs[..|refs| - 1], ids);
      assert refs[|refs| - 1] in refs;
    }
  }

  lemma {:induction false} PruningKeepsCounts(refs: seq<string>, ids: set<string>, ref: string)
    requires ref in ids
    ensures multiset(PrunedRefs(refs, ids))[ref] == multiset(refs)[ref]
    decreases |refs|
  {
    if refs != [] {
      var front, last := refs[..|refs| - 1], refs[|refs| - 1];
      PruningKeepsCounts(front, ids, ref);
      assert refs == front + [last];
    }
  }

  /** The claim with exactly those of its refs, each as often as before, that name one of the sources. */
  ghost predicate KeepsLivingRefs(c: Claim, now: Claim, ss: seq<Source>) {
    && now == c.(sourceRefs := now.sourceRefs)
    && forall ref :: multiset(now.sourceRefs)[ref] ==
         if exists s :: s in ss && s.id == ref then multiset(c.sourceRefs)[ref] else 0
  }

  lemma {:induction false} PrunedKeepsLiving(c: Claim, ss: seq<Source>)
    ensures KeepsLivingRefs(c, PrunedClaim(c, set s | s in ss :: s.id), ss)
  {
    var ids := set s | s in ss :: s.id;
    var now := PrunedClaim(c, ids);
    forall ref ensures multiset(now.sourceRefs)[ref] ==
      if exists s :: s in ss && s.id == ref then multiset(c.sourceRefs)[ref] else 0
    {
      if ref in ids {
        PruningKeepsCounts(c.sourceRefs, ids, ref);
      } else {
        assert ref !in now.sourceRefs;
      }
    }
  }

  /** The bundle is left with the ranking, or with what an enabled curator makes of one that is not empty, and
      each claim with exactly its refs to what is left; without a curator a second application changes
      nothing. */
  lemma {:induction false} ApplyLeavesNoDanglingRef(tools: RankTools, query: string, sources: seq<Source>,
      claims: seq<Claim>, topK: int, curator: Option<seq<Source> -> seq<Source>>)
    ensures var (ss, cs) := Applied(tools, query, sources, claims, topK, curator);
      var ranked := Ranked(tools, sources, tools.queryWords(query), topK);
      && ss == (if curator == None || ranked == [] then ranked else curator.value(ranked))
      && |cs| == |claims| && (forall i :: 0 <= i < |cs| ==> KeepsLivingRefs(claims[i], cs[i], ss))
      && (curator.None? ==> Applied(tools, query, ss, cs, topK, None) == (ss, cs))
  {
    var (ss, cs) := Applied(tools, query, sources, claims, topK, curator);
    var ids := set s | s in ss :: s.id;
    forall i | 0 <= i < |cs| ensures KeepsLivingRefs(claims[i], cs[i], ss) {
      PrunedKeepsLiving(claims[i], ss);
    }
    if curator.None? {
      RankIsIdempotent(tools, sources, tools.queryWords(query), topK);
      forall i | 0 <= i < |cs| ensures PrunedClaim(cs[i], ids) == cs[i] {
        PruningIsIdempotent(cs[i].sourceRefs, ids);
      }
      assert PrunedClaims(cs, ids) == cs;
    }
  }
}
