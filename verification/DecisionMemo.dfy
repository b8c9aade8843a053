/** Citation policy, routing of the memo's claims, memo assembly and the emission gates
    (citation/policy.py, synthesis/memo.py, synthesis/gates.py). */
module DecisionMemo {
  import opened Models
  import opened CitationVerify
  import opened Decisions
  import opened HumanTasks
  import opened Numbering
  import opened ResearchSelection
  import opened CellEvidence
  import IssueMap

  const KEY_CLAIM_CONF: nat := 4

  // ----- citation policy -----

  /** A "source" that really is a digest: by id prefix, or by a phrase in its title. */
  predicate IsDigest(tools: TextTools, s: Source) {
    var id, title := tools.upper(s.id), tools.lower(s.title);
    || "DIGEST" <= id || "COMPRESS" <= id || "SUMMARY" <= id
    || Contains(title, "digest") || Contains(title, "compressed summary") || Contains(title, "worker summary")
  }

  /** The refs left once the digests are dropped; an unknown ref is kept. */
  function Flattened(tools: TextTools, refs: seq<string>, sources: map<string, Source>): (r: seq<string>)
    ensures forall x :: x in r <==> x in refs && !(x in sources && IsDigest(tools, sources[x]))
  {
    if refs == [] then []
    else
      var front, last := Flattened(tools, refs[..|refs| - 1], sources), refs[|refs| - 1];
      if last in sources && IsDigest(tools, sources[last]) then front else front + [last]
  }

  method FlattenToPrimary(tools: TextTools, claim: Claim, sources: map<string, Source>)
    returns (ok: bool, refs: seq<string>)
    ensures refs == Flattened(tools, claim.sourceRefs, sources)
    ensures ok <==> exists r :: r in claim.sourceRefs && !(r in sources && IsDigest(tools, sources[r]))
  {
    hide IsDigest;
    refs := [];
    for i := 0 to |claim.sourceRefs|
      invariant refs == Flattened(tools, claim.sourceRefs[..i], sources)
    {
      assert claim.sourceRefs[..i + 1][..i] == claim.sourceRefs[..i];
      var ref := claim.sourceRefs[i];
      if !(ref in sources && IsDigest(tools, sources[ref])) {
        refs := refs + [ref];
      }
    }
    assert claim.sourceRefs[..|claim.sourceRefs|] == claim.sourceRefs;
    ok := |refs| > 0;
    assert ok ==> refs[0] in refs;
  }

  ghost predicate StartsWith(s: string, head: string) { exists rest: string :: head + rest == s }

  ghost predicate Holds(s: string, mid: string) { exists left, right: string :: left + mid + right == s }

  lemma {:induction false} StartsMeans(s: string, head: string)
    ensures head <= s <==> StartsWith(s, head)
  {
    if head <= s {
      assert head + s[|head|..] == s;
    }
  }

  lemma {:induction false} HoldsMeans(s: string, mid: string)
    ensures Contains(s, mid) <==> Holds(s, mid)
  {
    if Contains(s, mid) {
      var k: nat :| k <= |s| && OccursAt(s, mid, k);
      assert s[..k] + mid + s[k + |mid|..] == s;
    }
    if left, right: string :| left + mid + right == s {
      assert OccursAt(mid, mid, 0);
      ContainsInConcat(left, mid, right, mid);
    }
  }

  /** A source is a digest exactly when its id starts, or its title reads, like that of one. */
  lemma {:induction false} DigestMeans(tools: TextTools, s: Source)
    ensures var id, title := tools.upper(s.id), tools.lower(s.title);
      IsDigest(tools, s) <==>
        || StartsWith(id, "DIGEST") || StartsWith(id, "COMPRESS") || StartsWith(id, "SUMMARY")
        || Holds(title, "digest") || Holds(title, "compressed summary") || Holds(title, "worker summary")
  {
    hide Contains, Holds, StartsWith;
    var id, title := tools.upper(s.id), tools.lower(s.title);
    StartsMeans(id, "DIGEST");
    StartsMeans(id, "COMPRESS");
    StartsMeans(id, "SUMMARY");
    HoldsMeans(title, "digest");
    HoldsMeans(title, "compressed summary");
    HoldsMeans(title, "worker summary");
  }

  datatype PolicyKind = OkKind | Reverify | EscalateHuman | Flag

  function Classify(verified: bool, critical: bool, reverifyAttempted: bool): PolicyKind {
    if verified then OkKind
    else if !reverifyAttempted then Reverify
    else if critical then EscalateHuman
    else Flag
  }

  /** An unverified claim is checked again once; then a critical one goes to a human and any other is flagged. */
  lemma {:induction false} PolicyMeans(verified: bool, critical: bool, reverifyAttempted: bool)
    ensures var kind := Classify(verified, critical, reverifyAttempted);
      && (kind == OkKind <==> verified)
      && (kind == Reverify <==> !verified && !reverifyAttempted)
      && (kind == EscalateHuman <==> !verified && reverifyAttempted && critical)
      && (kind == Flag <==> !verified && reverifyAttempted && !critical)
  {
  }

  // ----- the memo's claims -----

  /** One claim of the evidence with the issue its bundle belongs to. */
  datatype MemoClaim = MemoClaim(claim: Claim, issueId: Option<string>)

  function ClaimsOf(b: EvidenceBundle): (r: seq<MemoClaim>)
    ensures |r| == |b.claims|
  {
    seq(|b.claims|, i requires 0 <= i < |b.claims| => MemoClaim(b.claims[i], b.issueId))
  }

  function MemoClaims(evidence: seq<EvidenceBundle>): seq<MemoClaim> {
    if evidence == [] then []
    else MemoClaims(evidence[..|evidence| - 1]) + ClaimsOf(evidence[|evidence| - 1])
  }

  /** A memo claim is a claim of some bundle, under that bundle's issue. */
  lemma {:induction false} MemoClaimsMean(evidence: seq<EvidenceBundle>, m: MemoClaim)
    ensures m in MemoClaims(evidence) <==>
      exists i, j :: 0 <= i < |evidence| && 0 <= j < |evidence[i].claims|
        && m == MemoClaim(evidence[i].claims[j], evidence[i].issueId)
    decreases |evidence|
  {
    if evidence != [] {
      var front, n := evidence[..|evidence| - 1], |evidence| - 1;
      MemoClaimsMean(front, m);
      assert forall i :: 0 <= i < n ==> front[i] == evidence[i];
      if m in ClaimsOf(evidence[n]) {
        var j :| 0 <= j < |evidence[n].claims| && ClaimsOf(evidence[n])[j] == m;
        assert m == MemoClaim(evidence[n].claims[j], evidence[n].issueId);
      }
      if i, j :|
        0 <= i < |evidence| && 0 <= j < |evidence[i].claims|
        && m == MemoClaim(evidence[i].claims[j], evidence[i].issueId)
      {
        if i == n {
          assert ClaimsOf(evidence[n])[j] == m;
        }
      }
    }
  }

  /** They come bundle by bundle, each bundle's in its order. */
  lemma {:induction false} MemoClaimsInOrder(evidence: seq<EvidenceBundle>, n: nat, j: nat)
    requires n < |evidence| && j < |evidence[n].claims|
    ensures |MemoClaims(evidence[..n])| + j < |MemoClaims(evidence)|
    ensures MemoClaims(evidence)[|MemoClaims(evidence[..n])| + j]
      == MemoClaim(evidence[n].claims[j], evidence[n].issueId)
    decreases |evidence|
  {
    var front := evidence[..|evidence| - 1];
    if n < |front| {
      MemoClaimsInOrder(front, n, j);
      assert front[..n] == evidence[..n] && front[n] == evidence[n];
    }
  }

  function Excerpts(sources: map<string, Source>): map<string, string> {
    map id | id in sources :: sources[id].excerpt
  }

  /** What routing reads besides the claims themselves. */
  datatype Context = Context(
    tools: TextTools, sources: map<string, Source>, issues: seq<IssueNode>, cells: seq<TaskCell>, highRisk: bool)

  predicate Verified(ctx: Context, claim: Claim) {
    VerifyClaimSpec(ctx.tools, claim.(sourceRefs := Flattened(ctx.tools, claim.sourceRefs, ctx.sources)),
                    Flattened(ctx.tools, claim.sourceRefs, ctx.sources), ctx.sources, Excerpts(ctx.sources)).verified
  }

  method VerifyFlattened(ctx: Context, claim: Claim) returns (verified: bool)
    ensures verified == Verified(ctx, claim)
  {
    var ok, refs := FlattenToPrimary(ctx.tools, claim, ctx.sources);
    var r := VerifyClaim(ctx.tools, claim.(sourceRefs := refs), ctx.sources, Excerpts(ctx.sources));
    verified := r.verified;
  }

  /** A claim citing nothing but digests can no longer be verified. */
  lemma {:induction false} DigestsVerifyNothing(ctx: Context, claim: Claim)
    requires forall r :: r in claim.sourceRefs ==> r in ctx.sources && IsDigest(ctx.tools, ctx.sources[r])
    ensures !Verified(ctx, claim)
  {
    var refs := Flattened(ctx.tools, claim.sourceRefs, ctx.sources);
    VerifiedMeansPresent(ctx.tools, claim.(sourceRefs := refs), refs, ctx.sources, Excerpts(ctx.sources));
  }

  /** Ref r names a known source that is no digest. */
  ghost predicate CitesPrimary(ctx: Context, claim: Claim, r: string) {
    r in claim.sourceRefs && r in ctx.sources && !IsDigest(ctx.tools, ctx.sources[r])
  }

  /** The quote, which is the claim's note or without one its text, reaches 0.85 in the excerpt of the source. */
  ghost predicate QuotedIn(ctx: Context, claim: Claim, s: Source) {
    && s.excerpt != ""
    && var quote := ctx.tools.strip(if claim.notes == "" then claim.claim else claim.notes);
       Coverage(ctx.tools.lower(ctx.tools.strip(quote)), ctx.tools.lower(ctx.tools.strip(s.excerpt))) >= 0.85
  }

  /** A claim is verified exactly when, of the known sources it cites that are no digests, there are some
      and all of them are internal, or one holds the quote. */
  lemma {:induction false} VerifiedExactlyWhen(ctx: Context, claim: Claim)
    ensures Verified(ctx, claim) <==>
      || ((exists r :: CitesPrimary(ctx, claim, r))
          && (forall r :: CitesPrimary(ctx, claim, r) ==> ctx.sources[r].origin == "internal"))
      || (exists r :: CitesPrimary(ctx, claim, r) && QuotedIn(ctx, claim, ctx.sources[r]))
  {
    var refs := Flattened(ctx.tools, claim.sourceRefs, ctx.sources);
    var flat := claim.(sourceRefs := refs);
    VerifiedMeansPresent(ctx.tools, flat, refs, ctx.sources, Excerpts(ctx.sources));
    assert QuoteOf(ctx.tools, flat) == QuoteOf(ctx.tools, claim);
    hide Coverage, Fold, QuoteOf, IsDigest, Flattened;
    assert forall r :: CitesPrimary(ctx, claim, r) <==> r in refs && r in ctx.sources;
  }

  /** So a verified claim cites a known source that is no digest and is internal or holds the quote. */
  lemma {:induction false} VerifiedNeedsPrimary(ctx: Context, claim: Claim)
    requires Verified(ctx, claim)
    ensures exists r ::
      && CitesPrimary(ctx, claim, r)
      && (ctx.sources[r].origin == "internal" || QuotedIn(ctx, claim, ctx.sources[r]))
  {
    hide Verified, QuotedIn, IsDigest;
    VerifiedExactlyWhen(ctx, claim);
  }

  /** citation_pass: the texts of the key claims that stay unverified. */
  function UnverifiedKey(ctx: Context, items: seq<MemoClaim>): (r: seq<string>)
    ensures forall x :: x in r <==>
      exists m :: m in items && m.claim.confidence >= 4 && !Verified(ctx, m.claim) && m.claim.claim == x
  {
    if items == [] then []
    else
      var front, c := UnverifiedKey(ctx, items[..|items| - 1]), items[|items| - 1].claim;
      assert forall m :: m in items <==> m in items[..|items| - 1] || m == items[|items| - 1];
      if !Verified(ctx, c) && c.confidence >= KEY_CLAIM_CONF then front + [c.claim] else front
  }

  method CitationPass(ctx: Context, items: seq<MemoClaim>) returns (unverified: seq<string>)
    ensures unverified == UnverifiedKey(ctx, items)
  {
    unverified := [];
    for i := 0 to |items|
      invariant unverified == UnverifiedKey(ctx, items[..i])
    {
      assert items[..i + 1][..i] == items[..i];
      var claim := items[i].claim;
      var verified := VerifyFlattened(ctx, claim);
      var critical := claim.confidence >= KEY_CLAIM_CONF;
      var kind := Classify(verified, critical, true);
      if !verified && critical && (kind == EscalateHuman || kind == Flag) {
        unverified := unverified + [claim.claim];
      }
    }
    assert items[..|items|] == items;
  }

  // ----- routing -----

  predicate IsCritical(ctx: Context, issueId: Option<string>) {
    && issueId.Some? && issueId.value != "" && FindIssue(ctx.issues, issueId.value).Some?
    && ctx.issues[FindIssue(ctx.issues, issueId.value).value].impact >= HIGH_IMPACT
    && ctx.highRisk
  }

  /** The claim's issue is a grid cell that already owns the ask for internal data. */
  predicate CellOwned(ctx: Context, issueId: Option<string>) {
    && issueId.Some?
    && exists c :: c in ctx.cells && c.id == issueId.value && c.status in {CellStatus.Na, CellStatus.Blocked}
  }

  datatype Fate = Cite | Drop | Supplement

  function FateOf(ctx: Context, m: MemoClaim): Fate {
    if Verified(ctx, m.claim) then Cite
    else if !IsCritical(ctx, m.issueId) || CellOwned(ctx, m.issueId) then Drop
    else Supplement
  }

  datatype Routing = Routing(cited: seq<Claim>, dropped: seq<Claim>, needs: seq<HumanTask>, tasks: seq<HumanTask>)

  function RouteBy(fate: Fate, r: Routing, c: Claim): Routing {
    match fate
    case Cite => r.(cited := r.cited + [c])
    case Drop => r.(dropped := r.dropped + [c])
    case Supplement =>
      match FirstAsking(r.tasks, c.claim)
      case Some(k) => r.(needs := r.needs + [r.tasks[k]])
      case None =>
        var t := SupplementTask(r.tasks, c.claim);
        r.(needs := r.needs + [t], tasks := PutTask(r.tasks, t))
  }

  /** Each claim with its fate. */
  function Fated(ctx: Context, items: seq<MemoClaim>): (r: seq<(Fate, Claim)>)
    ensures |r| == |items|
    ensures forall i :: 0 <= i < |items| ==> r[i] == (FateOf(ctx, items[i]), items[i].claim)
  {
    seq(|items|, i requires 0 <= i < |items| => (FateOf(ctx, items[i]), items[i].claim))
  }

  function RouteAll(fs: seq<(Fate, Claim)>, tasks: seq<HumanTask>): Routing {
    if fs == [] then Routing([], [], [], tasks)
    else RouteBy(fs[|fs| - 1].0, RouteAll(fs[..|fs| - 1], tasks), fs[|fs| - 1].1)
  }

  /** route_citations */
  function Routed(ctx: Context, items: seq<MemoClaim>, tasks: seq<HumanTask>): Routing {
    RouteAll(Fated(ctx, items), tasks)
  }

  function Inputs(tasks: seq<HumanTask>): set<string> { set t | t in tasks :: t.requestedInput }

  method DecideFate(ctx: Context, m: MemoClaim) returns (fate: Fate)
    ensures fate == FateOf(ctx, m)
  {
    var verified := VerifyFlattened(ctx, m.claim);
    if verified {
      return Cite;
    }
    if !IsCritical(ctx, m.issueId) || CellOwned(ctx, m.issueId) {
      return Drop;
    }
    fate := Supplement;
  }

  method ApplyFate(state: ResearchState, fate: Fate, c: Claim, r: Routing, existing: set<string>)
    returns (r': Routing, existing': set<string>)
    requires r.tasks == state.humanTasks && WellNumbered(r.tasks) && existing == Inputs(r.tasks)
    modifies state`humanTasks
    ensures r' == RouteBy(fate, r, c) && r'.tasks == state.humanTasks && existing' == Inputs(r'.tasks)
    ensures WellNumbered(r'.tasks) && r.tasks <= r'.tasks
  {
    r', existing' := r, existing;
    match fate {
      case Cite => r' := r.(cited := r.cited + [c]);
      case Drop => r' := r.(dropped := r.dropped + [c]);
      case Supplement =>
        var k := FirstAsking(r.tasks, c.claim);
        if k.Some? {
          assert r.tasks[k.value] in r.tasks;
        }
        if c.claim in existing {
          r' := r.(needs := r.needs + [r.tasks[k.value]]);
        } else {
          var t := SupplementTask(state.humanTasks, c.claim);
          CountedMintIsFresh(r.tasks, t);
          state.humanTasks := PutTask(state.humanTasks, t);
          existing' := existing + {c.claim};
          r' := r.(needs := r.needs + [t], tasks := state.humanTasks);
        }
    }
  }

  method RouteCitations(state: ResearchState, ctx: Context, items: seq<MemoClaim>) returns (r: Routing)
    requires WellNumbered(state.humanTasks)
    modifies state`humanTasks
    ensures r == Routed(ctx, items, old(state.humanTasks)) && state.humanTasks == r.tasks
    ensures WellNumbered(state.humanTasks) && old(state.humanTasks) <= state.humanTasks
  {
    var existing := Inputs(state.humanTasks);
    r := Routing([], [], [], state.humanTasks);
    ghost var fs := Fated(ctx, items);
    for i := 0 to |items|
      invariant r == RouteAll(fs[..i], old(state.humanTasks)) && state.humanTasks == r.tasks
      invariant WellNumbered(r.tasks) && old(state.humanTasks) <= r.tasks
      invariant existing == Inputs(r.tasks)
    {
      assert fs[..i + 1][..i] == fs[..i];
      var fate := DecideFate(ctx, items[i]);
      r, existing := ApplyFate(state, fate, items[i].claim, r, existing);
    }
    assert fs[..|items|] == fs;
  }

  function Texts(needs: seq<HumanTask>): (r: seq<string>)
    ensures |r| == |needs|
    ensures forall i :: 0 <= i < |needs| ==> r[i] == needs[i].requestedInput
  {
    seq(|needs|, i requires 0 <= i < |needs| => needs[i].requestedInput)
  }

  /** The claims with one fate, in order. */
  function WithFate(fs: seq<(Fate, Claim)>, fate: Fate): seq<Claim> {
    if fs == [] then []
    else
      var front := WithFate(fs[..|fs| - 1], fate);
      if fs[|fs| - 1].0 == fate then front + [fs[|fs| - 1].1] else front
  }

  function ClaimTexts(cs: seq<Claim>): (r: seq<string>)
    ensures |r| == |cs|
    ensures forall i :: 0 <= i < |cs| ==> r[i] == cs[i].claim
  {
    seq(|cs|, i requires 0 <= i < |cs| => cs[i].claim)
  }

  lemma {:induction false} RouteByKeeps(fate: Fate, r: Routing, c: Claim)
    requires WellNumbered(r.tasks)
    ensures var r' := RouteBy(fate, r, c);
      && WellNumbered(r'.tasks) && r.tasks <= r'.tasks
      && r'.cited == (if fate == Cite then r.cited + [c] else r.cited)
      && r'.dropped == (if fate == Drop then r.dropped + [c] else r.dropped)
      && Texts(r'.needs) == (if fate == Supplement then Texts(r.needs) + [c.claim] else Texts(r.needs))
      && ((forall t :: t in r.needs ==> t in r.tasks) ==> forall t :: t in r'.needs ==> t in r'.tasks)
  {
    if fate == Supplement && FirstAsking(r.tasks, c.claim).None? {
      CountedMintIsFresh(r.tasks, SupplementTask(r.tasks, c.claim));
    }
  }

  /** Routing puts every claim into exactly one of the three lists, by its fate and in order; a
      claim needing supplement is there as the task asking for its text; tasks are only appended. */
  lemma {:induction false} RoutingPartitions(fs: seq<(Fate, Claim)>, tasks: seq<HumanTask>)
    requires WellNumbered(tasks)
    ensures var r := RouteAll(fs, tasks);
      && r.cited == WithFate(fs, Cite) && r.dropped == WithFate(fs, Drop)
      && Texts(r.needs) == ClaimTexts(WithFate(fs, Supplement))
      && |r.cited| + |r.dropped| + |r.needs| == |fs|
      && tasks <= r.tasks && WellNumbered(r.tasks)
      && forall t :: t in r.needs ==> t in r.tasks
    decreases |fs|
  {
    if fs != [] {
      RoutingPartitions(fs[..|fs| - 1], tasks);
      RouteByKeeps(fs[|fs| - 1].0, RouteAll(fs[..|fs| - 1], tasks), fs[|fs| - 1].1);
    }
  }

  /** The claim belongs to a known issue of impact 4 or more, in a run whose pull risk is high, and no
      grid cell of that id is exhausted or blocked. */
  ghost predicate AHumanMustSay(ctx: Context, m: MemoClaim) {
    && m.issueId.Some? && ctx.highRisk
    && (exists n :: n in ctx.issues && n.id == m.issueId.value && n.impact >= 4)
    && (forall c :: c in ctx.cells && c.id == m.issueId.value ==>
          c.status != CellStatus.Na && c.status != CellStatus.Blocked)
  }

  /** The verified claims, in order; or, of the others, those a human must say something about, or those
      nobody must. */
  ghost function Those(ctx: Context, items: seq<MemoClaim>, verified: bool, human: bool): seq<Claim> {
    if items == [] then []
    else
      var front, last := Those(ctx, items[..|items| - 1], verified, human), items[|items| - 1];
      if Verified(ctx, last.claim) == verified && (verified || AHumanMustSay(ctx, last) == human)
      then front + [last.claim] else front
  }

  lemma {:induction false} FateMeans(ctx: Context, m: MemoClaim)
    requires IssueMap.DistinctIds(ctx.issues)
    ensures FateOf(ctx, m) == Cite <==> Verified(ctx, m.claim)
    ensures FateOf(ctx, m) == Supplement <==> !Verified(ctx, m.claim) && AHumanMustSay(ctx, m)
  {
    hide Verified;
    if m.issueId.Some? {
      var k := FindIssue(ctx.issues, m.issueId.value);
      if n :| n in ctx.issues && n.id == m.issueId.value {
        var i :| 0 <= i < |ctx.issues| && ctx.issues[i] == n;
        assert k == Some(i);
      }
    }
  }

  lemma {:induction false} FatesMean(ctx: Context, items: seq<MemoClaim>)
    requires IssueMap.DistinctIds(ctx.issues)
    ensures var fs := Fated(ctx, items);
      && WithFate(fs, Cite) == Those(ctx, items, true, false)
      && WithFate(fs, Supplement) == Those(ctx, items, false, true)
      && WithFate(fs, Drop) == Those(ctx, items, false, false)
    decreases |items|
  {
    hide Verified, AHumanMustSay, FateOf;
    if items != [] {
      var front := items[..|items| - 1];
      FatesMean(ctx, front);
      FateMeans(ctx, items[|items| - 1]);
      assert Fated(ctx, items)[..|items| - 1] == Fated(ctx, front);
    }
  }

  /** What routing does with the claims: exactly the verified ones are cited; of the others exactly those
      a human must say something about need supplement, each as the task asking for its text; the rest are
      dropped; all in order. */
  lemma {:induction false} RoutedMeans(ctx: Context, items: seq<MemoClaim>, tasks: seq<HumanTask>)
    requires IssueMap.DistinctIds(ctx.issues) && WellNumbered(tasks)
    ensures var r := Routed(ctx, items, tasks);
      && r.cited == Those(ctx, items, true, false)
      && r.dropped == Those(ctx, items, false, false)
      && Texts(r.needs) == ClaimTexts(Those(ctx, items, false, true))
  {
    hide Verified, AHumanMustSay, RouteAll, WithFate, Fated;
    FatesMean(ctx, items);
    RoutingPartitions(Fated(ctx, items), tasks);
  }

  /** A task as routing mints it: open, of the highest priority, asking for what nobody asked before. */
  ghost predicate MintedFor(tasks: seq<HumanTask>, i: nat)
    requires i < |tasks|
  {
    && tasks[i].id == TaskId(i + 1) && tasks[i].status == HumanTaskStatus.Open && tasks[i].priority == 5
    && forall j :: 0 <= j < i ==> tasks[j].requestedInput != tasks[i].requestedInput
  }

  lemma {:induction false} OneMintAtMost(fate: Fate, r: Routing, c: Claim)
    requires WellNumbered(r.tasks)
    ensures var r' := RouteBy(fate, r, c);
      && r.tasks <= r'.tasks && |r'.tasks| <= |r.tasks| + 1
      && (|r'.tasks| > |r.tasks| ==> MintedFor(r'.tasks, |r.tasks|))
  {
    if fate == Supplement && FirstAsking(r.tasks, c.claim).None? {
      hide WellNumbered;
      CountedMintIsFresh(r.tasks, SupplementTask(r.tasks, c.claim));
    }
  }

  /** Routing mints a task exactly for each text nobody asked for, once. */
  lemma {:induction false} EachTextIsAskedOnce(fs: seq<(Fate, Claim)>, tasks: seq<HumanTask>)
    requires WellNumbered(tasks)
    ensures var r := RouteAll(fs, tasks);
      && tasks <= r.tasks && WellNumbered(r.tasks)
      && forall i :: |tasks| <= i < |r.tasks| ==> MintedFor(r.tasks, i)
    decreases |fs|
  {
    hide WellNumbered;
    if fs != [] {
      var before, r := RouteAll(fs[..|fs| - 1], tasks), RouteAll(fs, tasks);
      EachTextIsAskedOnce(fs[..|fs| - 1], tasks);
      RouteByKeeps(fs[|fs| - 1].0, before, fs[|fs| - 1].1);
      OneMintAtMost(fs[|fs| - 1].0, before, fs[|fs| - 1].1);
      forall i | |tasks| <= i < |r.tasks| ensures MintedFor(r.tasks, i) {
        if i < |before.tasks| {
          assert MintedFor(before.tasks, i);
        }
      }
    }
  }

  lemma {:induction false} FirstAskingSurvives(tasks: seq<HumanTask>, tasks': seq<HumanTask>, input: string)
    requires tasks <= tasks' && FirstAsking(tasks, input).Some?
    ensures FirstAsking(tasks', input) == FirstAsking(tasks, input)
  {
    var k := FirstAsking(tasks, input).value;
    assert tasks'[k].requestedInput == input;
    assert forall i :: 0 <= i < k ==> tasks'[i] == tasks[i];
  }

  /** Against any task list that extends the one a pass left behind, the pass finds every task it
      needs again, mints nothing, and splits the claims the same way. */
  lemma {:induction false} SecondPassMintsNothing(fs: seq<(Fate, Claim)>, tasks: seq<HumanTask>, later: seq<HumanTask>)
    requires WellNumbered(tasks) && RouteAll(fs, tasks).tasks <= later
    ensures RouteAll(fs, later) == RouteAll(fs, tasks).(tasks := later)
    decreases |fs|
  {
    if fs != [] {
      var front, fate, c := fs[..|fs| - 1], fs[|fs| - 1].0, fs[|fs| - 1].1;
      var before := RouteAll(front, tasks);
      RoutingPartitions(front, tasks);
      RouteByKeeps(fate, before, c);
      SecondPassMintsNothing(front, tasks, later);
      if fate == Supplement {
        TaskIsFoundAgain(before, c, later);
      }
    }
  }

  lemma {:induction false} TaskIsFoundAgain(r: Routing, c: Claim, later: seq<HumanTask>)
    requires WellNumbered(r.tasks) && RouteBy(Supplement, r, c).tasks <= later
    ensures FirstAsking(later, c.claim).Some?
    ensures RouteBy(Supplement, r, c).needs == r.needs + [later[FirstAsking(later, c.claim).value]]
  {
    if FirstAsking(r.tasks, c.claim).Some? {
      FirstAskingSurvives(r.tasks, later, c.claim);
    } else {
      var t := SupplementTask(r.tasks, c.claim);
      CountedMintIsFresh(r.tasks, t);
      assert (r.tasks + [t])[..|r.tasks|] == r.tasks;
      FirstAskingSurvives(r.tasks + [t], later, c.claim);
    }
  }

  /** Routing twice on the same state is routing once. */
  lemma {:induction false} RoutingIsIdempotent(ctx: Context, items: seq<MemoClaim>, tasks: seq<HumanTask>)
    requires WellNumbered(tasks)
    ensures var r := Routed(ctx, items, tasks); Routed(ctx, items, r.tasks) == r
  {
    SecondPassMintsNothing(Fated(ctx, items), tasks, Routed(ctx, items, tasks).tasks);
  }

  // ----- the memo -----

  datatype SectionKey =
    | Findings | EvidenceSummary | ExecutiveAnswer | CanCannotSay | RisksAssumptions | ChallengeMapSection
    | BlockingSection | RequiredHumanDecisions | RecommendedNextAction | Appendix

  const MEMO_ORDER: seq<SectionKey> := [
    Findings, EvidenceSummary, ExecutiveAnswer, CanCannotSay, RisksAssumptions, ChallengeMapSection,
    BlockingSection, RequiredHumanDecisions, RecommendedNextAction, Appendix]

  datatype MemoSection = MemoSection(key: SectionKey, body: string)

  /** What the synthesizer and the two status renderings contribute, already stripped. */
  datatype Prose = Prose(body: map<SectionKey, string>, blockers: string, challenges: string)

  const SUPPLEMENT_HEADER := "⚠ 以下為決策關鍵但無法以引用驗證之項目（needs human supplement，非已驗證事實）："

  function Flagged(claim: string): string { "- [needs human supplement] " + claim }

  /** _render_needs_supplement for a non-empty list. */
  function NeedsText(needs: seq<string>): string {
    if needs == [] then SUPPLEMENT_HEADER
    else NeedsText(needs[..|needs| - 1]) + "\n" + Flagged(needs[|needs| - 1])
  }

  function ProseFor(prose: Prose, key: SectionKey): string {
    if key in prose.body then prose.body[key] else ""
  }

  function Joined(body: string, extra: string): string {
    if body != "" then body + "\n\n" + extra else extra
  }

  function SectionBody(prose: Prose, noEvidence: bool, needs: seq<string>, key: SectionKey): string {
    var body := ProseFor(prose, key);
    match key
    case Findings =>
      if body != "" then body
      else if noEvidence then "N/A（無可引用之證據，未臆測）。"
      else "（findings 缺失；請參考下方證據摘要。）"
    case BlockingSection => Joined(body, prose.blockers)
    case ChallengeMapSection => Joined(body, prose.challenges)
    case CanCannotSay => if needs != [] then Joined(body, NeedsText(needs)) else body
    case RequiredHumanDecisions => if needs != [] then Joined(body, NeedsText(needs)) else body
    case _ => body
  }

  function Sections(prose: Prose, noEvidence: bool, needs: seq<string>): seq<MemoSection> {
    seq(|MEMO_ORDER|, i requires 0 <= i < |MEMO_ORDER| =>
      MemoSection(MEMO_ORDER[i], SectionBody(prose, noEvidence, needs, MEMO_ORDER[i])))
  }

  /** [c for c in unverified if c not in needs] */
  function Without(unverified: seq<string>, needs: seq<string>): (r: seq<string>)
    ensures forall c :: c in r <==> c in unverified && c !in needs
  {
    if unverified == [] then []
    else
      var front, last := Without(unverified[..|unverified| - 1], needs), unverified[|unverified| - 1];
      if last in needs then front else front + [last]
  }

  lemma {:induction false} WithoutInOrder(unverified: seq<string>, more: seq<string>, needs: seq<string>)
    ensures Without(unverified + more, needs) == Without(unverified, needs) + Without(more, needs)
    decreases |more|
  {
    if more == [] {
      assert unverified + more == unverified;
    } else {
      WithoutInOrder(unverified, more[..|more| - 1], needs);
      assert (unverified + more)[..|unverified + more| - 1] == unverified + more[..|more| - 1];
    }
  }

  /** The claims a memo lists as unverified come in the order of the evidence, one entry to a claim. */
  lemma {:induction false} UnverifiedInOrder(ctx: Context, items: seq<MemoClaim>, more: seq<MemoClaim>,
      needs: seq<string>)
    ensures Without(UnverifiedKey(ctx, items + more), needs)
      == Without(UnverifiedKey(ctx, items), needs) + Without(UnverifiedKey(ctx, more), needs)
  {
    UnverifiedAppend(ctx, items, more);
    WithoutInOrder(UnverifiedKey(ctx, items), UnverifiedKey(ctx, more), needs);
  }

  lemma {:induction false} UnverifiedAppend(ctx: Context, items: seq<MemoClaim>, more: seq<MemoClaim>)
    ensures UnverifiedKey(ctx, items + more) == UnverifiedKey(ctx, items) + UnverifiedKey(ctx, more)
    decreases |more|
  {
    hide Verified;
    if more == [] {
      assert items + more == items;
    } else {
      UnverifiedAppend(ctx, items, more[..|more| - 1]);
      assert (items + more)[..|items + more| - 1] == items + more[..|more| - 1];
    }
  }

  datatype Refusal =
    | NoAuditRan | AuditDegraded | ChallengeUnresolved | KeyClaimsUnverified(claims: seq<string>) | ReadinessUnmet

  class Memo {
    var sections: seq<MemoSection>
    var unverifiedKeyClaims: seq<string>
    var needsSupplement: seq<string>
    var emitted: bool
    var refusedReason: Option<Refusal>

    constructor (sections: seq<MemoSection>, unverified: seq<string>, needs: seq<string>)
      ensures this.sections == sections && unverifiedKeyClaims == unverified && needsSupplement == needs
      ensures !emitted && refusedReason == None
    {
      this.sections, unverifiedKeyClaims, needsSupplement := sections, unverified, needs;
      emitted, refusedReason := false, None;
    }
  }

  method AssembleMemo(state: ResearchState, ctx: Context, prose: Prose) returns (memo: Memo)
    requires WellNumbered(state.humanTasks)
    modifies state`humanTasks
    ensures fresh(memo) && !memo.emitted
    ensures var items := MemoClaims(state.evidence);
      var needs := Texts(Routed(ctx, items, old(state.humanTasks)).needs);
      && state.humanTasks == Routed(ctx, items, old(state.humanTasks)).tasks
      && memo.needsSupplement == needs
      && memo.unverifiedKeyClaims == Without(UnverifiedKey(ctx, items), needs)
      && memo.sections == Sections(prose, state.evidence == [], needs)
    ensures WellNumbered(state.humanTasks) && old(state.humanTasks) <= state.humanTasks
  {
    hide MemoClaims, UnverifiedKey, Routed, WellNumbered, SectionBody;
    var items := MemoClaims(state.evidence);
    var route := RouteCitations(state, ctx, items);
    var needs := Texts(route.needs);
    var sections: seq<MemoSection> := [];
    for i := 0 to |MEMO_ORDER|
      invariant sections == Sections(prose, state.evidence == [], needs)[..i]
    {
      var body := SectionBody(prose, state.evidence == [], needs, MEMO_ORDER[i]);
      sections := sections + [MemoSection(MEMO_ORDER[i], body)];
    }
    var unverified := CitationPass(ctx, items);
    memo := new Memo(sections, Without(unverified, needs), needs);
  }

  // ----- the emission gates -----

  /** The first gate that refuses; None when the memo is emitted. */
  function FirstRefusal(audit: Option<AuditResult>, cs: seq<AlbertChallenge>, score: Option<ReadinessScore>,
                        unverified: seq<string>, explicit: bool): Option<Refusal>
  {
    if audit.None? then Some(NoAuditRan)
    else if audit.value.degraded then Some(AuditDegraded)
    else if !explicit && HasUnresolvedHighImpact(cs) then Some(ChallengeUnresolved)
    else if unverified != [] then Some(KeyClaimsUnverified(unverified))
    else if !TargetsMet(score) && !explicit then Some(ReadinessUnmet)
    else None
  }

  method CheckEmission(state: ResearchState, memo: Memo, explicit: bool)
    modifies memo`emitted, memo`refusedReason
    ensures memo.refusedReason ==
      FirstRefusal(state.lastAudit, state.challengeMap, state.readinessScore, memo.unverifiedKeyClaims, explicit)
    ensures memo.emitted <==> memo.refusedReason == None
  {
    if state.lastAudit.None? {
      memo.emitted, memo.refusedReason := false, Some(NoAuditRan);
      return;
    }
    if state.lastAudit.value.degraded {
      memo.emitted, memo.refusedReason := false, Some(AuditDegraded);
      return;
    }
    if !explicit && HasUnresolvedHighImpact(state.challengeMap) {
      memo.emitted, memo.refusedReason := false, Some(ChallengeUnresolved);
      return;
    }
    if memo.unverifiedKeyClaims != [] {
      memo.emitted, memo.refusedReason := false, Some(KeyClaimsUnverified(memo.unverifiedKeyClaims));
      return;
    }
    if !TargetsMet(state.readinessScore) && !explicit {
      memo.emitted, memo.refusedReason := false, Some(ReadinessUnmet);
      return;
    }
    memo.emitted, memo.refusedReason := true, None;
  }

  /** A memo is emitted exactly when the correctness gates hold and, unless emission was asked
      for explicitly, the completeness gates do. */
  lemma {:induction false} EmittedExactlyWhen(audit: Option<AuditResult>, cs: seq<AlbertChallenge>,
      score: Option<ReadinessScore>,
                                              unverified: seq<string>, explicit: bool)
    ensures FirstRefusal(audit, cs, score, unverified, explicit) == None <==>
      && audit.Some? && !audit.value.degraded && unverified == []
      && (explicit || (TargetsMet(score) && forall c :: c in cs && IsUnresolved(c) ==> c.confidence < HIGH_IMPACT_CONF))
  {
  }

  ghost predicate IsOpenOrAnswered(c: AlbertChallenge) {
    c.status == ChallengeStatus.Open || c.status == ChallengeStatus.Answered
  }

  /** Which gate refuses: a missing audit, then a degraded one, then, unless emission is explicit, an
      open or answered challenge of confidence 4 or more, then an unverified key claim, then, unless
      explicit, a readiness below 4. */
  lemma {:induction false} RefusalMeans(audit: Option<AuditResult>, cs: seq<AlbertChallenge>,
      score: Option<ReadinessScore>, unverified: seq<string>, explicit: bool)
    ensures var r := FirstRefusal(audit, cs, score, unverified, explicit);
      var unresolved := exists c :: c in cs && c.confidence >= 4 && IsOpenOrAnswered(c);
      var ready := score.Some? && score.value.albert >= 4 && score.value.decision >= 4
        && score.value.exhaustion >= 4 && score.value.human >= 4;
      && (r == Some(NoAuditRan) <==> audit.None?)
      && (r == Some(AuditDegraded) <==> audit.Some? && audit.value.degraded)
      && (r == Some(ChallengeUnresolved) <==> audit.Some? && !audit.value.degraded && !explicit && unresolved)
      && (r == Some(KeyClaimsUnverified(unverified)) <==>
            audit.Some? && !audit.value.degraded && (explicit || !unresolved) && unverified != [])
      && (r == Some(ReadinessUnmet) <==>
            audit.Some? && !audit.value.degraded && !explicit && !unresolved && unverified == [] && !ready)
      && (r == None <==>
            audit.Some? && !audit.value.degraded && unverified == [] && (explicit || (!unresolved && ready)))
  {
    assert forall c: AlbertChallenge :: IsUnresolved(c) <==> IsOpenOrAnswered(c);
  }

  lemma {:induction false} FlagIsRendered(needs: seq<string>, c: string)
    requires c in needs
    ensures Contains(NeedsText(needs), Flagged(c))
    decreases |needs|
  {
    var front, last := needs[..|needs| - 1], needs[|needs| - 1];
    if c == last {
      assert OccursAt(Flagged(c), Flagged(c), 0);
      ContainsInConcat(NeedsText(front) + "\n", Flagged(c), "", Flagged(c));
      assert NeedsText(front) + "\n" + Flagged(c) + "" == NeedsText(needs);
    } else {
      FlagIsRendered(front, c);
      ContainsInConcat("", NeedsText(front), "\n" + Flagged(last), Flagged(c));
      assert "" + NeedsText(front) + ("\n" + Flagged(last)) == NeedsText(needs);
    }
  }

  /** The claim stands flagged in a section the memo really has. */
  ghost predicate FlaggedIn(sections: seq<MemoSection>, key: SectionKey, claim: string) {
    exists i :: 0 <= i < |sections| && sections[i].key == key && Contains(sections[i].body, Flagged(claim))
  }

  lemma {:induction false} SupplementsAreSurfaced(prose: Prose, noEvidence: bool, needs: seq<string>, c: string)
    requires c in needs
    ensures FlaggedIn(Sections(prose, noEvidence, needs), CanCannotSay, c)
    ensures FlaggedIn(Sections(prose, noEvidence, needs), RequiredHumanDecisions, c)
  {
    FlagIsRendered(needs, c);
    var ss := Sections(prose, noEvidence, needs);
    JoinedKeeps(ProseFor(prose, CanCannotSay), NeedsText(needs), Flagged(c));
    JoinedKeeps(ProseFor(prose, RequiredHumanDecisions), NeedsText(needs), Flagged(c));
    assert ss[3].key == CanCannotSay && Contains(ss[3].body, Flagged(c));
    assert ss[7].key == RequiredHumanDecisions && Contains(ss[7].body, Flagged(c));
  }

  lemma {:induction false} JoinedKeeps(body: string, extra: string, part: string)
    requires Contains(extra, part)
    ensures Contains(Joined(body, extra), part)
  {
    ContainsInConcat(body + "\n\n", extra, "", part);
    assert body + "\n\n" + extra + "" == body + "\n\n" + extra;
  }

  /** Honest emission: an emitted memo states no unverified key claim as fact. Every claim of
      confidence 4 or more is verified against its primary sources, or its text is one a human
      task asks for and stands flagged in both the cannot-say and the required-decisions section. */
  lemma {:induction false} EmissionIsHonest(ctx: Context, evidence: seq<EvidenceBundle>, tasks: seq<HumanTask>,
      prose: Prose, audit: Option<AuditResult>, cs: seq<AlbertChallenge>, score: Option<ReadinessScore>,
      explicit: bool, m: MemoClaim)
    requires WellNumbered(tasks) && m in MemoClaims(evidence) && m.claim.confidence >= KEY_CLAIM_CONF
    requires var items := MemoClaims(evidence);
      var needs := Texts(Routed(ctx, items, tasks).needs);
      FirstRefusal(audit, cs, score, Without(UnverifiedKey(ctx, items), needs), explicit) == None
    ensures Verified(ctx, m.claim) ||
      var r := Routed(ctx, MemoClaims(evidence), tasks);
      var sections := Sections(prose, evidence == [], Texts(r.needs));
      && (exists t :: t in r.tasks && t.requestedInput == m.claim.claim)
      && FlaggedIn(sections, CanCannotSay, m.claim.claim)
      && FlaggedIn(sections, RequiredHumanDecisions, m.claim.claim)
  {
    hide MemoClaims, UnverifiedKey, RouteAll, WellNumbered, Verified, FirstRefusal, Sections, FlaggedIn;
    var items := MemoClaims(evidence);
    var r := Routed(ctx, items, tasks);
    var needs := Texts(r.needs);
    if !Verified(ctx, m.claim) {
      EmittedExactlyWhen(audit, cs, score, Without(UnverifiedKey(ctx, items), needs), explicit);
      assert m.claim.claim in UnverifiedKey(ctx, items);
      assert m.claim.claim in needs;
      SupplementsAreSurfaced(prose, evidence == [], needs, m.claim.claim);
      var i :| 0 <= i < |needs| && needs[i] == m.claim.claim;
      RoutingPartitions(Fated(ctx, items), tasks);
      assert r.needs[i] in r.tasks;
    }
  }

  // ----- what the sections hold -----

  lemma {:induction false} ContainsSelf(s: string)
    ensures Contains(s, s)
  {
    assert OccursAt(s, s, 0);
  }

  lemma {:induction false} EmptyIsContained(s: string)
    ensures Contains(s, "")
  {
    assert OccursAt(s, "", 0);
  }

  lemma {:induction false} JoinedHoldsBoth(body: string, extra: string)
    ensures Contains(Joined(body, extra), body) && Contains(Joined(body, extra), extra)
  {
    ContainsSelf(extra);
    JoinedKeeps(body, extra, extra);
    if body != "" {
      ContainsSelf(body);
      ContainsInConcat("", body, "\n\n" + extra, body);
      assert "" + body + ("\n\n" + extra) == body + "\n\n" + extra;
    } else {
      assert OccursAt(extra, "", 0);
    }
  }

  ghost predicate HasSection(sections: seq<MemoSection>, key: SectionKey) {
    exists i :: 0 <= i < |sections| && sections[i].key == key
  }

  lemma {:induction false} MemoOrder(prose: Prose, noEvidence: bool, needs: seq<string>, key: SectionKey)
    ensures var ss := Sections(prose, noEvidence, needs);
      |ss| == 10 && ss[0].key == Findings && HasSection(ss, key)
  {
    hide SectionBody;
    var ss := Sections(prose, noEvidence, needs);
    assert |MEMO_ORDER| == 10;
    var i := match key
      case Findings => 0 case EvidenceSummary => 1 case ExecutiveAnswer => 2 case CanCannotSay => 3
      case RisksAssumptions => 4 case ChallengeMapSection => 5 case BlockingSection => 6
      case RequiredHumanDecisions => 7 case RecommendedNextAction => 8 case Appendix => 9;
    assert ss[i].key == MEMO_ORDER[i] == key;
  }

  /** The memo has its ten sections, one each, and leads with the findings. Every section keeps the prose
      written for it; the findings are never empty; the blocking and challenge-map sections hold what the
      code renders; and nothing is added to the flagging sections unless a claim needs supplement. */
  lemma {:induction false} SectionsMean(prose: Prose, noEvidence: bool, needs: seq<string>, i: nat, key: SectionKey)
    requires i < 10
    ensures var ss := Sections(prose, noEvidence, needs);
      && |ss| == 10 && ss[0].key == Findings && HasSection(ss, key)
      && (ss[i].key in prose.body ==> Contains(ss[i].body, prose.body[ss[i].key]))
      && (ss[i].key == Findings ==> ss[i].body != "")
      && (ss[i].key == BlockingSection ==> Contains(ss[i].body, prose.blockers))
      && (ss[i].key == ChallengeMapSection ==> Contains(ss[i].body, prose.challenges))
      && (ss[i].key in {CanCannotSay, RequiredHumanDecisions} && needs == [] ==>
            ss[i].body == ProseFor(prose, ss[i].key))
  {
    hide Contains, SectionBody;
    var ss := Sections(prose, noEvidence, needs);
    MemoOrder(prose, noEvidence, needs, key);
    assert |MEMO_ORDER| == 10;
    assert ss[i] == MemoSection(ss[i].key, SectionBody(prose, noEvidence, needs, ss[i].key));
    SectionKeepsProse(prose, noEvidence, needs, ss[i].key);
  }

  lemma {:induction false} SectionKeepsProse(prose: Prose, noEvidence: bool, needs: seq<string>, key: SectionKey)
    ensures var body := SectionBody(prose, noEvidence, needs, key);
      && (key in prose.body ==> Contains(body, prose.body[key]))
      && (key == BlockingSection ==> Contains(body, prose.blockers))
      && (key == ChallengeMapSection ==> Contains(body, prose.challenges))
      && (key == Findings ==> body != "")
      && (key in {CanCannotSay, RequiredHumanDecisions} && needs == [] ==> body == ProseFor(prose, key))
  {
    hide Contains, Joined, NeedsText;
    var own := ProseFor(prose, key);
    ContainsSelf(own);
    JoinedHoldsBoth(own, prose.blockers);
    JoinedHoldsBoth(own, prose.challenges);
    JoinedHoldsBoth(own, NeedsText(needs));
    EmptyIsContained(SectionBody(prose, noEvidence, needs, key));
  }
}
