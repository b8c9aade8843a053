/** The issue map (artifacts/issue_map.py) and what the loop's nodes do to it: expansion, steering,
    the competitor branch, folding research results and handing an issue off (graph.py). */
module IssueMap {
  import opened Models
  import Dictionary
  import opened Numbering
  import opened Decisions
  import opened ResearchSelection
  import opened StableSort

  /** What a caller of add supplies; every caller adds the issue as open. */
  datatype IssueDraft = IssueDraft(title: string, issueType: IssueType, impact: nat, confidence: nat)

  function PutIssue(issues: seq<IssueNode>, n: IssueNode): seq<IssueNode> {
    Dictionary.Put(issues, (n: IssueNode) => n.id, n)
  }

  function IssueNumber(n: nat, d: IssueDraft): IssueNode {
    IssueNode(IssueId(n), d.title, d.issueType, IssueStatus.Open, d.impact, d.confidence, [], [])
  }

  function NewIssue(issues: seq<IssueNode>, d: IssueDraft): IssueNode { IssueNumber(|issues| + 1, d) }

  function AddAll(issues: seq<IssueNode>, drafts: seq<IssueDraft>): seq<IssueNode> {
    if drafts == [] then issues
    else
      var front := AddAll(issues, drafts[..|drafts| - 1]);
      PutIssue(front, NewIssue(front, drafts[|drafts| - 1]))
  }

  /** The expander seeds an empty map and leaves any other one alone. */
  function Expanded(issues: seq<IssueNode>, drafts: seq<IssueDraft>): seq<IssueNode> {
    if issues != [] then issues else AddAll(issues, drafts)
  }

  predicate HasType(issues: seq<IssueNode>, t: IssueType) { exists n :: n in issues && n.issueType == t }

  const COMPETITOR := IssueDraft("競品是否已有此能力?", IssueType.Competitor, 4, 1)

  /** _materialize_competitor */
  function Materialized(issues: seq<IssueNode>, b: Budget): (seq<IssueNode>, Budget) {
    if CanBranch(b) && !HasType(issues, IssueType.Competitor)
    then (PutIssue(issues, NewIssue(issues, COMPETITOR)), Spend(b))
    else (issues, b)
  }

  function WithStatus(issues: seq<IssueNode>, id: string, status: IssueStatus): seq<IssueNode> {
    match FindIssue(issues, id)
    case Some(k) => issues[k := issues[k].(status := status)]
    case None => issues
  }

  // ----- steering -----

  /** A steer text names an issue when one of the two texts contains the other. */
  predicate Named(n: IssueNode, text: string) {
    n.title != "" && (Contains(text, n.title) || Contains(n.title, text))
  }

  function Bumped(n: IssueNode, text: string): IssueNode {
    if Named(n, text) then n.(impact := if n.impact + 1 < 5 then n.impact + 1 else 5) else n
  }

  function Steered(issues: seq<IssueNode>, text: string): (r: seq<IssueNode>)
    ensures |r| == |issues|
    ensures forall i :: 0 <= i < |issues| ==> r[i] == Bumped(issues[i], text)
  {
    seq(|issues|, i requires 0 <= i < |issues| => Bumped(issues[i], text))
  }

  function SteeredAll(issues: seq<IssueNode>, texts: seq<string>): (r: seq<IssueNode>)
    ensures |r| == |issues|
  {
    if texts == [] then issues else Steered(SteeredAll(issues, texts[..|texts| - 1]), texts[|texts| - 1])
  }

  // ----- folding research results -----

  /** One more round of evidence moves an issue one step towards answered. */
  function Advanced(n: IssueNode): IssueNode {
    match n.status
    case Open => n.(status := IssueStatus.PartiallyAnswered)
    case Researching => n.(status := IssueStatus.PartiallyAnswered)
    case PartiallyAnswered => n.(status := IssueStatus.Answered, confidence := 4)
    case _ => n
  }

  function IssueOf(issues: seq<IssueNode>, b: EvidenceBundle): (k: Option<nat>)
    ensures k.Some? ==> k.value < |issues| && b.issueId == Some(issues[k.value].id)
  {
    if b.issueId.Some? && b.issueId.value != "" then FindIssue(issues, b.issueId.value) else None
  }

  function FoldOne(issues: seq<IssueNode>, b: EvidenceBundle): (r: seq<IssueNode>)
    ensures |r| == |issues|
    ensures forall i :: 0 <= i < |issues| ==> r[i].id == issues[i].id
  {
    match IssueOf(issues, b)
    case Some(k) => issues[k := Advanced(issues[k]).(evidenceRefs := issues[k].evidenceRefs + [b.query])]
    case None => issues
  }

  function FoldAll(issues: seq<IssueNode>, bs: seq<EvidenceBundle>): (r: seq<IssueNode>)
    ensures |r| == |issues|
    ensures forall i :: 0 <= i < |issues| ==> r[i].id == issues[i].id
  {
    if bs == [] then issues else FoldOne(FoldAll(issues, bs[..|bs| - 1]), bs[|bs| - 1])
  }

  // ----- handing an issue off -----

  function ImpactKey(): IssueNode -> Key { (n: IssueNode) => (n.impact, 0) }

  function FirstAddressable(issues: seq<IssueNode>): Option<IssueNode> {
    if issues == [] then None else if IsAddressable(issues[0]) then Some(issues[0]) else FirstAddressable(issues[1..])
  }

  /** The issue the push node hands to a human. */
  function PushTarget(issues: seq<IssueNode>): Option<IssueNode> {
    FirstAddressable(Sorted(issues, ImpactKey()))
  }

  // ----- the operations, in place -----

  method Add(state: ResearchState, d: IssueDraft)
    modifies state`issueMap
    ensures state.issueMap == PutIssue(old(state.issueMap), NewIssue(old(state.issueMap), d))
  {
    var node := NewIssue(state.issueMap, d);
    state.issueMap := PutIssue(state.issueMap, node);
  }

  method Expand(state: ResearchState, drafts: seq<IssueDraft>)
    modifies state`issueMap
    ensures state.issueMap == Expanded(old(state.issueMap), drafts)
  {
    if state.issueMap != [] {
      return;
    }
    for i := 0 to |drafts|
      invariant state.issueMap == AddAll(old(state.issueMap), drafts[..i])
    {
      assert drafts[..i + 1][..i] == drafts[..i];
      Add(state, drafts[i]);
    }
    assert drafts[..|drafts|] == drafts;
  }

  method MaterializeCompetitor(state: ResearchState, b: Budget) returns (b': Budget)
    modifies state`issueMap
    ensures (state.issueMap, b') == Materialized(old(state.issueMap), b)
  {
    b' := b;
    if CanBranch(b) && !HasType(state.issueMap, IssueType.Competitor) {
      Add(state, COMPETITOR);
      b' := Spend(b);
    }
  }

  method SetStatus(state: ResearchState, id: string, status: IssueStatus)
    modifies state`issueMap
    ensures state.issueMap == WithStatus(old(state.issueMap), id, status)
  {
    var k := FindIssue(state.issueMap, id);
    if k.Some? {
      state.issueMap := state.issueMap[k.value := state.issueMap[k.value].(status := status)];
    }
  }

  method ConsumeSteerEvents(state: ResearchState, texts: seq<string>)
    modifies state`issueMap
    ensures state.issueMap == SteeredAll(old(state.issueMap), texts)
  {
    for t := 0 to |texts|
      invariant state.issueMap == SteeredAll(old(state.issueMap), texts[..t])
    {
      assert texts[..t + 1][..t] == texts[..t];
      ghost var before := state.issueMap;
      for i := 0 to |state.issueMap|
        invariant |state.issueMap| == |before|
        invariant forall j :: 0 <= j < |before| ==>
          state.issueMap[j] == if j < i then Bumped(before[j], texts[t]) else before[j]
      {
        var n := state.issueMap[i];
        if n.title != "" && (Contains(texts[t], n.title) || Contains(n.title, texts[t])) {
          state.issueMap := state.issueMap[i := n.(impact := if n.impact + 1 < 5 then n.impact + 1 else 5)];
        }
      }
      assert state.issueMap == Steered(before, texts[t]);
    }
    assert texts[..|texts|] == texts;
  }

  /** The loop of node_collect over the worker buffer. */
  method FoldResults(state: ResearchState, workers: seq<EvidenceBundle>)
    modifies state`issueMap, state`evidence
    ensures state.issueMap == FoldAll(old(state.issueMap), workers)
    ensures state.evidence == old(state.evidence) + workers
  {
    for i := 0 to |workers|
      invariant state.issueMap == FoldAll(old(state.issueMap), workers[..i])
      invariant state.evidence == old(state.evidence) + workers[..i]
    {
      assert workers[..i + 1][..i] == workers[..i];
      state.evidence := state.evidence + [workers[i]];
      var k := IssueOf(state.issueMap, workers[i]);
      if k.Some? {
        var node := state.issueMap[k.value];
        if node.status == IssueStatus.Open || node.status == IssueStatus.Researching {
          node := node.(status := IssueStatus.PartiallyAnswered);
        } else if node.status == IssueStatus.PartiallyAnswered {
          node := node.(status := IssueStatus.Answered, confidence := 4);
        }
        node := node.(evidenceRefs := node.evidenceRefs + [workers[i].query]);
        state.issueMap := state.issueMap[k.value := node];
      }
    }
    assert workers[..|workers|] == workers;
  }

  method FindPushTarget(state: ResearchState) returns (target: Option<IssueNode>)
    ensures target == PushTarget(state.issueMap)
  {
    var byImpact := Sorted(state.issueMap, ImpactKey());
    for i := 0 to |byImpact|
      invariant FirstAddressable(byImpact) == FirstAddressable(byImpact[i..])
    {
      if IsAddressable(byImpact[i]) {
        return Some(byImpact[i]);
      }
      assert byImpact[i..][1..] == byImpact[i + 1..];
    }
    target := None;
  }

  // ----- what these operations keep and mean -----

  /** The ids are I-001, I-002, ... in order. */
  ghost predicate NumberedIssues(issues: seq<IssueNode>) {
    issues == [] || (issues[|issues| - 1].id == IssueId(|issues|) && NumberedIssues(issues[..|issues| - 1]))
  }

  lemma {:induction false} NumberAt(issues: seq<IssueNode>, k: nat)
    requires NumberedIssues(issues) && k < |issues|
    ensures issues[k].id == IssueId(k + 1)
    decreases |issues|
  {
    if k < |issues| - 1 {
      NumberAt(issues[..|issues| - 1], k);
    }
  }

  lemma {:induction false} NumberingIsAboutIds(a: seq<IssueNode>, b: seq<IssueNode>)
    requires NumberedIssues(a) && |a| == |b| && forall i :: 0 <= i < |a| ==> a[i].id == b[i].id
    ensures NumberedIssues(b)
    decreases |a|
  {
    if a != [] {
      NumberingIsAboutIds(a[..|a| - 1], b[..|a| - 1]);
    }
  }

  /** How far an issue is: 0 open or being researched, 1 partially answered, 2 answered. */
  function Progress(s: IssueStatus): Option<nat> {
    match s
    case Open => Some(0)
    case Researching => Some(0)
    case PartiallyAnswered => Some(1)
    case Answered => Some(2)
    case _ => None
  }

  /** A status only moves on, or to the one the push node sets. */
  ghost predicate Forward(a: IssueStatus, b: IssueStatus) {
    || b == a || b == IssueStatus.BlockedByInternalData
    || (Progress(a).Some? && Progress(b).Some? && Progress(a).value <= Progress(b).value)
  }

  /** What the loop may do to the issues already there: nothing is lost, renamed, retyped or
      re-opened, and evidence refs only extend. */
  ghost predicate IssuesForward(issues: seq<IssueNode>, issues': seq<IssueNode>) {
    && |issues| <= |issues'|
    && forall i :: 0 <= i < |issues| ==>
         && issues'[i].id == issues[i].id && issues'[i].title == issues[i].title
         && issues'[i].issueType == issues[i].issueType && issues[i].evidenceRefs <= issues'[i].evidenceRefs
         && Forward(issues[i].status, issues'[i].status)
  }

  lemma {:induction false} ForwardIsTransitive(a: seq<IssueNode>, b: seq<IssueNode>, c: seq<IssueNode>)
    requires IssuesForward(a, b) && IssuesForward(b, c)
    ensures IssuesForward(a, c)
  {
    forall i | 0 <= i < |a| ensures a[i].evidenceRefs <= c[i].evidenceRefs && Forward(a[i].status, c[i].status) {
      assert a[i].evidenceRefs <= b[i].evidenceRefs <= c[i].evidenceRefs;
      assert Forward(a[i].status, b[i].status) && Forward(b[i].status, c[i].status);
    }
  }

  lemma {:induction false} NextIdIsFree(issues: seq<IssueNode>)
    requires NumberedIssues(issues)
    ensures FindIssue(issues, IssueId(|issues| + 1)) == None
  {
    var k := FindIssue(issues, IssueId(|issues| + 1));
    if k.Some? {
      NumberAt(issues, k.value);
      IssueIdsDiffer(k.value + 1, |issues| + 1);
    }
  }

  /** add never overwrites an issue. */
  lemma {:induction false} AddAppends(issues: seq<IssueNode>, d: IssueDraft)
    requires NumberedIssues(issues)
    ensures PutIssue(issues, NewIssue(issues, d)) == issues + [NewIssue(issues, d)]
    ensures NumberedIssues(issues + [NewIssue(issues, d)])
  {
    NextIdIsFree(issues);
    var n := NewIssue(issues, d);
    assert (issues + [n])[..|issues|] == issues;
  }

  function InOrder(base: nat, drafts: seq<IssueDraft>): (r: seq<IssueNode>)
    ensures |r| == |drafts|
    ensures forall j :: 0 <= j < |drafts| ==> r[j] == IssueNumber(base + j + 1, drafts[j])
  {
    seq(|drafts|, j requires 0 <= j < |drafts| => IssueNumber(base + j + 1, drafts[j]))
  }

  lemma {:induction false} InOrderStep(base: nat, drafts: seq<IssueDraft>)
    requires drafts != []
    ensures var k := |drafts| - 1;
      InOrder(base, drafts) == InOrder(base, drafts[..k]) + [IssueNumber(base + k + 1, drafts[k])]
  {
  }

  /** Expansion appends one open issue per draft, in order, and overwrites none. */
  lemma {:induction false} AddAllAppends(issues: seq<IssueNode>, drafts: seq<IssueDraft>)
    requires NumberedIssues(issues)
    ensures AddAll(issues, drafts) == issues + InOrder(|issues|, drafts)
    ensures NumberedIssues(AddAll(issues, drafts))
    decreases |drafts|
  {
    if drafts != [] {
      var k := |drafts| - 1;
      AddAllAppends(issues, drafts[..k]);
      var front := AddAll(issues, drafts[..k]);
      AddAppends(front, drafts[k]);
      InOrderStep(|issues|, drafts);
    }
  }

  lemma {:induction false} ExpansionKeeps(issues: seq<IssueNode>, drafts: seq<IssueDraft>)
    requires NumberedIssues(issues)
    ensures NumberedIssues(Expanded(issues, drafts)) && IssuesForward(issues, Expanded(issues, drafts))
  {
    if issues == [] {
      AddAllAppends(issues, drafts);
    }
  }

  lemma {:induction false} StatusChangeKeeps(issues: seq<IssueNode>, id: string)
    ensures var r := WithStatus(issues, id, IssueStatus.BlockedByInternalData);
      IssuesForward(issues, r) && (NumberedIssues(issues) ==> NumberedIssues(r))
  {
    if NumberedIssues(issues) {
      NumberingIsAboutIds(issues, WithStatus(issues, id, IssueStatus.BlockedByInternalData));
    }
  }

  /** The branch budget is spent only for a competitor issue the map did not have, and then it has one:
      a second rework verdict finds it and changes nothing. */
  lemma {:induction false} CompetitorComesOnce(issues: seq<IssueNode>, b: Budget)
    requires NumberedIssues(issues)
    ensures var (issues', b') := Materialized(issues, b);
      && NumberedIssues(issues') && IssuesForward(issues, issues')
      && (b' != b <==> issues' != issues)
      && (issues' != issues ==> b.depth > 0 && b'.depth == b.depth - 1 && HasType(issues', IssueType.Competitor))
      && Materialized(issues', b') == (issues', b')
  {
    AddAppends(issues, COMPETITOR);
    var n := NewIssue(issues, COMPETITOR);
    assert n in issues + [n];
  }

  /** Steering changes nothing but the impact, and for an impact within the scale the order of the
      texts does not matter: it rises by one for each text naming the issue, up to 5. */
  lemma {:induction false} SteeringMeans(issues: seq<IssueNode>, texts: seq<string>, i: nat)
    requires i < |issues| && issues[i].impact <= 5
    ensures var n, n' := issues[i], SteeredAll(issues, texts)[i];
      && n' == n.(impact := n'.impact)
      && n'.impact == if n.impact + NamingCount(n, texts) < 5 then n.impact + NamingCount(n, texts) else 5
    decreases |texts|
  {
    if texts != [] {
      SteeringMeans(issues, texts[..|texts| - 1], i);
    }
  }

  /** A text names an issue that has a title exactly when one of the two occurs in the other as it stands. */
  lemma {:induction false} NamedMeans(n: IssueNode, text: string)
    ensures Named(n, text) <==>
      n.title != "" && exists left, mid, right: string ::
        (left + mid + right == text && mid == n.title) || (left + mid + right == n.title && mid == text)
  {
    if Named(n, text) {
      if Contains(text, n.title) {
        OccursBetween(text, n.title);
      } else {
        OccursBetween(n.title, text);
      }
    }
    if left, mid, right: string :|
      (left + mid + right == text && mid == n.title) || (left + mid + right == n.title && mid == text) {
      assert OccursAt(mid, mid, 0);
      ContainsInConcat(left, mid, right, mid);
    }
  }

  lemma {:induction false} OccursBetween(s: string, part: string)
    requires Contains(s, part)
    ensures exists left, mid, right: string :: left + mid + right == s && mid == part
  {
    var k: nat :| k <= |s| && OccursAt(s, part, k);
    assert s[..k] + part + s[k + |part|..] == s;
  }

  function NamingCount(n: IssueNode, texts: seq<string>): nat {
    if texts == [] then 0
    else NamingCount(n, texts[..|texts| - 1]) + if Named(n, texts[|texts| - 1]) then 1 else 0
  }

  lemma {:induction false} SteeringKeeps(issues: seq<IssueNode>, texts: seq<string>)
    ensures var r := SteeredAll(issues, texts);
      IssuesForward(issues, r) && |r| == |issues| && (NumberedIssues(issues) ==> NumberedIssues(r))
    decreases |texts|
  {
    if texts != [] {
      SteeringKeeps(issues, texts[..|texts| - 1]);
    }
    if NumberedIssues(issues) {
      NumberingIsAboutIds(issues, SteeredAll(issues, texts));
    }
  }

  function BundlesFor(bs: seq<EvidenceBundle>, id: string): nat {
    if bs == [] then 0
    else BundlesFor(bs[..|bs| - 1], id) + if bs[|bs| - 1].issueId == Some(id) then 1 else 0
  }

  function Capped(n: nat): nat { if n < 2 then n else 2 }

  ghost predicate DistinctIds(issues: seq<IssueNode>) {
    && (forall i :: 0 <= i < |issues| ==> issues[i].id != "")
    && forall i, j :: 0 <= i < j < |issues| ==> issues[i].id != issues[j].id
  }

  lemma {:induction false} TwoIds(issues: seq<IssueNode>, i: nat, j: nat)
    requires NumberedIssues(issues) && i < |issues| && j < |issues|
    ensures issues[i].id != "" && (i != j ==> issues[i].id != issues[j].id)
  {
    NumberAt(issues, i);
    NumberAt(issues, j);
    CountedIdsDiffer(issues[i].id, i + 1, issues[j].id, j + 1);
  }

  lemma {:induction false} CountedIdsDiffer(a: string, m: nat, b: string, n: nat)
    requires a == IssueId(m) && b == IssueId(n)
    ensures a != "" && (m != n ==> a != b)
  {
    IssueIdsDiffer(m, n);
  }

  lemma {:induction false} NumbersAreDistinct(issues: seq<IssueNode>)
    requires NumberedIssues(issues)
    ensures DistinctIds(issues)
  {
    forall i, j | 0 <= i <= j < |issues|
      ensures issues[i].id != "" && (i < j ==> issues[i].id != issues[j].id)
    {
      TwoIds(issues, i, j);
    }
  }

  lemma {:induction false} FoldOneMeans(issues: seq<IssueNode>, b: EvidenceBundle, i: nat)
    requires DistinctIds(issues) && i < |issues|
    ensures FoldOne(issues, b)[i] ==
      if b.issueId == Some(issues[i].id)
      then Advanced(issues[i]).(evidenceRefs := issues[i].evidenceRefs + [b.query]) else issues[i]
  {
    if b.issueId == Some(issues[i].id) {
      assert FindIssue(issues, issues[i].id) == Some(i);
    }
  }

  /** n' is n after k more rounds of evidence: k steps forward but never past answered, unless it is
      blocked or of low confidence; confidence 4 when that answers it; one evidence ref per round;
      nothing else changed. */
  ghost predicate MovedBy(n: IssueNode, n': IssueNode, k: nat) {
    && n' == n.(status := n'.status, confidence := n'.confidence, evidenceRefs := n'.evidenceRefs)
    && |n'.evidenceRefs| == |n.evidenceRefs| + k
    && n'.confidence == (if n'.status == IssueStatus.Answered != n.status then 4 else n.confidence)
    && (Progress(n.status).None? ==> n'.status == n.status)
    && (Progress(n.status).Some? ==> Progress(n'.status) == Some(Capped(Progress(n.status).value + k)))
  }

  lemma {:induction false} OneMoreRound(n: IssueNode, n': IssueNode, k: nat, query: string)
    requires MovedBy(n, n', k)
    ensures MovedBy(n, Advanced(n').(evidenceRefs := n'.evidenceRefs + [query]), k + 1)
  {
  }

  /** Folding the buffer moves each issue by as many rounds as the buffer holds bundles for it. */
  lemma {:induction false} FoldingMeans(issues: seq<IssueNode>, bs: seq<EvidenceBundle>, i: nat)
    requires DistinctIds(issues) && i < |issues|
    ensures MovedBy(issues[i], FoldAll(issues, bs)[i], BundlesFor(bs, issues[i].id))
    decreases |bs|
  {
    if bs != [] {
      var before, b := bs[..|bs| - 1], bs[|bs| - 1];
      FoldingMeans(issues, before, i);
      FoldOneMeans(FoldAll(issues, before), b, i);
      if b.issueId == Some(issues[i].id) {
        OneMoreRound(issues[i], FoldAll(issues, before)[i], BundlesFor(before, issues[i].id), b.query);
      }
    }
  }

  /** The queries of the bundles for an issue, in order. */
  function QueriesFor(bs: seq<EvidenceBundle>, id: string): seq<string> {
    if bs == [] then []
    else QueriesFor(bs[..|bs| - 1], id) + if bs[|bs| - 1].issueId == Some(id) then [bs[|bs| - 1].query] else []
  }

  /** Each of them is cited by the issue afterwards, after what it cited before. */
  lemma {:induction false} FoldedRefs(issues: seq<IssueNode>, bs: seq<EvidenceBundle>, i: nat)
    requires DistinctIds(issues) && i < |issues|
    ensures FoldAll(issues, bs)[i].evidenceRefs == issues[i].evidenceRefs + QueriesFor(bs, issues[i].id)
    ensures |QueriesFor(bs, issues[i].id)| == BundlesFor(bs, issues[i].id)
    decreases |bs|
  {
    if bs != [] {
      var before, b := bs[..|bs| - 1], bs[|bs| - 1];
      FoldedRefs(issues, before, i);
      FoldOneMeans(FoldAll(issues, before), b, i);
    }
  }

  lemma {:induction false} FoldOneKeeps(issues: seq<IssueNode>, b: EvidenceBundle)
    ensures IssuesForward(issues, FoldOne(issues, b))
  {
  }

  lemma {:induction false} FoldingKeeps(issues: seq<IssueNode>, bs: seq<EvidenceBundle>)
    ensures IssuesForward(issues, FoldAll(issues, bs))
    ensures NumberedIssues(issues) ==> NumberedIssues(FoldAll(issues, bs))
    decreases |bs|
  {
    if bs != [] {
      var front := FoldAll(issues, bs[..|bs| - 1]);
      FoldingKeeps(issues, bs[..|bs| - 1]);
      FoldOneKeeps(front, bs[|bs| - 1]);
      ForwardIsTransitive(issues, front, FoldAll(issues, bs));
    }
    if NumberedIssues(issues) {
      NumberingIsAboutIds(issues, FoldAll(issues, bs));
    }
  }

  /** The worker buffer is never emptied, so the next collect folds the same bundles again: one
      research result is enough to get an open issue marked answered two collects later, with
      confidence 4 and the same query cited twice. */
  lemma {:induction false} RefoldingAnswers(issues: seq<IssueNode>, bs: seq<EvidenceBundle>,
      more: seq<EvidenceBundle>, i: nat)
    requires DistinctIds(issues) && i < |issues| && Progress(issues[i].status).Some?
    requires BundlesFor(bs, issues[i].id) >= 1
    ensures FoldAll(FoldAll(issues, bs), bs + more)[i].status == IssueStatus.Answered
    ensures |FoldAll(FoldAll(issues, bs), bs + more)[i].evidenceRefs| >= |issues[i].evidenceRefs| + 2
  {
    FoldingMeans(issues, bs, i);
    FoldingMeans(FoldAll(issues, bs), bs + more, i);
    BundlesForAppend(bs, more, issues[i].id);
  }

  lemma {:induction false} BundlesForAppend(bs: seq<EvidenceBundle>, more: seq<EvidenceBundle>, id: string)
    ensures BundlesFor(bs + more, id) == BundlesFor(bs, id) + BundlesFor(more, id)
    decreases |more|
  {
    if more == [] {
      assert bs + more == bs;
    } else {
      BundlesForAppend(bs, more[..|more| - 1], id);
      assert (bs + more)[..|bs + more| - 1] == bs + more[..|more| - 1];
    }
  }

  lemma {:induction false} FirstAddressableIsFirst(issues: seq<IssueNode>)
    ensures match FirstAddressable(issues)
      case None => forall n :: n in issues ==> !IsAddressable(n)
      case Some(t) => exists i :: 0 <= i < |issues| && issues[i] == t && IsAddressable(t)
                        && forall j :: 0 <= j < i ==> !IsAddressable(issues[j])
    decreases |issues|
  {
    if issues != [] {
      var rest := issues[1..];
      FirstAddressableIsFirst(rest);
      if !IsAddressable(issues[0]) && FirstAddressable(rest).Some? {
        var t := FirstAddressable(rest).value;
        var i :| 0 <= i < |rest| && rest[i] == t && IsAddressable(t)
          && forall j :: 0 <= j < i ==> !IsAddressable(rest[j]);
        assert issues[i + 1] == t;
        forall j | 0 <= j < i + 1 ensures !IsAddressable(issues[j]) {
          assert j > 0 ==> issues[j] == rest[j - 1];
        }
      }
    }
  }

  /** An issue is handed off exactly when one is addressable, and it has the highest impact of those. */
  lemma {:induction false} PushTargetIsHighest(issues: seq<IssueNode>)
    ensures PushTarget(issues).Some? <==> HasAddressable(issues)
    ensures PushTarget(issues).Some? ==>
      var t := PushTarget(issues).value;
      t in issues && IsAddressable(t) && forall n :: n in issues && IsAddressable(n) ==> n.impact <= t.impact
  {
    var sorted := Sorted(issues, ImpactKey());
    SortedIsStable(issues, ImpactKey());
    FirstAddressableIsFirst(sorted);
    forall n ensures n in issues <==> n in sorted {
      assert n in multiset(issues) <==> n in multiset(sorted);
    }
    if PushTarget(issues).Some? {
      var t := PushTarget(issues).value;
      var i :| 0 <= i < |sorted| && sorted[i] == t && IsAddressable(t)
        && forall j :: 0 <= j < i ==> !IsAddressable(sorted[j]);
      forall n | n in issues && IsAddressable(n) ensures n.impact <= t.impact {
        var j :| 0 <= j < |sorted| && sorted[j] == n;
        if j != i {
          assert !Above(ImpactKey()(sorted[j]), ImpactKey()(sorted[i]));
        }
      }
    }
  }

  lemma {:induction false} FirstOfKey(xs: seq<IssueNode>, i: nat)
    requires i < |xs| && IsAddressable(xs[i]) && forall j :: 0 <= j < i ==> !IsAddressable(xs[j])
    ensures FirstAddressable(WithKey(xs, ImpactKey(), ImpactKey()(xs[i]))) == Some(xs[i])
    decreases |xs|
  {
    if i > 0 {
      FirstOfKey(xs[1..], i - 1);
      var k := ImpactKey()(xs[i]);
      assert ([xs[0]] + WithKey(xs[1..], ImpactKey(), k))[1..] == WithKey(xs[1..], ImpactKey(), k);
    }
  }

  lemma {:induction false} FirstAmongKey(xs: seq<IssueNode>, k: Key) returns (i: nat)
    requires FirstAddressable(WithKey(xs, ImpactKey(), k)).Some?
    ensures i < |xs| && IsAddressable(xs[i]) && ImpactKey()(xs[i]) == k
    ensures FirstAddressable(WithKey(xs, ImpactKey(), k)) == Some(xs[i])
    ensures forall j :: 0 <= j < i && IsAddressable(xs[j]) ==> ImpactKey()(xs[j]) != k
    decreases |xs|
  {
    var rest := WithKey(xs[1..], ImpactKey(), k);
    assert ([xs[0]] + rest)[1..] == rest;
    if ImpactKey()(xs[0]) == k && IsAddressable(xs[0]) {
      i := 0;
    } else {
      i := FirstAmongKey(xs[1..], k);
      i := i + 1;
    }
  }

  /** Of several issues of the highest impact the first in the map is handed off. */
  lemma {:induction false} PushTargetIsFirst(issues: seq<IssueNode>) returns (i: nat)
    requires HasAddressable(issues)
    ensures i < |issues| && PushTarget(issues) == Some(issues[i]) && IsAddressable(issues[i])
    ensures forall j :: 0 <= j < |issues| && IsAddressable(issues[j]) ==>
      if j < i then issues[j].impact < issues[i].impact else issues[j].impact <= issues[i].impact
  {
    PushTargetIsHighest(issues);
    var sorted := Sorted(issues, ImpactKey());
    SortedIsStable(issues, ImpactKey());
    FirstAddressableIsFirst(sorted);
    var t := PushTarget(issues).value;
    var m :| 0 <= m < |sorted| && sorted[m] == t && IsAddressable(t)
      && forall j :: 0 <= j < m ==> !IsAddressable(sorted[j]);
    FirstOfKey(sorted, m);
    var k := ImpactKey()(t);
    assert WithKey(sorted, ImpactKey(), k) == WithKey(issues, ImpactKey(), k);
    i := FirstAmongKey(issues, k);
    forall j | 0 <= j < |issues| && IsAddressable(issues[j])
      ensures if j < i then issues[j].impact < issues[i].impact else issues[j].impact <= issues[i].impact
    {
      assert issues[j] in issues;
    }
  }
}
