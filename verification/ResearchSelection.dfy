/** Which issues one iteration sends to the researchers (graph.select_research_issues). */
module ResearchSelection {
  import opened Models
  import Dictionary
  import opened Decisions
  import opened StableSort
  import Permutations

  function FindIssue(issues: seq<IssueNode>, id: string): Option<nat> {
    Dictionary.Find(issues, (n: IssueNode) => n.id, id)
  }

  predicate AnsweredOrBlocked(s: IssueStatus) {
    s in {IssueStatus.Answered, IssueStatus.BlockedByHuman, IssueStatus.BlockedByInternalData,
          IssueStatus.BlockedByPermission, IssueStatus.BlockedByDecision}
  }

  datatype Candidate = Candidate(issue: IssueNode, hasChallenge: bool)

  function CandidateKey(): Candidate -> Key {
    (c: Candidate) => (if c.hasChallenge then 1 else 0, c.issue.impact)
  }

  function IssuesWithOpenChallenge(cs: seq<AlbertChallenge>): set<string> {
    set c | c in cs && IsUnresolved(c) && c.issueId.Some? :: c.issueId.value
  }

  /** The supervisor's ids that may be researched: known, neither answered nor blocked, and with a
      title no earlier call researched. */
  function Candidates(issues: seq<IssueNode>, challenged: set<string>, researched: seq<string>,
      ids: seq<string>): (r: seq<Candidate>)
    ensures forall c :: c in r ==>
      && c.issue.id in ids && c.issue in issues && !AnsweredOrBlocked(c.issue.status)
      && c.issue.title !in researched && (c.hasChallenge <==> c.issue.id in challenged)
  {
    if ids == [] then []
    else
      var front := Candidates(issues, challenged, researched, ids[..|ids| - 1]);
      match FindIssue(issues, ids[|ids| - 1])
      case None => front
      case Some(k) =>
        if AnsweredOrBlocked(issues[k].status) || issues[k].title in researched then front
        else front + [Candidate(issues[k], issues[k].id in challenged)]
  }

  function Chosen(cs: seq<Candidate>, k: nat): seq<Candidate> {
    var sorted := Sorted(cs, CandidateKey());
    if |sorted| <= k then sorted else sorted[..k]
  }

  function AppendNew(queries: seq<string>, batch: seq<Candidate>): (r: seq<string>)
    ensures queries <= r
    ensures forall q :: q in r <==> q in queries || exists c :: c in batch && c.issue.title == q
  {
    if batch == [] then queries
    else
      var front := AppendNew(queries, batch[..|batch| - 1]);
      var q := batch[|batch| - 1].issue.title;
      assert forall c :: c in batch <==> c in batch[..|batch| - 1] || c == batch[|batch| - 1];
      if q in front then front else front + [q]
  }

  /** One call: the issues sent out, and the queries recorded as researched. */
  function Selection(issues: seq<IssueNode>, cs: seq<AlbertChallenge>, researched: seq<string>, ids: seq<string>,
      k: nat)
    : (seq<Candidate>, seq<string>)
  {
    var batch := Chosen(Candidates(issues, IssuesWithOpenChallenge(cs), researched, ids), k);
    (batch, AppendNew(researched, batch))
  }

  method SelectResearchIssues(state: ResearchState, ids: seq<string>, k: nat) returns (batch: seq<Candidate>)
    modifies state`researchedQueries
    ensures (batch, state.researchedQueries) ==
      Selection(state.issueMap, state.challengeMap, old(state.researchedQueries), ids, k)
  {
    var seen := state.researchedQueries;
    var challenged := IssuesWithOpenChallenge(state.challengeMap);
    var candidates: seq<Candidate> := [];
    for i := 0 to |ids|
      invariant candidates == Candidates(state.issueMap, challenged, seen, ids[..i])
    {
      assert ids[..i + 1][..i] == ids[..i];
      var at := FindIssue(state.issueMap, ids[i]);
      if at.Some? {
        var node := state.issueMap[at.value];
        if !AnsweredOrBlocked(node.status) && node.title !in seen {
          candidates := candidates + [Candidate(node, node.id in challenged)];
        }
      }
    }
    assert ids[..|ids|] == ids;
    batch := Chosen(candidates, k);
    for i := 0 to |batch|
      invariant state.researchedQueries == AppendNew(seen, batch[..i])
    {
      assert batch[..i + 1][..i] == batch[..i];
      var q := batch[i].issue.title;
      if q !in state.researchedQueries {
        state.researchedQueries := state.researchedQueries + [q];
      }
    }
    assert batch[..|batch|] == batch;
  }

  /** No title is recorded a second time, also not when two issues sent out share it. */
  lemma {:induction false} RecordedOnce(queries: seq<string>, batch: seq<Candidate>)
    requires AllDifferent(queries)
    ensures AllDifferent(AppendNew(queries, batch))
    decreases |batch|
  {
    if batch != [] {
      RecordedOnce(queries, batch[..|batch| - 1]);
      var front, r := AppendNew(queries, batch[..|batch| - 1]), AppendNew(queries, batch);
      assert forall i :: 0 <= i < |front| ==> front[i] in front && r[i] == front[i];
      assert r == front || (r == front + [r[|front|]] && r[|front|] !in front);
    }
  }

  /** Chosen and cut together are the candidates by (open challenge, impact), ties in the
      supervisor's order, and only what exceeds the budget is cut. */
  ghost predicate BudgetSplit(cs: seq<Candidate>, batch: seq<Candidate>, cut: seq<Candidate>, k: nat) {
    && multiset(batch + cut) == multiset(cs) && SameOrder(batch + cut, cs, CandidateKey())
    && Descending(batch + cut, CandidateKey())
    && |batch| <= k && (cut != [] ==> |batch| == k)
  }

  lemma {:induction false} ChosenIsTopK(cs: seq<Candidate>, k: nat) returns (cut: seq<Candidate>)
    ensures BudgetSplit(cs, Chosen(cs, k), cut, k)
    ensures forall c :: c in Chosen(cs, k) ==> c in cs
  {
    hide WithKey, CandidateKey, Sorted;
    var sorted, batch := Sorted(cs, CandidateKey()), Chosen(cs, k);
    SortedIsStable(cs, CandidateKey());
    cut := sorted[|batch|..];
    assert batch + cut == sorted;
    forall c | c in batch ensures c in cs {
      assert c in multiset(sorted);
    }
  }

  /** Every issue sent out is open work nobody researched before, and its title is recorded. */
  lemma {:induction false} SelectionIsFresh(issues: seq<IssueNode>, cs: seq<AlbertChallenge>,
      researched: seq<string>, ids: seq<string>, k: nat)
    ensures var (batch, researched') := Selection(issues, cs, researched, ids, k);
      && |batch| <= k && researched <= researched'
      && forall c :: c in batch ==>
           && c.issue in issues && c.issue.id in ids && !AnsweredOrBlocked(c.issue.status)
           && c.issue.title !in researched && c.issue.title in researched'
  {
    var cut := ChosenIsTopK(Candidates(issues, IssuesWithOpenChallenge(cs), researched, ids), k);
  }

  /** Inside one call the same query can still go out twice: two open issues with one title. */
  lemma {:induction false} OneCallCanRepeatATitle(n: IssueNode)
    requires n.status == IssueStatus.Open && n.id == "I-001"
    ensures var twin := n.(id := "I-002");
      var batch := Selection([n, twin], [], [], ["I-001", "I-002"], 3).0;
      |batch| == 2 && batch[0].issue.title == batch[1].issue.title
  {
    var twin := n.(id := "I-002");
    var issues, ids := [n, twin], ["I-001", "I-002"];
    assert FindIssue(issues, "I-002") == Some(1);
    assert issues[..1] == [n] && FindIssue([n], "I-001") == Some(0);
    assert FindIssue(issues, "I-001") == Some(0);
    assert ids[..1] == ["I-001"] && ["I-001"][..0] == [];
    var a, b := Candidate(n, false), Candidate(twin, false);
    assert Candidates(issues, {}, [], ["I-001"]) == [a];
    assert Candidates(issues, {}, [], ids) == [a, b];
    assert Sorted([b], CandidateKey()) == [b];
    assert [a, b][1..] == [b];
    assert IssuesWithOpenChallenge([]) == {};
  }

  ghost predicate DifferentTitles(cs: seq<Candidate>) {
    forall i, j :: 0 <= i < j < |cs| ==> cs[i].issue.title != cs[j].issue.title
  }

  /** A pair that differs in title in one arrangement of the candidates does so in the other. */
  lemma {:induction false} DifferentTitlesSurvive(xs: seq<Candidate>, ys: seq<Candidate>)
    requires DifferentTitles(xs) && multiset(xs) == multiset(ys)
    ensures DifferentTitles(ys)
  {
    forall i, j | 0 <= i < j < |ys| ensures ys[i].issue.title != ys[j].issue.title {
      Permutations.PairOfPositions(ys, i, j);
      var m, n := Permutations.PositionsOfPair(xs, ys[i], ys[j]);
    }
  }

  /** A call repeats no title, whatever its budget, exactly when no two of its candidates share one. */
  lemma {:induction false} TitlesRepeatExactlyWhen(cs: seq<Candidate>)
    ensures (forall k: nat :: DifferentTitles(Chosen(cs, k))) <==> DifferentTitles(cs)
  {
    hide Sorted, Descending, SameOrder, CandidateKey;
    var sorted := Sorted(cs, CandidateKey());
    SortedIsStable(cs, CandidateKey());
    assert Chosen(cs, |cs|) == sorted;
    if DifferentTitles(sorted) {
      DifferentTitlesSurvive(sorted, cs);
    }
    if DifferentTitles(cs) {
      DifferentTitlesSurvive(cs, sorted);
    }
  }

  ghost predicate AllDifferent(ids: seq<string>) {
    forall i, j :: 0 <= i < j < |ids| ==> ids[i] != ids[j]
  }

  ghost predicate DifferentIssues(cs: seq<Candidate>) {
    forall i, j :: 0 <= i < j < |cs| ==> cs[i].issue.id != cs[j].issue.id
  }

  lemma {:induction false} CandidatesDiffer(issues: seq<IssueNode>, challenged: set<string>,
      researched: seq<string>, ids: seq<string>)
    requires AllDifferent(ids)
    ensures DifferentIssues(Candidates(issues, challenged, researched, ids))
    decreases |ids|
  {
    if ids != [] {
      var before, last := ids[..|ids| - 1], ids[|ids| - 1];
      var front := Candidates(issues, challenged, researched, before);
      CandidatesDiffer(issues, challenged, researched, before);
      forall i | 0 <= i < |front| ensures front[i].issue.id != last {
        assert front[i] in front;
        var j :| 0 <= j < |before| && before[j] == front[i].issue.id;
        assert ids[j] == before[j];
      }
    }
  }

  /** With different supervisor ids a batch holds no issue twice. */
  lemma {:induction false} DifferentIdsStayDifferent(issues: seq<IssueNode>, cs: seq<AlbertChallenge>,
      researched: seq<string>, ids: seq<string>, k: nat)
    requires AllDifferent(ids)
    ensures DifferentIssues(Selection(issues, cs, researched, ids, k).0)
  {
    var all := Candidates(issues, IssuesWithOpenChallenge(cs), researched, ids);
    var sorted, batch := Sorted(all, CandidateKey()), Chosen(all, k);
    hide Candidates, Sorted, Descending, SameOrder, CandidateKey, IssuesWithOpenChallenge, AppendNew;
    CandidatesDiffer(issues, IssuesWithOpenChallenge(cs), researched, ids);
    SortedIsStable(all, CandidateKey());
    forall i, j | 0 <= i < j < |batch| ensures batch[i].issue.id != batch[j].issue.id {
      Permutations.PairOfPositions(sorted, i, j);
      var m, n := Permutations.PositionsOfPair(all, sorted[i], sorted[j]);
    }
  }

  /** An unresolved challenge is about the issue. */
  ghost predicate ChallengedOpenly(cs: seq<AlbertChallenge>, id: string) {
    exists c :: c in cs && c.issueId == Some(id)
      && (c.status == ChallengeStatus.Open || c.status == ChallengeStatus.Answered)
  }

  /** The supervisor's id leads to an issue that may go out. */
  ghost predicate MayGoOut(issues: seq<IssueNode>, researched: seq<string>, id: string, n: IssueNode) {
    && FindIssue(issues, id).Some? && issues[FindIssue(issues, id).value] == n && n.title !in researched
    && n.status in {IssueStatus.Open, IssueStatus.Researching, IssueStatus.PartiallyAnswered, IssueStatus.LowConfidence}
  }

  ghost predicate SomeIdLeadsTo(issues: seq<IssueNode>, researched: seq<string>, ids: seq<string>, n: IssueNode) {
    exists k :: 0 <= k < |ids| && MayGoOut(issues, researched, ids[k], n)
  }

  lemma {:induction false} OneMoreId(issues: seq<IssueNode>, researched: seq<string>, ids: seq<string>, n: IssueNode)
    requires ids != []
    ensures var last := |ids| - 1;
      SomeIdLeadsTo(issues, researched, ids, n) <==>
        SomeIdLeadsTo(issues, researched, ids[..last], n) || MayGoOut(issues, researched, ids[last], n)
  {
    hide MayGoOut;
    var front := ids[..|ids| - 1];
    if k :| 0 <= k < |front| && MayGoOut(issues, researched, front[k], n) {
      assert ids[k] == front[k];
    }
    if k :| 0 <= k < |ids| && MayGoOut(issues, researched, ids[k], n) {
      assert k < |front| ==> front[k] == ids[k];
    }
  }

  /** Every id of the supervisor that may go out is a candidate, and nothing else is; a candidate is
      marked exactly when an unresolved challenge is about it. */
  lemma {:induction false} CandidatesMean(issues: seq<IssueNode>, cs: seq<AlbertChallenge>, researched: seq<string>,
      ids: seq<string>, c: Candidate)
    ensures c in Candidates(issues, IssuesWithOpenChallenge(cs), researched, ids) <==>
      SomeIdLeadsTo(issues, researched, ids, c.issue) && (c.hasChallenge <==> ChallengedOpenly(cs, c.issue.id))
    decreases |ids|
  {
    assert c.issue.id in IssuesWithOpenChallenge(cs) <==> ChallengedOpenly(cs, c.issue.id);
    hide IssuesWithOpenChallenge, ChallengedOpenly, SomeIdLeadsTo;
    if ids != [] {
      CandidatesMean(issues, cs, researched, ids[..|ids| - 1], c);
      OneMoreId(issues, researched, ids, c.issue);
      var challenged := IssuesWithOpenChallenge(cs);
      var front := Candidates(issues, challenged, researched, ids[..|ids| - 1]);
      var at := FindIssue(issues, ids[|ids| - 1]);
      if at.Some? {
        var x := Candidate(issues[at.value], issues[at.value].id in challenged);
        assert c in front + [x] <==> c in front || c == x;
        EitherOpenOrClosed(issues[at.value].status);
      }
    } else {
      NoIdLeadsNowhere(issues, researched, c.issue);
    }
  }

  lemma {:induction false} EitherOpenOrClosed(s: IssueStatus)
    ensures AnsweredOrBlocked(s) <==>
      s !in {IssueStatus.Open, IssueStatus.Researching, IssueStatus.PartiallyAnswered, IssueStatus.LowConfidence}
  {
    match s
    case Open =>
    case Researching =>
    case PartiallyAnswered =>
    case LowConfidence =>
    case Answered =>
    case _ =>
  }

  lemma {:induction false} NoIdLeadsNowhere(issues: seq<IssueNode>, researched: seq<string>, n: IssueNode)
    ensures !SomeIdLeadsTo(issues, researched, [], n)
  {
  }

  /** No candidate that stays behind comes before one that goes out: an issue with an open challenge goes
      before one without, and of two alike in that the one of higher impact. */
  lemma {:induction false} BatchComesFirst(cs: seq<Candidate>, k: nat) returns (cut: seq<Candidate>)
    ensures var batch := Chosen(cs, k);
      && multiset(batch + cut) == multiset(cs) && |batch| <= k && (cut != [] ==> |batch| == k)
      && forall i, j :: 0 <= i < j < |batch + cut| ==>
           var a, b := (batch + cut)[i], (batch + cut)[j];
           && (b.hasChallenge ==> a.hasChallenge)
           && (a.hasChallenge == b.hasChallenge ==> a.issue.impact >= b.issue.impact)
  {
    hide Chosen, SameOrder;
    cut := ChosenIsTopK(cs, k);
    var all := Chosen(cs, k) + cut;
    forall i, j | 0 <= i < j < |all|
      ensures (all[j].hasChallenge ==> all[i].hasChallenge)
        && (all[i].hasChallenge == all[j].hasChallenge ==> all[i].issue.impact >= all[j].issue.impact)
    {
      assert !Above(CandidateKey()(all[j]), CandidateKey()(all[i]));
    }
  }
}
