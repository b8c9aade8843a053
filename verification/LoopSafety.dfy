/** What every run of the convergence loop keeps: the maps it fills, the gates it passes on the way
    to a stop, and what is true of the state it leaves behind. */
module LoopSafety {
  import opened Models
  import opened Decisions
  import opened ChallengeMap
  import opened IssueMap
  import opened ResearchSelection
  import opened HumanTasks
  import opened DecisionMemo
  import opened CellEvidence
  import opened LoopSteps
  import opened LoopRuns

  // ----- who writes what -----

  lemma {:induction false} ChallengesWritten(c: Config, s: GraphState, inp: Input)
    ensures Step(c, s, inp).rs.challenges ==
      if s.node == AlbertAudit then RecordAll(c.sim, s.rs.challenges, inp.audit.challenges) else s.rs.challenges
  {
    hide Routed, UnverifiedKey, FirstRefusal, Sections, WithCellTasks, MemoClaims, FanoutSelection, Gathered,
      FoldAll, Expanded, SteeredAll, RecordAll, OpenCount, PushTarget, Materialized;
  }

  lemma {:induction false} TasksWritten(c: Config, s: GraphState, inp: Input)
    ensures Step(c, s, inp).rs.tasks ==
      if s.node == HumanPush then Pushed(s.rs).tasks
      else if s.node == HumanReview then Reviewed(c, s, inp).rs.tasks
      else s.rs.tasks
  {
    hide Reviewed, Pushed, FanoutSelection, Gathered, FoldAll, Expanded, SteeredAll, RecordAll, OpenCount, Materialized;
  }

  lemma {:induction false} IssuesWritten(c: Config, s: GraphState, inp: Input)
    ensures Step(c, s, inp).rs.issues ==
      match s.node
      case OrchestratorPlan => Expanded(SteeredAll(s.rs.issues, inp.steers), inp.drafts)
      case IssueExpansion => Expanded(s.rs.issues, inp.drafts)
      case Supervisor => SteeredAll(s.rs.issues, inp.steers)
      case Collect => FoldAll(s.rs.issues, s.workers)
      case CosDecision => Branched(s.rs, s.budget, Decide(c, s.rs, s.prereqs)).0.issues
      case HumanPush => Pushed(s.rs).issues
      case _ => s.rs.issues
  {
    hide Routed, UnverifiedKey, FirstRefusal, Sections, WithCellTasks, MemoClaims, FanoutSelection, Gathered,
      FoldAll, Expanded, SteeredAll, RecordAll, OpenCount, Pushed, Branched, Decide;
  }

  lemma {:induction false} ResearchWritten(c: Config, s: GraphState, inp: Input)
    ensures var t, out := Step(c, s, inp), FanoutSelection(c, s.rs, inp);
      && t.rs.researched == (if s.node == ResearchFanout then out.1 else s.rs.researched)
      && t.workers == (if s.node == ResearchFanout then s.workers + Gathered(out.0, inp.research) else s.workers)
      && t.rs.evidence == (if s.node == Collect then s.rs.evidence + s.workers + inp.references else s.rs.evidence)
  {
    hide Routed, UnverifiedKey, FirstRefusal, Sections, WithCellTasks, MemoClaims, FanoutSelection, Gathered,
      FoldAll, ReclassifiedGrid, Expanded, SteeredAll, RecordAll, OpenCount, AlbertReadiness, PushTarget, PutTask,
      WithStatus, Materialized, Decide, Route, RouteAfterPull, PullIsHighRisk, Fated, Texts, Without;
  }

  // ----- the maps of a run -----

  /** Ids are counted without a gap or a clash, and no two live challenges are near-duplicates. */
  ghost predicate WholeMaps(c: Config, rs: Record) {
    && Numbered(rs.challenges) && NoLiveTwins(c.sim, rs.challenges)
    && NumberedIssues(rs.issues) && WellNumbered(rs.tasks)
  }

  /** What a run may do to the records it has: challenges and issues only move forward, tasks,
      evidence, recorded queries and the worker buffer are only appended to. */
  ghost predicate OnlyGrows(s: GraphState, t: GraphState) {
    && Grown(s.rs.challenges, t.rs.challenges) && IssuesForward(s.rs.issues, t.rs.issues) && s.rs.tasks <= t.rs.tasks
    && s.rs.evidence <= t.rs.evidence && s.rs.researched <= t.rs.researched && s.workers <= t.workers
    && s.rs.iteration <= t.rs.iteration
  }

  lemma {:induction false} ChallengesKept(c: Config, s: GraphState, inp: Input)
    requires Numbered(s.rs.challenges) && NoLiveTwins(c.sim, s.rs.challenges)
    ensures var cs, cs' := s.rs.challenges, Step(c, s, inp).rs.challenges;
      && Numbered(cs') && NoLiveTwins(c.sim, cs') && Grown(cs, cs')
      && TotalRounds(cs') == TotalRounds(cs) + if s.node == AlbertAudit then |inp.audit.challenges| else 0
  {
    hide Step, RecordAll;
    ChallengesWritten(c, s, inp);
    RecordAllKeeps(c.sim, s.rs.challenges, inp.audit.challenges);
  }

  lemma {:induction false} PushKeepsTasks(rs: Record)
    requires WellNumbered(rs.tasks)
    ensures WellNumbered(Pushed(rs).tasks) && rs.tasks <= Pushed(rs).tasks
  {
    hide WithStatus, PushTarget;
    if PushTarget(rs.issues).Some? {
      CountedMintIsFresh(rs.tasks, PushTask(rs.tasks, PushTarget(rs.issues).value));
    }
  }

  lemma {:induction false} ReviewKeepsTasks(c: Config, s: GraphState, inp: Input)
    requires WellNumbered(s.rs.tasks)
    ensures WellNumbered(Reviewed(c, s, inp).rs.tasks) && s.rs.tasks <= Reviewed(c, s, inp).rs.tasks
  {
    hide UnverifiedKey, FirstRefusal, Sections, WithCellTasks, MemoClaims, ContextOf, RouteAll;
    var ctx, items := ContextOf(c, s.rs), MemoClaims(s.rs.evidence);
    RoutingPartitions(Fated(ctx, items), s.rs.tasks);
    if s.rs.grid.Some? {
      CellMintsKeep(Routed(ctx, items, s.rs.tasks).tasks, s.rs.grid.value);
    }
  }

  /** No node ever overwrites a human task, whichever of the three minters it is. */
  lemma {:induction false} TasksKept(c: Config, s: GraphState, inp: Input)
    requires WellNumbered(s.rs.tasks)
    ensures WellNumbered(Step(c, s, inp).rs.tasks) && s.rs.tasks <= Step(c, s, inp).rs.tasks
  {
    hide Step, Reviewed, Pushed;
    TasksWritten(c, s, inp);
    PushKeepsTasks(s.rs);
    ReviewKeepsTasks(c, s, inp);
  }

  lemma {:induction false} IssuesKept(c: Config, s: GraphState, inp: Input)
    requires NumberedIssues(s.rs.issues)
    ensures NumberedIssues(Step(c, s, inp).rs.issues) && IssuesForward(s.rs.issues, Step(c, s, inp).rs.issues)
  {
    hide Step, Expanded, SteeredAll, FoldAll, Materialized, WithStatus, PushTarget, Decide, NumberedIssues;
    var issues := s.rs.issues;
    IssuesWritten(c, s, inp);
    match s.node
    case OrchestratorPlan =>
      SteeringKeeps(issues, inp.steers);
      ExpansionKeeps(SteeredAll(issues, inp.steers), inp.drafts);
      ForwardIsTransitive(issues, SteeredAll(issues, inp.steers), Expanded(SteeredAll(issues, inp.steers), inp.drafts));
    case IssueExpansion => ExpansionKeeps(issues, inp.drafts);
    case Supervisor => SteeringKeeps(issues, inp.steers);
    case Collect => FoldingKeeps(issues, s.workers);
    case CosDecision => CompetitorComesOnce(issues, s.budget);
    case HumanPush =>
      if PushTarget(issues).Some? {
        StatusChangeKeeps(issues, PushTarget(issues).value.id);
      }
    case _ =>
  }

  lemma {:induction false} StepGrows(c: Config, s: GraphState, inp: Input)
    requires WholeMaps(c, s.rs)
    ensures WholeMaps(c, Step(c, s, inp).rs) && OnlyGrows(s, Step(c, s, inp))
  {
    hide Step, Gathered, Numbered, NoLiveTwins, NumberedIssues, WellNumbered, IssuesForward, Grown;
    ChallengesKept(c, s, inp);
    TasksKept(c, s, inp);
    IssuesKept(c, s, inp);
    ResearchWritten(c, s, inp);
    StepIsEdge(c, s, inp);
    assert s.rs.researched <= FanoutSelection(c, s.rs, inp).1;
  }

  lemma {:induction false} GrowthIsTransitive(a: GraphState, b: GraphState, d: GraphState)
    requires OnlyGrows(a, b) && OnlyGrows(b, d)
    ensures OnlyGrows(a, d)
  {
    GrownIsTransitive(a.rs.challenges, b.rs.challenges, d.rs.challenges);
    ForwardIsTransitive(a.rs.issues, b.rs.issues, d.rs.issues);
  }

  /** At every moment of every run the maps are whole, and from any moment to a later one records
      only grow: nothing closed is re-opened, renamed, overwritten or lost. */
  lemma {:induction false} RunsOnlyGrow(c: Config, s: GraphState, ins: nat -> Input, m: nat, k: nat)
    requires WholeMaps(c, s.rs) && m <= k
    ensures WholeMaps(c, After(c, s, ins, k).rs)
    ensures OnlyGrows(After(c, s, ins, m), After(c, s, ins, k))
    decreases k
  {
    hide Step, WholeMaps, OnlyGrows;
    if k == 0 {
      StandsStill(s);
    } else {
      RunsOnlyGrow(c, s, ins, if m < k then m else 0, k - 1);
      var before := After(c, s, ins, k - 1);
      StepGrows(c, before, ins(k - 1));
      if m < k {
        GrowthIsTransitive(After(c, s, ins, m), before, After(c, s, ins, k));
      } else {
        StandsStill(After(c, s, ins, k));
      }
    }
  }

  lemma {:induction false} StandsStill(s: GraphState)
    ensures OnlyGrows(s, s)
  {
  }

  /** The challenge lists the audit node has recorded so far. */
  function Passes(c: Config, s: GraphState, ins: nat -> Input, k: nat): seq<seq<AlbertChallenge>> {
    if k == 0 then []
    else if After(c, s, ins, k - 1).node == AlbertAudit then Passes(c, s, ins, k - 1) + [ins(k - 1).audit.challenges]
    else Passes(c, s, ins, k - 1)
  }

  /** A run that starts with an empty challenge map has, at every moment, the map its audit passes
      build, so each challenge the auditor ever raised is counted in exactly one roundsSeen. */
  lemma {:induction false} MapIsItsPasses(c: Config, s: GraphState, ins: nat -> Input, k: nat)
    requires s.rs.challenges == []
    ensures After(c, s, ins, k).rs.challenges == AfterPasses(c.sim, Passes(c, s, ins, k))
    ensures TotalRounds(After(c, s, ins, k).rs.challenges) == Raised(Passes(c, s, ins, k))
    decreases k
  {
    hide Step, RecordAll, Raised;
    EveryRunConverges(c.sim, Passes(c, s, ins, k));
    if k > 0 {
      MapIsItsPasses(c, s, ins, k - 1);
      ChallengesWritten(c, After(c, s, ins, k - 1), ins(k - 1));
      var before, now := Passes(c, s, ins, k - 1), Passes(c, s, ins, k);
      if now != before {
        assert now[..|now| - 1] == before;
      }
    }
  }

  // ----- research -----

  /** The issues sent out at step k. */
  function BatchAt(c: Config, s: GraphState, ins: nat -> Input, k: nat): seq<Candidate> {
    FanoutSelection(c, After(c, s, ins, k).rs, ins(k)).0
  }

  lemma {:induction false} BatchIsFresh(c: Config, s: GraphState, inp: Input, a: Candidate)
    requires s.node == ResearchFanout && a in FanoutSelection(c, s.rs, inp).0
    ensures a.issue in s.rs.issues && !AnsweredOrBlocked(a.issue.status)
    ensures a.issue.title !in s.rs.researched && a.issue.title in Step(c, s, inp).rs.researched
  {
    hide Step, Selection;
    ResearchWritten(c, s, inp);
    SelectionIsFresh(s.rs.issues, s.rs.challenges, s.rs.researched, inp.supervisorIds, c.perIteration);
  }

  lemma {:induction false} SameIssueSameTitle(before: seq<IssueNode>, after: seq<IssueNode>, a: IssueNode, b: IssueNode)
    requires NumberedIssues(after) && IssuesForward(before, after) && a in before && b in after && a.id == b.id
    ensures a.title == b.title
  {
    hide NumberedIssues;
    var i :| 0 <= i < |before| && before[i] == a;
    var j :| 0 <= j < |after| && after[j] == b;
    TwoIds(after, i, j);
  }

  /** No title and no issue is ever researched in two iterations of one run. */
  lemma {:induction false} BatchesAreDisjoint(c: Config, s: GraphState, ins: nat -> Input, j: nat, k: nat,
      a: Candidate, b: Candidate)
    requires WholeMaps(c, s.rs) && j < k
    requires After(c, s, ins, j).node == ResearchFanout && After(c, s, ins, k).node == ResearchFanout
    requires a in BatchAt(c, s, ins, j) && b in BatchAt(c, s, ins, k)
    ensures a.issue.title != b.issue.title && a.issue.id != b.issue.id
  {
    hide Step, WholeMaps, FanoutSelection, IssuesForward, NumberedIssues;
    BatchIsFresh(c, After(c, s, ins, j), ins(j), a);
    BatchIsFresh(c, After(c, s, ins, k), ins(k), b);
    RunsOnlyGrow(c, s, ins, j + 1, k);
    RunsOnlyGrow(c, s, ins, j, k);
    if a.issue.id == b.issue.id {
      WholeIssues(c, After(c, s, ins, k).rs);
      SameIssueSameTitle(After(c, s, ins, j).rs.issues, After(c, s, ins, k).rs.issues, a.issue, b.issue);
    }
  }

  lemma {:induction false} WholeIssues(c: Config, rs: Record)
    requires WholeMaps(c, rs)
    ensures NumberedIssues(rs.issues) && WellNumbered(rs.tasks)
  {
  }

  /** Two foldings with anything the loop may do in between. */
  lemma {:induction false} FoldedTwice(before: seq<IssueNode>, bs: seq<EvidenceBundle>, later: seq<IssueNode>,
      all: seq<EvidenceBundle>, i: nat)
    requires NumberedIssues(before) && NumberedIssues(later) && IssuesForward(FoldAll(before, bs), later) && bs <= all
    requires i < |before| && Progress(before[i].status).Some? && BundlesFor(bs, before[i].id) >= 1
    ensures i < |FoldAll(later, all)|
    ensures FoldAll(later, all)[i].status in {IssueStatus.Answered, IssueStatus.BlockedByInternalData}
  {
    hide FoldAll, NumberedIssues, BundlesFor;
    FoldedIssue(before, bs, i);
    FoldedIssue(later, all, i);
    MoreBundles(bs, all, before[i].id);
    assert later[i].id == before[i].id && Forward(FoldAll(before, bs)[i].status, later[i].status);
  }

  /** The buffer is folded whole at every collect and never emptied: an issue that has a bundle in
      it when it is folded is answered, or handed off, after any later collect, whether or not
      anything more was found out about it. */
  lemma {:induction false} RefoldingAnswersInRuns(c: Config, s: GraphState, ins: nat -> Input, j: nat, k: nat, i: nat)
    requires WholeMaps(c, s.rs) && j < k
    requires After(c, s, ins, j).node == Collect && After(c, s, ins, k).node == Collect
    requires i < |After(c, s, ins, j).rs.issues|
    requires var n := After(c, s, ins, j).rs.issues[i];
      Progress(n.status).Some? && BundlesFor(After(c, s, ins, j).workers, n.id) >= 1
    ensures i < |After(c, s, ins, k + 1).rs.issues|
    ensures After(c, s, ins, k + 1).rs.issues[i].status in {IssueStatus.Answered, IssueStatus.BlockedByInternalData}
  {
    hide Step, After, WholeMaps, FoldAll, NumberedIssues, BundlesFor, Progress, Grown, IssuesForward,
      SteeredAll, Expanded, Branched, Pushed, Decide;
    var sj, sk := After(c, s, ins, j), After(c, s, ins, k);
    RunsOnlyGrow(c, s, ins, j, k);
    RunsOnlyGrow(c, s, ins, j + 1, k);
    RunsOnlyGrow(c, s, ins, j, j);
    NextState(c, s, ins, j);
    NextState(c, s, ins, k);
    WholeIssues(c, sj.rs);
    WholeIssues(c, sk.rs);
    IssuesWritten(c, sj, ins(j));
    IssuesWritten(c, sk, ins(k));
    FoldedTwice(sj.rs.issues, sj.workers, sk.rs.issues, sk.workers, i);
  }

  lemma {:induction false} FoldedIssue(issues: seq<IssueNode>, bs: seq<EvidenceBundle>, i: nat)
    requires NumberedIssues(issues) && i < |issues|
    ensures var n, n' := issues[i], FoldAll(issues, bs)[i];
      && (Progress(n.status).None? ==> n'.status == n.status)
      && (Progress(n.status).Some? ==>
            Progress(n'.status) == Some(Capped(Progress(n.status).value + BundlesFor(bs, n.id))))
  {
    hide FoldAll;
    NumbersAreDistinct(issues);
    FoldingMeans(issues, bs, i);
  }

  lemma {:induction false} MoreBundles(bs: seq<EvidenceBundle>, all: seq<EvidenceBundle>, id: string)
    requires bs <= all
    ensures BundlesFor(bs, id) <= BundlesFor(all, id)
  {
    BundlesForAppend(bs, all[|bs|..], id);
    assert bs + all[|bs|..] == all;
  }

  ghost predicate LabelsItsIssue(research: (nat, string) -> Option<EvidenceBundle>) {
    forall i: nat, id: string :: research(i, id).Some? ==> research(i, id).value.issueId == Some(id)
  }

  /** The supervisor names no issue twice and a researcher labels its bundle with the issue it was given. */
  ghost predicate WellLabelled(inp: Input) {
    && AllDifferent(inp.supervisorIds)
    && LabelsItsIssue(inp.research)
  }

  lemma {:induction false} GatheredOncePerIssue(batch: seq<Candidate>,
      research: (nat, string) -> Option<EvidenceBundle>, id: string)
    requires DifferentIssues(batch)
    requires LabelsItsIssue(research)
    ensures BundlesFor(Gathered(batch, research), id) <= 1
    ensures BundlesFor(Gathered(batch, research), id) > 0 ==> exists a :: a in batch && a.issue.id == id
    decreases |batch|
  {
    if batch != [] {
      var front, last := batch[..|batch| - 1], batch[|batch| - 1];
      var before := Gathered(front, research);
      GatheredOncePerIssue(front, research, id);
      var found := research(|front|, last.issue.id);
      if found.Some? {
        assert (before + [found.value])[..|before|] == before;
      }
      if BundlesFor(before, id) > 0 {
        var a :| a in front && a.issue.id == id;
        var i :| 0 <= i < |front| && front[i] == a;
        assert batch[i] == a && a in batch;
      }
      assert last in batch;
    }
  }

  /** A bundle in the buffer belongs to an issue whose query is recorded as researched, and it is
      the only one for that issue. */
  ghost predicate OneBundleEach(s: GraphState, id: string) {
    && BundlesFor(s.workers, id) <= 1
    && (BundlesFor(s.workers, id) > 0 ==> exists n :: n in s.rs.issues && n.id == id && n.title in s.rs.researched)
  }

  lemma {:induction false} FanoutAddsNoSecondBundle(c: Config, s: GraphState, inp: Input, id: string)
    requires s.node == ResearchFanout && NumberedIssues(s.rs.issues) && WellLabelled(inp) && OneBundleEach(s, id)
    requires Step(c, s, inp).rs.issues == s.rs.issues
    ensures OneBundleEach(Step(c, s, inp), id)
  {
    hide Step, Selection, NumberedIssues, Gathered, BundlesFor;
    var batch := FanoutSelection(c, s.rs, inp).0;
    var found := Gathered(batch, inp.research);
    ResearchWritten(c, s, inp);
    DifferentIdsStayDifferent(s.rs.issues, s.rs.challenges, s.rs.researched, inp.supervisorIds, c.perIteration);
    GatheredOncePerIssue(batch, inp.research, id);
    BundlesForAppend(s.workers, found, id);
    SelectionIsFresh(s.rs.issues, s.rs.challenges, s.rs.researched, inp.supervisorIds, c.perIteration);
    if BundlesFor(found, id) > 0 {
      var a :| a in batch && a.issue.id == id;
      BatchIsFresh(c, s, inp, a);
      if BundlesFor(s.workers, id) > 0 {
        var n :| n in s.rs.issues && n.id == id && n.title in s.rs.researched;
        AllForward(s.rs.issues);
        SameIssueSameTitle(s.rs.issues, s.rs.issues, a.issue, n);
        assert false;
      }
    }
  }

  lemma {:induction false} AllForward(issues: seq<IssueNode>)
    ensures IssuesForward(issues, issues)
  {
  }

  lemma {:induction false} BufferSurvives(s: GraphState, t: GraphState, id: string)
    requires OneBundleEach(s, id) && t.workers == s.workers && t.rs.researched == s.rs.researched
    requires IssuesForward(s.rs.issues, t.rs.issues)
    ensures OneBundleEach(t, id)
  {
    if BundlesFor(s.workers, id) > 0 {
      var n :| n in s.rs.issues && n.id == id && n.title in s.rs.researched;
      var i :| 0 <= i < |s.rs.issues| && s.rs.issues[i] == n;
      assert t.rs.issues[i] in t.rs.issues;
    }
  }

  /** In a whole run, however long, the buffer never holds two bundles for one issue: research alone
      takes an open issue no further than partially answered, and only folding the same bundle again
      makes it answered. */
  lemma {:induction false} OneBundlePerIssue(c: Config, s: GraphState, ins: nat -> Input, k: nat, id: string)
    requires WholeMaps(c, s.rs) && s.workers == [] && forall i: nat :: WellLabelled(ins(i))
    ensures OneBundleEach(After(c, s, ins, k), id)
    decreases k
  {
    hide Step, WholeMaps, NumberedIssues, WellLabelled;
    if k > 0 {
      OneBundlePerIssue(c, s, ins, k - 1, id);
      var before := After(c, s, ins, k - 1);
      RunsOnlyGrow(c, s, ins, k - 1, k);
      RunsOnlyGrow(c, s, ins, k - 1, k - 1);
      WholeIssues(c, before.rs);
      IssuesWritten(c, before, ins(k - 1));
      ResearchWritten(c, before, ins(k - 1));
      if before.node == ResearchFanout {
        FanoutAddsNoSecondBundle(c, before, ins(k - 1), id);
      } else {
        BufferSurvives(before, After(c, s, ins, k), id);
      }
    }
  }

  lemma {:induction false} NobodyIsAnsweredAtOnce(c: Config, s: GraphState, ins: nat -> Input, k: nat, i: nat)
    requires WholeMaps(c, s.rs) && s.workers == [] && forall m: nat :: WellLabelled(ins(m))
    requires After(c, s, ins, k).node == Collect && i < |After(c, s, ins, k).rs.issues|
    requires Progress(After(c, s, ins, k).rs.issues[i].status) == Some(0)
    ensures i < |After(c, s, ins, k + 1).rs.issues|
    ensures After(c, s, ins, k + 1).rs.issues[i].status != IssueStatus.Answered
  {
    hide Step, WholeMaps, NumberedIssues, WellLabelled, FoldAll, BundlesFor;
    var t := After(c, s, ins, k);
    OneBundlePerIssue(c, s, ins, k, t.rs.issues[i].id);
    RunsOnlyGrow(c, s, ins, k, k);
    WholeIssues(c, t.rs);
    IssuesWritten(c, t, ins(k));
    FoldedIssue(t.rs.issues, t.workers, i);
  }

  // ----- how often a bundle is folded -----

  function Occurrences(xs: seq<EvidenceBundle>, b: EvidenceBundle): nat { multiset(xs)[b] }

  lemma {:induction false} OccurrencesAdd(xs: seq<EvidenceBundle>, ys: seq<EvidenceBundle>, b: EvidenceBundle)
    ensures Occurrences(xs + ys, b) == Occurrences(xs, b) + Occurrences(ys, b)
  {
    assert multiset(xs + ys) == multiset(xs) + multiset(ys);
  }

  predicate IsCollect(c: Config, s: GraphState, ins: nat -> Input, k: nat) { After(c, s, ins, k).node == Collect }

  /** The bundles research brings in at step f. */
  function GatheredAt(c: Config, s: GraphState, ins: nat -> Input, f: nat): seq<EvidenceBundle> {
    if After(c, s, ins, f).node == ResearchFanout then Gathered(BatchAt(c, s, ins, f), ins(f).research) else []
  }

  /** The number of collects from step f up to, not including, step k. */
  function CollectsBetween(c: Config, s: GraphState, ins: nat -> Input, f: nat, k: nat): nat
    requires f <= k
    decreases k - f
  {
    if f == k then 0
    else CollectsBetween(c, s, ins, f, k - 1) + if IsCollect(c, s, ins, k - 1) then 1 else 0
  }

  /** How often b is gathered in the first n steps. */
  function TimesGathered(c: Config, s: GraphState, ins: nat -> Input, b: EvidenceBundle, n: nat): nat {
    if n == 0 then 0
    else TimesGathered(c, s, ins, b, n - 1) + Occurrences(GatheredAt(c, s, ins, n - 1), b)
  }

  function Product(m: nat, n: nat): nat { m * n }

  /** For every time b is gathered in the first n steps, the collects between that step and step k. */
  function Copies(c: Config, s: GraphState, ins: nat -> Input, b: EvidenceBundle, n: nat, k: nat): nat
    requires n <= k
    decreases n
  {
    if n == 0 then 0
    else Copies(c, s, ins, b, n - 1, k)
         + Product(Occurrences(GatheredAt(c, s, ins, n - 1), b), CollectsBetween(c, s, ins, n - 1, k))
  }

  /** How often b comes in as a reference bundle in the first k steps. */
  function TimesReferenced(c: Config, s: GraphState, ins: nat -> Input, b: EvidenceBundle, k: nat): nat {
    if k == 0 then 0
    else TimesReferenced(c, s, ins, b, k - 1)
         + if IsCollect(c, s, ins, k - 1) then Occurrences(ins(k - 1).references, b) else 0
  }

  lemma {:induction false} BufferHoldsAllGathered(c: Config, s: GraphState, ins: nat -> Input,
      b: EvidenceBundle, k: nat)
    requires s.workers == []
    ensures Occurrences(After(c, s, ins, k).workers, b) == TimesGathered(c, s, ins, b, k)
    decreases k
  {
    hide Step, After, Gathered, FanoutSelection, Occurrences;
    if k == 0 {
      FirstState(c, s, ins);
      NoOccurrences(b);
    } else {
      var before := After(c, s, ins, k - 1);
      BufferHoldsAllGathered(c, s, ins, b, k - 1);
      NextState(c, s, ins, k - 1);
      ResearchWritten(c, before, ins(k - 1));
      NoOccurrences(b);
      OccurrencesAdd(before.workers, GatheredAt(c, s, ins, k - 1), b);
    }
  }

  lemma {:induction false} NoOccurrences(b: EvidenceBundle)
    ensures Occurrences([], b) == 0
  {
  }

  /** One more collect adds one copy for every time b was gathered before. */
  lemma {:induction false} CopiesGrow(c: Config, s: GraphState, ins: nat -> Input, b: EvidenceBundle, n: nat, k: nat)
    requires n <= k
    ensures Copies(c, s, ins, b, n, k + 1) ==
      Copies(c, s, ins, b, n, k) + if IsCollect(c, s, ins, k) then TimesGathered(c, s, ins, b, n) else 0
    decreases n
  {
    hide After, GatheredAt, Occurrences, IsCollect;
    if n > 0 {
      CopiesGrow(c, s, ins, b, n - 1, k);
      var o, collects := Occurrences(GatheredAt(c, s, ins, n - 1), b), CollectsBetween(c, s, ins, n - 1, k);
      assert Product(o, collects + 1) == Product(o, collects) + o;
    }
  }

  lemma {:induction false} EvidenceStep(c: Config, s: GraphState, ins: nat -> Input, b: EvidenceBundle, k: nat)
    ensures Occurrences(After(c, s, ins, k + 1).rs.evidence, b) ==
      Occurrences(After(c, s, ins, k).rs.evidence, b)
      + if IsCollect(c, s, ins, k)
        then Occurrences(After(c, s, ins, k).workers, b) + Occurrences(ins(k).references, b) else 0
  {
    hide Step, After, Gathered, FanoutSelection, Occurrences;
    var t := After(c, s, ins, k);
    NextState(c, s, ins, k);
    ResearchWritten(c, t, ins(k));
    OccurrencesAdd(t.rs.evidence, t.workers, b);
    OccurrencesAdd(t.rs.evidence + t.workers, ins(k).references, b);
  }

  lemma {:induction false} FanoutIsNoCollect(c: Config, s: GraphState, ins: nat -> Input, b: EvidenceBundle, k: nat)
    ensures Copies(c, s, ins, b, k + 1, k + 1) == Copies(c, s, ins, b, k, k + 1)
  {
    hide After, Gathered, FanoutSelection, Occurrences, IsCollect;
    assert CollectsBetween(c, s, ins, k, k + 1) == if IsCollect(c, s, ins, k) then 1 else 0;
    NothingGatheredAtCollect(c, s, ins, b, k);
  }

  lemma {:induction false} NothingGatheredAtCollect(c: Config, s: GraphState, ins: nat -> Input,
      b: EvidenceBundle, k: nat)
    ensures IsCollect(c, s, ins, k) ==> Occurrences(GatheredAt(c, s, ins, k), b) == 0
  {
    hide After, Gathered, FanoutSelection;
  }

  /** No folding is exactly-once: at any moment of any run the evidence holds each gathered bundle once
      for every collect since the fan-out that gathered it, besides what was there at the start and
      the reference bundles. */
  lemma {:induction false} EvidenceCountsCollects(c: Config, s: GraphState, ins: nat -> Input,
      b: EvidenceBundle, k: nat)
    requires s.workers == []
    ensures Occurrences(After(c, s, ins, k).rs.evidence, b) ==
      Occurrences(s.rs.evidence, b) + Copies(c, s, ins, b, k, k) + TimesReferenced(c, s, ins, b, k)
    decreases k
  {
    hide After, GatheredAt, Occurrences, IsCollect, TimesGathered;
    if k == 0 {
      FirstState(c, s, ins);
    } else {
      EvidenceCountsCollects(c, s, ins, b, k - 1);
      EvidenceStep(c, s, ins, b, k - 1);
      BufferHoldsAllGathered(c, s, ins, b, k - 1);
      CopiesGrow(c, s, ins, b, k - 1, k - 1);
      FanoutIsNoCollect(c, s, ins, b, k - 1);
    }
  }
}
