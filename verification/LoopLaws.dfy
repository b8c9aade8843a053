/** What the loop decides, where it goes and what its nodes write, said in the fields of the state:
    each law is about the state before and after, and names no function the nodes are made of. */
module LoopLaws {
  import opened Models
  import opened Decisions
  import opened Numbering
  import opened StableSort
  import opened ChallengeMap
  import opened IssueMap
  import opened ResearchSelection
  import opened CellEvidence
  import opened HumanTasks
  import opened DecisionMemo
  import opened LoopSteps
  import opened LoopRuns
  import opened LoopSafety
  import opened LoopStops

  // ----- the decision -----

  /** A request for a human is pending, or the audit recommends one. */
  ghost predicate PullAsked(rs: Record) {
    rs.pulls > 0 || (rs.audit.Some? && rs.audit.value.recommendedNextAction == Some(Decision.PullHuman))
  }

  ghost predicate ReworkAsked(rs: Record) { rs.audit.Some? && rs.audit.value.verdict == AuditVerdict.Rework }

  ghost predicate SynthesisAsked(rs: Record) {
    rs.audit.Some? && rs.audit.value.recommendedNextAction == Some(Decision.Synthesize)
  }

  ghost predicate EveryPrereq(prereqs: set<Prereq>) { forall p: Prereq :: p in prereqs }

  /** No issue is open, being researched, partially answered or of low confidence. */
  ghost predicate NothingToResearch(issues: seq<IssueNode>) {
    forall i :: 0 <= i < |issues| ==>
      issues[i].status in {IssueStatus.Answered, IssueStatus.BlockedByHuman, IssueStatus.BlockedByInternalData,
                           IssueStatus.BlockedByPermission, IssueStatus.BlockedByDecision}
  }

  ghost predicate AxesMeet(score: Option<ReadinessScore>) {
    score.Some? && score.value.albert >= 4 && score.value.decision >= 4
    && score.value.exhaustion >= 4 && score.value.human >= 4
  }

  /** Neither of the last two sums is above the one before it. */
  ghost predicate Stagnant(sums: seq<int>) {
    |sums| >= 3 && sums[|sums| - 2] <= sums[|sums| - 3] && sums[|sums| - 1] <= sums[|sums| - 2]
  }

  /** A sound audit ran, unless that is bypassed, and no open or answered challenge has confidence 4 or more. */
  ghost predicate MayStop(c: Config, rs: Record) {
    && (c.bypassDegraded || (rs.audit.Some? && !rs.audit.value.degraded))
    && forall i :: 0 <= i < |rs.challenges| && IsOpenOrAnswered(rs.challenges[i]) ==> rs.challenges[i].confidence < 4
  }

  lemma {:induction false} GatesMean(c: Config, rs: Record, prereqs: set<Prereq>)
    ensures WantsPull(rs) <==> PullAsked(rs)
    ensures WantsRework(rs.audit) <==> ReworkAsked(rs)
    ensures RecommendsSynthesis(rs.audit) <==> SynthesisAsked(rs)
    ensures AllDone(prereqs) <==> EveryPrereq(prereqs)
    ensures TargetsMet(rs.score) <==> AxesMeet(rs.score)
    ensures Plateau(rs.readinessHistory) <==> Stagnant(rs.readinessHistory)
  {
    forall p: Prereq ensures p in PREREQS {
      match p
      case BroadExpansion =>
      case AlbertAuditRan =>
      case CounterargumentPass =>
      case SourceConfidenceChecked =>
      case PendingQuestionsExtracted =>
      case BlockersClassified =>
      case ExplicitContinueExplanation =>
    }
  }

  lemma {:induction false} AddressableMeans(issues: seq<IssueNode>)
    ensures HasAddressable(issues) <==> !NothingToResearch(issues)
  {
    forall i | 0 <= i < |issues|
      ensures IsAddressable(issues[i]) <==>
        issues[i].status !in {IssueStatus.Answered, IssueStatus.BlockedByHuman, IssueStatus.BlockedByInternalData,
                              IssueStatus.BlockedByPermission, IssueStatus.BlockedByDecision}
    {
      match issues[i].status
      case Open =>
      case Researching =>
      case PartiallyAnswered =>
      case LowConfidence =>
      case Answered =>
      case BlockedByHuman =>
      case BlockedByInternalData =>
      case BlockedByPermission =>
      case BlockedByDecision =>
    }
  }

  lemma {:induction false} StopGateMeans(c: Config, rs: Record, d: Decision)
    requires IsSoftStop(d)
    ensures Gated(c, rs, d) == if MayStop(c, rs) then d else Decision.ContinueResearch
  {
    assert forall ch: AlbertChallenge :: IsUnresolved(ch) <==> IsOpenOrAnswered(ch);
    if HasUnresolvedHighImpact(rs.challenges) {
      var ch :| ch in rs.challenges && IsUnresolved(ch) && ch.confidence >= HIGH_IMPACT_CONF;
      var i :| 0 <= i < |rs.challenges| && rs.challenges[i] == ch;
      assert IsOpenOrAnswered(rs.challenges[i]);
    }
  }

  /** When each decision is made. A pull is decided exactly when a human is asked for; a branch exactly when
      none is and the audit wants rework; past these, nothing but more research is decided before all seven
      prerequisites hold; a terminal stop exactly when nothing is left to research and the scores meet the
      target, a synthesis exactly when one is recommended or the scores stagnate, both only where the loop
      may stop; an issue is pushed to a human exactly when neither ground is there and nothing is left to
      research. */
  lemma {:induction false} DecisionExactly(c: Config, rs: Record, prereqs: set<Prereq>)
    ensures var d := Decide(c, rs, prereqs);
      var quiet := !PullAsked(rs) && !ReworkAsked(rs);
      var done := NothingToResearch(rs.issues) && AxesMeet(rs.score);
      var ripe := SynthesisAsked(rs) || Stagnant(rs.readinessHistory);
      && (d == Decision.PullHuman <==> PullAsked(rs))
      && (d == Decision.Branch <==> !PullAsked(rs) && ReworkAsked(rs))
      && (d == Decision.TerminalStop <==> quiet && EveryPrereq(prereqs) && done && MayStop(c, rs))
      && (d == Decision.Synthesize <==> quiet && EveryPrereq(prereqs) && !done && ripe && MayStop(c, rs))
      && (d == Decision.PushHuman <==>
            quiet && EveryPrereq(prereqs) && !done && !ripe && NothingToResearch(rs.issues))
      && (d == Decision.ContinueResearch <==>
            quiet && (!EveryPrereq(prereqs)
                      || (if done || ripe then !MayStop(c, rs) else !NothingToResearch(rs.issues))))
  {
    GatesMean(c, rs, prereqs);
    AddressableMeans(rs.issues);
    StopGateMeans(c, rs, Decision.TerminalStop);
    StopGateMeans(c, rs, Decision.Synthesize);
    hide Gated, WantsPull, WantsRework, RecommendsSynthesis, AllDone, TargetsMet, Plateau, HasAddressable,
      PullAsked, ReworkAsked, SynthesisAsked, EveryPrereq, AxesMeet, Stagnant, NothingToResearch, MayStop;
  }

  // ----- the routers -----

  /** A cap that is set has been reached. */
  ghost predicate OverCap(caps: Caps, m: Meter) {
    (caps.maxCost.Some? && caps.maxCost.value <= m.cost) || (caps.maxWall.Some? && caps.maxWall.value <= m.elapsed)
  }

  /** Some cell of impact 4 or more is open or partly covered. */
  ghost predicate CellIsOpen(grid: Option<seq<TaskCell>>) {
    grid.Some? && exists i :: 0 <= i < |grid.value| && grid.value[i].impact >= 4
                    && grid.value[i].status in {CellStatus.Open, CellStatus.Partial}
  }

  ghost predicate RiskyPull(c: Config, rs: Record) { RiskIsHigh(rs.issues, rs.audit, c.hasPriority, c.hasFallback) }

  lemma {:induction false} RoutingReads(c: Config, rs: Record, inp: Input)
    ensures CapHit(c, inp) <==> OverCap(c.caps, inp.meter)
    ensures HasOpenHighImpactCell(rs.grid) <==> CellIsOpen(rs.grid)
    ensures GridConverged(rs.grid) <==> rs.grid.Some? && !CellIsOpen(rs.grid)
    ensures PullIsRisky(c, rs) <==> RiskyPull(c, rs)
  {
    PullRiskMeans(rs.issues, rs.audit, c.hasPriority, c.hasFallback);
    hide PullIsHighRisk, RiskIsHigh;
    if HasOpenHighImpactCell(rs.grid) {
      var cell :| cell in rs.grid.value && OpenHighImpactCell(cell);
      var i :| 0 <= i < |rs.grid.value| && rs.grid.value[i] == cell;
      assert rs.grid.value[i].status in {CellStatus.Open, CellStatus.Partial};
    }
    if CellIsOpen(rs.grid) {
      var i :| 0 <= i < |rs.grid.value| && rs.grid.value[i].impact >= 4
        && rs.grid.value[i].status in {CellStatus.Open, CellStatus.Partial};
      assert OpenHighImpactCell(rs.grid.value[i]);
    }
  }

  /** Where each decision leads: a met cap or a reached ceiling leads to the deep audit whatever was decided;
      below both, a stop does unless a high-impact cell is still open, which sends it back to planning, and a
      pull does when it is of high risk, otherwise straight to the human. */
  lemma {:induction false} RouteExactly(c: Config, rs: Record, d: Decision, inp: Input)
    ensures var n, below := Route(c, rs, d, inp), !OverCap(c.caps, inp.meter) && rs.iteration < c.maxIterations;
      var stop := d in {Decision.TerminalStop, Decision.Synthesize};
      && (n == DeepAudit <==>
            !below || (stop && !CellIsOpen(rs.grid)) || (d == Decision.PullHuman && RiskyPull(c, rs)))
      && (n == HumanPull <==> below && d == Decision.PullHuman && !RiskyPull(c, rs))
      && (n == HumanPush <==> below && d == Decision.PushHuman)
      && (n == IssueExpansion <==> below && d in {Decision.Branch, Decision.Rerank})
      && (n == OrchestratorPlan <==>
            below && ((stop && CellIsOpen(rs.grid)) || d in {Decision.ContinueResearch, Decision.Pause}))
  {
    RoutingReads(c, rs, inp);
    hide CapHit, OverCap, HasOpenHighImpactCell, CellIsOpen, GridConverged, PullIsRisky, RiskyPull;
    match d
    case ContinueResearch =>
    case Branch =>
    case Rerank =>
    case PullHuman =>
    case PushHuman =>
    case Synthesize =>
    case Pause =>
    case TerminalStop =>
  }

  /** After a pull the run goes on to planning exactly below cap and ceiling, and one pending request is used up. */
  lemma {:induction false} PullExactly(c: Config, s: GraphState, inp: Input)
    requires s.node == HumanPull
    ensures var t, hit := Step(c, s, inp), OverCap(c.caps, inp.meter);
      && t.node == (if hit || s.rs.iteration >= c.maxIterations then HumanReview else OrchestratorPlan)
      && t.rs.pulls == (if s.rs.pulls > 0 then s.rs.pulls - 1 else 0)
      && t.rs == s.rs.(pulls := t.rs.pulls, stopReason := t.rs.stopReason)
      && (!hit ==> t.rs.stopReason == s.rs.stopReason)
      && (hit ==> t.rs.stopReason == Some(CapExceeded(c.caps, inp.meterAgain)))
  {
    RoutingReads(c, s.rs, inp);
    hide Reviewed, Collected, FannedOut, Planned, PlanAudited, Pushed, Materialized, Audited, Scored, Decide, Route,
      PullIsHighRisk, CapExceeded, OverCap;
  }

  /** The decision node keeps the state but for a branch's competitor issue, and it records the reason when,
      and only when, it finds a cap met. */
  lemma {:induction false} DecisionKeeps(c: Config, s: GraphState, inp: Input)
    requires s.node == CosDecision
    ensures var t, hit := Step(c, s, inp), OverCap(c.caps, inp.meter);
      && t.decision == Decide(c, s.rs, s.prereqs) && t.prereqs == s.prereqs && t.workers == s.workers
      && t.rs == s.rs.(issues := t.rs.issues, stopReason := t.rs.stopReason)
      && (t.decision != Decision.Branch ==> t.rs.issues == s.rs.issues && t.budget == s.budget)
      && (t.decision == Decision.Branch ==> (t.rs.issues, t.budget) == Materialized(s.rs.issues, s.budget))
      && (!hit ==> t.rs.stopReason == s.rs.stopReason)
      && (hit ==> t.rs.stopReason == Some(CapExceeded(c.caps, inp.meterAgain)))
      && t.node == Route(c, s.rs.(issues := t.rs.issues), t.decision, inp)
  {
    RoutingReads(c, s.rs, inp);
    hide Reviewed, Collected, FannedOut, Planned, PlanAudited, Pushed, Materialized, Audited, Scored, Decide, Route,
      RouteAfterPull, PullIsHighRisk, CapExceeded, OverCap;
  }

  // ----- what a rework verdict leads to -----

  ghost predicate HasCompetitor(issues: seq<IssueNode>) {
    exists i :: 0 <= i < |issues| && issues[i].issueType == IssueType.Competitor
  }

  /** The issue _materialize_competitor adds as number n. */
  ghost predicate IsTheCompetitor(i: IssueNode, n: nat) {
    && i.id == IssueId(n) && i.title == "競品是否已有此能力?" && i.issueType == IssueType.Competitor
    && i.status == IssueStatus.Open && i.impact == 4 && i.confidence == 1 && i.unknowns == [] && i.evidenceRefs == []
  }

  /** A branch adds the competitor issue exactly when depth is left and the map has none, and then spends one
      level of depth and half the breadth. */
  lemma {:induction false} CompetitorExactly(issues: seq<IssueNode>, b: Budget)
    requires NumberedIssues(issues)
    ensures var (issues', b') := Materialized(issues, b);
      if b.depth > 0 && !HasCompetitor(issues)
      then |issues'| == |issues| + 1 && issues'[..|issues|] == issues
           && IsTheCompetitor(issues'[|issues|], |issues| + 1)
           && b'.depth == b.depth - 1 && b'.breadth == (if b.breadth < 4 then 2 else b.breadth / 2)
      else issues' == issues && b' == b
  {
    AddAppends(issues, COMPETITOR);
    SpendMeans(b);
    if HasType(issues, IssueType.Competitor) {
      var n :| n in issues && n.issueType == IssueType.Competitor;
      var i :| 0 <= i < |issues| && issues[i] == n;
      assert issues[i].issueType == IssueType.Competitor;
    }
  }

  /** The budget is whole, or one level is spent and the competitor is in the map. */
  ghost predicate BudgetOrCompetitor(s: GraphState) {
    s.node != Intake ==> s.budget == Budget(4, 2) || (s.budget.depth == 1 && HasCompetitor(s.rs.issues))
  }

  lemma {:induction false} CompetitorStays(a: seq<IssueNode>, b: seq<IssueNode>)
    requires HasCompetitor(a) && IssuesForward(a, b)
    ensures HasCompetitor(b)
  {
    var i :| 0 <= i < |a| && a[i].issueType == IssueType.Competitor;
    assert b[i].issueType == IssueType.Competitor;
  }

  lemma {:induction false} BudgetWritten(c: Config, s: GraphState, inp: Input)
    ensures var t := Step(c, s, inp);
      && (s.node == Intake ==> t.budget == Budget(4, 2))
      && (s.node !in {Intake, CosDecision} ==> t.budget == s.budget)
  {
    hide Routed, UnverifiedKey, FirstRefusal, Sections, WithCellTasks, MemoClaims, Collected, FanoutSelection, Gathered,
      Planned, Pushed, Materialized, Audited, Scored, Decide, Route, RouteAfterPull, Stopped;
  }

  lemma {:induction false} BudgetKept(c: Config, s: GraphState, inp: Input)
    requires NumberedIssues(s.rs.issues) && BudgetOrCompetitor(s)
    ensures BudgetOrCompetitor(Step(c, s, inp))
  {
    hide Step, NumberedIssues, Materialized;
    var t := Step(c, s, inp);
    BudgetWritten(c, s, inp);
    IssuesKept(c, s, inp);
    if s.node == CosDecision {
      DecisionKeeps(c, s, inp);
      CompetitorExactly(s.rs.issues, s.budget);
      if t.rs.issues != s.rs.issues {
        assert t.rs.issues[|s.rs.issues|].issueType == IssueType.Competitor;
      }
    } else if s.node != Intake && HasCompetitor(s.rs.issues) {
      CompetitorStays(s.rs.issues, t.rs.issues);
    }
  }

  lemma {:induction false} BudgetAtStart(s: GraphState)
    requires Begins(s)
    ensures BudgetOrCompetitor(s)
  {
  }

  lemma {:induction false} RunsKeepBudget(c: Config, s: GraphState, ins: nat -> Input, k: nat)
    requires Begins(s) && WholeMaps(c, s.rs)
    ensures BudgetOrCompetitor(After(c, s, ins, k)) && NumberedIssues(After(c, s, ins, k).rs.issues)
    decreases k
  {
    hide Step, WholeMaps, BudgetOrCompetitor, NumberedIssues;
    RunsOnlyGrow(c, s, ins, k, k);
    WholeIssues(c, After(c, s, ins, k).rs);
    if k == 0 {
      BudgetAtStart(s);
    } else {
      RunsKeepBudget(c, s, ins, k - 1);
      BudgetKept(c, After(c, s, ins, k - 1), ins(k - 1));
    }
  }

  /** The map holds a competitor afterwards: the one it had, or a new one at the price of one level of depth. */
  ghost predicate BroughtCompetitor(t: GraphState, u: GraphState) {
    && HasCompetitor(u.rs.issues)
    && (HasCompetitor(t.rs.issues) ==> u.rs.issues == t.rs.issues && u.budget == t.budget)
    && (!HasCompetitor(t.rs.issues) ==>
          && |u.rs.issues| == |t.rs.issues| + 1 && u.rs.issues[..|t.rs.issues|] == t.rs.issues
          && IsTheCompetitor(u.rs.issues[|t.rs.issues|], |t.rs.issues| + 1)
          && t.budget == Budget(4, 2) && u.budget == Budget(2, 1))
  }

  lemma {:induction false} BranchBrings(t: GraphState, u: GraphState)
    requires NumberedIssues(t.rs.issues) && BudgetOrCompetitor(t) && t.node != Intake
    requires (u.rs.issues, u.budget) == Materialized(t.rs.issues, t.budget)
    ensures BroughtCompetitor(t, u)
  {
    hide Materialized, NumberedIssues;
    CompetitorExactly(t.rs.issues, t.budget);
    if !HasCompetitor(t.rs.issues) {
      assert u.rs.issues[|t.rs.issues|].issueType == IssueType.Competitor;
    }
  }

  /** In every run: a rework verdict that comes while nobody is asked for, no cap is met and the ceiling is not
      reached makes the loop branch. The next nodes are the expansion and the supervisor, the broad expansion
      is on record, and the map holds a competitor issue, which the branch itself added exactly when the map
      had none. */
  lemma {:induction false} ReworkBranches(c: Config, s: GraphState, ins: nat -> Input, k: nat)
    requires Begins(s) && WholeMaps(c, s.rs) && After(c, s, ins, k).node == CosDecision
    requires var rs := After(c, s, ins, k).rs;
      && ReworkAsked(rs) && !PullAsked(rs) && rs.iteration < c.maxIterations && !OverCap(c.caps, ins(k).meter)
    ensures After(c, s, ins, k + 1).decision == Decision.Branch && After(c, s, ins, k + 1).node == IssueExpansion
    ensures BroughtCompetitor(After(c, s, ins, k), After(c, s, ins, k + 1))
    ensures After(c, s, ins, k + 2).node == Supervisor && BroadExpansion in After(c, s, ins, k + 2).prereqs
  {
    hide Step, After, WholeMaps, NumberedIssues, PullAsked, ReworkAsked, OverCap, Decide, Route, Materialized,
      BroughtCompetitor, BudgetOrCompetitor;
    var t, u := After(c, s, ins, k), After(c, s, ins, k + 1);
    NextState(c, s, ins, k);
    NextState(c, s, ins, k + 1);
    RunsKeepBudget(c, s, ins, k);
    DecisionKeeps(c, t, ins(k));
    DecisionExactly(c, t.rs, t.prereqs);
    RouteExactly(c, t.rs.(issues := u.rs.issues), u.decision, ins(k));
    BranchBrings(t, u);
    StepIsEdge(c, u, ins(k + 1));
    BroadExpansionWritten(c, u, ins(k + 1));
  }

  // ----- who writes what -----

  /** The review writes the memo and human tasks and nothing else. */
  lemma {:induction false} ReviewFrame(c: Config, s: GraphState, inp: Input)
    ensures var t := Reviewed(c, s, inp); t == s.(memo := t.memo, rs := s.rs.(tasks := t.rs.tasks))
  {
    hide Routed, UnverifiedKey, FirstRefusal, Sections, WithCellTasks, MemoClaims, ContextOf, Explicit, Texts, Without;
  }

  lemma {:induction false} FanoutFrame(c: Config, s: GraphState, inp: Input)
    ensures var t := FannedOut(c, s, inp); t == s.(workers := t.workers, rs := s.rs.(researched := t.rs.researched))
  {
    hide FanoutSelection, Gathered;
  }

  /** Three audits write the record: the plan's, when the grid is new to it and the auditor answers, the
      iteration's, always, and the deep one, when it answers. */
  lemma {:induction false} AuditWritten(c: Config, s: GraphState, inp: Input)
    ensures Step(c, s, inp).rs.audit ==
      match s.node
      case PlanAudit => if PlanIsKnown(c, s) || inp.planAudit.None? then s.rs.audit else inp.planAudit
      case AlbertAudit => Some(inp.audit)
      case DeepAudit => if inp.deepAudit.Some? then inp.deepAudit else s.rs.audit
      case _ => s.rs.audit
  {
    hide Reviewed, FannedOut, FoldAll, CapHit, SteeredAll, Expanded, OpenCount, PushTarget, PutTask, WithStatus,
      Materialized, Decide, Route, RouteAfterPull, RecordAll, Approved, AlbertReadiness;
    ReviewFrame(c, s, inp);
    FanoutFrame(c, s, inp);
  }

  /** The plan audit has seen a grid of this very signature last. */
  ghost predicate PlanIsKnown(c: Config, s: GraphState) {
    s.rs.grid.Some? && c.signature(s.rs.grid.value) != "" && s.auditedPlan == Some(c.signature(s.rs.grid.value))
  }

  lemma {:induction false} StopReasonWritten(c: Config, s: GraphState, inp: Input)
    ensures Step(c, s, inp).rs.stopReason ==
      if s.node in {CosDecision, HumanPull} && CapHit(c, inp) then Some(CapExceeded(c.caps, inp.meterAgain))
      else s.rs.stopReason
  {
    hide CapExceeded, Reviewed, FannedOut, FoldAll, CapHit, SteeredAll, Expanded, OpenCount, PushTarget, PutTask,
      WithStatus, Materialized, Decide, Route, RouteAfterPull, PullIsHighRisk, RecordAll, GridSignature, Approved,
      AlbertReadiness;
    ReviewFrame(c, s, inp);
    FanoutFrame(c, s, inp);
  }

  lemma {:induction false} ScoreAndPullsWritten(c: Config, s: GraphState, inp: Input)
    ensures var t := Step(c, s, inp);
      && t.rs.pulls == (if s.node == HumanPull && s.rs.pulls > 0 then s.rs.pulls - 1 else s.rs.pulls)
      && (s.node != ReadinessScoring ==> t.rs.score == s.rs.score && t.rs.readinessHistory == s.rs.readinessHistory)
  {
    hide Reviewed, FannedOut, FoldAll, CapHit, SteeredAll, Expanded, OpenCount, PushTarget, PutTask, WithStatus,
      Materialized, Decide, Route, RouteAfterPull, RecordAll, GridSignature, Approved, AlbertReadiness;
    ReviewFrame(c, s, inp);
    FanoutFrame(c, s, inp);
  }

  // ----- the prerequisites of a stop -----

  /** What puts each of the seven on record. */
  ghost predicate Sets(s: GraphState, p: Prereq) {
    match p
    case BroadExpansion => s.node == IssueExpansion
    case SourceConfidenceChecked => s.node == Collect
    case CounterargumentPass => s.node == Skeptic
    case AlbertAuditRan => s.node == AlbertAudit
    case PendingQuestionsExtracted => s.node == AlbertAudit
    case BlockersClassified => s.node == ArtifactUpdate
    case ExplicitContinueExplanation =>
      s.node == AntiPremature && s.rs.audit.Some? && s.rs.audit.value.rationale != ""
  }

  /** The flags a node puts on record, as one set. */
  function FlagsOf(s: GraphState): set<Prereq> {
    match s.node
    case IssueExpansion => {BroadExpansion}
    case Collect => {SourceConfidenceChecked}
    case Skeptic => {CounterargumentPass}
    case AlbertAudit => {AlbertAuditRan, PendingQuestionsExtracted}
    case ArtifactUpdate => {BlockersClassified}
    case AntiPremature =>
      if s.rs.audit.Some? && s.rs.audit.value.rationale != "" then {ExplicitContinueExplanation} else {}
    case _ => {}
  }

  lemma {:induction false} SetsMeans(s: GraphState, p: Prereq)
    ensures Sets(s, p) <==> p in FlagsOf(s)
  {
  }

  lemma {:induction false} PassedThrough(c: Config, s: GraphState, inp: Input)
    ensures Reviewed(c, s, inp).prereqs == PlanAudited(c, s, inp).prereqs == FannedOut(c, s, inp).prereqs == s.prereqs
  {
    hide Reviewed, FannedOut;
    ReviewFrame(c, s, inp);
    FanoutFrame(c, s, inp);
  }

  lemma {:induction false} PrereqWritten(c: Config, s: GraphState, inp: Input, p: Prereq)
    ensures p in Step(c, s, inp).prereqs <==> Sets(s, p) || (p in s.prereqs && s.node != Intake)
  {
    hide Reviewed, FannedOut, PlanAudited, Collected, Planned, Pushed, Audited, Scored, Decide, Route, RouteAfterPull,
      Stopped, Pulled, DeepAudited, Branched, Sets;
    PassedThrough(c, s, inp);
    SetsMeans(s, p);
  }

  lemma {:induction false} IntakeIsFirst(c: Config, s: GraphState, ins: nat -> Input, k: nat)
    requires Begins(s)
    ensures After(c, s, ins, k).node == Intake <==> k == 0
  {
    hide Step;
    if k > 0 {
      StepIsEdge(c, After(c, s, ins, k - 1), ins(k - 1));
    }
  }

  ghost predicate SetAt(c: Config, s: GraphState, ins: nat -> Input, j: nat, p: Prereq) {
    Sets(After(c, s, ins, j), p)
  }

  /** A prerequisite is on record exactly when its node has run since the start; none is ever lost. */
  lemma {:induction false} PrereqExactly(c: Config, s: GraphState, ins: nat -> Input, k: nat, p: Prereq)
    requires Begins(s)
    ensures p in After(c, s, ins, k).prereqs <==> exists j: nat :: j < k && SetAt(c, s, ins, j, p)
    decreases k
  {
    hide Step, After, Sets;
    if k == 0 {
      FirstState(c, s, ins);
    } else {
      PrereqExactly(c, s, ins, k - 1, p);
      NextState(c, s, ins, k - 1);
      IntakeIsFirst(c, s, ins, k - 1);
      PrereqWritten(c, After(c, s, ins, k - 1), ins(k - 1), p);
      if k == 1 {
        FirstState(c, s, ins);
      }
      assert SetAt(c, s, ins, k - 1, p) <==> Sets(After(c, s, ins, k - 1), p);
    }
  }

  /** The audit the checklist saw at step j gave a reason. */
  ghost predicate ExplainedAt(c: Config, s: GraphState, ins: nat -> Input, j: nat) {
    var t := After(c, s, ins, j);
    t.node == AntiPremature && t.rs.audit.Some? && t.rs.audit.value.rationale != ""
  }

  /** The node an iteration runs before n, from its first collect on. */
  function Preceding(n: Node): Node {
    match n
    case CosDecision => AntiPremature
    case AntiPremature => ReadinessScoring
    case ReadinessScoring => ArtifactUpdate
    case ArtifactUpdate => AlbertAudit
    case AlbertAudit => Skeptic
    case Skeptic => Collect
    case _ => n
  }

  lemma {:induction false} CameFrom(c: Config, s: GraphState, t: GraphState)
    requires Edge(c, s, t) && Preceding(t.node) != t.node
    ensures s.node == Preceding(t.node)
  {
  }

  lemma {:induction false} OneBack(c: Config, s: GraphState, ins: nat -> Input, k: nat, n: Node)
    requires Begins(s) && After(c, s, ins, k).node == n && Preceding(n) != n
    ensures k > 0 && After(c, s, ins, k - 1).node == Preceding(n)
  {
    hide Step, After, Edge;
    IntakeIsFirst(c, s, ins, k);
    EdgeInto(c, s, ins, k);
    CameFrom(c, After(c, s, ins, k - 1), After(c, s, ins, k));
  }

  lemma {:induction false} IterationPath(c: Config, s: GraphState, ins: nat -> Input, k: nat)
    requires Begins(s) && After(c, s, ins, k).node == CosDecision
    ensures k >= 6 && After(c, s, ins, k - 3).node == ArtifactUpdate && After(c, s, ins, k - 4).node == AlbertAudit
    ensures After(c, s, ins, k - 5).node == Skeptic && After(c, s, ins, k - 6).node == Collect
  {
    hide Step, After;
    OneBack(c, s, ins, k, CosDecision);
    OneBack(c, s, ins, k - 1, AntiPremature);
    OneBack(c, s, ins, k - 2, ReadinessScoring);
    OneBack(c, s, ins, k - 3, ArtifactUpdate);
    OneBack(c, s, ins, k - 4, AlbertAudit);
    OneBack(c, s, ins, k - 5, Skeptic);
  }

  lemma {:induction false} ExpandedMeansBranched(c: Config, s: GraphState, ins: nat -> Input, k: nat)
    requires Begins(s)
    ensures BroadExpansion in After(c, s, ins, k).prereqs <==>
      exists j: nat :: j + 1 < k && BranchedAt(c, s, ins, j)
  {
    hide Step, After, WantsRework;
    PrereqExactly(c, s, ins, k, BroadExpansion);
    if j: nat :| j < k && SetAt(c, s, ins, j, BroadExpansion) {
      ExpansionComesFromDecision(c, s, ins, j);
      assert BranchedAt(c, s, ins, j - 1);
    }
    if j: nat :| j + 1 < k && BranchedAt(c, s, ins, j) {
      assert SetAt(c, s, ins, j + 1, BroadExpansion);
    }
  }

  lemma {:induction false} ExplainedMeans(c: Config, s: GraphState, ins: nat -> Input, k: nat)
    requires Begins(s)
    ensures ExplicitContinueExplanation in After(c, s, ins, k).prereqs <==>
      exists j: nat :: j < k && ExplainedAt(c, s, ins, j)
  {
    hide Step, After;
    PrereqExactly(c, s, ins, k, ExplicitContinueExplanation);
    if j: nat :| j < k && SetAt(c, s, ins, j, ExplicitContinueExplanation) {
      assert ExplainedAt(c, s, ins, j);
    }
    if j: nat :| j < k && ExplainedAt(c, s, ins, j) {
      assert SetAt(c, s, ins, j, ExplicitContinueExplanation);
    }
  }

  lemma {:induction false} StandingPrereq(c: Config, s: GraphState, ins: nat -> Input, k: nat, p: Prereq)
    requires Begins(s) && After(c, s, ins, k).node == CosDecision
    requires p !in {BroadExpansion, ExplicitContinueExplanation}
    ensures p in After(c, s, ins, k).prereqs
  {
    hide Step, After;
    IterationPath(c, s, ins, k);
    PrereqExactly(c, s, ins, k, p);
    match p
    case SourceConfidenceChecked => assert SetAt(c, s, ins, k - 6, p);
    case CounterargumentPass => assert SetAt(c, s, ins, k - 5, p);
    case AlbertAuditRan => assert SetAt(c, s, ins, k - 4, p);
    case PendingQuestionsExtracted => assert SetAt(c, s, ins, k - 4, p);
    case BlockersClassified => assert SetAt(c, s, ins, k - 3, p);
  }

  /** At every decision five of the seven are on record; all seven are exactly when the run has branched
      before and some checklist saw an audit that gave its reason. */
  lemma {:induction false} ReadyExactlyWhen(c: Config, s: GraphState, ins: nat -> Input, k: nat)
    requires Begins(s) && After(c, s, ins, k).node == CosDecision
    ensures forall p: Prereq :: p !in {BroadExpansion, ExplicitContinueExplanation} ==> p in After(c, s, ins, k).prereqs
    ensures BroadExpansion in After(c, s, ins, k).prereqs <==> exists j: nat :: j + 1 < k && BranchedAt(c, s, ins, j)
    ensures ExplicitContinueExplanation in After(c, s, ins, k).prereqs <==>
      exists j: nat :: j < k && ExplainedAt(c, s, ins, j)
  {
    hide Step, After, WantsRework;
    ExpandedMeansBranched(c, s, ins, k);
    ExplainedMeans(c, s, ins, k);
    forall p: Prereq | p !in {BroadExpansion, ExplicitContinueExplanation} ensures p in After(c, s, ins, k).prereqs {
      StandingPrereq(c, s, ins, k, p);
    }
  }
}
