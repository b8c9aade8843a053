/** The convergence loop as a transition function (graph.py): the state the nodes share, the
    decision, the four routers, and what each node makes of the state and of what the brains,
    the humans and the meters answer. */
module LoopSteps {
  import opened Models
  import opened Decisions
  import opened ChallengeMap
  import opened CellEvidence
  import opened IssueMap
  import opened ResearchSelection
  import opened HumanTasks
  import opened DecisionMemo

  datatype Node =
    | Intake | Scope | Clarify | WriteBrief
    | OrchestratorPlan | PlanAudit | PlanApproval
    | Supervisor | ResearchFanout | Collect | Skeptic | AlbertAudit
    | ArtifactUpdate | ReadinessScoring | AntiPremature | CosDecision
    | IssueExpansion | HumanPull | HumanPush | DeepAudit | HumanReview
    | End

  datatype Config = Config(
    maxIterations: int, perIteration: nat, caps: Caps,
    auto: bool, enableReview: bool, assumeBrief: bool, criteriaPinned: bool, explicitEmit: bool, bypassDegraded: bool,
    hasPriority: bool, hasFallback: bool,
    sim: Similarity, cells: CellTools, text: TextTools, signature: seq<TaskCell> -> string)

  /** The values a ResearchState holds at one moment. */
  datatype Record = Record(
    issues: seq<IssueNode>, challenges: seq<AlbertChallenge>, evidence: seq<EvidenceBundle>,
    tasks: seq<HumanTask>, score: Option<ReadinessScore>, readinessHistory: seq<int>,
    convergenceHistory: seq<nat>, iteration: nat, audit: Option<AuditResult>, deepAudits: nat,
    researched: seq<string>, grid: Option<seq<TaskCell>>, stopReason: Option<CapReason>,
    clarified: bool, pulls: nat)

  /** The memo a run leaves behind; refusal is None when it was emitted. */
  datatype FinalMemo = FinalMemo(
    sections: seq<MemoSection>, unverified: seq<string>, needs: seq<string>, refusal: Option<Refusal>)

  /** The node to run next and every channel the nodes read or write. */
  datatype GraphState = GraphState(
    node: Node, decision: Decision, prereqs: set<Prereq>, budget: Budget,
    workers: seq<EvidenceBundle>, approvedCells: Option<nat>, auditedPlan: Option<string>,
    memo: Option<FinalMemo>, rs: Record)

  /** What one node execution may be told from outside; each node uses only its own part. */
  datatype Input = Input(
    drafts: seq<IssueDraft>, steers: seq<string>, plan: Option<seq<TaskCell>>,
    planAudit: Option<AuditResult>, supervisorIds: seq<string>,
    research: (nat, string) -> Option<EvidenceBundle>, references: seq<EvidenceBundle>,
    audit: AuditResult, deepAudit: Option<AuditResult>, score: ReadinessScore,
    prose: Option<Prose>, meter: Meter, meterAgain: Meter)

  const DEFAULT_BUDGET := Budget(4, 2)

  // ----- the front of the graph -----

  predicate BriefSettled(c: Config, rs: Record) { c.criteriaPinned || c.assumeBrief || rs.clarified }

  // ----- planning -----

  function CellCount(grid: Option<seq<TaskCell>>): nat { if grid.Some? then |grid.value| else 0 }

  function GridSignature(c: Config, grid: Option<seq<TaskCell>>): string {
    if grid.Some? then c.signature(grid.value) else ""
  }

  const MAJOR_DELTA: int := 2

  /** node_plan_approval asks on the first visit and after a major re-decomposition. */
  predicate AsksApproval(approved: Option<nat>, cells: nat) {
    approved.None? || cells - approved.value >= MAJOR_DELTA
  }

  function Approved(c: Config, approved: Option<nat>, cells: nat): Option<nat> {
    if c.assumeBrief || AsksApproval(approved, cells) then Some(cells) else approved
  }

  function Planned(c: Config, rs: Record, inp: Input): Record {
    rs.(issues := Expanded(SteeredAll(rs.issues, inp.steers), inp.drafts),
        grid := if inp.plan.Some? then inp.plan else rs.grid)
  }

  function PlanAudited(c: Config, s: GraphState, inp: Input): GraphState {
    var sig := GridSignature(c, s.rs.grid);
    if sig != "" && s.auditedPlan == Some(sig) then s
    else s.(auditedPlan := Some(sig),
            rs := s.rs.(audit := if inp.planAudit.Some? then inp.planAudit else s.rs.audit))
  }

  // ----- research -----

  /** The bundles of the researched issues in selection order; one that failed leaves none. The answer
      may differ by position, also for an issue the supervisor named twice. */
  function Gathered(batch: seq<Candidate>, research: (nat, string) -> Option<EvidenceBundle>): seq<EvidenceBundle> {
    if batch == [] then []
    else
      var front := Gathered(batch[..|batch| - 1], research);
      match research(|batch| - 1, batch[|batch| - 1].issue.id)
      case Some(b) => front + [b]
      case None => front
  }

  /** The selection one fan-out makes: the batch and the queries recorded after it. */
  function FanoutSelection(c: Config, rs: Record, inp: Input): (seq<Candidate>, seq<string>) {
    Selection(rs.issues, rs.challenges, rs.researched, inp.supervisorIds, c.perIteration)
  }

  function FannedOut(c: Config, s: GraphState, inp: Input): GraphState {
    var (batch, researched) := FanoutSelection(c, s.rs, inp);
    s.(workers := s.workers + Gathered(batch, inp.research), rs := s.rs.(researched := researched))
  }

  function Collected(c: Config, rs: Record, workers: seq<EvidenceBundle>, references: seq<EvidenceBundle>): Record {
    var evidence := rs.evidence + workers + references;
    rs.(issues := FoldAll(rs.issues, workers), evidence := evidence,
        grid := match rs.grid
                case None => None
                case Some(cells) => Some(ReclassifiedGrid(c.cells, cells, evidence)))
  }

  // ----- audit and scoring -----

  function Audited(c: Config, rs: Record, audit: AuditResult): Record {
    var challenges := RecordAll(c.sim, rs.challenges, audit.challenges);
    rs.(audit := Some(audit), challenges := challenges,
        convergenceHistory := rs.convergenceHistory + [OpenCount(challenges)])
  }

  function Scored(rs: Record, advice: ReadinessScore): Record {
    var score := if rs.challenges != [] then advice.(albert := AlbertReadiness(rs.challenges)) else advice;
    rs.(score := Some(score), iteration := rs.iteration + 1,
        readinessHistory := rs.readinessHistory + [score.albert + score.decision + score.exhaustion + score.human])
  }

  // ----- the decision -----

  predicate WantsPull(rs: Record) {
    rs.pulls > 0 || (rs.audit.Some? && rs.audit.value.recommendedNextAction == Some(Decision.PullHuman))
  }

  predicate WantsRework(audit: Option<AuditResult>) { audit.Some? && audit.value.verdict == AuditVerdict.Rework }

  predicate RecommendsSynthesis(audit: Option<AuditResult>) {
    audit.Some? && audit.value.recommendedNextAction == Some(Decision.Synthesize)
  }

  /** A soft stop must pass the audit gate and then the emission gate. */
  function Gated(c: Config, rs: Record, d: Decision): Decision {
    GateEmission(rs.challenges, AssertAuditRan(rs.audit, c.bypassDegraded, d))
  }

  function Decide(c: Config, rs: Record, prereqs: set<Prereq>): Decision {
    if WantsPull(rs) then Decision.PullHuman
    else if WantsRework(rs.audit) then Decision.Branch
    else if !AllDone(prereqs) then Decision.ContinueResearch
    else if TerminalEligible(rs.issues, rs.score, prereqs) then Gated(c, rs, Decision.TerminalStop)
    else if RecommendsSynthesis(rs.audit) || Plateau(rs.readinessHistory) then Gated(c, rs, Decision.Synthesize)
    else if !HasAddressable(rs.issues) then Decision.PushHuman
    else Decision.ContinueResearch
  }

  /** A branch first materializes the competitor issue the auditor asked for. */
  function Branched(rs: Record, budget: Budget, d: Decision): (Record, Budget) {
    if d == Decision.Branch then
      var (issues, budget') := Materialized(rs.issues, budget);
      (rs.(issues := issues), budget')
    else (rs, budget)
  }

  // ----- the routers -----

  predicate CapHit(c: Config, inp: Input) { CapExceeded(c.caps, inp.meter) != NoCapMet }

  /** A router that sees the cap met records why, asking the meters a second time. */
  function Stopped(c: Config, rs: Record, inp: Input): Record {
    if CapHit(c, inp) then rs.(stopReason := Some(CapExceeded(c.caps, inp.meterAgain))) else rs
  }

  predicate AtCeiling(c: Config, rs: Record) { rs.iteration >= c.maxIterations }

  predicate PullIsRisky(c: Config, rs: Record) { PullIsHighRisk(rs.issues, rs.audit, c.hasPriority, c.hasFallback) }

  function Route(c: Config, rs: Record, d: Decision, inp: Input): Node {
    if CapHit(c, inp) || AtCeiling(c, rs) then DeepAudit
    else if IsSoftStop(d) then
      if HasOpenHighImpactCell(rs.grid) && !GridConverged(rs.grid) then OrchestratorPlan else DeepAudit
    else if d == Decision.PullHuman then (if PullIsRisky(c, rs) then DeepAudit else HumanPull)
    else if d == Decision.PushHuman then HumanPush
    else if d == Decision.Branch || d == Decision.Rerank then IssueExpansion
    else OrchestratorPlan
  }

  function RouteAfterPull(c: Config, rs: Record, inp: Input): Node {
    if CapHit(c, inp) || AtCeiling(c, rs) then HumanReview else OrchestratorPlan
  }

  // ----- humans -----

  function Pulled(rs: Record): Record { if rs.pulls > 0 then rs.(pulls := rs.pulls - 1) else rs }

  function Pushed(rs: Record): Record {
    match PushTarget(rs.issues)
    case None => rs
    case Some(n) =>
      rs.(tasks := PutTask(rs.tasks, PushTask(rs.tasks, n)),
          issues := WithStatus(rs.issues, n.id, IssueStatus.BlockedByInternalData))
  }

  function DeepAudited(rs: Record, audit: Option<AuditResult>): Record {
    if audit.Some? then rs.(audit := audit, deepAudits := rs.deepAudits + 1) else rs
  }

  /** What routing a run's claims reads of the state. */
  function ContextOf(c: Config, rs: Record): Context {
    Context(c.text, SourceById(rs.evidence), rs.issues, if rs.grid.Some? then rs.grid.value else [], PullIsRisky(c, rs))
  }

  predicate Explicit(c: Config, rs: Record) {
    c.explicitEmit || (rs.stopReason.Some? && rs.stopReason.value != NoCapMet)
  }

  /** The memo of the final state and its fate at the emission gates; no-op without a synthesizer. */
  function Reviewed(c: Config, s: GraphState, inp: Input): GraphState {
    if inp.prose.None? then s
    else
      var items, ctx := MemoClaims(s.rs.evidence), ContextOf(c, s.rs);
      var routing := Routed(ctx, items, s.rs.tasks);
      var needs := Texts(routing.needs);
      var unverified := Without(UnverifiedKey(ctx, items), needs);
      var refusal := FirstRefusal(s.rs.audit, s.rs.challenges, s.rs.score, unverified, Explicit(c, s.rs));
      s.(memo := Some(FinalMemo(Sections(inp.prose.value, s.rs.evidence == [], needs), unverified, needs, refusal)),
         rs := s.rs.(tasks := if s.rs.grid.Some? then WithCellTasks(routing.tasks, s.rs.grid.value) else routing.tasks))
  }

  // ----- pauses -----

  predicate AuditIsHighRisk(audit: Option<AuditResult>) {
    audit.Some? && (audit.value.prematureEndRisk == Risk.High || audit.value.researchDriftRisk == Risk.High)
  }

  /** The node about to run interrupts: the invocation ends here, and a later one resumes with the
      answer and counts its steps anew. */
  predicate Pauses(c: Config, s: GraphState) {
    match s.node
    case Clarify => !c.criteriaPinned && !c.assumeBrief
    case PlanApproval => !c.assumeBrief && AsksApproval(s.approvedCells, CellCount(s.rs.grid))
    case HumanPull => !c.auto || PullIsRisky(c, s.rs)
    case HumanReview => c.enableReview && (!c.auto || AuditIsHighRisk(s.rs.audit))
    case _ => false
  }

  // ----- one node execution -----

  function OnIntake(s: GraphState): GraphState { s.(node := Scope, prereqs := {}, budget := DEFAULT_BUDGET) }

  function OnClarify(c: Config, s: GraphState): GraphState {
    if BriefSettled(c, s.rs) then s.(node := WriteBrief, rs := s.rs.(clarified := true)) else s
  }

  function OnPlanApproval(c: Config, s: GraphState): GraphState {
    s.(node := Supervisor, approvedCells := Approved(c, s.approvedCells, CellCount(s.rs.grid)))
  }

  function OnIssueExpansion(s: GraphState, inp: Input): GraphState {
    s.(node := Supervisor, prereqs := s.prereqs + {BroadExpansion},
       rs := s.rs.(issues := Expanded(s.rs.issues, inp.drafts)))
  }

  function OnSupervisor(s: GraphState, inp: Input): GraphState {
    s.(node := ResearchFanout, rs := s.rs.(issues := SteeredAll(s.rs.issues, inp.steers)))
  }

  function OnCollect(c: Config, s: GraphState, inp: Input): GraphState {
    s.(node := Skeptic, prereqs := s.prereqs + {SourceConfidenceChecked},
       rs := Collected(c, s.rs, s.workers, inp.references))
  }

  function OnAlbertAudit(c: Config, s: GraphState, inp: Input): GraphState {
    s.(node := ArtifactUpdate, prereqs := s.prereqs + {AlbertAuditRan, PendingQuestionsExtracted},
       rs := Audited(c, s.rs, inp.audit))
  }

  function OnAntiPremature(s: GraphState): GraphState {
    s.(node := CosDecision,
       prereqs := if s.rs.audit.Some? && s.rs.audit.value.rationale != ""
                  then s.prereqs + {ExplicitContinueExplanation} else s.prereqs)
  }

  function OnCosDecision(c: Config, s: GraphState, inp: Input): GraphState {
    var d := Decide(c, s.rs, s.prereqs);
    var (rs, budget) := Branched(s.rs, s.budget, d);
    s.(node := Route(c, rs, d, inp), decision := d, budget := budget, rs := Stopped(c, rs, inp))
  }

  function OnHumanPull(c: Config, s: GraphState, inp: Input): GraphState {
    var rs := Pulled(s.rs);
    s.(node := RouteAfterPull(c, rs, inp), rs := Stopped(c, rs, inp))
  }

  function OnDeepAudit(s: GraphState, inp: Input): GraphState {
    s.(node := if s.decision == Decision.PullHuman then HumanPull else HumanReview,
       rs := DeepAudited(s.rs, inp.deepAudit))
  }

  function Step(c: Config, s: GraphState, inp: Input): GraphState {
    match s.node
    case Intake => OnIntake(s)
    case Scope => s.(node := Clarify)
    case Clarify => OnClarify(c, s)
    case WriteBrief => s.(node := OrchestratorPlan)
    case OrchestratorPlan => s.(node := PlanAudit, rs := Planned(c, s.rs, inp))
    case PlanAudit => PlanAudited(c, s, inp).(node := PlanApproval)
    case PlanApproval => OnPlanApproval(c, s)
    case IssueExpansion => OnIssueExpansion(s, inp)
    case Supervisor => OnSupervisor(s, inp)
    case ResearchFanout => FannedOut(c, s, inp).(node := Collect)
    case Collect => OnCollect(c, s, inp)
    case Skeptic => s.(node := AlbertAudit, prereqs := s.prereqs + {CounterargumentPass})
    case AlbertAudit => OnAlbertAudit(c, s, inp)
    case ArtifactUpdate => s.(node := ReadinessScoring, prereqs := s.prereqs + {BlockersClassified})
    case ReadinessScoring => s.(node := AntiPremature, rs := Scored(s.rs, inp.score))
    case AntiPremature => OnAntiPremature(s)
    case CosDecision => OnCosDecision(c, s, inp)
    case HumanPull => OnHumanPull(c, s, inp)
    case HumanPush => s.(node := Supervisor, rs := Pushed(s.rs))
    case DeepAudit => OnDeepAudit(s, inp)
    case HumanReview => Reviewed(c, s, inp).(node := End)
    case End => s
  }

  /** A run: the state after k node executions, answered by the inputs in turn. */
  function After(c: Config, s: GraphState, ins: nat -> Input, k: nat): GraphState {
    if k == 0 then s else Step(c, After(c, s, ins, k - 1), ins(k - 1))
  }

  /** How every run begins: nothing but the research state is set. */
  ghost predicate Begins(s: GraphState) {
    && s.node == Intake && s.decision == Decision.ContinueResearch && s.prereqs == {}
    && s.workers == [] && s.approvedCells == None && s.auditedPlan == None && s.memo == None
  }
}
