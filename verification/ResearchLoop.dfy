/** The nodes of the convergence loop as they work on the shared record, one method per node, and
    the driver that runs them under a recursion limit (graph.py). */
module ResearchLoop {
  import opened Models
  import opened Decisions
  import opened ChallengeMap
  import opened IssueMap
  import opened ResearchSelection
  import opened HumanTasks
  import opened CellEvidence
  import opened DecisionMemo
  import opened LoopSteps
  import opened LoopRuns
  import opened LoopSafety

  class Loop {
    const c: Config
    const state: ResearchState
    var node: Node
    var decision: Decision
    var prereqs: set<Prereq>
    var budget: Budget
    var workers: seq<EvidenceBundle>
    var approvedCells: Option<nat>
    var auditedPlan: Option<string>
    var memo: Option<FinalMemo>

    constructor (c: Config, state: ResearchState)
      ensures this.c == c && this.state == state && Begins(Now())
    {
      this.c, this.state := c, state;
      node, decision, prereqs := LoopSteps.Intake, Decision.ContinueResearch, {};
      budget, workers := DEFAULT_BUDGET, [];
      approvedCells, auditedPlan, memo := None, None, None;
    }

    ghost function Values(): Record
      reads state
    {
      Record(state.issueMap, state.challengeMap, state.evidence, state.humanTasks, state.readinessScore,
             state.readinessHistory, state.convergenceHistory, state.iterationCount, state.lastAudit,
             state.deepAuditCount, state.researchedQueries, state.taskGrid, state.stopReason,
             state.clarifyConverged, state.pendingPulls)
    }

    ghost function Now(): GraphState
      reads this, state
    {
      GraphState(node, decision, prereqs, budget, workers, approvedCells, auditedPlan, memo, Values())
    }

    method Intake()
      modifies this, state
      ensures Now() == OnIntake(old(Now()))
    {
      prereqs := {};
      budget := DEFAULT_BUDGET;
      workers := workers + [];
      node := LoopSteps.Scope;
    }

    method Clarify()
      modifies this, state
      ensures Now() == OnClarify(c, old(Now()))
    {
      if c.criteriaPinned {
        state.clarifyConverged := true;
      } else if c.assumeBrief {
        state.clarifyConverged := true;
      }
      if state.clarifyConverged {
        node := LoopSteps.WriteBrief;
      }
    }

    method OrchestratorPlan(inp: Input)
      modifies this, state
      ensures Now() == old(Now()).(node := LoopSteps.PlanAudit, rs := Planned(c, old(Values()), inp))
    {
      ConsumeSteerEvents(state, inp.steers);
      Expand(state, inp.drafts);
      if inp.plan.Some? {
        state.taskGrid := inp.plan;
      }
      node := LoopSteps.PlanAudit;
    }

    method PlanAudit(inp: Input)
      modifies this, state
      ensures Now() == PlanAudited(c, old(Now()), inp).(node := LoopSteps.PlanApproval)
    {
      var sig := GridSignature(c, state.taskGrid);
      node := LoopSteps.PlanApproval;
      if sig != "" && Some(sig) == auditedPlan {
        return;
      }
      if inp.planAudit.Some? {
        state.lastAudit := inp.planAudit;
      }
      auditedPlan := Some(sig);
    }

    method PlanApproval()
      modifies this, state
      ensures Now() == OnPlanApproval(c, old(Now()))
    {
      var cells := CellCount(state.taskGrid);
      node := LoopSteps.Supervisor;
      if c.assumeBrief {
        approvedCells := Some(cells);
        return;
      }
      var first := approvedCells.None?;
      var major := approvedCells.Some? && cells - approvedCells.value >= MAJOR_DELTA;
      if first || major {
        approvedCells := Some(cells);
      }
    }

    method IssueExpansion(inp: Input)
      modifies this, state
      ensures Now() == OnIssueExpansion(old(Now()), inp)
    {
      Expand(state, inp.drafts);
      prereqs := prereqs + {BroadExpansion};
      node := LoopSteps.Supervisor;
    }

    method Supervisor(inp: Input)
      modifies this, state
      ensures Now() == OnSupervisor(old(Now()), inp)
    {
      ConsumeSteerEvents(state, inp.steers);
      workers := workers + [];
      node := LoopSteps.ResearchFanout;
    }

    /** run_research_fanout, seen from its result: selection order, failed researchers dropped. */
    static method RunResearchFanout(batch: seq<Candidate>, research: (nat, string) -> Option<EvidenceBundle>)
      returns (bundles: seq<EvidenceBundle>)
      ensures bundles == Gathered(batch, research)
    {
      bundles := [];
      for i := 0 to |batch|
        invariant bundles == Gathered(batch[..i], research)
      {
        assert batch[..i + 1][..i] == batch[..i];
        var result := research(i, batch[i].issue.id);
        if result.Some? {
          bundles := bundles + [result.value];
        }
      }
      assert batch[..|batch|] == batch;
    }

    method ResearchFanout(inp: Input)
      modifies this, state
      ensures Now() == FannedOut(c, old(Now()), inp).(node := LoopSteps.Collect)
    {
      hide Selection, Gathered;
      var batch := SelectResearchIssues(state, inp.supervisorIds, c.perIteration);
      var bundles := RunResearchFanout(batch, inp.research);
      workers := workers + bundles;
      node := LoopSteps.Collect;
    }

    method Collect(inp: Input)
      modifies this, state
      ensures Now() == OnCollect(c, old(Now()), inp)
    {
      hide FoldAll, ReclassifiedGrid, Reclassified;
      ghost var before := Values();
      FoldResults(state, workers);
      state.evidence := state.evidence + inp.references;
      var moved := ClassifyGridCells(state, c.cells);
      assert Values() == Collected(c, before, workers, inp.references);
      prereqs := prereqs + {SourceConfidenceChecked};
      workers := workers + [];
      node := LoopSteps.Skeptic;
    }

    method AlbertAudit(inp: Input)
      modifies this, state
      ensures Now() == OnAlbertAudit(c, old(Now()), inp)
    {
      hide RecordAll, OpenCount;
      state.lastAudit := Some(inp.audit);
      RecordAudit(state, c.sim, inp.audit.challenges);
      var open := RecordSignal(state);
      prereqs := prereqs + {AlbertAuditRan};
      prereqs := prereqs + {PendingQuestionsExtracted};
      node := LoopSteps.ArtifactUpdate;
    }

    method ReadinessScoring(inp: Input)
      modifies this, state
      ensures Now() == old(Now()).(node := LoopSteps.AntiPremature, rs := Scored(old(Values()), inp.score))
    {
      hide AlbertReadiness;
      var score := inp.score;
      if state.challengeMap != [] {
        score := score.(albert := AlbertReadiness(state.challengeMap));
      }
      state.readinessScore := Some(score);
      var sum := score.albert + score.decision + score.exhaustion + score.human;
      state.readinessHistory := state.readinessHistory + [sum];
      state.iterationCount := state.iterationCount + 1;
      node := LoopSteps.AntiPremature;
    }

    method AntiPremature()
      modifies this, state
      ensures Now() == OnAntiPremature(old(Now()))
    {
      if state.lastAudit.Some? && state.lastAudit.value.rationale != "" {
        prereqs := prereqs + {ExplicitContinueExplanation};
      }
      node := LoopSteps.CosDecision;
    }

    /** _decide_cos without its effects. */
    method DecideCos() returns (d: Decision)
      ensures d == Decide(c, Values(), prereqs)
    {
      if state.pendingPulls > 0
         || (state.lastAudit.Some? && state.lastAudit.value.recommendedNextAction == Some(Decision.PullHuman)) {
        return Decision.PullHuman;
      }
      if WantsRework(state.lastAudit) {
        return Decision.Branch;
      }
      if !AllDone(prereqs) {
        return Decision.ContinueResearch;
      }
      if TerminalEligible(state.issueMap, state.readinessScore, prereqs) {
        d := AssertAuditRan(state.lastAudit, c.bypassDegraded, Decision.TerminalStop);
        d := GateEmission(state.challengeMap, d);
        return;
      }
      if (state.lastAudit.Some? && state.lastAudit.value.recommendedNextAction == Some(Decision.Synthesize))
         || Plateau(state.readinessHistory) {
        d := AssertAuditRan(state.lastAudit, c.bypassDegraded, Decision.Synthesize);
        d := GateEmission(state.challengeMap, d);
        return;
      }
      if !HasAddressable(state.issueMap) {
        return Decision.PushHuman;
      }
      d := Decision.ContinueResearch;
    }

    /** _route; it records the cap reason itself. */
    method RouteDecision(inp: Input) returns (next: Node)
      modifies state`stopReason
      ensures Values() == Stopped(c, old(Values()), inp)
      ensures next == Route(c, old(Values()), decision, inp)
    {
      if CapExceeded(c.caps, inp.meter) != NoCapMet {
        state.stopReason := Some(CapExceeded(c.caps, inp.meterAgain));
        return LoopSteps.DeepAudit;
      }
      if state.iterationCount >= c.maxIterations {
        return LoopSteps.DeepAudit;
      }
      if IsSoftStop(decision) {
        var researchable := HasOpenHighImpactCell(state.taskGrid);
        if researchable && !GridConverged(state.taskGrid) {
          return LoopSteps.OrchestratorPlan;
        }
        return LoopSteps.DeepAudit;
      }
      if decision == Decision.PullHuman {
        var high := PullIsHighRisk(state.issueMap, state.lastAudit, c.hasPriority, c.hasFallback);
        return if high then LoopSteps.DeepAudit else LoopSteps.HumanPull;
      }
      if decision == Decision.PushHuman {
        return LoopSteps.HumanPush;
      }
      if decision == Decision.Branch || decision == Decision.Rerank {
        return LoopSteps.IssueExpansion;
      }
      next := LoopSteps.OrchestratorPlan;
    }

    method CosDecision(inp: Input)
      modifies this, state
      ensures Now() == OnCosDecision(c, old(Now()), inp)
    {
      hide Materialized, Decide, Route, Stopped;
      decision := DecideCos();
      if decision == Decision.Branch {
        budget := MaterializeCompetitor(state, budget);
      }
      node := RouteDecision(inp);
    }

    method HumanPull(inp: Input)
      modifies this, state
      ensures Now() == OnHumanPull(c, old(Now()), inp)
    {
      if state.pendingPulls > 0 {
        state.pendingPulls := state.pendingPulls - 1;
      }
      if CapExceeded(c.caps, inp.meter) != NoCapMet {
        state.stopReason := Some(CapExceeded(c.caps, inp.meterAgain));
        node := LoopSteps.HumanReview;
      } else if state.iterationCount >= c.maxIterations {
        node := LoopSteps.HumanReview;
      } else {
        node := LoopSteps.OrchestratorPlan;
      }
    }

    method HumanPush()
      modifies this, state
      ensures Now() == old(Now()).(node := LoopSteps.Supervisor, rs := Pushed(old(Values())))
    {
      var target := FindPushTarget(state);
      if target.Some? {
        state.humanTasks := PutTask(state.humanTasks, PushTask(state.humanTasks, target.value));
        SetStatus(state, target.value.id, IssueStatus.BlockedByInternalData);
      }
      node := LoopSteps.Supervisor;
    }

    method DeepAudit(inp: Input)
      modifies this, state
      ensures Now() == OnDeepAudit(old(Now()), inp)
    {
      if inp.deepAudit.Some? {
        state.lastAudit := inp.deepAudit;
        state.deepAuditCount := state.deepAuditCount + 1;
      }
      node := if decision == Decision.PullHuman then LoopSteps.HumanPull else LoopSteps.HumanReview;
    }

    /** The reading of the state assemble_memo and check_emission share. */
    method MemoContext() returns (ctx: Context)
      ensures ctx == ContextOf(c, Values())
    {
      hide SourceById, PullIsHighRisk;
      var cells := if state.taskGrid.Some? then state.taskGrid.value else [];
      var high := PullIsHighRisk(state.issueMap, state.lastAudit, c.hasPriority, c.hasFallback);
      ctx := Context(c.text, SourceById(state.evidence), state.issueMap, cells, high);
    }

    /** _build_and_gate_memo */
    method BuildAndGateMemo(inp: Input)
      requires WellNumbered(state.humanTasks)
      modifies this`memo, state`humanTasks
      ensures Now() == Reviewed(c, old(Now()), inp)
    {
      hide MemoClaims, UnverifiedKey, Routed, Sections, WithCellTasks, FirstRefusal, WellNumbered, Without,
        ContextOf, Texts;
      if inp.prose.None? {
        return;
      }
      var ctx := MemoContext();
      var m := AssembleMemo(state, ctx, inp.prose.value);
      var explicit := c.explicitEmit || (state.stopReason.Some? && state.stopReason.value != NoCapMet);
      CheckEmission(state, m, explicit);
      memo := Some(FinalMemo(m.sections, m.unverifiedKeyClaims, m.needsSupplement, m.refusedReason));
      MintBlockedCellTasks(state);
    }

    method HumanReview(inp: Input)
      requires WellNumbered(state.humanTasks)
      modifies this, state
      ensures Now() == Reviewed(c, old(Now()), inp).(node := LoopSteps.End)
    {
      hide Reviewed, WellNumbered;
      BuildAndGateMemo(inp);
      node := LoopSteps.End;
    }

    /** One super-step of the compiled graph. */
    method Advance(inp: Input)
      requires WellNumbered(state.humanTasks)
      modifies this, state
      ensures Now() == Step(c, old(Now()), inp) && WellNumbered(state.humanTasks)
    {
      hide WellNumbered, OnIntake, OnClarify, Planned, PlanAudited, OnPlanApproval, OnIssueExpansion, OnSupervisor,
        FannedOut, OnCollect, OnAlbertAudit, Scored, OnAntiPremature, OnCosDecision, OnHumanPull, Pushed,
        OnDeepAudit, Reviewed;
      TasksKept(c, Now(), inp);
      match node {
        case Intake => Intake();
        case Scope => node := LoopSteps.Clarify;
        case Clarify => Clarify();
        case WriteBrief => node := LoopSteps.OrchestratorPlan;
        case OrchestratorPlan => OrchestratorPlan(inp);
        case PlanAudit => PlanAudit(inp);
        case PlanApproval => PlanApproval();
        case IssueExpansion => IssueExpansion(inp);
        case Supervisor => Supervisor(inp);
        case ResearchFanout => ResearchFanout(inp);
        case Collect => Collect(inp);
        case Skeptic =>
          prereqs := prereqs + {CounterargumentPass};
          node := LoopSteps.AlbertAudit;
        case AlbertAudit => AlbertAudit(inp);
        case ArtifactUpdate =>
          prereqs := prereqs + {BlockersClassified};
          node := LoopSteps.ReadinessScoring;
        case ReadinessScoring => ReadinessScoring(inp);
        case AntiPremature => AntiPremature();
        case CosDecision => CosDecision(inp);
        case HumanPull => HumanPull(inp);
        case HumanPush => HumanPush();
        case DeepAudit => DeepAudit(inp);
        case HumanReview => HumanReview(inp);
        case End =>
      }
    }

    /** Run the compiled graph under a recursion limit. When the brief is settled and the limit is
        run_loop's, the limit is never the reason the run stops. */
    method Invoke(ins: nat -> Input, limit: nat) returns (steps: nat)
      requires Begins(Now()) && WellNumbered(state.humanTasks)
      modifies this, state
      ensures steps <= limit && Now() == After(c, old(Now()), ins, steps)
      ensures node != LoopSteps.End ==> steps == limit
      ensures BriefSettled(c, old(Values())) && limit >= LoopLimit(c) ==> node == LoopSteps.End
    {
      hide Step, WellNumbered, After;
      ghost var start := Now();
      steps := 0;
      assert Now() == After(c, start, ins, 0) by { FirstState(c, start, ins); }
      while steps < limit && node != LoopSteps.End
        invariant steps <= limit && Now() == After(c, start, ins, steps)
        invariant WellNumbered(state.humanTasks)
      {
        Advance(ins(steps));
        NextState(c, start, ins, steps);
        steps := steps + 1;
      }
      if BriefSettled(c, start.rs) && limit >= LoopLimit(c) {
        EndsExactlyWhenSettled(c, start, ins);
      }
    }
  }
}
