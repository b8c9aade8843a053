/** What holds of every run of the convergence loop, whatever the brains, the humans, the meters
    and the outside world answer. */
module LoopRuns {
  import opened Models
  import opened Decisions
  import opened ChallengeMap
  import opened IssueMap
  import opened ResearchSelection
  import opened HumanTasks
  import opened DecisionMemo
  import opened LoopSteps

  lemma {:induction false} FirstState(c: Config, s: GraphState, ins: nat -> Input)
    ensures After(c, s, ins, 0) == s
  {
    hide Step;
  }

  lemma {:induction false} NextState(c: Config, s: GraphState, ins: nat -> Input, k: nat)
    ensures After(c, s, ins, k + 1) == Step(c, After(c, s, ins, k), ins(k))
  {
    hide Step;
  }

  // ----- termination -----

  /** The number of iterations a run may make: never less than one. */
  function Iterations(c: Config): nat { if c.maxIterations < 1 then 1 else c.maxIterations }

  /** The steps of the whole iterations that are left once `done` are made, 14 to the iteration. */
  function LeftAfter(c: Config, done: nat): nat {
    if done < c.maxIterations then 14 * (c.maxIterations - done) else 0
  }

  /** An upper bound on the number of steps left. */
  function Rank(c: Config, s: GraphState): nat {
    var now, next := LeftAfter(c, s.rs.iteration), LeftAfter(c, s.rs.iteration + 1);
    match s.node
    case End => 0
    case HumanReview => 1
    case HumanPull => 2 + now
    case DeepAudit => 3 + now
    case CosDecision => 4 + now
    case AntiPremature => 5 + now
    case ReadinessScoring => 6 + next
    case ArtifactUpdate => 7 + next
    case AlbertAudit => 8 + next
    case Skeptic => 9 + next
    case Collect => 10 + next
    case ResearchFanout => 11 + next
    case Supervisor => 12 + next
    case PlanApproval => 13 + next
    case IssueExpansion => 13 + next
    case HumanPush => 13 + next
    case PlanAudit => 14 + next
    case OrchestratorPlan => 15 + next
    case WriteBrief => 16 + next
    case Clarify => 17 + next
    case Scope => 18 + next
    case Intake => 19 + next
  }

  /** Control flow alone: where a node can lead, what it needs to lead there, and who counts the
      iterations, decides and settles the brief. */
  ghost predicate Edge(c: Config, s: GraphState, t: GraphState) {
    && t.rs.iteration == s.rs.iteration + (if s.node == ReadinessScoring then 1 else 0)
    && (s.node != CosDecision ==> t.decision == s.decision)
    && (BriefSettled(c, t.rs) <==> BriefSettled(c, s.rs))
    && match s.node
       case Intake => t.node == Scope
       case Scope => t.node == Clarify
       case Clarify => t.node == if BriefSettled(c, s.rs) then WriteBrief else Clarify
       case WriteBrief => t.node == OrchestratorPlan
       case OrchestratorPlan => t.node == PlanAudit
       case PlanAudit => t.node == PlanApproval
       case PlanApproval => t.node == Supervisor
       case IssueExpansion => t.node == Supervisor
       case Supervisor => t.node == ResearchFanout
       case ResearchFanout => t.node == Collect
       case Collect => t.node == Skeptic
       case Skeptic => t.node == AlbertAudit
       case AlbertAudit => t.node == ArtifactUpdate
       case ArtifactUpdate => t.node == ReadinessScoring
       case ReadinessScoring => t.node == AntiPremature
       case AntiPremature => t.node == CosDecision
       case CosDecision =>
         t.node == DeepAudit ||
         (!AtCeiling(c, s.rs) && t.node in {OrchestratorPlan, IssueExpansion, HumanPull, HumanPush})
       case HumanPull => t.node == HumanReview || (!AtCeiling(c, s.rs) && t.node == OrchestratorPlan)
       case HumanPush => t.node == Supervisor
       case DeepAudit => t.node == if s.decision == Decision.PullHuman then HumanPull else HumanReview
       case HumanReview => t.node == End
       case End => t.node == End
  }

  lemma {:induction false} StepIsEdge(c: Config, s: GraphState, inp: Input)
    ensures Edge(c, s, Step(c, s, inp))
  {
    hide Routed, UnverifiedKey, FirstRefusal, Sections, WithCellTasks, MemoClaims, FanoutSelection, Gathered,
      FoldAll, Expanded, SteeredAll, RecordAll, OpenCount, AlbertReadiness, PushTarget, PutTask, WithStatus,
      Materialized, Decide, PullIsHighRisk, Texts, Without;
  }

  lemma {:induction false} EdgeDescends(c: Config, s: GraphState, t: GraphState)
    requires Edge(c, s, t) && s.node != End && (s.node == Clarify ==> BriefSettled(c, s.rs))
    ensures Rank(c, t) < Rank(c, s)
  {
  }

  lemma {:induction false} RankBoundsRun(c: Config, s: GraphState, ins: nat -> Input, k: nat)
    requires BriefSettled(c, s.rs)
    ensures BriefSettled(c, After(c, s, ins, k).rs)
    ensures After(c, s, ins, k).node == End || Rank(c, After(c, s, ins, k)) + k <= Rank(c, s)
    decreases k
  {
    hide Step, Rank;
    if k > 0 {
      RankBoundsRun(c, s, ins, k - 1);
      var before := After(c, s, ins, k - 1);
      StepIsEdge(c, before, ins(k - 1));
      if before.node != End {
        EdgeDescends(c, before, After(c, s, ins, k));
      }
    }
  }

  lemma {:induction false} StaysInClarify(c: Config, s: GraphState, ins: nat -> Input, k: nat)
    requires s.node == Intake && !BriefSettled(c, s.rs) && k >= 2
    ensures After(c, s, ins, k).node == Clarify && !BriefSettled(c, After(c, s, ins, k).rs)
    decreases k
  {
    hide Step;
    var last := After(c, s, ins, k - 1);
    if k > 2 {
      StaysInClarify(c, s, ins, k - 1);
    } else {
      StepIsEdge(c, s, ins(0));
      assert last == Step(c, After(c, s, ins, 0), ins(0));
    }
    StepIsEdge(c, last, ins(k - 1));
  }

  /** A run ends, and within 14 N + 5 steps, exactly when its brief is pinned, assumed or already
      marked converged; otherwise it asks for clarification for ever, since no answer pins a
      criterion. */
  lemma {:induction false} EndsExactlyWhenSettled(c: Config, s: GraphState, ins: nat -> Input)
    requires Begins(s)
    ensures c.criteriaPinned || c.assumeBrief || s.rs.clarified ==>
      forall k: nat :: k >= 14 * Iterations(c) + 5 ==> After(c, s, ins, k).node == End
    ensures !c.criteriaPinned && !c.assumeBrief && !s.rs.clarified ==>
      forall k: nat :: k >= 2 ==> After(c, s, ins, k).node == Clarify
  {
    hide Step, After;
    if BriefSettled(c, s.rs) {
      forall k: nat | k >= 14 * Iterations(c) + 5 ensures After(c, s, ins, k).node == End {
        RankBoundsRun(c, s, ins, k);
        assert Rank(c, s) <= 14 * Iterations(c) + 5;
      }
    } else {
      forall k: nat | k >= 2 ensures After(c, s, ins, k).node == Clarify {
        StaysInClarify(c, s, ins, k);
      }
    }
  }

  /** Every audit asks for a human at high risk and no cap is met. */
  ghost predicate AlwaysAsking(c: Config, ins: nat -> Input) {
    forall i: nat :: Asks(c, ins(i))
  }

  ghost predicate OnLongestPath(s: GraphState) {
    && s.node !in {IssueExpansion, HumanPush}
    && (s.node in {ArtifactUpdate, ReadinessScoring, AntiPremature, CosDecision} ==>
          WantsPull(s.rs) && s.rs.audit.Some? && s.rs.audit.value.prematureEndRisk == Risk.High)
    && (s.node == DeepAudit ==> s.decision == Decision.PullHuman)
  }

  ghost predicate Asks(c: Config, inp: Input) {
    && inp.audit.recommendedNextAction == Some(Decision.PullHuman) && inp.audit.prematureEndRisk == Risk.High
    && !CapHit(c, inp)
  }

  /** What the nodes on the longest path do when every audit asks. */
  lemma {:induction false} AskingStep(c: Config, s: GraphState, inp: Input)
    requires OnLongestPath(s) && Asks(c, inp)
    ensures var t := Step(c, s, inp);
      && (s.node in {AlbertAudit, ArtifactUpdate, ReadinessScoring, AntiPremature} ==> OnLongestPath(t))
      && (s.node == CosDecision ==> t.node == DeepAudit && t.decision == Decision.PullHuman)
      && (s.node == HumanPull && !AtCeiling(c, s.rs) ==> t.node == OrchestratorPlan)
  {
    hide Reviewed, Collected, FannedOut, Planned, PlanAudited, Pushed, Materialized, RecordAll, OpenCount;
  }

  lemma {:induction false} LongestPathContinues(c: Config, s: GraphState, inp: Input)
    requires OnLongestPath(s) && s.node != End && BriefSettled(c, s.rs) && Asks(c, inp)
    ensures OnLongestPath(Step(c, s, inp))
    ensures Rank(c, Step(c, s, inp)) == Rank(c, s) - 1
  {
    hide Step, Asks, WantsPull;
    StepIsEdge(c, s, inp);
    AskingStep(c, s, inp);
  }

  lemma {:induction false} StepSettlesNothing(c: Config, s: GraphState, inp: Input)
    ensures BriefSettled(c, Step(c, s, inp).rs) <==> BriefSettled(c, s.rs)
  {
    hide Step;
    StepIsEdge(c, s, inp);
  }

  lemma {:induction false} AsksAt(c: Config, ins: nat -> Input, i: nat)
    requires AlwaysAsking(c, ins)
    ensures Asks(c, ins(i))
  {
  }

  lemma {:induction false} RankZeroIsEnd(c: Config, s: GraphState)
    ensures Rank(c, s) == 0 <==> s.node == End
  {
  }

  /** The bound is reached: such a run takes exactly 14 N + 5 steps. */
  lemma {:induction false} BoundIsReached(c: Config, s: GraphState, ins: nat -> Input, k: nat)
    requires Begins(s) && s.rs.iteration == 0 && BriefSettled(c, s.rs) && AlwaysAsking(c, ins)
    requires k <= 14 * Iterations(c) + 5
    ensures var t := After(c, s, ins, k);
      OnLongestPath(t) && BriefSettled(c, t.rs) && Rank(c, t) == 14 * Iterations(c) + 5 - k
    decreases k
  {
    hide Step, After, AlwaysAsking, Asks, Edge;
    if k == 0 {
      FirstState(c, s, ins);
    } else {
      hide Rank, OnLongestPath;
      BoundIsReached(c, s, ins, k - 1);
      var t := After(c, s, ins, k - 1);
      NextState(c, s, ins, k - 1);
      StepSettlesNothing(c, t, ins(k - 1));
      AsksAt(c, ins, k - 1);
      RankZeroIsEnd(c, t);
      LongestPathContinues(c, t, ins(k - 1));
    }
  }

  /** The settings of an overnight run that needs nobody, and deep audits that lower the risk. */
  ghost predicate Unattended(c: Config) {
    c.auto && !c.enableReview && c.assumeBrief && c.hasPriority && c.hasFallback
  }

  ghost predicate Calms(inp: Input) { inp.deepAudit.Some? && !AuditIsHighRisk(inp.deepAudit) }

  ghost predicate AlwaysCalming(ins: nat -> Input) { forall i: nat :: Calms(ins(i)) }

  lemma {:induction false} CalmedPull(c: Config, s: GraphState, inp: Input)
    requires s.node == DeepAudit && Unattended(c) && Calms(inp)
    ensures !Pauses(c, Step(c, s, inp))
  {
    hide Reviewed, Collected, FannedOut, Planned, PlanAudited, Pushed, Materialized, Audited, Scored, Decide;
  }

  lemma {:induction false} SettledByAssumption(c: Config, s: GraphState)
    requires Unattended(c)
    ensures BriefSettled(c, s.rs)
  {
  }

  lemma {:induction false} OtherNodesRunThrough(c: Config, s: GraphState)
    requires Unattended(c) && s.node != HumanPull
    ensures !Pauses(c, s)
  {
  }

  lemma {:induction false} PullFollowsDeepAudit(c: Config, s: GraphState, inp: Input)
    requires OnLongestPath(s) && Asks(c, inp) && Step(c, s, inp).node == HumanPull
    ensures s.node == DeepAudit
  {
    hide Step, OnLongestPath, Asks;
    StepIsEdge(c, s, inp);
    AskingStep(c, s, inp);
  }

  /** Such a run is one invocation: it never pauses. */
  lemma {:induction false} LongestRunNeverPauses(c: Config, s: GraphState, ins: nat -> Input, k: nat)
    requires Begins(s) && s.rs.iteration == 0 && AlwaysAsking(c, ins) && Unattended(c) && AlwaysCalming(ins)
    requires k <= 14 * Iterations(c) + 5
    ensures !Pauses(c, After(c, s, ins, k))
  {
    var t := After(c, s, ins, k);
    hide Step, After, AlwaysAsking, Asks, Pauses, Calms, OnLongestPath, Rank, Unattended;
    if t.node != HumanPull {
      OtherNodesRunThrough(c, t);
    } else {
      FirstState(c, s, ins);
      SettledByAssumption(c, s);
      var before := After(c, s, ins, k - 1);
      NextState(c, s, ins, k - 1);
      BoundIsReached(c, s, ins, k - 1);
      AsksAt(c, ins, k - 1);
      PullFollowsDeepAudit(c, before, ins(k - 1));
      CalmedPull(c, before, ins(k - 1));
    }
  }

  /** LangGraph's recursion limit: how many steps the run may take before it is broken off. */
  function LoopLimit(c: Config): nat { 50 + 20 * Iterations(c) }

  const AUTO_LIMIT: nat := 200

  /** run_loop's limit is never the one that stops a run, and so never one that stops an invocation, a
      part of a run. The fixed limit of an overnight run is safe exactly up to 13 iterations: beyond,
      there are runs that need more steps without a single pause to count them anew. */
  lemma {:induction false} RecursionLimits(c: Config, s: GraphState, ins: nat -> Input)
    requires Begins(s) && BriefSettled(c, s.rs)
    ensures After(c, s, ins, LoopLimit(c)).node == End
    ensures Iterations(c) <= 13 ==> After(c, s, ins, AUTO_LIMIT).node == End
    ensures Iterations(c) > 13 && s.rs.iteration == 0 && AlwaysAsking(c, ins) ==>
      After(c, s, ins, AUTO_LIMIT).node != End
    ensures Iterations(c) > 13 && s.rs.iteration == 0 && AlwaysAsking(c, ins) && Unattended(c) && AlwaysCalming(ins) ==>
      forall k: nat :: k <= AUTO_LIMIT ==> !Pauses(c, After(c, s, ins, k))
  {
    hide Step, After, AlwaysAsking, AlwaysCalming, Pauses, Unattended;
    EndsExactlyWhenSettled(c, s, ins);
    if Iterations(c) > 13 && s.rs.iteration == 0 && AlwaysAsking(c, ins) {
      BoundIsReached(c, s, ins, AUTO_LIMIT);
      if Unattended(c) && AlwaysCalming(ins) {
        forall k: nat | k <= AUTO_LIMIT ensures !Pauses(c, After(c, s, ins, k)) {
          LongestRunNeverPauses(c, s, ins, k);
        }
      }
    }
  }
}
