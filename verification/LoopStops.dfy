/** How the runs of the convergence loop come to a stop: what has to happen before it, why it
    happens, and what the memo it leaves behind may say. */
module LoopStops {
  import opened Models
  import opened Decisions
  import opened ChallengeMap
  import opened IssueMap
  import opened ResearchSelection
  import opened CellEvidence
  import opened HumanTasks
  import opened DecisionMemo
  import opened LoopSteps
  import opened LoopRuns
  import opened LoopSafety

  // ----- plan approval -----

  lemma {:induction false} GridWritten(c: Config, s: GraphState, inp: Input)
    ensures var t := Step(c, s, inp);
      && (s.node != OrchestratorPlan ==> CellCount(t.rs.grid) == CellCount(s.rs.grid))
      && (s.node !in {OrchestratorPlan, Collect} ==> t.rs.grid == s.rs.grid)
      && (s.node == PlanApproval ==> t.approvedCells == Approved(c, s.approvedCells, CellCount(s.rs.grid)))
      && (s.node != PlanApproval ==> t.approvedCells == s.approvedCells)
  {
    hide Routed, UnverifiedKey, FirstRefusal, Sections, WithCellTasks, MemoClaims, FanoutSelection, Gathered,
      FoldAll, Expanded, SteeredAll, RecordAll, OpenCount, PushTarget, Materialized;
  }

  /** Past the approval gate the grid has fewer than two cells more than at the last approval. */
  ghost predicate PlanIsApproved(s: GraphState) {
    s.node in {Intake, Scope, Clarify, WriteBrief, OrchestratorPlan, PlanAudit, PlanApproval} ||
    (s.approvedCells.Some? && CellCount(s.rs.grid) < s.approvedCells.value + MAJOR_DELTA)
  }

  /** So no research starts on an unapproved plan, however the run got there: not after a push to
      a human and not after a re-expansion, which both go round the gate. */
  lemma {:induction false} ResearchNeedsApproval(c: Config, s: GraphState, ins: nat -> Input, k: nat)
    requires Begins(s)
    ensures PlanIsApproved(After(c, s, ins, k))
    decreases k
  {
    hide Step;
    if k > 0 {
      ResearchNeedsApproval(c, s, ins, k - 1);
      StepIsEdge(c, After(c, s, ins, k - 1), ins(k - 1));
      GridWritten(c, After(c, s, ins, k - 1), ins(k - 1));
    }
  }

  // ----- why a run ends -----

  predicate CapRecorded(rs: Record) { rs.stopReason.Some? && rs.stopReason.value != NoCapMet }

  ghost predicate EndReason(c: Config, s: GraphState) {
    || CapRecorded(s.rs)
    || AtCeiling(c, s.rs)
    || (IsSoftStop(s.decision) && !HasOpenHighImpactCell(s.rs.grid))
  }

  ghost predicate EndIsDue(c: Config, s: GraphState) {
    && (s.node in {HumanReview, End} ==> EndReason(c, s))
    && (s.node == DeepAudit ==> EndReason(c, s) || s.decision == Decision.PullHuman)
  }

  lemma {:induction false} RoutersStopForAReason(c: Config, s: GraphState, inp: Input)
    requires s.node in {CosDecision, HumanPull} && NotEarlier(inp.meter, inp.meterAgain)
    ensures EndIsDue(c, Step(c, s, inp))
  {
    hide Reviewed, Collected, FannedOut, Planned, PlanAudited, Pushed, Materialized, Audited, Scored,
      Decide, PullIsHighRisk;
  }

  lemma {:induction false} ReviewChangesNoReason(c: Config, s: GraphState, inp: Input)
    requires s.node in {DeepAudit, HumanReview, End}
    ensures var t := Step(c, s, inp);
      t.rs.stopReason == s.rs.stopReason && t.rs.grid == s.rs.grid
  {
    hide Routed, UnverifiedKey, FirstRefusal, Sections, WithCellTasks, MemoClaims,
      Collected, FannedOut, Planned, PlanAudited, Pushed, Materialized, Audited, Scored, Decide, PullIsHighRisk;
  }

  /** Whenever a run has ended, a cap reason is recorded, or the iteration ceiling is reached, or the
      last decision was to stop and no open or partial cell of high impact is left. Cost and clock
      need only not run backwards between a router's two looks at them. */
  lemma {:induction false} RunsEndForAReason(c: Config, s: GraphState, ins: nat -> Input, k: nat)
    requires Begins(s) && forall i: nat :: NotEarlier(ins(i).meter, ins(i).meterAgain)
    ensures EndIsDue(c, After(c, s, ins, k))
    decreases k
  {
    hide Step, HasOpenHighImpactCell, NotEarlier;
    if k > 0 {
      RunsEndForAReason(c, s, ins, k - 1);
      var before := After(c, s, ins, k - 1);
      StepIsEdge(c, before, ins(k - 1));
      if before.node in {CosDecision, HumanPull} {
        RoutersStopForAReason(c, before, ins(k - 1));
      } else if before.node in {DeepAudit, HumanReview, End} {
        ReviewChangesNoReason(c, before, ins(k - 1));
      }
    }
  }

  lemma {:induction false} ReviewAfterPull(c: Config, s: GraphState, inp: Input)
    requires s.node == HumanPull && Step(c, s, inp).node == HumanReview
    ensures AtCeiling(c, s.rs) || CapHit(c, inp)
  {
    hide Reviewed, Collected, FannedOut, Planned, PlanAudited, Pushed, Materialized, Audited, Scored,
      Decide, PullIsHighRisk;
  }

  lemma {:induction false} PullStraightAfterDecision(c: Config, s: GraphState, inp: Input)
    requires s.node == CosDecision && Step(c, s, inp).node == HumanPull
    ensures !AtCeiling(c, s.rs) && !CapHit(c, inp)
  {
    hide Reviewed, Collected, FannedOut, Planned, PlanAudited, Pushed, Materialized, Audited, Scored,
      Decide, PullIsHighRisk;
  }

  /** The final review follows a deep audit made after the last decision, straight or through the
      pull gate; the one exception is a cap that was not met at the decision but is after the pull. */
  lemma {:induction false} DeepAuditComesLast(c: Config, s: GraphState, ins: nat -> Input, k: nat)
    requires Begins(s) && After(c, s, ins, k).node == HumanReview
    ensures k >= 2
    ensures var last, prior := After(c, s, ins, k - 1).node, After(c, s, ins, k - 2).node;
      || (last == DeepAudit && prior == CosDecision)
      || (last == HumanPull && prior == DeepAudit)
      || (last == HumanPull && prior == CosDecision && !CapHit(c, ins(k - 2)) && CapHit(c, ins(k - 1)))
  {
    hide Step, CapHit;
    EdgeInto(c, s, ins, k);
    EdgeInto(c, s, ins, k - 1);
    var prior, last := After(c, s, ins, k - 2), After(c, s, ins, k - 1);
    if last.node == HumanPull {
      ReviewAfterPull(c, last, ins(k - 1));
      if prior.node == CosDecision {
        PullStraightAfterDecision(c, prior, ins(k - 2));
      }
    }
  }

  lemma {:induction false} EdgeInto(c: Config, s: GraphState, ins: nat -> Input, k: nat)
    requires Begins(s) && After(c, s, ins, k).node != Intake
    ensures k > 0 && Edge(c, After(c, s, ins, k - 1), After(c, s, ins, k))
  {
    hide Step, Edge;
    if k > 0 {
      StepIsEdge(c, After(c, s, ins, k - 1), ins(k - 1));
    }
  }

  // ----- no premature stop -----

  /** The staged gates taken together: the loop decides to stop exactly when nobody asks for a human,
      the audit wants no rework, all seven prerequisites are done, there is a ground to stop, the
      audit is there and sound, and no unresolved challenge is of high impact. */
  lemma {:induction false} StopsExactlyWhen(c: Config, rs: Record, prereqs: set<Prereq>)
    ensures IsSoftStop(Decide(c, rs, prereqs)) <==>
      && !WantsPull(rs) && !WantsRework(rs.audit) && AllDone(prereqs)
      && (|| (!HasAddressable(rs.issues) && TargetsMet(rs.score))
          || (rs.audit.Some? && rs.audit.value.recommendedNextAction == Some(Decision.Synthesize))
          || Plateau(rs.readinessHistory))
      && (c.bypassDegraded || (rs.audit.Some? && !rs.audit.value.degraded))
      && (forall ch :: ch in rs.challenges && IsUnresolved(ch) ==> ch.confidence < HIGH_IMPACT_CONF)
  {
    hide HasAddressable, TargetsMet, Plateau, WantsPull, WantsRework, AllDone, IsUnresolved;
  }

  lemma {:induction false} DecisionMade(c: Config, s: GraphState, inp: Input)
    requires s.node == CosDecision
    ensures Step(c, s, inp).decision == Decide(c, s.rs, s.prereqs)
    ensures Step(c, s, inp).node == IssueExpansion ==>
      WantsRework(s.rs.audit) && Step(c, s, inp).decision == Decision.Branch
  {
    hide Reviewed, Collected, FannedOut, Planned, PlanAudited, Pushed, Materialized, Audited, Scored,
      PullIsHighRisk, HasOpenHighImpactCell, GridConverged, TerminalEligible, Plateau, HasAddressable,
      HasUnresolvedHighImpact, AllDone;
  }

  lemma {:induction false} BroadExpansionWritten(c: Config, s: GraphState, inp: Input)
    ensures BroadExpansion in Step(c, s, inp).prereqs <==>
      s.node == IssueExpansion || (BroadExpansion in s.prereqs && s.node != Intake)
  {
    hide Routed, UnverifiedKey, FirstRefusal, Sections, WithCellTasks, MemoClaims,
      Collected, FanoutSelection, Gathered, Planned, Pushed, Materialized, Audited, Scored, Decide, Route,
      Stopped, PullIsHighRisk;
  }

  /** At step j the auditor's rework verdict made the loop branch. */
  ghost predicate BranchedAt(c: Config, s: GraphState, ins: nat -> Input, j: nat) {
    && After(c, s, ins, j).node == CosDecision && WantsRework(After(c, s, ins, j).rs.audit)
    && After(c, s, ins, j + 1).decision == Decision.Branch && After(c, s, ins, j + 1).node == IssueExpansion
  }

  predicate BeforeScoring(n: Node) {
    n in {IssueExpansion, Supervisor, ResearchFanout, Collect, Skeptic, AlbertAudit, ArtifactUpdate, ReadinessScoring}
  }

  /** The iteration the state belongs to, counting the one in progress. */
  function Ongoing(s: GraphState): nat { if BeforeScoring(s.node) then s.rs.iteration + 1 else s.rs.iteration }

  lemma {:induction false} OngoingOnlyRises(c: Config, s: GraphState, t: GraphState)
    requires Edge(c, s, t)
    ensures Ongoing(s) <= Ongoing(t)
  {
  }

  lemma {:induction false} BroadExpansionNeedsBranch(c: Config, s: GraphState, ins: nat -> Input, k: nat)
    returns (j: nat)
    requires Begins(s) && BroadExpansion in After(c, s, ins, k).prereqs
    ensures j < k && BranchedAt(c, s, ins, j)
    ensures After(c, s, ins, j).rs.iteration < Ongoing(After(c, s, ins, k))
    decreases k
  {
    hide Step, Edge, WantsRework, Ongoing;
    var before := After(c, s, ins, k - 1);
    BroadExpansionWritten(c, before, ins(k - 1));
    StepIsEdge(c, before, ins(k - 1));
    OngoingOnlyRises(c, before, After(c, s, ins, k));
    if before.node == IssueExpansion {
      j := k - 2;
      ExpansionComesFromDecision(c, s, ins, k - 1);
    } else {
      j := BroadExpansionNeedsBranch(c, s, ins, k - 1);
    }
  }

  lemma {:induction false} ExpansionComesFromDecision(c: Config, s: GraphState, ins: nat -> Input, k: nat)
    requires Begins(s) && After(c, s, ins, k).node == IssueExpansion
    ensures k > 0 && BranchedAt(c, s, ins, k - 1)
    ensures After(c, s, ins, k - 1).rs.iteration < Ongoing(After(c, s, ins, k))
  {
    hide Step, WantsRework;
    EdgeInto(c, s, ins, k);
    DecisionMade(c, After(c, s, ins, k - 1), ins(k - 1));
  }

  lemma {:induction false} DecisionsFollowAnIteration(c: Config, s: GraphState, ins: nat -> Input, k: nat)
    requires Begins(s) && After(c, s, ins, k).node == CosDecision
    ensures After(c, s, ins, k).rs.iteration >= 1
  {
    hide Step;
    EdgeInto(c, s, ins, k);
    EdgeInto(c, s, ins, k - 1);
  }

  /** No run stops softly before its time: when it decides to, all seven prerequisites hold, the audit
      is there and not degraded (unless bypassed), every unresolved challenge is of low confidence,
      and an earlier iteration of the same run branched on a rework verdict, so it is never the first. */
  lemma {:induction false} NoPrematureStop(c: Config, s: GraphState, ins: nat -> Input, k: nat) returns (j: nat)
    requires Begins(s) && After(c, s, ins, k).node == CosDecision && IsSoftStop(After(c, s, ins, k + 1).decision)
    ensures var t := After(c, s, ins, k);
      && AllDone(t.prereqs) && !WantsPull(t.rs) && !WantsRework(t.rs.audit)
      && (c.bypassDegraded || (t.rs.audit.Some? && !t.rs.audit.value.degraded))
      && (forall ch :: ch in t.rs.challenges && IsUnresolved(ch) ==> ch.confidence < HIGH_IMPACT_CONF)
    ensures j < k && BranchedAt(c, s, ins, j)
    ensures 1 <= After(c, s, ins, j).rs.iteration < After(c, s, ins, k).rs.iteration
  {
    hide Step, Decide, WantsPull, WantsRework, IsUnresolved;
    var t := After(c, s, ins, k);
    DecisionMade(c, t, ins(k));
    StopsExactlyWhen(c, t.rs, t.prereqs);
    assert BroadExpansion in PREREQS;
    j := BroadExpansionNeedsBranch(c, s, ins, k);
    DecisionsFollowAnIteration(c, s, ins, j);
  }

  lemma {:induction false} ScoreWritten(c: Config, s: GraphState, inp: Input)
    ensures s.node == ReadinessScoring ==>
      Step(c, s, inp).rs.score.Some? &&
      (s.rs.challenges != [] ==> Step(c, s, inp).rs.score.value.albert == AlbertReadiness(s.rs.challenges))
    ensures s.node == AntiPremature ==> Step(c, s, inp).rs.score == s.rs.score
  {
    hide Routed, UnverifiedKey, FirstRefusal, Sections, WithCellTasks, MemoClaims, Collected, FannedOut,
      Planned, PlanAudited, Pushed, Materialized, Audited, Decide, PullIsHighRisk, AlbertReadiness;
  }

  lemma {:induction false} TerminalDecisionMeans(c: Config, rs: Record, prereqs: set<Prereq>)
    requires Decide(c, rs, prereqs) == Decision.TerminalStop
    ensures !HasAddressable(rs.issues) && TargetsMet(rs.score)
  {
    hide HasAddressable, TargetsMet, Plateau, WantsPull, WantsRework, AllDone, HasUnresolvedHighImpact;
  }

  lemma {:induction false} ScoringPrecedesDecision(c: Config, s: GraphState, ins: nat -> Input, k: nat)
    requires Begins(s) && After(c, s, ins, k).node == CosDecision
    ensures k >= 2 && After(c, s, ins, k - 1).node == AntiPremature && After(c, s, ins, k - 2).node == ReadinessScoring
  {
    hide Step;
    EdgeInto(c, s, ins, k);
    EdgeInto(c, s, ins, k - 1);
  }

  /** The score carries the readiness of the challenge map as it is. */
  ghost predicate ScoreIsCurrent(rs: Record) {
    rs.score.Some? && (rs.challenges != [] ==> rs.score.value.albert == AlbertReadiness(rs.challenges))
  }

  lemma {:induction false} DecisionsSeeTheCurrentScore(c: Config, s: GraphState, ins: nat -> Input, k: nat)
    requires Begins(s) && After(c, s, ins, k).node == CosDecision
    ensures ScoreIsCurrent(After(c, s, ins, k).rs)
  {
    hide Step, After, AlbertReadiness, RecordAll;
    ScoringPrecedesDecision(c, s, ins, k);
    var last, prior := After(c, s, ins, k - 1), After(c, s, ins, k - 2);
    NextState(c, s, ins, k - 1);
    NextState(c, s, ins, k - 2);
    ScoreWritten(c, prior, ins(k - 2));
    ScoreWritten(c, last, ins(k - 1));
    ChallengesWritten(c, prior, ins(k - 2));
    ChallengesWritten(c, last, ins(k - 1));
  }

  /** A terminal stop is earned by the challenge map as it stands at the decision: no issue is
      addressable, the targets are met, and at least seven tenths of the recorded challenges are
      resolved or handed to a human, whatever score the scoring brain proposed. */
  lemma {:induction false} TerminalStopIsEarned(c: Config, s: GraphState, ins: nat -> Input, k: nat)
    requires Begins(s) && After(c, s, ins, k).node == CosDecision
    requires After(c, s, ins, k + 1).decision == Decision.TerminalStop
    ensures var rs := After(c, s, ins, k).rs;
      && !HasAddressable(rs.issues) && TargetsMet(rs.score)
      && 10 * (|rs.challenges| - OpenCount(rs.challenges)) >= 7 * |rs.challenges|
  {
    hide Step, Decide, HasAddressable, AlbertReadiness, After;
    var t := After(c, s, ins, k);
    NextState(c, s, ins, k);
    DecisionMade(c, t, ins(k));
    TerminalDecisionMeans(c, t.rs, t.prereqs);
    DecisionsSeeTheCurrentScore(c, s, ins, k);
    ReadinessMeaning(t.rs.challenges);
  }

  // ----- what the memo may say -----

  lemma {:induction false} OnlyReviewWritesMemo(c: Config, s: GraphState, inp: Input)
    ensures s.node != HumanReview ==> Step(c, s, inp).memo == s.memo
    ensures s.node == HumanReview ==> Step(c, s, inp) == Reviewed(c, s, inp).(node := End)
    ensures s.node == End ==> Step(c, s, inp) == s
  {
    hide Reviewed, Collected, FanoutSelection, Gathered, Planned, Pushed, Materialized, Audited, Scored,
      Decide, PullIsHighRisk;
  }

  /** A memo in the state was written by the review that ended the run. */
  lemma {:induction false} MemoComesFromReview(c: Config, s: GraphState, ins: nat -> Input, k: nat) returns (r: nat)
    requires Begins(s) && After(c, s, ins, k).memo.Some?
    ensures r < k && After(c, s, ins, r).node == HumanReview && After(c, s, ins, r).memo == None
    ensures After(c, s, ins, k) == Reviewed(c, After(c, s, ins, r), ins(r)).(node := End)
    decreases k
  {
    hide Step, Reviewed;
    var before := After(c, s, ins, k - 1);
    OnlyReviewWritesMemo(c, before, ins(k - 1));
    StepIsEdge(c, before, ins(k - 1));
    if before.memo.Some? {
      r := MemoComesFromReview(c, s, ins, k - 1);
    } else {
      r := k - 1;
    }
  }

  /** The claim is verified against its primary sources, or a human is asked for it and both
      sections of the memo that have to flag it do. */
  ghost predicate HonestAbout(c: Config, s: GraphState, m: MemoClaim)
    requires s.memo.Some?
  {
    || Verified(ContextOf(c, s.rs), m.claim)
    || (&& (exists t :: t in s.rs.tasks && t.requestedInput == m.claim.claim)
        && FlaggedIn(s.memo.value.sections, CanCannotSay, m.claim.claim)
        && FlaggedIn(s.memo.value.sections, RequiredHumanDecisions, m.claim.claim))
  }

  lemma {:induction false} ReviewIsHonest(c: Config, s: GraphState, inp: Input, m: MemoClaim)
    requires s.memo == None && WellNumbered(s.rs.tasks)
    requires var t := Reviewed(c, s, inp);
      t.memo.Some? && t.memo.value.refusal == None && m in MemoClaims(t.rs.evidence)
    requires m.claim.confidence >= KEY_CLAIM_CONF
    ensures var t := Reviewed(c, s, inp);
      && t.memo.Some? && t.rs.audit.Some? && !t.rs.audit.value.degraded && HonestAbout(c, t, m)
  {
    hide UnverifiedKey, Sections, WithCellTasks, MemoClaims, RouteAll, FlaggedIn, HasUnresolvedHighImpact,
      TargetsMet, Verified;
    var ctx, items, prose := ContextOf(c, s.rs), MemoClaims(s.rs.evidence), inp.prose.value;
    var t := Reviewed(c, s, inp);
    EmissionIsHonest(ctx, s.rs.evidence, s.rs.tasks, prose,
                     s.rs.audit, s.rs.challenges, s.rs.score, Explicit(c, s.rs), m);
    RoutingPartitions(Fated(ctx, items), s.rs.tasks);
    if s.rs.grid.Some? {
      CellMintsKeep(Routed(ctx, items, s.rs.tasks).tasks, s.rs.grid.value);
    }
    assert ContextOf(c, t.rs) == ctx;
    assert Routed(ctx, items, s.rs.tasks).tasks <= t.rs.tasks;
  }

  /** Honest emission over whole runs: whatever ends a run, a hard cap or an explicit order
      included, a memo it emits rests on an audit that is not degraded and states no key claim as
      fact that is neither verified nor flagged and asked of a human. */
  lemma {:induction false} RunsEmitHonestly(c: Config, s: GraphState, ins: nat -> Input, k: nat, m: MemoClaim)
    requires Begins(s) && WholeMaps(c, s.rs)
    requires var t := After(c, s, ins, k);
      t.memo.Some? && t.memo.value.refusal == None && m in MemoClaims(t.rs.evidence)
    requires m.claim.confidence >= KEY_CLAIM_CONF
    ensures var t := After(c, s, ins, k);
      && t.memo.Some? && t.rs.audit.Some? && !t.rs.audit.value.degraded && HonestAbout(c, t, m)
  {
    hide Step, Reviewed, HonestAbout, MemoClaims, WholeMaps;
    var r := MemoComesFromReview(c, s, ins, k);
    RunsOnlyGrow(c, s, ins, r, r);
    WholeIssues(c, After(c, s, ins, r).rs);
    ReviewIsHonest(c, After(c, s, ins, r), ins(r), m);
    NodeDoesNotMatter(c, Reviewed(c, After(c, s, ins, r), ins(r)), m);
  }

  lemma {:induction false} NodeDoesNotMatter(c: Config, s: GraphState, m: MemoClaim)
    requires s.memo.Some?
    ensures HonestAbout(c, s, m) == HonestAbout(c, s.(node := End), m)
  {
  }
}
