/** The stops the loop is built for can be reached: answers of the brains and readings of the meters under
    which a run decides to stop and ends for that reason. */
module LoopReach {
  import opened Models
  import opened Decisions
  import opened ChallengeMap
  import opened IssueMap
  import opened ResearchSelection
  import opened CellEvidence
  import opened HumanTasks
  import opened DecisionMemo
  import opened LoopSteps
  import opened LoopRuns
  import opened LoopSafety
  import opened LoopStops
  import opened LoopLaws

  /** Nobody steers, plans, finds or challenges anything, and no cap is met. */
  ghost predicate Quiet(c: Config, inp: Input) {
    && inp.steers == [] && inp.drafts == [] && inp.plan == None && inp.planAudit == None
    && inp.references == [] && (forall i: nat, id: string :: inp.research(i, id) == None)
    && inp.audit.challenges == [] && inp.deepAudit == None && !OverCap(c.caps, inp.meter)
  }

  /** Nothing is challenged, planned, pending or found. */
  ghost predicate Bare(s: GraphState) {
    s.rs.challenges == [] && s.rs.grid == None && s.rs.pulls == 0 && s.workers == []
  }

  lemma {:induction false} NothingGathered(batch: seq<Candidate>, research: (nat, string) -> Option<EvidenceBundle>)
    requires forall i: nat, id: string :: research(i, id) == None
    ensures Gathered(batch, research) == []
    decreases |batch|
  {
    if batch != [] {
      NothingGathered(batch[..|batch| - 1], research);
    }
  }

  lemma {:induction false} QuietChallenges(c: Config, s: GraphState, inp: Input)
    requires Quiet(c, inp) && Bare(s)
    ensures Step(c, s, inp).rs.challenges == [] && Step(c, s, inp).workers == []
  {
    hide Step, FanoutSelection, OverCap;
    ChallengesWritten(c, s, inp);
    ResearchWritten(c, s, inp);
    NothingGathered(FanoutSelection(c, s.rs, inp).0, inp.research);
  }

  lemma {:induction false} QuietScore(c: Config, s: GraphState, inp: Input)
    requires s.node == ReadinessScoring && Bare(s)
    ensures Step(c, s, inp).rs.score == Some(inp.score)
  {
  }

  lemma {:induction false} QuietPlan(c: Config, s: GraphState, inp: Input)
    requires s.node in {OrchestratorPlan, Collect} && Quiet(c, inp) && Bare(s)
    ensures Step(c, s, inp).rs.grid == None
  {
    hide FoldAll, SteeredAll, Expanded, OverCap;
  }

  lemma {:induction false} QuietRecord(c: Config, s: GraphState, inp: Input)
    requires Quiet(c, inp) && Bare(s)
    ensures var t := Step(c, s, inp);
      && t.rs.grid == None && t.rs.pulls == 0 && t.rs.stopReason == s.rs.stopReason
      && t.rs.audit == (if s.node == AlbertAudit then Some(inp.audit) else s.rs.audit)
      && t.rs.score == (if s.node == ReadinessScoring then Some(inp.score) else s.rs.score)
  {
    hide Step, OverCap, CapHit, PlanIsKnown;
    RoutingReads(c, s.rs, inp);
    AuditWritten(c, s, inp);
    StopReasonWritten(c, s, inp);
    ScoreAndPullsWritten(c, s, inp);
    GridWritten(c, s, inp);
    if s.node == ReadinessScoring {
      QuietScore(c, s, inp);
    } else if s.node in {OrchestratorPlan, Collect} {
      QuietPlan(c, s, inp);
    }
  }

  lemma {:induction false} QuietStep(c: Config, s: GraphState, inp: Input)
    requires Quiet(c, inp) && Bare(s)
    ensures var t := Step(c, s, inp);
      && Bare(t) && t.rs.stopReason == s.rs.stopReason
      && t.rs.audit == (if s.node == AlbertAudit then Some(inp.audit) else s.rs.audit)
      && t.rs.score == (if s.node == ReadinessScoring then Some(inp.score) else s.rs.score)
  {
    hide Step, Quiet;
    QuietChallenges(c, s, inp);
    QuietRecord(c, s, inp);
  }

  /** Issues that are all settled, the competitor among them, stay as they are. */
  lemma {:induction false} QuietIssues(c: Config, s: GraphState, inp: Input)
    requires Quiet(c, inp) && Bare(s) && HasCompetitor(s.rs.issues) && NothingToResearch(s.rs.issues)
    ensures Step(c, s, inp).rs.issues == s.rs.issues
  {
    hide Step, Decide;
    IssuesWritten(c, s, inp);
    AddressableMeans(s.rs.issues);
    PushTargetIsHighest(s.rs.issues);
    var i :| 0 <= i < |s.rs.issues| && s.rs.issues[i].issueType == IssueType.Competitor;
    assert s.rs.issues[i] in s.rs.issues;
  }

  // ----- the shortest way to a stop -----

  /** Two iterations, a branch between them, and the way out. */
  function PathNode(k: nat): Node {
    match k
    case 0 => Intake
    case 1 => Scope
    case 2 => Clarify
    case 3 => WriteBrief
    case 4 => OrchestratorPlan
    case 5 => PlanAudit
    case 6 => PlanApproval
    case 16 => IssueExpansion
    case 26 => DeepAudit
    case 27 => HumanReview
    case _ => if k < 16 then Round(k - 7) else if k < 26 then Round(k - 17) else End
  }

  /** The nodes of an iteration from its supervisor on. */
  function Round(i: int): Node {
    match i
    case 0 => Supervisor
    case 1 => ResearchFanout
    case 2 => Collect
    case 3 => Skeptic
    case 4 => AlbertAudit
    case 5 => ArtifactUpdate
    case 6 => ReadinessScoring
    case 7 => AntiPremature
    case _ => CosDecision
  }

  /** The audit that asks for rework at first and is content later. */
  function Verdict(first: bool, d: Decision): AuditResult {
    AuditResult(if first then AuditVerdict.Rework else AuditVerdict.Continue, [], Risk.Low, Risk.Low,
                if d == Decision.Synthesize then Some(Decision.Synthesize) else None, "reason", false)
  }

  function Marks(d: Decision): ReadinessScore {
    if d == Decision.TerminalStop then ReadinessScore(5, 5, 5, 5) else ReadinessScore(0, 0, 0, 0)
  }

  function Reply(first: bool, d: Decision): Input {
    Input([], [], None, None, [], (i: nat, id: string) => None, [], Verdict(first, d), None, Marks(d), None,
          Meter(0.0, 0.0), Meter(0.0, 0.0))
  }

  function Replies(d: Decision): nat -> Input { (k: nat) => Reply(k < 16, d) }

  /** Caps that leave room for anything at all. */
  ghost predicate CapsArePositive(caps: Caps) {
    (caps.maxCost.Some? ==> caps.maxCost.value > 0.0) && (caps.maxWall.Some? ==> caps.maxWall.value > 0.0)
  }

  lemma {:induction false} RepliesAreQuiet(c: Config, d: Decision, k: nat)
    requires CapsArePositive(c.caps)
    ensures Quiet(c, Replies(d)(k)) && Replies(d)(k).audit == Verdict(k < 16, d) && Replies(d)(k).score == Marks(d)
  {
    assert Replies(d)(k) == Reply(k < 16, d);
  }

  /** What is on record before step k. */
  function FlagsBy(k: nat): set<Prereq> {
    (if k >= 10 then {SourceConfidenceChecked} else {})
    + (if k >= 11 then {CounterargumentPass} else {})
    + (if k >= 12 then {AlbertAuditRan, PendingQuestionsExtracted} else {})
    + (if k >= 13 then {BlockersClassified} else {})
    + (if k >= 15 then {ExplicitContinueExplanation} else {})
    + (if k >= 17 then {BroadExpansion} else {})
  }

  /** Where the run is before step k. */
  ghost predicate OnPath(s: GraphState, d: Decision, t: GraphState, k: nat) {
    && Bare(t) && t.rs.stopReason == s.rs.stopReason && t.node == PathNode(k) && FlagsBy(k) <= t.prereqs
    && t.rs.iteration == s.rs.iteration + (if k >= 24 then 2 else if k >= 14 then 1 else 0)
    && (12 <= k ==> t.rs.audit == Some(Verdict(k < 22, d)))
    && (14 <= k ==> t.rs.score == Some(Marks(d)))
    && (d == Decision.TerminalStop ==> t.rs.issues == s.rs.issues)
    && (k >= 26 ==> t.decision == d)
  }

  /** A state from which the decision d can be reached this way. */
  ghost predicate CanReach(c: Config, s: GraphState, d: Decision) {
    && Begins(s) && BriefSettled(c, s.rs) && CapsArePositive(c.caps) && s.rs.iteration + 2 < c.maxIterations
    && Bare(s) && IsSoftStop(d)
    && (d == Decision.TerminalStop ==> NothingToResearch(s.rs.issues) && HasCompetitor(s.rs.issues))
  }

  lemma {:induction false} FirstHalf(c: Config, s: GraphState, t: GraphState, k: nat)
    requires Edge(c, s, t) && s.node == PathNode(k) && k < 15 && BriefSettled(c, s.rs)
    ensures t.node == PathNode(k + 1)
  {
    hide AtCeiling, BriefSettled;
  }

  lemma {:induction false} SecondHalf(c: Config, s: GraphState, t: GraphState, k: nat)
    requires Edge(c, s, t) && s.node == PathNode(k) && 16 <= k < 28 && k != 25
    requires k == 26 ==> s.decision != Decision.PullHuman
    ensures t.node == PathNode(k + 1)
  {
    hide AtCeiling, BriefSettled;
  }

  lemma {:induction false} PathEdge(c: Config, s: GraphState, t: GraphState, k: nat)
    requires Edge(c, s, t) && s.node == PathNode(k) && k < 28 && k != 15 && k != 25 && BriefSettled(c, s.rs)
    requires k == 26 ==> s.decision != Decision.PullHuman
    ensures t.node == PathNode(k + 1)
  {
    hide Edge, PathNode, BriefSettled;
    if k < 15 {
      FirstHalf(c, s, t, k);
    } else {
      SecondHalf(c, s, t, k);
    }
  }

  lemma {:induction false} PathPlaces(k: nat)
    ensures PathNode(k) == AlbertAudit <==> k == 11 || k == 21
    ensures PathNode(k) == ReadinessScoring <==> k == 13 || k == 23
    ensures PathNode(k) == AntiPremature <==> k == 14 || k == 24
    ensures PathNode(k) == CosDecision <==> k == 15 || k == 25
  {
  }

  lemma {:induction false} FlagsOnPath(c: Config, s: GraphState, inp: Input, k: nat, p: Prereq)
    requires s.node == PathNode(k) && k < 28 && FlagsBy(k) <= s.prereqs && p in FlagsBy(k + 1)
    requires s.node == AntiPremature ==> s.rs.audit.Some? && s.rs.audit.value.rationale != ""
    ensures p in Step(c, s, inp).prereqs
  {
    hide Step;
    PrereqWritten(c, s, inp, p);
  }

  lemma {:induction false} AllFlagsBy(p: Prereq)
    ensures p in FlagsBy(25)
  {
    match p
    case BroadExpansion =>
    case AlbertAuditRan =>
    case CounterargumentPass =>
    case SourceConfidenceChecked =>
    case PendingQuestionsExtracted =>
    case BlockersClassified =>
    case ExplicitContinueExplanation =>
  }

  /** The first decision branches, the second one stops. */
  lemma {:induction false} PathDecision(c: Config, s: GraphState, d: Decision, t: GraphState, k: nat)
    requires CanReach(c, s, d) && OnPath(s, d, t, k) && k in {15, 25}
    ensures Decide(c, t.rs, t.prereqs) == if k == 15 then Decision.Branch else d
  {
    DecisionExactly(c, t.rs, t.prereqs);
    hide Decide, FlagsBy;
    if k == 25 {
      forall p: Prereq ensures p in t.prereqs {
        AllFlagsBy(p);
      }
    }
  }

  lemma {:induction false} PathRoute(c: Config, s: GraphState, d: Decision, t: GraphState, k: nat, inp: Input)
    requires CanReach(c, s, d) && OnPath(s, d, t, k) && k in {15, 25} && Quiet(c, inp)
    ensures var u := Step(c, t, inp);
      u.node == PathNode(k + 1) && u.decision == if k == 15 then Decision.Branch else d
  {
    hide Step, Decide, Route, FlagsBy, OverCap, RiskyPull, BriefSettled, Begins, NothingToResearch, HasCompetitor,
      CapsArePositive, Marks, Verdict, Materialized, CapExceeded;
    PathDecision(c, s, d, t, k);
    DecisionKeeps(c, t, inp);
    var u := Step(c, t, inp);
    RouteExactly(c, t.rs.(issues := u.rs.issues), u.decision, inp);
  }

  lemma {:induction false} PathStep(c: Config, s: GraphState, d: Decision, t: GraphState, k: nat, inp: Input)
    requires CanReach(c, s, d) && OnPath(s, d, t, k) && k < 28 && BriefSettled(c, t.rs)
    requires Quiet(c, inp) && inp.audit == Verdict(k < 16, d) && inp.score == Marks(d)
    ensures OnPath(s, d, Step(c, t, inp), k + 1)
  {
    hide Step, Bare, Quiet, FlagsBy, BriefSettled, CapsArePositive, PathNode, Marks, HasCompetitor, NothingToResearch;
    var u := Step(c, t, inp);
    PathPlaces(k);
    PathMove(c, s, d, t, k, inp);
    QuietStep(c, t, inp);
    if d == Decision.TerminalStop {
      QuietIssues(c, t, inp);
    }
    forall p | p in FlagsBy(k + 1) ensures p in u.prereqs {
      FlagsOnPath(c, t, inp, k, p);
    }
  }

  lemma {:induction false} PathMove(c: Config, s: GraphState, d: Decision, t: GraphState, k: nat, inp: Input)
    requires CanReach(c, s, d) && OnPath(s, d, t, k) && k < 28 && BriefSettled(c, t.rs) && Quiet(c, inp)
    ensures var u := Step(c, t, inp);
      && u.node == PathNode(k + 1) && (k >= 25 ==> u.decision == d)
      && u.rs.iteration == t.rs.iteration + if k == 13 || k == 23 then 1 else 0
  {
    hide Step, Quiet, FlagsBy, PathNode, BriefSettled, Bare, Marks, NothingToResearch, HasCompetitor;
    PathPlaces(k);
    StepIsEdge(c, t, inp);
    IterationOnEdge(c, t, Step(c, t, inp));
    hide Edge;
    if k in {15, 25} {
      PathRoute(c, s, d, t, k, inp);
    } else {
      PathEdge(c, t, Step(c, t, inp), k);
    }
  }

  lemma {:induction false} IterationOnEdge(c: Config, s: GraphState, t: GraphState)
    requires Edge(c, s, t)
    ensures t.rs.iteration == s.rs.iteration + (if s.node == ReadinessScoring then 1 else 0)
    ensures s.node != CosDecision ==> t.decision == s.decision
  {
  }

  lemma {:induction false} RunIsOnPath(c: Config, s: GraphState, d: Decision, k: nat)
    requires CanReach(c, s, d) && k <= 28
    ensures OnPath(s, d, After(c, s, Replies(d), k), k) && BriefSettled(c, After(c, s, Replies(d), k).rs)
    decreases k
  {
    hide Step, After, Replies, OnPath, CanReach;
    if k == 0 {
      FirstState(c, s, Replies(d));
      PathStart(c, s, d);
    } else {
      RunIsOnPath(c, s, d, k - 1);
      NextState(c, s, Replies(d), k - 1);
      ReachNeedsCaps(c, s, d);
      RepliesAreQuiet(c, d, k - 1);
      PathStep(c, s, d, After(c, s, Replies(d), k - 1), k - 1, Replies(d)(k - 1));
      StepSettlesNothing(c, After(c, s, Replies(d), k - 1), Replies(d)(k - 1));
    }
  }

  lemma {:induction false} ReachNeedsCaps(c: Config, s: GraphState, d: Decision)
    requires CanReach(c, s, d)
    ensures CapsArePositive(c.caps)
  {
  }

  lemma {:induction false} PathStart(c: Config, s: GraphState, d: Decision)
    requires CanReach(c, s, d)
    ensures OnPath(s, d, s, 0) && BriefSettled(c, s.rs)
  {
  }

  /** Soft stops are reached: from any settled start with an empty challenge map, no grid, nothing pending and
      room for three iterations, there are answers under which the second iteration decides to stop and the run
      ends with that as its only reason: below the ceiling and with no cap recorded. A
      synthesis needs nothing more; a terminal stop is reached when every issue is settled already and a
      competitor is among them. */
  lemma {:induction false} SoftStopsAreReached(c: Config, s: GraphState, d: Decision)
    returns (ins: nat -> Input, k: nat)
    requires CanReach(c, s, d)
    ensures After(c, s, ins, k).node == CosDecision && After(c, s, ins, k + 1).decision == d
    ensures After(c, s, ins, k + 1).node == DeepAudit && After(c, s, ins, k + 3).node == End
    ensures var t := After(c, s, ins, k + 3);
      t.decision == d && t.rs.iteration < c.maxIterations && t.rs.stopReason == s.rs.stopReason
  {
    hide Step, After, Replies, Bare, FlagsBy, Begins, BriefSettled, NothingToResearch, HasCompetitor, CapsArePositive,
      Marks, Verdict;
    ins, k := Replies(d), 25;
    RunIsOnPath(c, s, d, 25);
    RunIsOnPath(c, s, d, 26);
    RunIsOnPath(c, s, d, 28);
  }
}
