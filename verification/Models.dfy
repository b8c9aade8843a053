/** The data of a research run (models.py). A dictionary the run keeps under an entity's own
    id is the sequence of its values in insertion order, which is the order Python iterates
    it in; the modules that write one say how an id is looked up and replaced. */
module Models {

  datatype Option<+T> = None | Some(value: T)

  datatype IssueType = RootQuestion | Intent | Roi | RiskIssue | Competitor | InternalDataIssue | Technical | Market

  datatype IssueStatus =
    | Open | Researching | PartiallyAnswered | LowConfidence | Answered
    | BlockedByHuman | BlockedByInternalData | BlockedByPermission | BlockedByDecision

  datatype ChallengeStatus =
    | Open | Answered | Resolved | EscalatedToHuman
    | NeedsInternalData | NeedsAlbertDecision | NeedsBuJudgment

  datatype HumanTaskStatus = Open | InProgress | Done | Cancelled

  datatype SourceType = Primary | Secondary | Standard | Marketing | Internal

  datatype SourceQuality = High | Medium | Low | Unknown

  datatype Decision =
    | ContinueResearch | Branch | Rerank | PullHuman | PushHuman | Synthesize | Pause | TerminalStop

  datatype Classification = Addressable | Residual

  datatype AuditVerdict = Continue | Exhausted | Rework

  datatype Risk = Low | Med | High

  datatype CellStatus = Open | Partial | Covered | Blocked | Na

  datatype IssueNode = IssueNode(
    id: string, title: string, issueType: IssueType, status: IssueStatus,
    impact: nat, confidence: nat, unknowns: seq<string>, evidenceRefs: seq<string>)

  datatype TaskCell = TaskCell(
    id: string, vendor: string, specGroup: string, objective: string,
    successCriteria: seq<string>, status: CellStatus, impact: int,
    lastStatus: Option<CellStatus>, lastFilled: nat, stalledCycles: nat)

  datatype AlbertChallenge = AlbertChallenge(
    id: string, challenge: string, issueId: Option<string>, why: string, currentAnswer: string,
    status: ChallengeStatus, confidence: nat, evidenceRefs: seq<string>,
    classification: Option<Classification>, roundsSeen: nat)

  datatype HumanTask = HumanTask(
    id: string, taskTitle: string, requestedInput: string, whyNeeded: string,
    blockingQuestion: string, priority: nat, status: HumanTaskStatus)

  datatype Source = Source(
    id: string, title: string, url: Option<string>, sourceType: SourceType,
    quality: SourceQuality, origin: string, excerpt: string)

  datatype Claim = Claim(claim: string, sourceRefs: seq<string>, confidence: nat, notes: string)

  datatype FieldObservation = FieldObservation(field: string, value: string, sourceRef: string)

  datatype EvidenceBundle = EvidenceBundle(
    query: string, issueId: Option<string>, claims: seq<Claim>, sources: seq<Source>,
    observations: seq<FieldObservation>, publicExhausted: bool)

  datatype ReadinessScore = ReadinessScore(albert: nat, decision: nat, exhaustion: nat, human: nat)

  datatype AuditResult = AuditResult(
    verdict: AuditVerdict, challenges: seq<AlbertChallenge>, prematureEndRisk: Risk,
    researchDriftRisk: Risk, recommendedNextAction: Option<Decision>, rationale: string, degraded: bool)

  /** What rs.stop_reason can hold: the text of a hard cap, or the empty text the reason
      function answers when no cap is met at the moment it is asked. */
  datatype CapReason = NoCapMet | CostCapMet | WallCapMet

  /** The mutable record one run works on. */
  class ResearchState {
    var issueMap: seq<IssueNode>
    var challengeMap: seq<AlbertChallenge>
    var evidence: seq<EvidenceBundle>
    var humanTasks: seq<HumanTask>
    var readinessScore: Option<ReadinessScore>
    var readinessHistory: seq<int>
    var convergenceHistory: seq<nat>
    var iterationCount: nat
    var lastAudit: Option<AuditResult>
    var deepAuditCount: nat
    var researchedQueries: seq<string>
    var taskGrid: Option<seq<TaskCell>>
    var stopReason: Option<CapReason>
    var clarifyConverged: bool
    /** How many request_pull steering events are still unconsumed. */
    var pendingPulls: nat
  }

  /** Character handling whose locale details do not matter to the loop. */
  datatype TextTools = TextTools(strip: string -> string, lower: string -> string, upper: string -> string)

  /** str in str. */
  predicate Contains(s: string, part: string) {
    exists k: nat | k <= |s| :: OccursAt(s, part, k)
  }

  predicate OccursAt(s: string, part: string, k: nat) {
    k + |part| <= |s| && s[k..k + |part|] == part
  }

  lemma {:induction false} ContainsInConcat(left: string, mid: string, right: string, part: string)
    requires Contains(mid, part)
    ensures Contains(left + mid + right, part)
  {
    var k: nat :| k <= |mid| && OccursAt(mid, part, k);
    var s := left + mid + right;
    assert s[|left| + k..|left| + k + |part|] == part;
    assert OccursAt(s, part, |left| + k);
  }
}
