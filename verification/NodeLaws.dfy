/** What single nodes write, and what that makes of a whole run: the grid after a collect, the sums the
    plateau is read from, the issue a push hands off, when a node asks a human, and what a met cap does to
    the final memo. */
module NodeLaws {
  import opened Models
  import opened Decisions
  import opened Numbering
  import opened StableSort
  import opened ChallengeMap
  import opened IssueMap
  import opened ResearchSelection
  import opened CellEvidence
  import opened HumanTasks
  import opened DecisionMemo
  import opened LoopSteps
  import opened LoopRuns
  import opened LoopSafety
  import opened LoopStops
  import opened LoopLaws

  // ----- clarifying and planning -----

  /** A settled brief goes on and is marked converged; any other one is asked for again, and nothing changes. */
  lemma {:induction false} ClarifyExactly(c: Config, s: GraphState, inp: Input)
    requires s.node == Clarify
    ensures Step(c, s, inp) ==
      if c.criteriaPinned || c.assumeBrief || s.rs.clarified
      then s.(node := WriteBrief, rs := s.rs.(clarified := true)) else s
  {
  }

  /** Planning replaces the grid exactly when there is a plan; it steers the issues there are, and only where
      there are none it seeds one open issue per draft, numbered from one. */
  lemma {:induction false} PlanExactly(c: Config, s: GraphState, inp: Input)
    requires s.node == OrchestratorPlan
    ensures var t := Step(c, s, inp);
      && t == s.(node := PlanAudit, rs := s.rs.(issues := t.rs.issues, grid := t.rs.grid))
      && t.rs.grid == (if inp.plan.Some? then inp.plan else s.rs.grid)
      && t.rs.issues == if s.rs.issues == [] then InOrder(0, inp.drafts) else SteeredAll(s.rs.issues, inp.steers)
  {
    hide SteeredAll, AddAll;
    if s.rs.issues == [] {
      SteeringKeeps(s.rs.issues, inp.steers);
      AddAllAppends([], inp.drafts);
      assert [] + InOrder(0, inp.drafts) == InOrder(0, inp.drafts);
    } else {
      SteeringKeeps(s.rs.issues, inp.steers);
    }
  }

  // ----- collecting -----

  /** The cell as a collect leaves it: with no evidence of its own it stays; otherwise it gets the status its
      evidence calls for, and only its own records of that change besides. */
  ghost predicate ClassifiedOn(tools: CellTools, cell: TaskCell, now: TaskCell, bs: seq<EvidenceBundle>) {
    if bs == [] then now == cell
    else
      && now == cell.(status := now.status, lastStatus := Some(now.status),
                      lastFilled := now.lastFilled, stalledCycles := now.stalledCycles)
      && (now.status == CellStatus.Covered <==> AllReported(cell, bs))
      && (now.status == CellStatus.Blocked <==> NeedsInternal(tools, cell, bs))
      && (now.status == CellStatus.Partial <==>
            !AllReported(cell, bs) && !NeedsInternal(tools, cell, bs) && SomeReported(cell, bs))
      && (now.status in {CellStatus.Na, CellStatus.Open} ==>
            (now.status == CellStatus.Na <==> exists b :: b in bs && b.publicExhausted))
  }

  lemma {:induction false} ReclassifiedMeans(tools: CellTools, cell: TaskCell, evidence: seq<EvidenceBundle>)
    ensures ClassifiedOn(tools, cell, Reclassified(tools, cell, evidence), BundlesOf(evidence, cell.id))
  {
    hide BundlesOf, Synthesized, NewStatus, NeedsInternal, AllReported, SomeReported;
    if BundlesOf(evidence, cell.id) != [] {
      StatusMeans(tools, cell, BundlesOf(evidence, cell.id));
    }
  }

  lemma {:induction false} GridAtCollect(c: Config, s: GraphState, inp: Input)
    requires s.node == Collect
    ensures Step(c, s, inp).rs.evidence == s.rs.evidence + s.workers + inp.references
    ensures Step(c, s, inp).rs.grid ==
      if s.rs.grid.None? then None
      else Some(ReclassifiedGrid(c.cells, s.rs.grid.value, s.rs.evidence + s.workers + inp.references))
  {
    hide FoldAll, ReclassifiedGrid;
  }

  /** In every run a collect takes in the whole buffer and the references and classifies each cell on what
      the evidence, these included, now says about it. */
  lemma {:induction false} CollectClassifies(c: Config, s: GraphState, ins: nat -> Input, k: nat, i: nat)
    requires After(c, s, ins, k).node == Collect && After(c, s, ins, k).rs.grid.Some?
    requires i < |After(c, s, ins, k).rs.grid.value|
    ensures After(c, s, ins, k + 1).rs.grid.Some? && i < |After(c, s, ins, k + 1).rs.grid.value|
    ensures var t, u := After(c, s, ins, k), After(c, s, ins, k + 1);
      var evidence := t.rs.evidence + t.workers + ins(k).references;
      && u.rs.evidence == evidence && |u.rs.grid.value| == |t.rs.grid.value|
      && ClassifiedOn(c.cells, t.rs.grid.value[i], u.rs.grid.value[i], BundlesOf(evidence, t.rs.grid.value[i].id))
  {
    hide Step, After, ClassifiedOn, Reclassified, BundlesOf;
    var t := After(c, s, ins, k);
    NextState(c, s, ins, k);
    GridAtCollect(c, t, ins(k));
    ReclassifiedMeans(c.cells, t.rs.grid.value[i], t.rs.evidence + t.workers + ins(k).references);
  }

  /** Research brings in, in the order of the batch, what each issue's researcher answers, and nothing of one
      that fails. */
  lemma {:induction false} GatheredMeans(batch: seq<Candidate>, research: (nat, string) -> Option<EvidenceBundle>,
      k: nat)
    requires k <= |batch|
    ensures Gathered(batch[..k], research) <= Gathered(batch, research)
    ensures k < |batch| ==>
      var found := research(k, batch[k].issue.id);
      Gathered(batch[..k + 1], research) == Gathered(batch[..k], research) + if found.Some? then [found.value] else []
  {
    GatheredPrefix(batch, research, k);
    if k < |batch| {
      assert batch[..k + 1][..k] == batch[..k];
    }
  }

  lemma {:induction false} GatheredPrefix(batch: seq<Candidate>, research: (nat, string) -> Option<EvidenceBundle>,
      k: nat)
    requires k <= |batch|
    ensures Gathered(batch[..k], research) <= Gathered(batch, research)
    decreases |batch|
  {
    if k == |batch| {
      assert batch[..k] == batch;
    } else {
      var front := batch[..|batch| - 1];
      GatheredPrefix(front, research, k);
      assert front[..k] == batch[..k];
    }
  }

  // ----- scoring -----

  /** The stored score is the scorer's but for the Albert axis, which an Albert challenge overrides; its sum is
      appended to the history and one more iteration is counted. */
  lemma {:induction false} ScoredMeans(c: Config, s: GraphState, inp: Input)
    requires s.node == ReadinessScoring
    ensures Step(c, s, inp).rs.score.Some?
    ensures var t, now := Step(c, s, inp), Step(c, s, inp).rs.score.value;
      && now.decision == inp.score.decision && now.exhaustion == inp.score.exhaustion && now.human == inp.score.human
      && now.albert == (if s.rs.challenges == [] then inp.score.albert else AlbertReadiness(s.rs.challenges))
      && t.rs.readinessHistory == s.rs.readinessHistory + [now.albert + now.decision + now.exhaustion + now.human]
      && t.rs == s.rs.(score := t.rs.score, readinessHistory := t.rs.readinessHistory, iteration := s.rs.iteration + 1)
  {
    hide AlbertReadiness;
  }

  lemma {:induction false} HistoryWritten(c: Config, s: GraphState, inp: Input)
    ensures var t := Step(c, s, inp);
      && s.rs.readinessHistory <= t.rs.readinessHistory
      && |t.rs.readinessHistory| - |s.rs.readinessHistory| == t.rs.iteration - s.rs.iteration
  {
    hide Step;
    StepIsEdge(c, s, inp);
    if s.node == ReadinessScoring {
      ScoredMeans(c, s, inp);
    } else {
      ScoreAndPullsWritten(c, s, inp);
    }
  }

  /** The history holds one sum per iteration, none ever rewritten. */
  lemma {:induction false} OneSumPerIteration(c: Config, s: GraphState, ins: nat -> Input, k: nat)
    ensures var t := After(c, s, ins, k);
      && s.rs.readinessHistory <= t.rs.readinessHistory && t.rs.iteration >= s.rs.iteration
      && |t.rs.readinessHistory| == |s.rs.readinessHistory| + t.rs.iteration - s.rs.iteration
    decreases k
  {
    hide Step, After;
    if k == 0 {
      FirstState(c, s, ins);
    } else {
      OneSumPerIteration(c, s, ins, k - 1);
      NextState(c, s, ins, k - 1);
      HistoryWritten(c, After(c, s, ins, k - 1), ins(k - 1));
      StepIsEdge(c, After(c, s, ins, k - 1), ins(k - 1));
    }
  }

  /** At every decision of every run the last entry of the history is the sum of the four axes of the stored
      score: the scorer's own decision, exhaustion and human axes, and the share of challenges done. */
  lemma {:induction false} HistorySumsTheScore(c: Config, s: GraphState, ins: nat -> Input, k: nat)
    requires Begins(s) && After(c, s, ins, k).node == CosDecision
    ensures After(c, s, ins, k).rs.score.Some? && After(c, s, ins, k).rs.readinessHistory != [] && k >= 2
    ensures var rs, advice := After(c, s, ins, k).rs, ins(k - 2).score;
      && rs.readinessHistory[|rs.readinessHistory| - 1] ==
           rs.score.value.albert + rs.score.value.decision + rs.score.value.exhaustion + rs.score.value.human
      && rs.score == Some(advice.(albert := if rs.challenges == [] then advice.albert
                                                                  else AlbertReadiness(rs.challenges)))
  {
    hide Step, After, AlbertReadiness, RecordAll;
    ScoringPrecedesDecision(c, s, ins, k);
    var last, prior := After(c, s, ins, k - 1), After(c, s, ins, k - 2);
    NextState(c, s, ins, k - 1);
    NextState(c, s, ins, k - 2);
    ScoredMeans(c, prior, ins(k - 2));
    ScoreAndPullsWritten(c, last, ins(k - 1));
    ChallengesWritten(c, prior, ins(k - 2));
    ChallengesWritten(c, last, ins(k - 1));
  }

  // ----- the final memo -----

  /** A hard cap is the recorded reason. */
  ghost predicate CapIsRecorded(rs: Record) { rs.stopReason in {Some(CostCapMet), Some(WallCapMet)} }

  /** A recorded cap is never taken back. */
  lemma {:induction false} CapStaysRecorded(c: Config, s: GraphState, ins: nat -> Input, j: nat, k: nat)
    requires j <= k && CapIsRecorded(After(c, s, ins, j).rs)
    requires forall i: nat :: NotEarlier(ins(i).meter, ins(i).meterAgain)
    ensures CapIsRecorded(After(c, s, ins, k).rs)
    decreases k
  {
    hide Step, After, NotEarlier;
    if j < k {
      CapStaysRecorded(c, s, ins, j, k - 1);
      NextState(c, s, ins, k - 1);
      StopReasonWritten(c, After(c, s, ins, k - 1), ins(k - 1));
      if CapHit(c, ins(k - 1)) {
        CapStaysMet(c.caps, ins(k - 1).meter, ins(k - 1).meterAgain);
      }
    }
  }

  /** What the review emits: with a sound audit and every key claim verified or flagged, exactly when the scores
      meet the target and no weighty challenge is open, or emission is ordered, or a cap ended the run. */
  lemma {:induction false} ReviewExactly(c: Config, s: GraphState, inp: Input)
    requires s.node == HumanReview && inp.prose.Some?
    ensures Step(c, s, inp).memo.Some?
    ensures var m, rs := Step(c, s, inp).memo.value, s.rs;
      m.refusal == None <==>
        && rs.audit.Some? && !rs.audit.value.degraded && m.unverified == []
        && (|| c.explicitEmit || CapIsRecorded(rs)
            || (AxesMeet(rs.score) && forall ch :: ch in rs.challenges && IsOpenOrAnswered(ch) ==> ch.confidence < 4))
  {
    hide Routed, UnverifiedKey, FirstRefusal, Sections, WithCellTasks, MemoClaims, ContextOf, Texts, Without;
    var t := Reviewed(c, s, inp);
    RefusalMeans(s.rs.audit, s.rs.challenges, s.rs.score, t.memo.value.unverified, Explicit(c, s.rs));
  }

  /** What the review hands on: the claims it has human tasks for are exactly the unverified ones of the
      evidence whose issue is known, of impact 4 or more and no na or blocked cell, when the pull risk of the
      final state is high; left unverified are exactly the other unverified claims of confidence 4 or more. */
  lemma {:induction false} ReviewAsksFor(c: Config, s: GraphState, inp: Input, risk: bool)
    requires s.node == HumanReview && inp.prose.Some? && DistinctIds(s.rs.issues) && WellNumbered(s.rs.tasks)
    requires risk <==> RiskyPull(c, s.rs)
    ensures Step(c, s, inp).memo.Some?
    ensures var m, items := Step(c, s, inp).memo.value, MemoClaims(s.rs.evidence);
      var cells := if s.rs.grid.Some? then s.rs.grid.value else [];
      var ctx := Context(c.text, SourceById(s.rs.evidence), s.rs.issues, cells, risk);
      && m.needs == ClaimTexts(Those(ctx, items, false, true))
      && (forall x :: x in m.unverified <==> x !in m.needs && KeyAndUnverified(ctx, items, x))
      && m.sections == Sections(inp.prose.value, s.rs.evidence == [], m.needs)
  {
    hide Routed, UnverifiedKey, FirstRefusal, Sections, WithCellTasks, MemoClaims, Verified, Those, SourceById,
      PullIsHighRisk, DistinctIds, WellNumbered, Texts, ClaimTexts;
    PullRiskMeans(s.rs.issues, s.rs.audit, c.hasPriority, c.hasFallback);
    RoutedMeans(ContextOf(c, s.rs), MemoClaims(s.rs.evidence), s.rs.tasks);
  }

  /** A claim of confidence 4 or more with this text is not verified. */
  ghost predicate KeyAndUnverified(ctx: Context, items: seq<MemoClaim>, text: string) {
    exists m :: m in items && m.claim.confidence >= 4 && !Verified(ctx, m.claim) && m.claim.claim == text
  }

  /** The task is one for a claim nobody could verify, or one for a blocked cell of the grid. */
  ghost predicate MintedInReview(tasks: seq<HumanTask>, k: nat, cells: seq<TaskCell>)
    requires k < |tasks|
  {
    MintedFor(tasks, k) || ForBlockedCell(tasks[k], cells)
  }

  /** Every blocked cell of the grid has its task after the review, and every task the review adds is one for a
      claim or for such a cell; without a synthesizer there is no memo and no task. */
  lemma {:induction false} ReviewMints(c: Config, s: GraphState, inp: Input)
    requires s.node == HumanReview && WellNumbered(s.rs.tasks)
    ensures inp.prose == None ==> Step(c, s, inp) == s.(node := End)
    ensures var cells, tasks := if s.rs.grid.Some? then s.rs.grid.value else [], Step(c, s, inp).rs.tasks;
      && s.rs.tasks <= tasks
      && (inp.prose.Some? ==> forall x :: x in cells && x.status == CellStatus.Blocked ==>
            FindTask(tasks, CellTaskId(x.id)).Some?)
      && forall k :: |s.rs.tasks| <= k < |tasks| ==> MintedInReview(tasks, k, cells)
  {
    hide RouteAll, UnverifiedKey, FirstRefusal, Sections, WithCellTasks, MemoClaims, ContextOf, Texts, Without, Fated,
      WellNumbered, MintedFor, ForBlockedCell;
    if inp.prose.Some? {
      var cells := if s.rs.grid.Some? then s.rs.grid.value else [];
      var routed := Routed(ContextOf(c, s.rs), MemoClaims(s.rs.evidence), s.rs.tasks).tasks;
      var all := WithCellTasks(routed, cells);
      EachTextIsAskedOnce(Fated(ContextOf(c, s.rs), MemoClaims(s.rs.evidence)), s.rs.tasks);
      CellMintsKeep(routed, cells);
      CellMintsMean(routed, cells);
      NoCells(routed);
      assert Step(c, s, inp).rs.tasks == all;
      forall k | |s.rs.tasks| <= k < |all| ensures MintedInReview(all, k, cells) {
        if k < |routed| {
          MintStays(routed, all, k);
        }
      }
    }
  }

  lemma {:induction false} NoCells(tasks: seq<HumanTask>)
    ensures WithCellTasks(tasks, []) == tasks
  {
  }

  lemma {:induction false} MintStays(tasks: seq<HumanTask>, more: seq<HumanTask>, k: nat)
    requires tasks <= more && k < |tasks| && MintedFor(tasks, k)
    ensures MintedFor(more, k)
  {
  }

  /** A run that a cap ended is spared the completeness gates and no other: once a router has seen a cap met,
      the memo is emitted exactly when the audit is sound and every key claim is verified or flagged. */
  lemma {:induction false} CappedRunsSkipCompleteness(c: Config, s: GraphState, ins: nat -> Input, j: nat, k: nat)
    requires forall i: nat :: NotEarlier(ins(i).meter, ins(i).meterAgain)
    requires j < k && After(c, s, ins, j).node in {CosDecision, HumanPull} && OverCap(c.caps, ins(j).meter)
    requires After(c, s, ins, k).node == HumanReview && ins(k).prose.Some?
    ensures After(c, s, ins, k + 1).memo.Some?
    ensures var m, audit := After(c, s, ins, k + 1).memo.value, After(c, s, ins, k).rs.audit;
      m.refusal == None <==> audit.Some? && !audit.value.degraded && m.unverified == []
  {
    hide Step, After, NotEarlier, OverCap, AxesMeet, IsOpenOrAnswered;
    NextState(c, s, ins, j);
    NextState(c, s, ins, k);
    RoutingReads(c, After(c, s, ins, j).rs, ins(j));
    StopReasonWritten(c, After(c, s, ins, j), ins(j));
    CapStaysMet(c.caps, ins(j).meter, ins(j).meterAgain);
    CapStaysRecorded(c, s, ins, j + 1, k);
    ReviewExactly(c, After(c, s, ins, k), ins(k));
  }

  // ----- handing an issue off -----

  /** The only open task a push mints: for this issue, under the next id, with the issue's own impact. */
  ghost predicate AsksFor(t: HumanTask, n: IssueNode, number: nat) {
    && t.id == TaskId(number) && t.blockingQuestion == n.title && t.taskTitle == "提供內部資料：" + n.title
    && t.requestedInput == "內部資料 / 受限文件" && t.whyNeeded == "問題「" + n.title + "」需要外部研究無法取得的內部資料"
    && t.priority == n.impact && t.status == HumanTaskStatus.Open
  }

  /** A push without an issue left to research changes nothing; otherwise the first issue of the highest impact of
      those is marked as waiting for internal data, and one task asking for it is appended. */
  lemma {:induction false} PushExactly(c: Config, s: GraphState, inp: Input)
    requires s.node == HumanPush && NumberedIssues(s.rs.issues) && WellNumbered(s.rs.tasks)
    ensures NothingToResearch(s.rs.issues) ==> Step(c, s, inp).rs == s.rs
    ensures !NothingToResearch(s.rs.issues) ==> HandedOff(s.rs, Step(c, s, inp).rs)
  {
    hide NumberedIssues, WellNumbered, PushTarget;
    AddressableMeans(s.rs.issues);
    PushTargetIsHighest(s.rs.issues);
    if HasAddressable(s.rs.issues) {
      PushHandsOff(s.rs);
    }
  }

  ghost predicate HandedOff(rs: Record, now: Record) {
    && |now.tasks| == |rs.tasks| + 1 && now.tasks[..|rs.tasks|] == rs.tasks
    && now == rs.(tasks := now.tasks, issues := now.issues)
    && exists i :: 0 <= i < |rs.issues| && IsAddressable(rs.issues[i])
         && (forall j :: 0 <= j < |rs.issues| && IsAddressable(rs.issues[j]) ==>
               if j < i then rs.issues[j].impact < rs.issues[i].impact else rs.issues[j].impact <= rs.issues[i].impact)
         && now.issues == rs.issues[i := rs.issues[i].(status := IssueStatus.BlockedByInternalData)]
         && AsksFor(now.tasks[|rs.tasks|], rs.issues[i], |rs.tasks| + 1)
  }

  lemma {:induction false} PushHandsOff(rs: Record)
    requires NumberedIssues(rs.issues) && WellNumbered(rs.tasks) && HasAddressable(rs.issues)
    ensures HandedOff(rs, Pushed(rs))
  {
    hide NumberedIssues, WellNumbered, PushTarget;
    var i := PushTargetIsFirst(rs.issues);
    var n := rs.issues[i];
    CountedMintIsFresh(rs.tasks, PushTask(rs.tasks, n));
    NumbersAreDistinct(rs.issues);
    assert FindIssue(rs.issues, n.id) == Some(i);
  }

  // ----- asking a human -----

  /** When each node stops to ask: clarification unless the brief is pinned or assumed; plan approval unless that
      is assumed, on the first visit and whenever two cells or more came in since the last approval; a pull unless the
      run is automatic and the pull of no high risk; the review when it is enabled, unless the run is automatic and
      the audit sees no high risk. No other node asks. */
  lemma {:induction false} PausesExactly(c: Config, s: GraphState)
    ensures var cells := if s.rs.grid.Some? then |s.rs.grid.value| else 0;
      Pauses(c, s) <==>
        || (s.node == Clarify && !c.criteriaPinned && !c.assumeBrief)
        || (s.node == PlanApproval && !c.assumeBrief
            && (s.approvedCells.None? || s.approvedCells.value + 2 <= cells))
        || (s.node == HumanPull && (!c.auto || RiskyPull(c, s.rs)))
        || (s.node == HumanReview && c.enableReview
            && (!c.auto || (s.rs.audit.Some? && Risk.High in {s.rs.audit.value.prematureEndRisk,
                                                              s.rs.audit.value.researchDriftRisk})))
  {
    PullRiskMeans(s.rs.issues, s.rs.audit, c.hasPriority, c.hasFallback);
    hide PullIsHighRisk, RiskIsHigh;
  }

  /** The approval recorded is that of the grid as it stands, at every visit that assumes or asks for it, and
      the one before at every other. */
  lemma {:induction false} ApprovalExactly(c: Config, s: GraphState, inp: Input)
    requires s.node == PlanApproval
    ensures var cells := if s.rs.grid.Some? then |s.rs.grid.value| else 0;
      var asks := s.approvedCells.None? || s.approvedCells.value + 2 <= cells;
      Step(c, s, inp) == s.(node := Supervisor,
                            approvedCells := if c.assumeBrief || asks then Some(cells) else s.approvedCells)
  {
  }

  /** The deep audit replaces the last one and is counted exactly when the auditor answers; it then leads to the human
      who was asked for, or to the review. */
  lemma {:induction false} DeepAuditExactly(c: Config, s: GraphState, inp: Input)
    requires s.node == DeepAudit
    ensures var t := Step(c, s, inp);
      && t.node == (if s.decision == Decision.PullHuman then HumanPull else HumanReview)
      && (inp.deepAudit == None ==> t.rs == s.rs)
      && (inp.deepAudit.Some? ==> t.rs == s.rs.(audit := inp.deepAudit, deepAudits := s.rs.deepAudits + 1))
  {
  }

  /** Every audit pass leaves one more count of the challenges still open, that of the map it leaves behind. */
  lemma {:induction false} AuditExactly(c: Config, s: GraphState, inp: Input)
    requires s.node == AlbertAudit
    ensures var t := Step(c, s, inp);
      && t.rs.audit == Some(inp.audit)
      && t.rs.convergenceHistory == s.rs.convergenceHistory + [OpenCount(t.rs.challenges)]
      && t.rs == s.rs.(audit := t.rs.audit, challenges := t.rs.challenges,
                       convergenceHistory := t.rs.convergenceHistory)
  {
    hide RecordAll, OpenCount;
  }
}
