/** The small deterministic gates the loop consults (the modules of decision/). */
module Decisions {
  import opened Models

  // ----- convergence of the challenge map (convergence.py) -----

  const HIGH_IMPACT_CONF: nat := 4

  predicate IsResolved(c: AlbertChallenge) { c.status == ChallengeStatus.Resolved }

  predicate IsHumanBlocked(c: AlbertChallenge) {
    c.status in {ChallengeStatus.EscalatedToHuman, ChallengeStatus.NeedsInternalData,
                 ChallengeStatus.NeedsAlbertDecision, ChallengeStatus.NeedsBuJudgment}
  }

  predicate IsUnresolved(c: AlbertChallenge) { !IsResolved(c) && !IsHumanBlocked(c) }

  function Count<T>(xs: seq<T>, p: T -> bool): (n: nat)
    ensures n <= |xs|
  {
    if xs == [] then 0 else (if p(xs[0]) then 1 else 0) + Count(xs[1..], p)
  }

  function OpenCount(cs: seq<AlbertChallenge>): nat { Count(cs, IsUnresolved) }

  function ResolvedCount(cs: seq<AlbertChallenge>): nat { Count(cs, IsResolved) }

  function EscalatedCount(cs: seq<AlbertChallenge>): nat { Count(cs, IsHumanBlocked) }

  lemma {:induction false} CountsPartition(cs: seq<AlbertChallenge>)
    ensures OpenCount(cs) + ResolvedCount(cs) + EscalatedCount(cs) == |cs|
    ensures OpenCount(cs) == 0 <==>
      forall c :: c in cs ==> c.status != ChallengeStatus.Open && c.status != ChallengeStatus.Answered
    decreases |cs|
  {
    if cs != [] {
      CountsPartition(cs[1..]);
      assert forall c :: c in cs <==> c == cs[0] || c in cs[1..];
    }
  }

  method RecordSignal(state: ResearchState) returns (n: nat)
    modifies state`convergenceHistory
    ensures n == OpenCount(state.challengeMap)
    ensures state.convergenceHistory == old(state.convergenceHistory) + [n]
  {
    n := OpenCount(state.challengeMap);
    state.convergenceHistory := state.convergenceHistory + [n];
  }

  /** round(n / d): to the nearest integer, a tie to the even one. */
  function RoundHalfEven(n: nat, d: nat): nat
    requires d > 0
  {
    var q, twice := n / d, 2 * (n % d);
    if twice < d || (twice == d && q % 2 == 0) then q else q + 1
  }

  function AlbertReadiness(cs: seq<AlbertChallenge>): nat {
    if cs == [] then 5 else RoundHalfEven(5 * (ResolvedCount(cs) + EscalatedCount(cs)), |cs|)
  }

  /** r is an integer nearest to n / d, the even one of two equally near. */
  ghost predicate IsNearest(n: nat, d: nat, r: nat) {
    var twice := 2 * (r * d);
    && 2 * n - d <= twice <= 2 * n + d
    && (twice == 2 * n + d || twice == 2 * n - d ==> r % 2 == 0)
  }

  lemma {:induction false} ProductGrows(a: nat, b: nat, d: nat)
    requires a <= b
    ensures a * d <= b * d
    ensures a + 1 == b ==> b * d == a * d + d
    ensures a + 2 <= b ==> b * d >= a * d + 2 * d
    decreases b - a
  {
    if a < b {
      assert b * d == (b - 1) * d + d;
      ProductGrows(a, b - 1, d);
    }
  }

  lemma {:induction false} NearestIsUnique(n: nat, d: nat, r: nat, s: nat)
    requires d > 0 && IsNearest(n, d, r) && IsNearest(n, d, s)
    ensures r == s
  {
    ProductGrows(if r < s then r else s, if r < s then s else r, d);
  }

  /** round() answers the nearest integer, ties to even, and nothing else. */
  lemma {:induction false} RoundIsNearest(n: nat, d: nat, r: nat)
    requires d > 0
    ensures r == RoundHalfEven(n, d) <==> IsNearest(n, d, r)
  {
    var q, m, s := n / d, n % d, RoundHalfEven(n, d);
    assert n == q * d + m && 0 <= m < d;
    ProductGrows(q, q + 1, d);
    assert IsNearest(n, d, s);
    if IsNearest(n, d, r) {
      NearestIsUnique(n, d, r, s);
    }
  }

  lemma {:induction false} RoundIsMonotone(m: nat, n: nat, d: nat)
    requires d > 0 && m <= n
    ensures RoundHalfEven(m, d) <= RoundHalfEven(n, d)
  {
    var a, b := RoundHalfEven(m, d), RoundHalfEven(n, d);
    assert IsNearest(m, d, a) && IsNearest(n, d, b) by {
      RoundIsNearest(m, d, a);
      RoundIsNearest(n, d, b);
    }
    if b < a {
      ProductGrows(b, a, d);
    }
  }

  lemma {:induction false} RoundThresholds(done: nat, total: nat)
    requires done <= total && total > 0
    ensures var r := RoundHalfEven(5 * done, total);
      && r <= 5 && (r >= 4 <==> 10 * done >= 7 * total) && (r == 5 <==> 10 * done > 9 * total)
  {
    var r := RoundHalfEven(5 * done, total);
    assert IsNearest(5 * done, total, r) by {
      RoundIsNearest(5 * done, total, r);
    }
    if r >= 6 {
      ProductGrows(6, r, total);
    } else if r <= 3 {
      ProductGrows(r, 3, total);
    }
  }

  /** What the readiness the loop reads means: full for an empty map, otherwise the integer nearest to
      five times the share of challenges that are done; within 0..5, at the stop target exactly when seven
      tenths of the challenges are done, full exactly above nine tenths. */
  lemma {:induction false} ReadinessMeaning(cs: seq<AlbertChallenge>)
    ensures var done, total := |cs| - OpenCount(cs), |cs|;
      && AlbertReadiness(cs) <= 5 && (cs == [] ==> AlbertReadiness(cs) == 5)
      && (cs != [] ==> IsNearest(5 * done, total, AlbertReadiness(cs)))
      && (AlbertReadiness(cs) >= TARGET <==> 10 * done >= 7 * total)
      && (cs != [] ==> (AlbertReadiness(cs) == 5 <==> 10 * done > 9 * total))
  {
    CountsPartition(cs);
    if cs != [] {
      RoundThresholds(|cs| - OpenCount(cs), |cs|);
      RoundIsNearest(5 * (|cs| - OpenCount(cs)), |cs|, AlbertReadiness(cs));
    }
  }

  /** With the number of challenges fixed, closing more of them never lowers the score. */
  lemma {:induction false} ReadinessIsMonotone(cs: seq<AlbertChallenge>, cs': seq<AlbertChallenge>)
    requires |cs| == |cs'| && OpenCount(cs') <= OpenCount(cs)
    ensures AlbertReadiness(cs) <= AlbertReadiness(cs')
  {
    CountsPartition(cs);
    CountsPartition(cs');
    if cs != [] {
      RoundIsMonotone(5 * (|cs| - OpenCount(cs)), 5 * (|cs| - OpenCount(cs')), |cs|);
    }
  }

  predicate HasUnresolvedHighImpact(cs: seq<AlbertChallenge>) {
    exists c :: c in cs && IsUnresolved(c) && c.confidence >= HIGH_IMPACT_CONF
  }

  predicate OpenHighImpactCell(c: TaskCell) {
    (c.status == CellStatus.Open || c.status == CellStatus.Partial) && c.impact >= 4
  }

  predicate HasOpenHighImpactCell(grid: Option<seq<TaskCell>>) {
    grid.Some? && exists c :: c in grid.value && OpenHighImpactCell(c)
  }

  predicate GridConverged(grid: Option<seq<TaskCell>>) {
    grid.Some? && !HasOpenHighImpactCell(grid)
  }

  // ----- emission gates (gate.py, convergence.gate_emission) -----

  predicate IsSoftStop(d: Decision) { d == Decision.TerminalStop || d == Decision.Synthesize }

  function AssertAuditRan(audit: Option<AuditResult>, bypass: bool, d: Decision): Decision {
    if IsSoftStop(d) && !bypass && (audit.None? || audit.value.degraded) then Decision.ContinueResearch else d
  }

  function GateEmission(cs: seq<AlbertChallenge>, d: Decision): Decision {
    if IsSoftStop(d) && HasUnresolvedHighImpact(cs) then Decision.ContinueResearch else d
  }

  // ----- anti-premature checklist (anti_premature.py) -----

  datatype Prereq =
    | BroadExpansion | AlbertAuditRan | CounterargumentPass | SourceConfidenceChecked
    | PendingQuestionsExtracted | BlockersClassified | ExplicitContinueExplanation

  const PREREQS: set<Prereq> := {
    BroadExpansion, AlbertAuditRan, CounterargumentPass, SourceConfidenceChecked,
    PendingQuestionsExtracted, BlockersClassified, ExplicitContinueExplanation}

  predicate AllDone(flags: set<Prereq>) { PREREQS <= flags }

  // ----- exhaustion (exhaustion.py) -----

  const TARGET: nat := 4

  predicate IsAddressable(n: IssueNode) {
    n.status in {IssueStatus.Open, IssueStatus.Researching, IssueStatus.PartiallyAnswered, IssueStatus.LowConfidence}
  }

  predicate HasAddressable(issues: seq<IssueNode>) { exists n :: n in issues && IsAddressable(n) }

  predicate TargetsMet(score: Option<ReadinessScore>) {
    && score.Some? && score.value.albert >= TARGET && score.value.decision >= TARGET
    && score.value.exhaustion >= TARGET && score.value.human >= TARGET
  }

  predicate TerminalEligible(issues: seq<IssueNode>, score: Option<ReadinessScore>, flags: set<Prereq>) {
    !HasAddressable(issues) && TargetsMet(score) && AllDone(flags)
  }

  /** The last three readiness sums do not increase. */
  predicate Plateau(history: seq<int>) {
    var n := |history|;
    n >= 3 && history[n - 3] >= history[n - 2] >= history[n - 1]
  }

  // ----- pull risk (risk.py) -----

  const HIGH_IMPACT: nat := 4

  predicate HighImpactOpen(n: IssueNode) { IsAddressable(n) && n.impact >= HIGH_IMPACT }

  function HighImpactIntents(issues: seq<IssueNode>): nat {
    Count(issues, (n: IssueNode) => HighImpactOpen(n) && n.issueType == IssueType.Intent)
  }

  /** classify_pull == "high" */
  predicate PullIsHighRisk(issues: seq<IssueNode>, audit: Option<AuditResult>, hasPriority: bool, hasFallback: bool) {
    || (audit.Some? && (audit.value.prematureEndRisk == Risk.High || audit.value.researchDriftRisk == Risk.High))
    || (!hasPriority && (exists n :: n in issues && HighImpactOpen(n))
        && (forall n :: n in issues && HighImpactOpen(n) ==> "decision_criterion" in n.unknowns))
    || (HighImpactIntents(issues) >= 2 && !hasFallback)
  }

  // ----- branch budget (branch_budget.py) -----

  datatype Budget = Budget(breadth: int, depth: int)

  function Spend(b: Budget): Budget { Budget(if b.breadth / 2 < 2 then 2 else b.breadth / 2, b.depth - 1) }

  predicate CanBranch(b: Budget) { b.depth > 0 }

  // ----- hard cap (run_cap.py) -----

  datatype Caps = Caps(maxCost: Option<real>, maxWall: Option<real>)

  /** One look at the run metrics and the clock. */
  datatype Meter = Meter(cost: real, elapsed: real)

  function CapExceeded(caps: Caps, m: Meter): CapReason {
    if caps.maxCost.Some? && m.cost >= caps.maxCost.value then CostCapMet
    else if caps.maxWall.Some? && m.elapsed >= caps.maxWall.value then WallCapMet
    else NoCapMet
  }

  predicate NotEarlier(m: Meter, m': Meter) { m.cost <= m'.cost && m.elapsed <= m'.elapsed }

  /** The router asks twice, first whether the cap is met and then why: with cost and clock
      non-decreasing in between, the second answer is never the empty reason. */
  lemma {:induction false} CapStaysMet(caps: Caps, m: Meter, m': Meter)
    requires CapExceeded(caps, m) != NoCapMet && NotEarlier(m, m')
    ensures CapExceeded(caps, m') != NoCapMet
  {
  }

  /** Each cap is a hit from the moment it is reached, the cost cap first; one that is not set never is. */
  lemma {:induction false} CapMeans(caps: Caps, m: Meter)
    ensures CapExceeded(caps, m) == CostCapMet <==> caps.maxCost.Some? && caps.maxCost.value <= m.cost
    ensures CapExceeded(caps, m) == WallCapMet <==>
      (caps.maxCost.None? || m.cost < caps.maxCost.value) && caps.maxWall.Some? && caps.maxWall.value <= m.elapsed
    ensures CapExceeded(caps, m) == NoCapMet <==>
      (caps.maxCost.None? || m.cost < caps.maxCost.value) && (caps.maxWall.None? || m.elapsed < caps.maxWall.value)
  {
  }

  /** Spending halves the breadth, rounded down but never below two, and takes one level of depth. */
  lemma {:induction false} SpendMeans(b: Budget)
    ensures Spend(b).depth + 1 == b.depth && Spend(b).breadth >= 2
    ensures b.breadth >= 4 ==> 2 * Spend(b).breadth <= b.breadth <= 2 * Spend(b).breadth + 1
    ensures b.breadth < 4 ==> Spend(b).breadth == 2
  {
  }

  lemma {:induction false} CountAtLeastTwo<T>(xs: seq<T>, p: T -> bool)
    ensures Count(xs, p) >= 1 <==> exists i :: 0 <= i < |xs| && p(xs[i])
    ensures Count(xs, p) >= 2 <==> exists i, j :: 0 <= i < j < |xs| && p(xs[i]) && p(xs[j])
    decreases |xs|
  {
    if xs != [] {
      var rest := xs[1..];
      CountAtLeastTwo(rest, p);
      assert forall i :: 0 <= i < |rest| ==> rest[i] == xs[i + 1];
      if i :| 0 <= i < |rest| && p(rest[i]) {
        assert p(xs[i + 1]);
      }
      if i, j :| 0 <= i < j < |rest| && p(rest[i]) && p(rest[j]) {
        assert p(xs[i + 1]) && p(xs[j + 1]);
      }
      if i, j :| 0 <= i < j < |xs| && p(xs[i]) && p(xs[j]) {
        assert p(rest[j - 1]);
        assert i > 0 ==> p(rest[i - 1]);
      }
      if i :| 0 <= i < |xs| && p(xs[i]) {
        assert i > 0 ==> p(rest[i - 1]);
      }
    }
  }

  /** Research may still move the issue, and it matters. */
  ghost predicate OpenAndImportant(n: IssueNode) {
    n.impact >= 4 && (n.status == IssueStatus.Open || n.status == IssueStatus.Researching
                      || n.status == IssueStatus.PartiallyAnswered || n.status == IssueStatus.LowConfidence)
  }

  ghost predicate IntentsCompete(issues: seq<IssueNode>) {
    exists i, j :: 0 <= i < j < |issues| && OpenAndImportant(issues[i]) && OpenAndImportant(issues[j])
      && issues[i].issueType == IssueType.Intent == issues[j].issueType
  }

  /** The audit sees a high risk, or nobody set a priority and every open important issue, there being one,
      waits for a decision criterion, or two open important intents compete and there is no fallback. */
  ghost predicate RiskIsHigh(issues: seq<IssueNode>, audit: Option<AuditResult>, hasPriority: bool, hasFallback: bool) {
    || (audit.Some? && (audit.value.prematureEndRisk == Risk.High || audit.value.researchDriftRisk == Risk.High))
    || (!hasPriority && (exists i :: 0 <= i < |issues| && OpenAndImportant(issues[i]))
        && (forall i :: 0 <= i < |issues| && OpenAndImportant(issues[i]) ==>
              "decision_criterion" in issues[i].unknowns))
    || (!hasFallback && IntentsCompete(issues))
  }

  lemma {:induction false} PullRiskMeans(issues: seq<IssueNode>, audit: Option<AuditResult>,
      hasPriority: bool, hasFallback: bool)
    ensures PullIsHighRisk(issues, audit, hasPriority, hasFallback) <==>
      RiskIsHigh(issues, audit, hasPriority, hasFallback)
  {
    assert forall n: IssueNode :: HighImpactOpen(n) <==> OpenAndImportant(n);
    var intent := (n: IssueNode) => HighImpactOpen(n) && n.issueType == IssueType.Intent;
    CountAtLeastTwo(issues, intent);
    assert HighImpactIntents(issues) == Count(issues, intent);
  }
}
