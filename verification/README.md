# Verified model of the CN5 research COS loop

The program drives a research run: brains propose issues, research them, an auditor called Albert
challenges the result, and a deterministic controller decides whether to continue, ask a human or
stop with a decision memo. This project models the deterministic part and proves what it promises.

* **The convergence loop.** `LoopSteps` is the transition function of all 21 graph nodes (the 20 of
  the research cycle and `clarify`) and the four routers over the state they share. `ResearchLoop`
  is the same as imperative nodes over the mutable `ResearchState`, each proved equal to its
  transition, and the driver with its recursion limit. `LoopRuns`, `LoopSafety` and `LoopStops` prove
  what holds of every run: termination with a tight bound, what only grows, why and when a run may
  stop, and what its memo may say. `LoopLaws` and `NodeLaws` give the exact conditions of the decisions and
  routes and of what the nodes write, in the fields of the state; `LoopReach` has the runs that do reach
  each soft stop. Whatever a brain, a human, the clock or the cost meter answers is an arbitrary input at
  every step.
* **The session pool.** `SessionPool` models the bounded async pool as atomic steps between awaits,
  taken by any number of tasks in any order: permits, the idle lists, failing connects, retry with
  the permit released. `PoolRetry` counts the attempts of each call over whole runs.
* **Citations.** `Difflib` is the matching-block algorithm of Python's `difflib` without junk,
  `CitationVerify` the quote coverage built on it, `QuotePromise` the exact reach of what its documentation
  promises, `DecisionMemo` the policy, the routing, the memo and the emission gates.
* **Maps and gates.** `ChallengeMap` (fuzzy upsert), `IssueMap`, `HumanTasks`, `ResearchSelection`,
  `CellEvidence` and `Triangulation` (grid cells), `Ranking`, `Decisions` (the small gates), with
  `Numbering`, `Dictionary`, `StableSort` and `Permutations` below them.

Code that updates state or loops is a class or a method proved against a specification function;
the lemmas are about those functions. A dictionary kept under an entity's own id is the sequence of
its values in insertion order.

## Where the code and its documentation differ

The model follows the code.

* A quote's coverage is described as the share of the quote found as one contiguous run. The code
  takes the best ratio of the *shorter* string over windows of the longer one, and a window cut off at
  the end lowers the bar further. Neither half of the description survives for quotes of more than a
  few characters: `QuotePromise.PromiseHoldsExactlyWhen` and `QuotePromise.ContiguousExactlyWhen` give
  the exact lengths, `QuotePromise.ExactlyNeededIsGuaranteed` what is left.
* A claim with an unknown ref is said to be checked as a web claim; unknown refs are ignored
  (`CitationVerify.UnknownRefsAreIgnored`).
* A closed challenge is said never to be re-opened; an explicit prior id together with a live status
  re-opens it (`ChallengeMap.ReopensExactlyWhen`). The audit node passes no prior id, so runs are safe.
* A query is said to be researched at most once per run; inside one call it can go out twice
  (`ResearchSelection.OneCallCanRepeatATitle`).
* The worker buffer is said to be cleared each round; its reducer appends, so every collect folds all
  bundles of the run again (`LoopSafety.RefoldingAnswersInRuns`).
* Corroboration is described by sources and counts observations
  (`Triangulation.CorroborationPartsExactlyWhen`). A contradiction is said to be resolved by primary
  source, recency, quality; the code compares primary source, number of observations, quality, and a
  source carries no date (`Triangulation.ResolvedAsDocumentedExactlyWhen`, `Triangulation.NumbersBeatQuality`).
* A dead session is said to be dropped at check-in; on the retry path its client is still set
  (`SessionPool.FailedTurnIsReused`).
* Clarification is said to block until the criteria are pinned; no answer pins one, so a run that has
  to ask never gets further (`LoopRuns.EndsExactlyWhenSettled`).

## Model

| member | source | states |
|---|---|---|
| `LoopRuns.EndsExactlyWhenSettled` | src/cn5_research_cos/graph.py:1184-1259 | Whatever the brains, humans and meters answer: a run reaches END within 14·N + 5 node steps, N = max(1, max_iterations), exactly when the brief is pinned, assumed or already marked converged; otherwise it stays in `clarify` for ever |
| `LoopRuns.BoundIsReached` | src/cn5_research_cos/graph.py:1344-1352 | The bound is tight: when every audit asks for a human at high risk and no cap is met, the run takes exactly 14·N + 5 steps |
| `LoopRuns.RecursionLimits` | src/cn5_research_cos/graph.py:1344-1352 | The limit 50 + 20·N never stops a run; the fixed limit 200 of the auto mode is safe for N ≤ 13, and for every larger N there are runs it breaks off, also runs without a single pause that would start the count anew |
| `LoopRuns.LongestRunNeverPauses` | src/cn5_research_cos/graph.py:785-820 | With auto mode, an assumed brief, a priority and a fallback set and deep audits that lower the risk, the longest run interrupts nowhere: it is one invocation |
| `LoopRuns.StepIsEdge` | src/cn5_research_cos/graph.py:1184-1259 | Every step follows an edge of the graph, only the scoring node counts an iteration, only the decision node decides, and no node past a router at the ceiling starts another iteration |
| `LoopRuns.EdgeDescends` | src/cn5_research_cos/graph.py:1184-1259 | (remaining iterations, node) strictly decreases along every edge except the clarify self-loop |
| `LoopStops.RunsEndForAReason` | src/cn5_research_cos/graph.py:1121-1178 | At END a cap reason is recorded, or the iteration ceiling is reached, or the last decision was a soft stop and no open or partial cell of impact ≥ 4 is left |
| `LoopStops.DeepAuditComesLast` | src/cn5_research_cos/graph.py:861-887 | The final review is preceded by a deep audit made after the last decision, straight or through the pull gate; the one exception is a cap that was not met at the decision and is after the pull |
| `LoopStops.NoPrematureStop` | src/cn5_research_cos/decision/anti_premature.py:1-22 | When the loop decides to stop: all seven prerequisites hold, the audit exists and is not degraded (unless bypassed), no unresolved challenge has confidence ≥ 4, and an earlier iteration of the same run branched on a rework verdict |
| `LoopStops.StopsExactlyWhen` | src/cn5_research_cos/graph.py:1067-1115 | The six stages of the decision and its two gates taken together: the exact condition for a soft stop |
| `LoopLaws.DecisionExactly` | src/cn5_research_cos/graph.py:1067-1115 | For every state, the exact condition of each of the six decisions in the fields of the state: `PullHuman` exactly when a request is pending or the audit recommends one, `Branch` exactly when none is and the verdict is rework, and so on for `TerminalStop`, `Synthesize`, `PushHuman` and `ContinueResearch` |
| `LoopLaws.RouteExactly` | src/cn5_research_cos/graph.py:1121-1164 | The exact condition of each node the router can choose: a reached cap or ceiling leads to the deep audit; below both a stop does unless a cell of impact ≥ 4 is open or partial, a pull does when it is of high risk, a branch leads to the expansion, a push to the human, the rest to planning |
| `LoopLaws.PullExactly` | src/cn5_research_cos/graph.py:1167-1178 | After a pull the run goes on exactly below cap and ceiling; one pending request is used up; a reason is recorded exactly when a cap is met |
| `LoopLaws.ReworkBranches` | src/cn5_research_cos/graph.py:1082-1086 | In every run: a rework verdict that comes with no pull, no met cap and below the ceiling is answered by a branch, the next nodes are expansion and supervisor, broad expansion is on record, and the map holds a competitor, which the branch added, open and of impact 4, exactly when there was none, taking the budget from (4, 2) to (2, 1) |
| `LoopLaws.CompetitorExactly` | src/cn5_research_cos/graph.py:718-728 | The competitor issue is added exactly when depth is left and the map has none, with the fields of the source; that costs one level of depth and half the breadth |
| `LoopLaws.PrereqExactly` | src/cn5_research_cos/graph.py:309-316 | Each of the seven prerequisites is on record exactly when its own node has run since the start (for the explanation: with an audit that gave a rationale) |
| `LoopLaws.ReadyExactlyWhen` | src/cn5_research_cos/decision/anti_premature.py:1-22 | At every decision five of the seven hold anyway; broad expansion holds exactly when the run branched before, the explanation exactly when some checklist saw an audit with a rationale |
| `LoopReach.SoftStopsAreReached` | src/cn5_research_cos/graph.py:1067-1164 | Both soft stops are reached: from every settled start with an empty challenge map, no grid and room for three iterations there are answers under which the second iteration decides to stop and the run ends for that alone, below the ceiling and with no cap recorded; for a terminal stop every issue is settled and a competitor among them |
| `LoopStops.TerminalStopIsEarned` | src/cn5_research_cos/graph.py:693-706 | At a terminal stop no issue is addressable, the targets are met, and at least seven tenths of the challenges in the map at that moment are resolved or human-blocked, whatever the scoring brain proposed |
| `LoopStops.BroadExpansionNeedsBranch` | src/cn5_research_cos/graph.py:309-316 | The broad-expansion prerequisite is set only after a branch on a rework verdict, and that branch lies in an earlier iteration than the one in progress |
| `LoopStops.ResearchNeedsApproval` | src/cn5_research_cos/graph.py:254-285 | At every node past the approval gate, including those reached through human_push and issue_expansion, the grid has fewer than two cells more than at the last approval |
| `LoopStops.RunsEmitHonestly` | src/cn5_research_cos/graph.py:890-914 | In every run, a hard-cap stop or an explicit order included: an emitted memo rests on an audit that is not degraded, and each claim of confidence ≥ 4 in the evidence is verified or flagged in both sections and asked of a human |
| `LoopStops.MemoComesFromReview` | src/cn5_research_cos/graph.py:890-914 | The memo in a state was written once, by the review that ended the run |
| `NodeLaws.ReviewExactly` | src/cn5_research_cos/graph.py:890-914 | The review emits exactly when the audit is there and not degraded, no key claim is left unverified, and emission is ordered, or a cap is the recorded reason, or the four scores are ≥ 4 and no open or answered challenge has confidence ≥ 4 |
| `NodeLaws.ReviewAsksFor` | src/cn5_research_cos/graph.py:890-914 | In the final memo the supplements are exactly the unverified claims of the whole evidence whose issue is known, of impact ≥ 4 and no `na` or `blocked` cell of the final grid, when the pull risk of the final state is high; unverified are exactly the other unverified claims of confidence ≥ 4 |
| `NodeLaws.ReviewMints` | src/cn5_research_cos/graph.py:890-966 | After the review every blocked cell has its task, and every task added is one for an unverified claim or for a blocked cell |
| `NodeLaws.CappedRunsSkipCompleteness` | src/cn5_research_cos/graph.py:905-908 | Once a router has seen a cap met, the memo of the run is emitted exactly when the correctness gates hold: a cap spares the completeness gates and no other |
| `NodeLaws.CollectClassifies` | src/cn5_research_cos/graph.py:547-588 | In every run a collect gives each cell with evidence of its own the status which the old evidence, the whole buffer and the references together call for, and leaves the others alone |
| `NodeLaws.PlanExactly` | src/cn5_research_cos/graph.py:288-306 | Planning replaces the grid exactly when there is a plan, steers the issues there are, and seeds one open issue per draft only where there are none |
| `NodeLaws.ClarifyExactly` | src/cn5_research_cos/graph.py:222-251 | A pinned, assumed or already converged brief goes on and is marked converged; any other changes nothing |
| `NodeLaws.HistorySumsTheScore` | src/cn5_research_cos/graph.py:693-706 | At every decision the last history entry is the sum of the four axes of the stored score, which is the scorer's of this iteration with the Albert axis replaced when there are challenges |
| `NodeLaws.OneSumPerIteration` | src/cn5_research_cos/graph.py:693-706 | The history holds one sum per iteration and none is rewritten |
| `NodeLaws.PushExactly` | src/cn5_research_cos/graph.py:823-858 | A push changes nothing when no issue is addressable; otherwise the first one of the highest impact is blocked by internal data and exactly one open task, with its title and impact, is appended under the next id |
| `NodeLaws.PausesExactly` | src/cn5_research_cos/graph.py:222-285 | Which nodes ask a human and exactly when: clarification and plan approval here, the pull at lines 785-820, the review at 1010-1048; no other node does |
| `NodeLaws.GatheredMeans` | src/cn5_research_cos/graph.py:392-464 | Research brings in what each selected issue's researcher answers, in the order of the batch, and nothing of one that fails |
| `LoopLaws.AuditWritten` | src/cn5_research_cos/graph.py:653-673 | Which of the three audits replaces the last one, and when; a plan with the signature seen last is not audited again |
| `LoopSafety.RunsOnlyGrow` | src/cn5_research_cos/graph.py:547-643 | From any moment of a run to any later one challenges and issues only move forward, and tasks, evidence, recorded queries and the worker buffer are only appended to; ids stay counted and no two live challenges become near-duplicates |
| `LoopSafety.TasksKept` | src/cn5_research_cos/graph.py:823-858 | None of the three task minters ever overwrites a human task, at any node |
| `LoopSafety.MapIsItsPasses` | src/cn5_research_cos/graph.py:606-643 | From an empty map, the challenge map at any moment is the one its audit passes build, and the sum of rounds_seen is the number of challenges the auditor raised |
| `LoopSafety.BatchesAreDisjoint` | src/cn5_research_cos/graph.py:81-132 | Two fan-outs of one run never research the same title nor the same issue |
| `LoopSafety.RefoldingAnswersInRuns` | src/cn5_research_cos/graph.py:547-588 | Because the buffer is never emptied, an issue with a bundle in it when it is folded is answered or handed off after any later collect, with nothing more found out |
| `LoopSafety.EvidenceCountsCollects` | src/cn5_research_cos/state.py:23 | At any moment of any run the evidence holds each gathered bundle once for every collect since the fan-out that gathered it, besides the initial and the reference bundles |
| `LoopSafety.OneBundlePerIssue` | src/cn5_research_cos/state.py:23 | With distinct supervisor ids and bundles labelled with their issue, the buffer never holds two bundles for one issue in a whole run |
| `LoopSafety.NobodyIsAnsweredAtOnce` | src/cn5_research_cos/graph.py:547-588 | So a collect that finds an issue open leaves it unanswered: only refolding makes it answered |
| `ResearchLoop.Loop.constructor` | src/cn5_research_cos/graph.py:1288-1341 | A run begins at intake with nothing but the research state set |
| `ResearchLoop.Loop.Invoke` | src/cn5_research_cos/graph.py:1288-1370 | The driver under a recursion limit: the state is the run of the inputs, and with a settled brief and a limit of at least 50 + 20·N it is END |
| `ResearchLoop.Loop.Advance` | src/cn5_research_cos/graph.py:1184-1259 | One super-step makes exactly the transition of the specification and keeps the task ids well numbered |
| `ResearchLoop.Loop.Clarify` | src/cn5_research_cos/graph.py:222-251 | The flag is set when the criteria are pinned or the brief assumed, and decides the next node |
| `ResearchLoop.Loop.OrchestratorPlan` | src/cn5_research_cos/graph.py:288-306 | Steer events are consumed, an empty issue map is seeded, the grid is replaced when there is an orchestrator |
| `ResearchLoop.Loop.PlanAudit` | src/cn5_research_cos/graph.py:653-673 | An unchanged non-empty plan signature skips the audit; otherwise the audit and the signature are recorded |
| `ResearchLoop.Loop.PlanApproval` | src/cn5_research_cos/graph.py:254-285 | Approval is recorded on the first visit, after two or more new cells, and always when the brief is assumed |
| `ResearchLoop.Loop.RunResearchFanout` | src/cn5_research_cos/graph.py:392-464 | The bundles come in selection order, one at most per selected issue; a researcher that failed leaves none |
| `ResearchLoop.Loop.ResearchFanout` | src/cn5_research_cos/graph.py:467-478 | The selected issues are recorded and their bundles appended to the buffer |
| `ResearchLoop.Loop.Collect` | src/cn5_research_cos/graph.py:547-588 | The whole buffer and the reference bundles become evidence, issues advance, the grid is reclassified |
| `ResearchLoop.Loop.AlbertAudit` | src/cn5_research_cos/graph.py:606-643 | The audit is recorded, its challenges are upserted and promoted, the convergence signal is appended |
| `ResearchLoop.Loop.ReadinessScoring` | src/cn5_research_cos/graph.py:693-706 | The challenge axis is overridden from the map when it is not empty; history and iteration count advance |
| `ResearchLoop.Loop.DecideCos` | src/cn5_research_cos/graph.py:1067-1115 | The staged early returns give the decision of the specification |
| `ResearchLoop.Loop.RouteDecision` | src/cn5_research_cos/graph.py:1121-1164 | The router gives the specified node and itself records the cap reason |
| `ResearchLoop.Loop.CosDecision` | src/cn5_research_cos/graph.py:1051-1115 | Decision, competitor branch and route together |
| `ResearchLoop.Loop.HumanPull` | src/cn5_research_cos/graph.py:785-820 | One pending request is consumed; cap, ceiling and loop head are tried in this order |
| `ResearchLoop.Loop.HumanPush` | src/cn5_research_cos/graph.py:823-858 | The highest-impact addressable issue is handed off: a task is minted and the issue blocked |
| `ResearchLoop.Loop.BuildAndGateMemo` | src/cn5_research_cos/graph.py:890-914 | The memo, its fate at the four gates and the minted tasks; a recorded cap reason counts as an explicit order |
| `IssueMap.AddAllAppends` | src/cn5_research_cos/artifacts/issue_map.py:7-35 | Adding issues appends one open issue per draft with the next ids and overwrites none |
| `IssueMap.CompetitorComesOnce` | src/cn5_research_cos/graph.py:718-728 | The branch budget is spent only for a competitor issue the map did not have; a second rework verdict changes nothing |
| `IssueMap.ConsumeSteerEvents` | src/cn5_research_cos/graph.py:319-333 | The nested loop raises the impact of every issue a steer text names |
| `IssueMap.SteeringMeans` | src/cn5_research_cos/graph.py:319-333 | Steering touches only the impact, which rises by one per text naming the issue, up to 5, in whatever order the texts come |
| `IssueMap.NamedMeans` | src/cn5_research_cos/graph.py:319-333 | A text names an issue exactly when the title is not empty and one of the two occurs in the other |
| `IssueMap.FoldResults` | src/cn5_research_cos/graph.py:547-567 | Folding appends every buffered bundle to the evidence and advances its issue |
| `IssueMap.FoldingMeans` | src/cn5_research_cos/graph.py:557-565 | n bundles move their issue n steps forward, never past answered, leave n evidence refs and nothing else changed |
| `IssueMap.FoldedRefs` | src/cn5_research_cos/graph.py:557-565 | Each issue afterwards cites the queries of its bundles, in order, after what it cited before |
| `IssueMap.RefoldingAnswers` | src/cn5_research_cos/graph.py:557-565 | One bundle, folded again by the next collect, answers an open issue and is cited twice |
| `IssueMap.PushTargetIsHighest` | src/cn5_research_cos/graph.py:823-842 | An issue is handed off exactly when one is addressable, and it has the highest impact of those |
| `IssueMap.PushTargetIsFirst` | src/cn5_research_cos/graph.py:823-842 | Of several issues of the highest impact the first in the map is handed off |
| `ResearchSelection.SelectResearchIssues` | src/cn5_research_cos/graph.py:81-132 | The loop over supervisor ids, the stable sort and the recording loop give the specified selection |
| `ResearchSelection.ChosenIsTopK` | src/cn5_research_cos/graph.py:109-132 | A batch is the top-k of the candidates by (open challenge, impact), ties in supervisor order, and only what exceeds the budget is cut |
| `ResearchSelection.SelectionIsFresh` | src/cn5_research_cos/graph.py:81-132 | At most k issues go out, none answered or blocked, none with a title researched before, and their titles are recorded |
| `ResearchSelection.RecordedOnce` | src/cn5_research_cos/graph.py:126-132 | No title is recorded as researched a second time |
| `ResearchSelection.CandidatesMean` | src/cn5_research_cos/graph.py:100-124 | A candidate is exactly an issue some id of the supervisor leads to that is neither answered nor blocked nor researched before, marked exactly when an open or answered challenge is about it |
| `ResearchSelection.BatchComesFirst` | src/cn5_research_cos/graph.py:109-132 | Whatever is sent out comes before whatever is cut: an issue with an open challenge before one without, then by impact |
| `ResearchSelection.OneCallCanRepeatATitle` | src/cn5_research_cos/graph.py:100-120 | "Researched at most once per run" fails inside one call: two open issues with one title both go out |
| `ResearchSelection.TitlesRepeatExactlyWhen` | src/cn5_research_cos/graph.py:100-120 | A call repeats no title, whatever its budget, exactly when no two of its candidates share one |
| `ResearchSelection.DifferentIdsStayDifferent` | src/cn5_research_cos/graph.py:100-120 | With distinct supervisor ids a batch holds no issue twice |
| `SessionPool.PoolIsSafe` | src/cn5_research_cos/llm/sdk_client.py:810-896 | In every interleaving, per key: free permits plus tasks inside an acquire equal the cap; idle, held and connecting sessions stay within it; no session is both idle and in use, in use twice, or idle twice |
| `SessionPool.InvKept` | src/cn5_research_cos/llm/sdk_client.py:832-856 | Every atomic step of any task keeps the pool invariant |
| `SessionPool.PermitAccounting` | src/cn5_research_cos/llm/sdk_client.py:927-946 | Every acquire that ends, normally or by an exception, returns exactly one permit, a grant takes exactly one, nothing else touches one, and a task only starts to back off with a step that returned its permit |
| `SessionPool.PoolLoop.Resume` | src/cn5_research_cos/llm/sdk_client.py:858-896 | On the pool and acquire objects a resumed task makes exactly the step of the protocol |
| `SessionPool.PoolAcquire.EnterIdle` | src/cn5_research_cos/llm/sdk_client.py:927-937 | An idle session of the key is handed out and remembered |
| `SessionPool.QuiescentPoolIsWhole` | src/cn5_research_cos/llm/sdk_client.py:858-904 | When all tasks are done all permits are back, and the pool lists exactly the idle sessions, so aclose leaves none connected |
| `SessionPool.SomeoneCanMove` | src/cn5_research_cos/llm/sdk_client.py:858-896 | No deadlock: while a task is unfinished some task can take a step |
| `SessionPool.RunsAreBounded` | src/cn5_research_cos/llm/sdk_client.py:858-896 | No schedule is longer than six steps per attempt |
| `SessionPool.FailedTurnIsReused` | src/cn5_research_cos/llm/sdk_client.py:848-856 | On the retry path a session whose turn failed still has its client: it is not dropped but is the next one handed out for its key |
| `PoolRetry.AttemptsAreCounted` | src/cn5_research_cos/llm/sdk_client.py:858-896 | In every interleaving, for every call: it is done exactly when one of its turns succeeded; it has given up exactly when as many attempts failed as it is allowed; in between its attempt number is one more than its failures |
| `PoolRetry.FailuresThenSuccess` | src/cn5_research_cos/llm/sdk_client.py:880-896 | For every number of failures below the limit there is a run in which a call fails that often and its next attempt makes it done |
| `PoolRetry.AskStopsAtFirstSuccess` | src/cn5_research_cos/llm/sdk_client.py:714-752 | A session answers with its first turn that meets a client and succeeds, and runs no further one |
| `PoolRetry.AskFailsInTheEnd` | src/cn5_research_cos/llm/sdk_client.py:714-752 | Without such a turn it uses up its attempts and fails |
| `SessionPool.AskLeavesClient` | src/cn5_research_cos/llm/sdk_client.py:714-752 | A single-attempt session keeps its client whatever the turn does; with more attempts it is missing exactly when the last reconnect constructed none |
| `SessionPool.ClaudeSession.AskAsync` | src/cn5_research_cos/llm/sdk_client.py:714-752 | The retry loop gives the specified result, client and number of turns |
| `SessionPool.AsyncSessionPool.PopIdle` | src/cn5_research_cos/llm/sdk_client.py:832-839 | Checkout takes the most recently returned idle session of the key |
| `SessionPool.AsyncSessionPool.Checkin` | src/cn5_research_cos/llm/sdk_client.py:848-856 | A session with a client goes to the idle list of its key, one without is removed from the pool list |
| `SessionPool.AsyncSessionPool.AClose` | src/cn5_research_cos/llm/sdk_client.py:898-904 | Every listed session is disconnected and the pool is empty |
| `SessionPool.PoolAcquire.EnterConnected` | src/cn5_research_cos/llm/sdk_client.py:927-937 | A failed connect gives the permit back |
| `SessionPool.PoolAcquire.Exit` | src/cn5_research_cos/llm/sdk_client.py:939-946 | Leaving returns the session and exactly one permit |
| `Difflib.LongestMatchIsDocumented` | src/cn5_research_cos/citation/verify.py:56-60 | find_longest_match, as verify relies on it: the longest block, of those the earliest in the first and then in the second string, and nothing else meets that contract |
| `Difflib.Blocks` | src/cn5_research_cos/citation/verify.py:56-57 | Matching blocks lie in the searched rectangle, agree there, advance strictly in both strings and never touch |
| `Difflib.GapsShareNothing` | src/cn5_research_cos/citation/verify.py:49-65 | Nothing is left over: equal characters of the two strings never lie in one gap between blocks |
| `Difflib.MatchCountIsCommon` | src/cn5_research_cos/citation/verify.py:60 | The M of ratio() is the length of a common subsequence of both strings |
| `Difflib.RatioIsOne` | src/cn5_research_cos/citation/verify.py:60 | The ratio is 1 exactly for equal strings |
| `Difflib.RatioIsZero` | src/cn5_research_cos/citation/verify.py:60 | The ratio is 0 exactly when the strings share no character |
| `CitationVerify.QuoteCoverage` | src/cn5_research_cos/citation/verify.py:49-65 | The scan with its early break computes the specified coverage |
| `CitationVerify.CoverageRange` | src/cn5_research_cos/citation/verify.py:49-65 | Coverage lies in [0, 1] |
| `CitationVerify.CoverageIsBest` | src/cn5_research_cos/citation/verify.py:49-65 | Coverage is the ratio of one of the alignments tried, and of the best one unless it already reaches 0.999 |
| `CitationVerify.CoverageIsSound` | src/cn5_research_cos/citation/verify.py:49-75 | Coverage ≥ 0.85 comes with a stretch of the longer string, no longer than the shorter one, in which at least 17/23 of the shorter string occurs in order |
| `CitationVerify.QuoteOccursInText` | src/cn5_research_cos/citation/verify.py:49-75 | For a quote no longer than the text, at least 17/23 of the quote itself occurs in order in one stretch of the text |
| `QuotePromise.PromiseHoldsExactlyWhen` | src/cn5_research_cos/citation/verify.py:68-75 | The documented promise, 0.85 of the quote, holds of all quotes of m and texts of n characters exactly when the text is empty, or m ≤ n and m is at most 3 or is 7; every other length has a pair that verifies with less of the quote present |
| `QuotePromise.ExactlyNeededIsGuaranteed` | src/cn5_research_cos/citation/verify.py:49-75 | How much is guaranteed in order: exactly 17/23 of the shorter string, rounded up, and no character more, for each pair of lengths |
| `QuotePromise.WeakerShareHoldsExactlyWhen` | src/cn5_research_cos/citation/verify.py:49-75 | The weaker share, 17/23 of the quote, holds for every text no shorter than the quote and for shorter ones exactly while rounding allows it |
| `QuotePromise.ContiguousRunVerifies` | src/cn5_research_cos/citation/verify.py:1-8 | A quote of which one contiguous run of at least 0.85 occurs in the text always reaches the threshold, so the rule in the head of the file is never stricter than the code |
| `QuotePromise.ContiguousExactlyWhen` | src/cn5_research_cos/citation/verify.py:1-8 | Conversely a verified quote has such a run, for all quotes of m and texts of n characters, exactly when the text is empty or m ≤ n and m ≤ 3: a cut-off window or one wrong character is enough for every longer one |
| `CitationVerify.CoverageIsOne` | src/cn5_research_cos/citation/verify.py:49-65 | Coverage is 1 exactly when the shorter string occurs in the longer one |
| `CitationVerify.CoverageIsZero` | src/cn5_research_cos/citation/verify.py:49-65 | Coverage is 0 exactly when the strings share no character |
| `CitationVerify.EarlyStopKeepsVerdict` | src/cn5_research_cos/citation/verify.py:61-64 | The break at 0.999 never changes the 0.85 verdict |
| `CitationVerify.UnknownRefsAreIgnored` | src/cn5_research_cos/citation/verify.py:78-86 | The code treats a claim as internal where its documentation would check it, exactly when some ref is unknown and all known ones are internal |
| `CitationVerify.VerifyClaim` | src/cn5_research_cos/citation/verify.py:95-127 | The loop over the cited refs gives the specified result |
| `CitationVerify.VerifiedMeansPresent` | src/cn5_research_cos/citation/verify.py:95-127 | A claim is verified exactly when it is internal or its quote reaches 0.85 in the non-empty text of a cited ref |
| `DecisionMemo.FlattenToPrimary` | src/cn5_research_cos/citation/policy.py:122-138 | The refs left are those that are no digest, and ok says whether there are any |
| `DecisionMemo.DigestMeans` | src/cn5_research_cos/citation/policy.py:112-120 | A source is a digest exactly when its id starts with, or its title holds, one of the listed words |
| `DecisionMemo.DigestsVerifyNothing` | src/cn5_research_cos/citation/policy.py:112-138 | A claim citing nothing but digests is never verified |
| `DecisionMemo.VerifiedNeedsPrimary` | src/cn5_research_cos/citation/policy.py:112-138 | A verified claim cites a known source that is no digest and is internal or holds the quote |
| `DecisionMemo.VerifiedExactlyWhen` | src/cn5_research_cos/citation/verify.py:78-127 | A claim is verified exactly when it cites known sources that are no digests and all of them are internal, or one of them holds the quote to 0.85 |
| `DecisionMemo.CitationPass` | src/cn5_research_cos/synthesis/memo.py:116-148 | The pass lists the key claims that stay unverified |
| `DecisionMemo.MemoClaimsMean` | src/cn5_research_cos/synthesis/memo.py:105-113 | The claims of the memo are exactly the claims of the bundles, each under its bundle's issue |
| `DecisionMemo.MemoClaimsInOrder` | src/cn5_research_cos/synthesis/memo.py:105-113 | They come bundle by bundle, each bundle's in its order |
| `DecisionMemo.UnverifiedInOrder` | src/cn5_research_cos/synthesis/memo.py:116-148 | What stays unverified is listed in the order of the evidence, one entry to a claim |
| `DecisionMemo.RouteCitations` | src/cn5_research_cos/synthesis/memo.py:194-256 | The routing loop gives the specified split, only appends tasks and keeps their ids unique |
| `DecisionMemo.RoutingPartitions` | src/cn5_research_cos/synthesis/memo.py:194-256 | Every claim lands in exactly one of cited, dropped and needs_supplement, by its fate and in order |
| `DecisionMemo.RoutedMeans` | src/cn5_research_cos/synthesis/memo.py:194-256 | Cited are exactly the verified claims; of the others exactly those of a known issue of impact ≥ 4, in a run of high pull risk, whose issue is no `na` or `blocked` cell need supplement; the rest are dropped; all in order |
| `DecisionMemo.EachTextIsAskedOnce` | src/cn5_research_cos/synthesis/memo.py:232-255 | Every task minted on the way is open, of priority 5, and asks for a text no task before it asks for |
| `DecisionMemo.RoutingIsIdempotent` | src/cn5_research_cos/synthesis/memo.py:194-207 | Routing again on the same state mints no task and gives the same split |
| `DecisionMemo.SecondPassMintsNothing` | src/cn5_research_cos/synthesis/memo.py:194-207 | The same holds on any later task list that extends the one the first pass left |
| `DecisionMemo.AssembleMemo` | src/cn5_research_cos/synthesis/memo.py:259-312 | Sections, unverified key claims and supplements of the memo, and the tasks minted on the way |
| `DecisionMemo.SupplementsAreSurfaced` | src/cn5_research_cos/synthesis/memo.py:93-102 | Every claim needing supplement is rendered flagged in both the cannot-say and the required-decisions section |
| `DecisionMemo.SectionsMean` | src/cn5_research_cos/synthesis/memo.py:259-312 | Ten sections, each key once, findings first and never empty; each keeps its prose, blockers and challenges appear in theirs, and the flagging sections gain nothing when no claim needs supplement |
| `DecisionMemo.CheckEmission` | src/cn5_research_cos/synthesis/gates.py:37-84 | The four gates in order: first refusal, and emitted exactly when there is none |
| `DecisionMemo.EmittedExactlyWhen` | src/cn5_research_cos/synthesis/gates.py:37-84 | Emitted exactly when the correctness gates hold and, unless explicit, the completeness gates do |
| `DecisionMemo.RefusalMeans` | src/cn5_research_cos/synthesis/gates.py:37-84 | Which gate refuses, for each of the four, exactly |
| `DecisionMemo.EmissionIsHonest` | src/cn5_research_cos/synthesis/gates.py:64-84 | If a memo is emitted, each claim of confidence ≥ 4 is verified, or its text is asked by a task and flagged in both sections; explicit weakens nothing |
| `HumanTasks.CountedMintIsFresh` | src/cn5_research_cos/synthesis/memo.py:236-252 | The next counted task id is free, so minting overwrites nothing |
| `HumanTasks.MintBlockedCellTasks` | src/cn5_research_cos/graph.py:941-966 | The loop over the grid mints the specified tasks |
| `HumanTasks.CellMintsKeep` | src/cn5_research_cos/graph.py:941-966 | Cell tasks only append, keep ids unique, and every blocked cell ends up with one |
| `HumanTasks.CellMintsMean` | src/cn5_research_cos/graph.py:941-966 | Each task minted for the grid is an open one of priority 5 for a blocked cell, naming its vendor and spec group |
| `HumanTasks.CellMintsOnce` | src/cn5_research_cos/graph.py:941-966 | Where every blocked cell has its task nothing is minted |
| `Numbering.IdsAreUnique` | src/cn5_research_cos/artifacts/challenge_map.py:37-38 | "%03d" ids differ for different numbers, also past 999, and never equal a cell task id |
| `Numbering.PaddedMeans` | src/cn5_research_cos/artifacts/challenge_map.py:37-38 | "%03d" is the decimal of the number, padded with zeros to three digits and no further |
| `ChallengeMap.FindLiveMatch` | src/cn5_research_cos/artifacts/challenge_map.py:68-93 | An explicit prior id wins; else the live challenge with the highest ratio ≥ 0.85, the latest among equals |
| `ChallengeMap.Upsert` | src/cn5_research_cos/artifacts/challenge_map.py:96-161 | Merge or mint, and the id of the challenge returned |
| `ChallengeMap.RecordAudit` | src/cn5_research_cos/graph.py:618-631 | An audit pass upserts its challenges in order and promotes the answered ones that have evidence |
| `ChallengeMap.RaisedIsRecorded` | src/cn5_research_cos/graph.py:618-631 | What an audit leaves of a challenge it raised: the one it lands on is resolved exactly when the auditor said so, or said answered and recorded and new evidence are not both empty, and otherwise has the status said; answer, confidence and reasons are the auditor's where given and else the recorded ones; evidence refs are extended |
| `ChallengeMap.EvidenceIsReplacedOnlyOnOverride` | src/cn5_research_cos/artifacts/challenge_map.py:96-161 | Evidence refs are replaced only when the call says so, and otherwise merged |
| `ChallengeMap.RecordOneKeeps` | src/cn5_research_cos/artifacts/challenge_map.py:96-161 | One upsert keeps ids counted and live challenges distinct, adds one to the sum of rounds_seen, and changes no closed challenge |
| `ChallengeMap.EveryRunConverges` | src/cn5_research_cos/graph.py:618-632 | After any audit passes from an empty map: no two live challenges are near-duplicates, ids are fresh, and rounds_seen sums to the number raised |
| `ChallengeMap.RunsOnlyMoveForward` | src/cn5_research_cos/graph.py:618-632 | Texts never change, evidence refs only extend, resolved and escalated challenges never change again |
| `ChallengeMap.PriorIdsReachClosed` | src/cn5_research_cos/artifacts/challenge_map.py:68-93 | A call lands on a closed challenge exactly when an explicit prior id names one; a match by text never does |
| `ChallengeMap.ReopensExactlyWhen` | src/cn5_research_cos/artifacts/challenge_map.py:26-34 | "Never re-open a closed challenge" fails exactly when an explicit prior id names a closed one and the call brings a live status |
| `Decisions.CountsPartition` | src/cn5_research_cos/decision/convergence.py:43-67 | Unresolved, resolved and human-blocked challenges add up to the map, and none is unresolved exactly when none is open or answered |
| `Decisions.RecordSignal` | src/cn5_research_cos/decision/convergence.py:70-74 | The unresolved count is returned and appended |
| `Decisions.RoundIsNearest` | src/cn5_research_cos/decision/convergence.py:93-101 | round() answers the nearest integer, ties to even, and nothing else |
| `Decisions.ReadinessMeaning` | src/cn5_research_cos/decision/convergence.py:93-101 | The score lies in 0..5, meets the target 4 exactly when 10·done ≥ 7·total, and for a non-empty map is 5 exactly when 10·done > 9·total |
| `Decisions.ReadinessIsMonotone` | src/cn5_research_cos/decision/convergence.py:93-101 | Closing more of a fixed number of challenges never lowers the score |
| `Decisions.CapStaysMet` | src/cn5_research_cos/decision/run_cap.py:29-40 | With cost and clock non-decreasing, the reason asked after a met cap is never the empty text |
| `Decisions.CapMeans` | src/cn5_research_cos/decision/run_cap.py:29-43 | Each cap is a hit from the moment it is reached, the cost cap first; an unset one never is |
| `Decisions.PullRiskMeans` | src/cn5_research_cos/decision/risk.py:40-81 | A pull is of high risk exactly when the audit sees a high risk, or nobody set a priority and every open important issue waits for a criterion, or two open important intents compete without a fallback |
| `CellEvidence.SynthesizeCell` | src/cn5_research_cos/decision/cell_synthesis.py:20-47 | The loops over bundles, observations and fields compute the specified synthesis |
| `CellEvidence.FilledMeans` | src/cn5_research_cos/decision/cell_synthesis.py:20-47 | A field is filled exactly when the cell asks for it and an accepted observation reports it |
| `CellEvidence.SynthesisMeans` | src/cn5_research_cos/decision/cell_synthesis.py:20-47 | In terms of the accepted observations of a filled field: contradicted exactly when two differ, weakly sourced exactly when none is primary and no two agree, and the chosen value is one of theirs |
| `CellEvidence.GradeMeans` | src/cn5_research_cos/decision/retrieval_grade.py:7-12 | The three grades of a source, exactly |
| `CellEvidence.LastSourceCounts` | src/cn5_research_cos/decision/cell_synthesis.py:20-25 | An id stands for the last source listed under it |
| `CellEvidence.ClassifyGridCells` | src/cn5_research_cos/graph.py:519-544 | The pass reclassifies every cell that has evidence and leaves the others alone |
| `CellEvidence.StatusMeans` | src/cn5_research_cos/decision/cell_exhaustion.py:25-36 | The exact condition of all five statuses: covered when there are criteria and each is reported; blocked when something is gated and a criterion is missing; else partial when anything is reported; else na when exhausted and open when not |
| `CellEvidence.BundlesOfMeans` | src/cn5_research_cos/graph.py:519-544 | A cell is judged on exactly the bundles labelled with it |
| `CellEvidence.StallsAreCounted` | src/cn5_research_cos/graph.py:519-544 | The stall count rises exactly when a pass changes neither status nor number of filled fields, and else is reset |
| `CellEvidence.CoveredIsAbsorbing` | src/cn5_research_cos/decision/cell_synthesis.py:20-47 | Evidence that downgrades no source id only adds filled fields, so a covered cell stays covered |
| `CellEvidence.NoDowngradeIsExact` | src/cn5_research_cos/decision/cell_synthesis.py:20-47 | Not downgrading is exactly what keeps every accepted observation accepted |
| `CellEvidence.RebindingUncovers` | src/cn5_research_cos/decision/cell_synthesis.py:20-25 | Re-using a source id for a marketing page takes a covered cell back |
| `Triangulation.Triangulate` | src/cn5_research_cos/decision/triangulation.py:27-50 | The grouping and winner loops compute the specified result |
| `Triangulation.GroupedIsRight` | src/cn5_research_cos/decision/triangulation.py:27-37 | Groups are the sources observed under each normalised value, one group per value |
| `Triangulation.ChosenIsObserved` | src/cn5_research_cos/decision/triangulation.py:27-50 | The chosen value is, letter by letter, the last observation made under its normalised value |
| `Triangulation.CorroboratedMeans` | src/cn5_research_cos/decision/triangulation.py:39-50 | Corroborated exactly when some source is primary or some value is observed twice |
| `Triangulation.CorroborationPartsExactlyWhen` | src/cn5_research_cos/decision/triangulation.py:1-3 | What two sources or a primary one corroborate by the documentation is corroborated by the code; the two part exactly when no source is primary, some value repeats, and every repetition comes from one source id |
| `Triangulation.SecondSightCorroborates` | src/cn5_research_cos/decision/triangulation.py:45 | Observations, not sources, are counted: any evidence seen a second time is corroborated |
| `Triangulation.ResolvedAsDocumentedExactlyWhen` | src/cn5_research_cos/decision/triangulation.py:1-3 | The chosen value is a best one by primary, recency and quality exactly when one value is ahead of its peers both in the number of observations and in quality |
| `Triangulation.BestQualityMeans` | src/cn5_research_cos/decision/triangulation.py:38-44 | The best quality of a group, in terms of the qualities of its sources |
| `Triangulation.NumbersBeatQuality` | src/cn5_research_cos/decision/triangulation.py:38-44 | The input where it is not: two observations of medium quality win over one of high quality |
| `Triangulation.ContradictionMeans` | src/cn5_research_cos/decision/triangulation.py:39-50 | The flag is set exactly when two observations differ in normalised value |
| `Triangulation.OnlyPrimaryValueWins` | src/cn5_research_cos/decision/triangulation.py:39-50 | When all primary observations carry one value, that value is chosen |
| `Triangulation.OrderDoesNotMatter` | src/cn5_research_cos/decision/triangulation.py:27-50 | Permuting observations changes neither status nor flag nor, with a single primary value, the chosen value |
| `Ranking.Rank` | src/cn5_research_cos/ranking/heuristic.py:99-137 | The dedup loop and the sort compute the specified ranking |
| `Ranking.RankingIsTopK` | src/cn5_research_cos/ranking/heuristic.py:99-137 | A ranking is the stable top-k of the survivors; nothing cut beats anything kept |
| `Ranking.RankingIsClean` | src/cn5_research_cos/ranking/heuristic.py:99-137 | Given sources only, no junk, one per canonical URL, in descending order of (relevance, authority) |
| `Ranking.SurvivorsMean` | src/cn5_research_cos/ranking/heuristic.py:99-124 | A source survives exactly when it is no junk and the first one of its canonical URL that is none |
| `Ranking.KeyMeans` | src/cn5_research_cos/ranking/heuristic.py:35-49 | More shared keywords come first; of equal ones the type and quality weights decide |
| `Ranking.RankIsIdempotent` | src/cn5_research_cos/ranking/heuristic.py:99-137 | Ranking a ranking changes nothing |
| `StableSort.StableSortIsUnique` | src/cn5_research_cos/ranking/heuristic.py:131-134 | A descending arrangement that keeps equal keys in order is the only one, so the sort used is the library's |
| `Ranking.WorkingBundle.Apply` | src/cn5_research_cos/ranking/pipeline.py:25-44 | Sources and claim refs of the bundle are rewritten as specified |
| `Ranking.ApplyLeavesNoDanglingRef` | src/cn5_research_cos/ranking/pipeline.py:25-44 | The bundle is left with the ranking, or with what an enabled curator makes of it, and every claim with exactly its refs, each as often as before, that name a source left; with the curator off a second application changes nothing |

## Left out

- LoopStops.RunsEndForAReason: assumes cost and clock do not run backwards between a router's two looks at them, and nothing else about them.
- LoopSafety.OneBundlePerIssue: assumes distinct supervisor ids and bundles labelled with the issue they were asked for, which the brains, not the loop, provide.
- SessionPool.PoolIsSafe: cancellation of a task in the middle of a connect is not modelled; the code promises the permit back only for exceptions.
- Updates in place of entries: an issue, challenge, task, cell or bundle is a value inside its map, so two references to one entry are not modelled; the maps themselves are mutable fields.
- Interrupts and resuming: an interrupt is a node that gets an arbitrary answer, and `LoopSteps.Pauses` says where one happens; checkpoints, and the second execution of a node that is resumed, are not part of this model.
- public_exhausted of decision/cell_exhaustion.py: only the researching brain calls it; its verdict reaches the loop as a flag of the bundle, which is an arbitrary answer.
- When steering texts and pull requests arrive: texts arrive just before the nodes that consume them, and pull requests are counted from the start of a run.
- Floating-point rounding of ratios, scores and costs: exact rationals and reals are used.
- Python's strip, lower and upper, URL parsing, tokenising, the junk and login-wall detectors, the challenge text normalisation and ratio, and the plan signature: arbitrary functions.
- Brains, synthesizer, curator, deep auditor, Albert subprocess, document extraction and reference store: arbitrary answers of the right type.
- Fields no modelled decision reads: descriptions, owners, fallback plans, counterarguments, timestamps, observability records, the rendered memo text and section titles.
- citation/policy.py gate_emission, emission_blocked and to_decision, and challenge_map.add: the loop does not call them.
- Roughly equal single-branch code: one-shot and sync session paths, path discovery, model tiers, CLI, reporters, notification e-mail, brief versions and conflicts.
