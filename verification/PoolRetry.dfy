/** What run_with_retry does over a whole run of the pool (llm/sdk_client.py): which attempt a call is
    at, when it gives up and when it is done, told from the events alone. */
module PoolRetry {
  import opened Models
  import opened SessionPool

  // ----- the session's own attempts -----

  /** Whether the j-th of the remaining turns of ask_async meets a client and succeeds. */
  predicate TurnSucceeds(script: seq<Attempt>, left: nat, hasClient: bool, j: nat)
    requires left <= |script| && j < left
  {
    var at := |script| - left + j;
    script[at].turnOk && if j == 0 then hasClient else script[at - 1].constructed
  }

  /** After the first turn the rest of them are the turns of a shorter session. */
  lemma {:induction false} LaterTurns(script: seq<Attempt>, left: nat, hasClient: bool, j: nat)
    requires 0 < j < left <= |script|
    ensures TurnSucceeds(script, left, hasClient, j)
        <==> TurnSucceeds(script, left - 1, script[|script| - left].constructed, j - 1)
  {
  }

  /** None of the next j turns succeeds. */
  predicate NoneOf(script: seq<Attempt>, left: nat, hasClient: bool, j: nat)
    requires j <= left <= |script|
  {
    forall i: nat | i < j :: !TurnSucceeds(script, left, hasClient, i)
  }

  lemma {:induction false} NoneLater(script: seq<Attempt>, left: nat, hasClient: bool, j: nat)
    requires 0 < j <= left <= |script| && NoneOf(script, left, hasClient, j)
    ensures NoneOf(script, left - 1, script[|script| - left].constructed, j - 1)
  {
    var next, later := script[|script| - left].constructed, left - 1;
    forall i: nat | i < j - 1 ensures !TurnSucceeds(script, later, next, i) {
      LaterTurns(script, left, hasClient, i + 1);
    }
  }

  /** ask_async answers with the first turn that succeeds, by whether its output is usable, and runs no
      turn after it. */
  lemma {:induction false} AskStopsAtFirstSuccess(script: seq<Attempt>, left: nat, hasClient: bool, j: nat)
    requires j < left <= |script| && TurnSucceeds(script, left, hasClient, j) && NoneOf(script, left, hasClient, j)
    ensures Ask(script, left, hasClient)
      == (if script[|script| - left + j].outputOk then Answer else NoOutput, true, j + 1)
    decreases left
  {
    if j > 0 {
      var next := script[|script| - left].constructed;
      LaterTurns(script, left, hasClient, j);
      NoneLater(script, left, hasClient, j);
      assert !TurnSucceeds(script, left, hasClient, 0);
      AskStopsAtFirstSuccess(script, left - 1, next, j - 1);
    }
  }

  /** Without a turn that succeeds it uses up its attempts and fails. */
  lemma {:induction false} AskFailsInTheEnd(script: seq<Attempt>, left: nat, hasClient: bool)
    requires left <= |script| && NoneOf(script, left, hasClient, left)
    ensures Ask(script, left, hasClient).0 == TurnsFailed && Ask(script, left, hasClient).2 == left
    decreases left
  {
    if left > 0 {
      assert !TurnSucceeds(script, left, hasClient, 0);
    }
    if left > 1 {
      var next := script[|script| - left].constructed;
      NoneLater(script, left, hasClient, left);
      AskFailsInTheEnd(script, left - 1, next);
    }
  }

  // ----- the attempts of one call -----

  /** The attempt ends badly: the connect or the turn failed. */
  predicate Fails(e: Event) { (e.ConnectEnd? || e.TurnEnd?) && !e.ok }

  predicate Succeeds(e: Event) { e.TurnEnd? && e.ok }

  /** How many attempts of call i have failed so far. */
  function Failures(schedule: seq<(nat, Event)>, i: nat): nat {
    if schedule == [] then 0
    else
      var last := schedule[|schedule| - 1];
      Failures(schedule[..|schedule| - 1], i) + if last.0 == i && Fails(last.1) then 1 else 0
  }

  /** Some turn of call i succeeded. */
  predicate HasSucceeded(schedule: seq<(nat, Event)>, i: nat) {
    schedule != [] &&
    var last := schedule[|schedule| - 1];
    HasSucceeded(schedule[..|schedule| - 1], i) || (last.0 == i && Succeeds(last.1))
  }

  /** Call i has run at all. */
  predicate HasStarted(schedule: seq<(nat, Event)>, i: nat) {
    schedule != [] && (HasStarted(schedule[..|schedule| - 1], i) || schedule[|schedule| - 1].0 == i)
  }

  lemma {:induction false} SucceededMeans(schedule: seq<(nat, Event)>, i: nat)
    ensures HasSucceeded(schedule, i) <==>
      exists p :: 0 <= p < |schedule| && schedule[p].0 == i && Succeeds(schedule[p].1)
    decreases |schedule|
  {
    if schedule != [] {
      var front := schedule[..|schedule| - 1];
      SucceededMeans(front, i);
      if p :| 0 <= p < |front| && front[p].0 == i && Succeeds(front[p].1) {
        assert schedule[p] == front[p];
      }
      if p :| 0 <= p < |schedule| && schedule[p].0 == i && Succeeds(schedule[p].1) {
        assert p < |front| ==> front[p] == schedule[p];
      }
    }
  }

  /** What the events so far say about where a call of at most `most` attempts stands. */
  ghost predicate StandsBy(t: Task, most: nat, failures: nat, succeeded: bool, started: bool) {
    && t.maxAttempts == most && (t.phase == Phase.Done <==> succeeded)
    && (t.phase == Failed ==>
          if most == 0 then failures == 0 && t.attempt == 1 && started else failures == most && t.attempt == most)
    && (t.phase == BackingOff ==> t.attempt == failures < most)
    && (t.phase != Failed && t.phase != BackingOff ==> t.attempt == failures + 1)
    && (t.phase != Failed && t.phase != BackingOff && t.phase != Ready ==> failures < most)
    && (t.phase == Ready ==> failures < most || (most == 0 && failures == 0 && !started))
  }

  lemma {:induction false} StepKeepsStanding(cap: nat, s: State, i: nat, e: Event,
      failures: nat, succeeded: bool, started: bool)
    requires Enabled(s, i, e) && StandsBy(s.tasks[i], s.tasks[i].maxAttempts, failures, succeeded, started)
    ensures StandsBy(Step(cap, s, i, e).tasks[i], s.tasks[i].maxAttempts,
                     failures + (if Fails(e) then 1 else 0), succeeded || Succeeds(e), true)
  {
  }

  lemma {:induction false} OthersStand(cap: nat, s: State, i: nat, e: Event, j: nat)
    requires Enabled(s, i, e) && j < |s.tasks| && j != i
    ensures j < |Step(cap, s, i, e).tasks| && Step(cap, s, i, e).tasks[j] == s.tasks[j]
  {
  }

  lemma {:induction false} SameNumberOfTasks(cap: nat, s: State, i: nat, e: Event)
    requires Enabled(s, i, e)
    ensures |Step(cap, s, i, e).tasks| == |s.tasks|
  {
  }

  lemma {:induction false} CallsStand(cap: nat, tasks: seq<Task>, schedule: seq<(nat, Event)>, i: nat)
    requires Fresh(tasks) && IsRun(cap, tasks, schedule) && i < |tasks|
    ensures |Reached(cap, tasks, schedule).tasks| == |tasks|
    ensures StandsBy(Reached(cap, tasks, schedule).tasks[i], tasks[i].maxAttempts,
                     Failures(schedule, i), HasSucceeded(schedule, i), HasStarted(schedule, i))
    decreases |schedule|
  {
    if schedule != [] {
      hide StandsBy, Step, Enabled;
      var front, last := schedule[..|schedule| - 1], schedule[|schedule| - 1];
      var s := Reached(cap, tasks, front);
      CallsStand(cap, tasks, front, i);
      SameNumberOfTasks(cap, s, last.0, last.1);
      StandsForItsLimit(s.tasks[i], tasks[i].maxAttempts, Failures(front, i),
                        HasSucceeded(front, i), HasStarted(front, i));
      if last.0 == i {
        StepKeepsStanding(cap, s, i, last.1, Failures(front, i), HasSucceeded(front, i), HasStarted(front, i));
      } else {
        EnabledIsInRange(s, last.0, last.1);
        OthersStand(cap, s, last.0, last.1, i);
      }
    }
  }

  lemma {:induction false} EnabledIsInRange(s: State, i: nat, e: Event)
    requires Enabled(s, i, e)
    ensures i < |s.tasks|
  {
  }

  lemma {:induction false} StandsForItsLimit(t: Task, most: nat, failures: nat, succeeded: bool, started: bool)
    requires StandsBy(t, most, failures, succeeded, started)
    ensures t.maxAttempts == most
  {
  }

  /** In every run, for every call: it is done exactly when one of its turns succeeded; it has given up
      exactly when as many of its attempts failed as it is allowed (or it is allowed none and has run);
      in between its attempt number is one more than its failed attempts, a failed one not yet counted
      while it backs off. So no call gives up while an attempt is left. */
  lemma {:induction false} AttemptsAreCounted(cap: nat, tasks: seq<Task>, schedule: seq<(nat, Event)>, i: nat)
    requires Fresh(tasks) && IsRun(cap, tasks, schedule) && i < |tasks|
    ensures |Reached(cap, tasks, schedule).tasks| == |tasks|
    ensures var t, failures := Reached(cap, tasks, schedule).tasks[i], Failures(schedule, i);
      && t.maxAttempts == tasks[i].maxAttempts && failures <= t.maxAttempts
      && (t.phase == Phase.Done <==> exists p :: 0 <= p < |schedule| && schedule[p].0 == i && Succeeds(schedule[p].1))
      && (t.maxAttempts > 0 ==> (t.phase == Failed <==> failures == t.maxAttempts))
      && (t.maxAttempts == 0 ==> (t.phase == Failed <==> HasStarted(schedule, i)))
      && (t.phase == BackingOff ==> t.attempt == failures)
      && (t.phase != BackingOff && t.phase != Failed ==> t.attempt == failures + 1)
  {
    hide Reached, IsRun;
    CallsStand(cap, tasks, schedule, i);
    SucceededMeans(schedule, i);
    StartedOrReady(cap, tasks, schedule, i);
  }

  lemma {:induction false} StartedOrReady(cap: nat, tasks: seq<Task>, schedule: seq<(nat, Event)>, i: nat)
    requires Fresh(tasks) && IsRun(cap, tasks, schedule) && i < |tasks|
    ensures i < |Reached(cap, tasks, schedule).tasks|
    ensures !HasStarted(schedule, i) ==> Reached(cap, tasks, schedule).tasks[i] == tasks[i]
    decreases |schedule|
  {
    if schedule != [] {
      hide Step, Enabled;
      var front, last := schedule[..|schedule| - 1], schedule[|schedule| - 1];
      var s := Reached(cap, tasks, front);
      StartedOrReady(cap, tasks, front, i);
      SameNumberOfTasks(cap, s, last.0, last.1);
      if last.0 != i {
        OthersStand(cap, s, last.0, last.1, i);
      }
    }
  }

  // ----- a retry really reaches success -----

  lemma {:induction false} OneMoreStep(cap: nat, tasks: seq<Task>, schedule: seq<(nat, Event)>, e: (nat, Event))
    requires IsRun(cap, tasks, schedule) && Enabled(Reached(cap, tasks, schedule), e.0, e.1)
    ensures IsRun(cap, tasks, schedule + [e])
    ensures Reached(cap, tasks, schedule + [e]) == Step(cap, Reached(cap, tasks, schedule), e.0, e.1)
  {
    hide Step, Enabled;
    assert (schedule + [e])[..|schedule|] == schedule;
  }

  /** The only call is about to make its attempt n, and all permits are there. */
  ghost predicate AboutToTry(cap: nat, s: State, key: Key, most: nat, n: nat) {
    && s.tasks == [Task(key, n, most, Ready)]
    && (key in s.keys ==> s.keys[key] == KeyState(cap, []))
  }

  lemma {:induction false} FailOnce(cap: nat, tasks: seq<Task>, schedule: seq<(nat, Event)>,
      key: Key, most: nat, n: nat)
    returns (longer: seq<(nat, Event)>)
    requires cap > 0 && IsRun(cap, tasks, schedule) && n < most
    requires AboutToTry(cap, Reached(cap, tasks, schedule), key, most, n)
    ensures IsRun(cap, tasks, longer) && AboutToTry(cap, Reached(cap, tasks, longer), key, most, n + 1)
    ensures Failures(longer, 0) == Failures(schedule, 0) + 1
  {
    hide IsRun, Reached;
    longer := Attempted(cap, tasks, schedule, key, most, n);
    OneMoreStep(cap, tasks, longer, (0, ConnectEnd(false)));
    var failed := longer + [(0, ConnectEnd(false))];
    OneMoreStep(cap, tasks, failed, (0, Wake));
    assert failed[..|longer|] == longer && (failed + [(0, Wake)])[..|failed|] == failed;
    longer := failed + [(0, Wake)];
  }

  lemma {:induction false} NoFailure(schedule: seq<(nat, Event)>, e: (nat, Event))
    requires !Fails(e.1)
    ensures Failures(schedule + [e], 0) == Failures(schedule, 0)
  {
    assert (schedule + [e])[..|schedule|] == schedule;
  }

  /** From trying to connecting. */
  lemma {:induction false} Attempted(cap: nat, tasks: seq<Task>, schedule: seq<(nat, Event)>,
      key: Key, most: nat, n: nat)
    returns (longer: seq<(nat, Event)>)
    requires cap > 0 && IsRun(cap, tasks, schedule) && n <= most
    requires AboutToTry(cap, Reached(cap, tasks, schedule), key, most, n)
    ensures IsRun(cap, tasks, longer) && Failures(longer, 0) == Failures(schedule, 0)
    ensures var s := Reached(cap, tasks, longer);
      && |s.tasks| == 1 && s.tasks[0].key == key && s.tasks[0].maxAttempts == most && s.tasks[0].attempt == n
      && s.tasks[0].phase.Connecting? && key in s.keys && s.keys[key] == KeyState(cap - 1, [])
  {
    hide IsRun, Reached;
    var a := schedule + [(0, Enter)];
    OneMoreStep(cap, tasks, schedule, (0, Enter));
    var b := a + [(0, Grant)];
    OneMoreStep(cap, tasks, a, (0, Grant));
    longer := b + [(0, Checkout)];
    OneMoreStep(cap, tasks, b, (0, Checkout));
    NoFailure(schedule, (0, Enter));
    NoFailure(a, (0, Grant));
    NoFailure(b, (0, Checkout));
  }

  /** Whatever number of attempts below its limit fails first, a call whose next attempt succeeds is done. */
  lemma {:induction false} FailuresThenSuccess(cap: nat, key: Key, most: nat, k: nat)
    returns (schedule: seq<(nat, Event)>)
    requires cap > 0 && k < most
    ensures var tasks := [Task(key, 1, most, Ready)];
      && IsRun(cap, tasks, schedule) && Failures(schedule, 0) == k
      && Reached(cap, tasks, schedule).tasks == [Task(key, k + 1, most, Phase.Done)]
  {
    var tasks := [Task(key, 1, most, Ready)];
    schedule := [];
    for n := 0 to k
      invariant IsRun(cap, tasks, schedule) && AboutToTry(cap, Reached(cap, tasks, schedule), key, most, n + 1)
      invariant Failures(schedule, 0) == n
    {
      schedule := FailOnce(cap, tasks, schedule, key, most, n + 1);
    }
    hide IsRun, Reached;
    var a := Attempted(cap, tasks, schedule, key, most, k + 1);
    var b := a + [(0, ConnectEnd(true))];
    OneMoreStep(cap, tasks, a, (0, ConnectEnd(true)));
    schedule := b + [(0, TurnEnd(true, true))];
    OneMoreStep(cap, tasks, b, (0, TurnEnd(true, true)));
    NoFailure(a, (0, ConnectEnd(true)));
    NoFailure(b, (0, TurnEnd(true, true)));
  }
}
