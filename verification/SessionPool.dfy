/** The bounded async session pool and its retry loop (llm/sdk_client.py), as a protocol: every
    stretch of code between two awaits is one atomic step, and any task may take the next step. */
module SessionPool {
  import opened Models

  /** (model, tools, schema) */
  type Key = string
  type Sess = nat

  // ----- one session's ask_async -----

  /** What one attempt meets: does the turn succeed, is its output usable, and, for the reconnect
      after a failed turn, does a client object get constructed at all. */
  datatype Attempt = Attempt(turnOk: bool, outputOk: bool, constructed: bool)

  datatype AskResult = Answer | NoOutput | TurnsFailed

  /** ask_async over `left` remaining attempts: the result, whether a client is set at the end,
      and how many turns ran. A turn on a session without a client fails. */
  function Ask(script: seq<Attempt>, left: nat, hasClient: bool): (r: (AskResult, bool, nat))
    requires left <= |script|
    ensures r.2 <= left
    ensures r.0 != TurnsFailed ==> r.1
    decreases left
  {
    if left == 0 then (TurnsFailed, hasClient, 0)
    else
      var a := script[|script| - left];
      if a.turnOk && hasClient then (if a.outputOk then Answer else NoOutput, true, 1)
      else if left == 1 then (TurnsFailed, hasClient, 1)
      else var (res, client, turns) := Ask(script, left - 1, a.constructed); (res, client, turns + 1)
  }

  class ClaudeSession {
    const maxAttempts: nat
    var hasClient: bool

    constructor (maxAttempts: nat)
      ensures this.maxAttempts == maxAttempts && !hasClient
    {
      this.maxAttempts, hasClient := maxAttempts, false;
    }

    method AskAsync(script: seq<Attempt>) returns (res: AskResult, turns: nat)
      requires |script| == maxAttempts
      modifies this
      ensures (res, hasClient, turns) == Ask(script, maxAttempts, old(hasClient))
    {
      turns := 0;
      var attempt := 1;
      while attempt <= maxAttempts
        invariant 1 <= attempt <= maxAttempts + 1 && turns == attempt - 1
        invariant var (r0, c0, t0) := Ask(script, maxAttempts, old(hasClient));
          var (r, c, t) := Ask(script, maxAttempts + 1 - attempt, hasClient);
          r0 == r && c0 == c && t0 == t + turns
      {
        var a := script[attempt - 1];
        turns := turns + 1;
        if a.turnOk && hasClient {
          res := if a.outputOk then Answer else NoOutput;
          return;
        }
        if attempt < maxAttempts {
          hasClient := false;
          hasClient := a.constructed;
        }
        attempt := attempt + 1;
      }
      res := TurnsFailed;
    }
  }

  /** With a single attempt the client is left as it was, whatever the turn does; with more, it is
      missing at the end exactly when the last reconnect never constructed one. */
  lemma {:induction false} AskLeavesClient(script: seq<Attempt>, left: nat, hasClient: bool)
    requires 0 < left <= |script|
    ensures left == 1 ==> Ask(script, left, hasClient).1 == hasClient
    ensures Ask(script, left, hasClient).0 == TurnsFailed && left > 1 ==>
      Ask(script, left, hasClient).1 == script[|script| - 2].constructed
    decreases left
  {
    if left > 1 {
      AskLeavesClient(script, left - 1, script[|script| - left].constructed);
    }
  }

  // ----- the pool's own data -----

  /** A key's semaphore value and idle list; both are created together. */
  datatype KeyState = KeyState(permits: nat, idle: seq<Sess>)

  type KeyTable = map<Key, KeyState>

  function SemEnsured(cap: nat, keys: KeyTable, k: Key): KeyTable {
    if k in keys then keys else keys[k := KeyState(cap, [])]
  }

  function PermitTaken(keys: KeyTable, k: Key): KeyTable
    requires k in keys && keys[k].permits > 0
  {
    keys[k := keys[k].(permits := keys[k].permits - 1)]
  }

  function PermitReturned(keys: KeyTable, k: Key): KeyTable
    requires k in keys
  {
    keys[k := keys[k].(permits := keys[k].permits + 1)]
  }

  function IdlePopped(keys: KeyTable, k: Key): KeyTable
    requires k in keys && keys[k].idle != []
  {
    keys[k := keys[k].(idle := keys[k].idle[..|keys[k].idle| - 1])]
  }

  function IdlePushed(keys: KeyTable, k: Key, s: Sess): KeyTable
    requires k in keys
  {
    keys[k := keys[k].(idle := keys[k].idle + [s])]
  }

  /** list.remove: the first occurrence, nothing if there is none. */
  function Removed(all: seq<Sess>, s: Sess): (r: seq<Sess>)
    ensures forall x :: x != s ==> (x in r <==> x in all)
  {
    if all == [] then [] else if all[0] == s then all[1..] else [all[0]] + Removed(all[1..], s)
  }

  /** _checkin: back to the idle list when the session still has a client, else dropped. */
  function CheckedIn(keys: KeyTable, all: seq<Sess>, k: Key, s: Sess, hasClient: bool): (KeyTable, seq<Sess>)
    requires k in keys
  {
    if hasClient then (IdlePushed(keys, k, s), all) else (keys, Removed(all, s))
  }

  class AsyncSessionPool {
    const cap: nat
    var keys: KeyTable
    var all: seq<Sess>

    constructor (cap: nat)
      ensures this.cap == cap && keys == map[] && all == []
    {
      this.cap, keys, all := cap, map[], [];
    }

    method SemFor(k: Key)
      modifies this
      ensures keys == SemEnsured(cap, old(keys), k) && all == old(all)
    {
      if k !in keys {
        keys := keys[k := KeyState(cap, [])];
      }
    }

    /** The part of _checkout before its await: an idle session if there is one. */
    method PopIdle(k: Key) returns (s: Option<Sess>)
      requires k in keys
      modifies this
      ensures all == old(all)
      ensures old(keys)[k].idle == [] ==> s == None && keys == old(keys)
      ensures old(keys)[k].idle != [] ==>
        keys == IdlePopped(old(keys), k) && s == Some(old(keys)[k].idle[|old(keys)[k].idle| - 1])
    {
      var idle := keys[k].idle;
      if idle == [] {
        return None;
      }
      keys := keys[k := keys[k].(idle := idle[..|idle| - 1])];
      s := Some(idle[|idle| - 1]);
    }

    /** The part of _checkout after a connect that succeeded. */
    method Connected(s: Sess)
      modifies this
      ensures all == old(all) + [s] && keys == old(keys)
    {
      all := all + [s];
    }

    /** aclose: the sessions it disconnects, and an empty pool. */
    method AClose() returns (closed: seq<Sess>)
      modifies this
      ensures closed == old(all) && all == [] && keys == map[]
    {
      closed := all;
      all := [];
      keys := map[];
    }

    method Checkin(k: Key, s: Sess, hasClient: bool)
      requires k in keys
      modifies this
      ensures (keys, all) == CheckedIn(old(keys), old(all), k, s, hasClient)
    {
      if hasClient {
        keys := keys[k := keys[k].(idle := keys[k].idle + [s])];
      } else {
        all := Removed(all, s);
      }
    }
  }

  /** _PoolAcquire: remembers whether it holds a permit and which session. */
  class PoolAcquire {
    const pool: AsyncSessionPool
    const key: Key
    var sess: Option<Sess>
    var havePermit: bool

    constructor (pool: AsyncSessionPool, key: Key)
      ensures this.pool == pool && this.key == key && sess == None && !havePermit
    {
      this.pool, this.key, sess, havePermit := pool, key, None, false;
    }

    /** The semaphore let this acquire in. */
    method TakePermit()
      requires key in pool.keys && pool.keys[key].permits > 0
      modifies this, pool
      ensures pool.keys == PermitTaken(old(pool.keys), key) && pool.all == old(pool.all)
      ensures havePermit && sess == old(sess)
    {
      pool.keys := pool.keys[key := pool.keys[key].(permits := pool.keys[key].permits - 1)];
      havePermit := true;
    }

    method ReleasePermit()
      requires key in pool.keys
      modifies this, pool
      ensures pool.keys == (if old(havePermit) then PermitReturned(old(pool.keys), key) else old(pool.keys))
      ensures pool.all == old(pool.all) && !havePermit && sess == old(sess)
    {
      if havePermit {
        pool.keys := pool.keys[key := pool.keys[key].(permits := pool.keys[key].permits + 1)];
        havePermit := false;
      }
    }

    /** __aenter__ from the permit to the connect, if it takes one: an idle session is handed out. */
    method EnterIdle() returns (s: Option<Sess>)
      requires key in pool.keys && havePermit && sess == None
      modifies this, pool
      ensures pool.all == old(pool.all) && havePermit && sess == s
      ensures old(pool.keys)[key].idle == [] ==> s == None && pool.keys == old(pool.keys)
      ensures old(pool.keys)[key].idle != [] ==>
        && pool.keys == IdlePopped(old(pool.keys), key)
        && s == Some(old(pool.keys)[key].idle[|old(pool.keys)[key].idle| - 1])
    {
      s := pool.PopIdle(key);
      sess := s;
    }

    /** __aenter__ once the connect of a new session ended. */
    method EnterConnected(s: Sess, ok: bool)
      requires key in pool.keys && havePermit
      modifies this, pool
      ensures ok ==> pool.all == old(pool.all) + [s] && pool.keys == old(pool.keys) && sess == Some(s) && havePermit
      ensures !ok ==>
        && pool.all == old(pool.all) && pool.keys == PermitReturned(old(pool.keys), key)
        && sess == old(sess) && !havePermit
    {
      if ok {
        pool.Connected(s);
        sess := Some(s);
      } else {
        ReleasePermit();
      }
    }

    /** __aexit__: the session goes back or is dropped, and the permit is returned either way. */
    method Exit(hasClient: bool)
      requires key in pool.keys
      modifies this, pool
      ensures
        var (keys, all) :=
          if old(sess).Some? then CheckedIn(old(pool.keys), old(pool.all), key, old(sess).value, hasClient)
          else (old(pool.keys), old(pool.all));
        && pool.all == all && pool.keys == if old(havePermit) then PermitReturned(keys, key) else keys
      ensures !havePermit
    {
      if sess.Some? {
        pool.Checkin(key, sess.value, hasClient);
      }
      ReleasePermit();
    }
  }

  // ----- the protocol -----

  /** Where one run_with_retry call stands. Permitted: let in by the semaphore, not yet resumed. */
  datatype Phase =
    | Ready | Waiting | Permitted | Connecting(sess: Sess) | Holding(sess: Sess) | BackingOff | Done | Failed

  datatype Task = Task(key: Key, attempt: nat, maxAttempts: nat, phase: Phase)

  datatype State = State(keys: KeyTable, all: seq<Sess>, next: Sess, tasks: seq<Task>)

  /** Grant, ConnectEnd and TurnEnd are what an await returns with. */
  datatype Event =
    | Enter | Grant | Checkout | ConnectEnd(ok: bool) | TurnEnd(ok: bool, hasClient: bool) | Wake

  predicate Enabled(s: State, i: nat, e: Event) {
    && i < |s.tasks|
    && var t := s.tasks[i];
       match e
       case Enter => t.phase == Ready
       case Grant => t.phase == Waiting && t.key in s.keys && s.keys[t.key].permits > 0
       case Checkout => t.phase == Permitted && t.key in s.keys
       case ConnectEnd(_) => t.phase.Connecting? && t.key in s.keys
       case TurnEnd(_, _) => t.phase.Holding? && t.key in s.keys
       case Wake => t.phase == BackingOff
  }

  /** After a failed attempt: back off, or give up on the last one. */
  function AfterFailure(t: Task): Task {
    t.(phase := if t.attempt < t.maxAttempts then BackingOff else Failed)
  }

  function Step(cap: nat, s: State, i: nat, e: Event): State
    requires Enabled(s, i, e)
  {
    var t := s.tasks[i];
    var k := t.key;
    match e
    case Enter =>
      if t.attempt > t.maxAttempts then s.(tasks := s.tasks[i := t.(phase := Failed)])
      else s.(keys := SemEnsured(cap, s.keys, k), tasks := s.tasks[i := t.(phase := Waiting)])
    case Grant => s.(keys := PermitTaken(s.keys, k), tasks := s.tasks[i := t.(phase := Permitted)])
    case Checkout =>
      var idle := s.keys[k].idle;
      if idle != []
      then s.(keys := IdlePopped(s.keys, k), tasks := s.tasks[i := t.(phase := Holding(idle[|idle| - 1]))])
      else s.(next := s.next + 1, tasks := s.tasks[i := t.(phase := Connecting(s.next))])
    case ConnectEnd(ok) =>
      if ok then s.(all := s.all + [t.phase.sess], tasks := s.tasks[i := t.(phase := Holding(t.phase.sess))])
      else s.(keys := PermitReturned(s.keys, k), tasks := s.tasks[i := AfterFailure(t)])
    case TurnEnd(ok, hasClient) =>
      var (keys, all) := CheckedIn(s.keys, s.all, k, t.phase.sess, hasClient);
      s.(keys := PermitReturned(keys, k), all := all,
         tasks := s.tasks[i := if ok then t.(phase := Phase.Done) else AfterFailure(t)])
    case Wake => s.(tasks := s.tasks[i := t.(phase := Ready, attempt := t.attempt + 1)])
  }

  predicate InAcquire(p: Phase) { p == Permitted || p.Connecting? || p.Holding? }

  predicate HasSession(p: Phase) { p.Connecting? || p.Holding? }

  predicate Finished(p: Phase) { p == Phase.Done || p == Failed }

  // ----- the protocol on the objects -----

  /** A task is between creating its acquire and leaving it. */
  predicate HasAcquire(p: Phase) { p == Waiting || InAcquire(p) }

  /** The event loop: any number of run_with_retry calls on one pool, each with the acquire of its
      current attempt, resumed one at a time. */
  class PoolLoop {
    const pool: AsyncSessionPool
    var next: Sess
    var tasks: seq<Task>
    var acquires: seq<PoolAcquire?>

    constructor (cap: nat, tasks: seq<Task>)
      requires Fresh(tasks)
      ensures Valid() && Now() == Start(tasks) && pool.cap == cap && fresh(pool)
    {
      pool := new AsyncSessionPool(cap);
      next, this.tasks := 0, tasks;
      acquires := seq(|tasks|, i => null);
    }

    ghost function Now(): State
      reads this, pool
    {
      State(pool.keys, pool.all, next, tasks)
    }

    /** The acquire of task i is its own and knows what the task's phase says. */
    ghost predicate Knows(i: nat)
      requires i < |tasks| && |acquires| == |tasks|
      reads this, acquires
    {
      HasAcquire(tasks[i].phase) ==>
        && acquires[i] != null && acquires[i].pool == pool && acquires[i].key == tasks[i].key
        && acquires[i].havePermit == InAcquire(tasks[i].phase)
        && acquires[i].sess == (if tasks[i].phase.Holding? then Some(tasks[i].phase.sess) else None)
        && forall j :: 0 <= j < |tasks| && j != i && HasAcquire(tasks[j].phase) ==> acquires[j] != acquires[i]
    }

    ghost predicate Valid()
      reads this, acquires
    {
      |acquires| == |tasks| && forall i :: 0 <= i < |tasks| ==> Knows(i)
    }

    /** Task i runs from one await to the next: exactly the step of the protocol. */
    method Resume(i: nat, e: Event)
      requires Valid() && Enabled(Now(), i, e)
      modifies this, pool, acquires
      ensures Valid() && Now() == Step(pool.cap, old(Now()), i, e)
      ensures forall a :: a in acquires && a !in old(acquires) ==> fresh(a)
    {
      match e {
        case Enter => Enter(i);
        case Grant => TakePermit(i);
        case Checkout => Checkout(i);
        case ConnectEnd(ok) => EndConnect(i, ok);
        case TurnEnd(ok, hasClient) => EndTurn(i, ok, hasClient);
        case Wake => WakeUp(i);
      }
    }

    /** When only task i and its acquire changed and that acquire knows its phase, so do all of them. */
    twostate lemma StillKnown(i: nat)
      requires old(Valid()) && i < |tasks| == |old(tasks)| && acquires == old(acquires)
      requires tasks == old(tasks)[i := tasks[i]] && tasks[i].key == old(tasks)[i].key
      requires HasAcquire(old(tasks)[i].phase)
      requires HasAcquire(tasks[i].phase) ==>
        && acquires[i] != null && acquires[i].havePermit == InAcquire(tasks[i].phase)
        && acquires[i].sess == (if tasks[i].phase.Holding? then Some(tasks[i].phase.sess) else None)
      requires forall j :: 0 <= j < |acquires| && acquires[j] != null && acquires[j] != acquires[i] ==>
        unchanged(acquires[j])
      ensures Valid()
    {
      assert old(Knows(i));
      forall j | 0 <= j < |tasks| ensures Knows(j) {
        assert old(Knows(j));
      }
    }

    method WakeUp(i: nat)
      requires Valid() && Enabled(Now(), i, Wake)
      modifies this
      ensures Valid() && Now() == Step(pool.cap, old(Now()), i, Wake) && acquires == old(acquires)
    {
      tasks := tasks[i := tasks[i].(phase := Ready, attempt := tasks[i].attempt + 1)];
      forall j | 0 <= j < |tasks| ensures Knows(j) {
        assert old(Knows(j));
      }
    }

    method TakePermit(i: nat)
      requires Valid() && Enabled(Now(), i, Grant)
      modifies this, pool, acquires
      ensures Valid() && Now() == Step(pool.cap, old(Now()), i, Grant) && acquires == old(acquires)
    {
      assert Knows(i);
      acquires[i].TakePermit();
      tasks := tasks[i := tasks[i].(phase := Permitted)];
      StillKnown(i);
    }

    method Checkout(i: nat)
      requires Valid() && Enabled(Now(), i, Event.Checkout)
      modifies this, pool, acquires
      ensures Valid() && Now() == Step(pool.cap, old(Now()), i, Event.Checkout) && acquires == old(acquires)
    {
      assert Knows(i);
      var s := acquires[i].EnterIdle();
      if s.Some? {
        tasks := tasks[i := tasks[i].(phase := Holding(s.value))];
      } else {
        tasks := tasks[i := tasks[i].(phase := Connecting(next))];
        next := next + 1;
      }
      StillKnown(i);
    }

    method EndConnect(i: nat, ok: bool)
      requires Valid() && Enabled(Now(), i, ConnectEnd(ok))
      modifies this, pool, acquires
      ensures Valid() && Now() == Step(pool.cap, old(Now()), i, ConnectEnd(ok)) && acquires == old(acquires)
    {
      var t := tasks[i];
      assert Knows(i);
      acquires[i].EnterConnected(t.phase.sess, ok);
      tasks := tasks[i := if ok then t.(phase := Holding(t.phase.sess)) else AfterFailure(t)];
      StillKnown(i);
    }

    method EndTurn(i: nat, ok: bool, hasClient: bool)
      requires Valid() && Enabled(Now(), i, TurnEnd(ok, hasClient))
      modifies this, pool, acquires
      ensures Valid() && Now() == Step(pool.cap, old(Now()), i, TurnEnd(ok, hasClient)) && acquires == old(acquires)
    {
      var t := tasks[i];
      assert Knows(i);
      acquires[i].Exit(hasClient);
      tasks := tasks[i := if ok then t.(phase := Phase.Done) else AfterFailure(t)];
      StillKnown(i);
    }

    /** The head of the retry loop: give up after the last attempt, else create the attempt's acquire. */
    method Enter(i: nat)
      requires Valid() && Enabled(Now(), i, Event.Enter)
      modifies this, pool
      ensures Valid() && Now() == Step(pool.cap, old(Now()), i, Event.Enter)
      ensures forall a :: a in acquires && a !in old(acquires) ==> fresh(a)
    {
      var t := tasks[i];
      if t.attempt > t.maxAttempts {
        tasks := tasks[i := t.(phase := Failed)];
      } else {
        pool.SemFor(t.key);
        var acquire := new PoolAcquire(pool, t.key);
        acquires := acquires[i := acquire];
        tasks := tasks[i := t.(phase := Waiting)];
      }
      forall j | 0 <= j < |tasks| ensures Knows(j) {
        assert old(Knows(j));
        forall k | 0 <= k < |tasks| && k != j && HasAcquire(tasks[j].phase) && HasAcquire(tasks[k].phase)
          ensures acquires[k] != acquires[j]
        {
          assert old(Knows(k));
        }
      }
    }
  }

  // ----- counting -----

  function Inside(ts: seq<Task>, k: Key): nat {
    if ts == [] then 0
    else Inside(ts[..|ts| - 1], k) + if ts[|ts| - 1].key == k && InAcquire(ts[|ts| - 1].phase) then 1 else 0
  }

  function InUse(ts: seq<Task>, k: Key): nat {
    if ts == [] then 0
    else InUse(ts[..|ts| - 1], k) + if ts[|ts| - 1].key == k && HasSession(ts[|ts| - 1].phase) then 1 else 0
  }

  lemma {:induction false} InsideUpdate(ts: seq<Task>, i: nat, t: Task, k: Key)
    requires i < |ts|
    ensures Inside(ts[i := t], k) + (if ts[i].key == k && InAcquire(ts[i].phase) then 1 else 0)
         == Inside(ts, k) + if t.key == k && InAcquire(t.phase) then 1 else 0
    decreases |ts|
  {
    var front := ts[..|ts| - 1];
    if i < |front| {
      InsideUpdate(front, i, t, k);
      assert ts[i := t][..|ts| - 1] == front[i := t];
    } else {
      assert ts[i := t][..|ts| - 1] == front;
    }
  }

  lemma {:induction false} InUseUpdate(ts: seq<Task>, i: nat, t: Task, k: Key)
    requires i < |ts|
    ensures InUse(ts[i := t], k) + (if ts[i].key == k && HasSession(ts[i].phase) then 1 else 0)
         == InUse(ts, k) + if t.key == k && HasSession(t.phase) then 1 else 0
    decreases |ts|
  {
    var front := ts[..|ts| - 1];
    if i < |front| {
      InUseUpdate(front, i, t, k);
      assert ts[i := t][..|ts| - 1] == front[i := t];
    } else {
      assert ts[i := t][..|ts| - 1] == front;
    }
  }

  lemma {:induction false} InUseIsInside(ts: seq<Task>, k: Key)
    ensures InUse(ts, k) <= Inside(ts, k)
    ensures Inside(ts, k) == 0 <==> forall i :: 0 <= i < |ts| && ts[i].key == k ==> !InAcquire(ts[i].phase)
    decreases |ts|
  {
    if ts != [] {
      InUseIsInside(ts[..|ts| - 1], k);
    }
  }

  // ----- the invariant -----

  /** Permits and tasks inside an acquire add up to the cap; idle, held and connecting sessions
      never exceed it. */
  ghost predicate Balanced(cap: nat, s: State) {
    forall k :: k in s.keys ==>
      && s.keys[k].permits + Inside(s.tasks, k) == cap
      && |s.keys[k].idle| + InUse(s.tasks, k) <= cap
  }

  ghost predicate IdleIn(s: State, k: Key, x: Sess) { k in s.keys && x in s.keys[k].idle }

  ghost predicate Owns(s: State, i: nat, x: Sess) {
    i < |s.tasks| && HasSession(s.tasks[i].phase) && s.tasks[i].phase.sess == x
  }

  /** The one place of a session in circulation. */
  datatype Place = IdleAt(key: Key) | WithTask(i: nat)

  ghost predicate InPlace(s: State, x: Sess, p: Place) {
    match p
    case IdleAt(k) => IdleIn(s, k, x)
    case WithTask(i) => Owns(s, i, x)
  }

  ghost predicate StillConnecting(s: State, p: Place) {
    p.WithTask? && p.i < |s.tasks| && s.tasks[p.i].phase.Connecting?
  }

  /** `home` names the one place of every session that is idle, held or connecting; session numbers
      are below the next one; the pool's own list names exactly the connected ones. */
  ghost predicate Located(s: State, home: map<Sess, Place>) {
    && (forall k: Key, x: Sess :: IdleIn(s, k, x) ==> x in home && home[x] == IdleAt(k))
    && (forall i: nat, x: Sess :: Owns(s, i, x) ==> x in home && home[x] == WithTask(i))
    && (forall x: Sess :: x in home ==> x < s.next && InPlace(s, x, home[x]))
    && (forall x: Sess :: x in s.all <==> x in home && !StillConnecting(s, home[x]))
  }

  /** No list of the pool names a session twice. */
  ghost predicate NoneTwice(s: State) {
    NoRepeats(s.all) && forall k :: k in s.keys ==> NoRepeats(s.keys[k].idle)
  }

  ghost predicate Homed(s: State, home: map<Sess, Place>) { Located(s, home) && NoneTwice(s) }

  ghost predicate NoRepeats(xs: seq<Sess>) {
    forall a, b :: 0 <= a < b < |xs| ==> xs[a] != xs[b]
  }

  ghost predicate KeysKnown(s: State) {
    forall i :: 0 <= i < |s.tasks| && HasAcquire(s.tasks[i].phase) ==> s.tasks[i].key in s.keys
  }

  ghost predicate Inv(cap: nat, s: State) {
    Balanced(cap, s) && KeysKnown(s) && exists home :: Homed(s, home)
  }

  function Start(tasks: seq<Task>): State { State(map[], [], 0, tasks) }

  ghost predicate Fresh(tasks: seq<Task>) {
    forall i :: 0 <= i < |tasks| ==> tasks[i].phase == Ready && tasks[i].attempt == 1
  }

  /** How a step moves one key's numbers: its permits, idle sessions, and the tasks inside. */
  lemma {:induction false} StepMoves(cap: nat, s: State, i: nat, e: Event, k: Key)
    requires Enabled(s, i, e) && k in s.keys
    ensures var s', t, t' := Step(cap, s, i, e), s.tasks[i], Step(cap, s, i, e).tasks[i];
      && k in s'.keys && t'.key == t.key && |s'.tasks| == |s.tasks| && s'.tasks == s.tasks[i := t']
      && (k != t.key ==> s'.keys[k] == s.keys[k])
      && (k == t.key ==>
           && s'.keys[k].permits + (if InAcquire(t'.phase) then 1 else 0)
              == s.keys[k].permits + (if InAcquire(t.phase) then 1 else 0)
           && (|s'.keys[k].idle| + (if HasSession(t'.phase) then 1 else 0)
               <= |s.keys[k].idle| + (if HasSession(t.phase) then 1 else 0)
               || (|s'.keys[k].idle| == 0 && InAcquire(t'.phase))))
  {
  }

  lemma {:induction false} BalancedAt(cap: nat, s: State, i: nat, e: Event, k: Key)
    requires Enabled(s, i, e) && Balanced(cap, s) && KeysKnown(s)
    requires k in s.keys
    ensures var s' := Step(cap, s, i, e);
      && s'.keys[k].permits + Inside(s'.tasks, k) == cap
      && |s'.keys[k].idle| + InUse(s'.tasks, k) <= cap
  {
    StepMoves(cap, s, i, e, k);
    var t' := Step(cap, s, i, e).tasks[i];
    InsideUpdate(s.tasks, i, t', k);
    InUseUpdate(s.tasks, i, t', k);
    InUseIsInside(s.tasks[i := t'], k);
  }

  lemma {:induction false} NewKeyIsBalanced(cap: nat, s: State, i: nat, e: Event, k: Key)
    requires Enabled(s, i, e) && KeysKnown(s)
    requires k !in s.keys && k in Step(cap, s, i, e).keys
    ensures var s' := Step(cap, s, i, e);
      s'.keys[k] == KeyState(cap, []) && Inside(s'.tasks, k) == 0 && InUse(s'.tasks, k) == 0
  {
    InUseIsInside(s.tasks, k);
    InUseIsInside(Step(cap, s, i, e).tasks, k);
  }

  lemma {:induction false} BalancedKept(cap: nat, s: State, i: nat, e: Event)
    requires Enabled(s, i, e) && Balanced(cap, s) && KeysKnown(s)
    ensures Balanced(cap, Step(cap, s, i, e)) && KeysKnown(Step(cap, s, i, e))
  {
    forall k | k in Step(cap, s, i, e).keys
      ensures var s' := Step(cap, s, i, e);
        s'.keys[k].permits + Inside(s'.tasks, k) == cap && |s'.keys[k].idle| + InUse(s'.tasks, k) <= cap
    {
      if k in s.keys {
        BalancedAt(cap, s, i, e, k);
      } else {
        NewKeyIsBalanced(cap, s, i, e, k);
      }
    }
  }

  ghost function Moved(s: State, i: nat, e: Event, home: map<Sess, Place>): map<Sess, Place>
    requires Enabled(s, i, e)
  {
    var t := s.tasks[i];
    match e
    case Checkout =>
      var idle := s.keys[t.key].idle;
      home[(if idle != [] then idle[|idle| - 1] else s.next) := WithTask(i)]
    case ConnectEnd(ok) => if ok then home else home - {t.phase.sess}
    case TurnEnd(_, hasClient) => if hasClient then home[t.phase.sess := IdleAt(t.key)] else home - {t.phase.sess}
    case _ => home
  }

  lemma {:induction false} RemovedOnce(all: seq<Sess>, x: Sess)
    requires NoRepeats(all)
    ensures x !in Removed(all, x) && NoRepeats(Removed(all, x))
    decreases |all|
  {
    if all != [] && all[0] != x {
      RemovedOnce(all[1..], x);
      var rest := Removed(all[1..], x);
      forall y | y in rest ensures y != all[0] {
        var b :| 0 <= b < |all[1..]| && all[1..][b] == y;
        assert all[0] != all[b + 1];
      }
      var r := [all[0]] + rest;
      forall a, b | 0 <= a < b < |r| ensures r[a] != r[b] {
        assert r[b] == rest[b - 1] && r[b] in rest;
        assert a > 0 ==> r[a] == rest[a - 1];
      }
    }
  }

  lemma {:induction false} NoneTwiceKept(cap: nat, s: State, i: nat, e: Event, home: map<Sess, Place>)
    requires Enabled(s, i, e) && Homed(s, home)
    ensures NoneTwice(Step(cap, s, i, e))
  {
    var s', t := Step(cap, s, i, e), s.tasks[i];
    match e
    case ConnectEnd(ok) => assert Owns(s, i, t.phase.sess);
    case TurnEnd(ok, hasClient) =>
      assert Owns(s, i, t.phase.sess) && !IdleIn(s, t.key, t.phase.sess);
      RemovedOnce(s.all, t.phase.sess);
    case _ =>
  }

  /** Only session x, the one task i deals with, changes place. */
  ghost predicate OnlyMoves(s: State, s': State, i: nat, x: Sess) {
    && (forall l: Key, y: Sess :: y != x ==> (IdleIn(s', l, y) <==> IdleIn(s, l, y)))
    && (forall j: nat, y: Sess :: j != i ==> (Owns(s', j, y) <==> Owns(s, j, y)))
    && (forall y: Sess :: Owns(s, i, y) || Owns(s', i, y) ==> y == x)
    && (forall y: Sess :: y != x ==> (y in s'.all <==> y in s.all))
    && |s'.tasks| == |s.tasks| && (forall j :: 0 <= j < |s.tasks| && j != i ==> s'.tasks[j] == s.tasks[j])
    && s.next <= s'.next && x < s'.next
  }

  ghost predicate IsNowhere(s: State, x: Sess) {
    (forall l: Key :: !IdleIn(s, l, x)) && (forall j: nat :: !Owns(s, j, x)) && x !in s.all
  }

  ghost predicate IsOnlyAt(s: State, x: Sess, p: Place) {
    && InPlace(s, x, p) && (x in s.all <==> !StillConnecting(s, p))
    && (forall l: Key :: IdleIn(s, l, x) ==> p == IdleAt(l))
    && (forall j: nat :: Owns(s, j, x) ==> p == WithTask(j))
  }

  lemma {:induction false} MovedHome(s: State, s': State, i: nat, x: Sess, p: Place, home: map<Sess, Place>)
    requires Located(s, home) && OnlyMoves(s, s', i, x) && IsOnlyAt(s', x, p)
    ensures Located(s', home[x := p])
  {
    forall y: Sess | y in home && y != x
      ensures InPlace(s', y, home[y]) && (StillConnecting(s', home[y]) <==> StillConnecting(s, home[y]))
    {
      assert InPlace(s, y, home[y]);
    }
  }

  lemma {:induction false} LostHome(s: State, s': State, i: nat, x: Sess, home: map<Sess, Place>)
    requires Located(s, home) && OnlyMoves(s, s', i, x) && IsNowhere(s', x)
    ensures Located(s', home - {x})
  {
    forall y: Sess | y in home && y != x
      ensures InPlace(s', y, home[y]) && (StillConnecting(s', home[y]) <==> StillConnecting(s, home[y]))
    {
      assert InPlace(s, y, home[y]);
    }
  }

  lemma {:induction false} ReuseKeepsHomes(cap: nat, s: State, i: nat, home: map<Sess, Place>)
    requires Enabled(s, i, Checkout) && Homed(s, home) && s.keys[s.tasks[i].key].idle != []
    ensures Located(Step(cap, s, i, Checkout), Moved(s, i, Checkout, home))
  {
    var k := s.tasks[i].key;
    var idle := s.keys[k].idle;
    var s', x := Step(cap, s, i, Checkout), idle[|idle| - 1];
    assert IdleIn(s, k, x);
    assert forall y: Sess :: IdleIn(s', k, y) <==> IdleIn(s, k, y) && y != x;
    MovedHome(s, s', i, x, WithTask(i), home);
  }

  lemma {:induction false} OpeningKeepsHomes(cap: nat, s: State, i: nat, home: map<Sess, Place>)
    requires Enabled(s, i, Checkout) && Homed(s, home) && s.keys[s.tasks[i].key].idle == []
    ensures Located(Step(cap, s, i, Checkout), Moved(s, i, Checkout, home))
  {
    hide NoneTwice;
    MovedHome(s, Step(cap, s, i, Checkout), i, s.next, WithTask(i), home);
  }

  lemma {:induction false} ConnectKeepsHomes(cap: nat, s: State, i: nat, ok: bool, home: map<Sess, Place>)
    requires Enabled(s, i, ConnectEnd(ok)) && Homed(s, home)
    ensures Located(Step(cap, s, i, ConnectEnd(ok)), Moved(s, i, ConnectEnd(ok), home))
  {
    hide NoneTwice;
    var s', x := Step(cap, s, i, ConnectEnd(ok)), s.tasks[i].phase.sess;
    assert Owns(s, i, x);
    assert forall l: Key, y: Sess :: IdleIn(s', l, y) <==> IdleIn(s, l, y);
    if ok {
      MovedHome(s, s', i, x, WithTask(i), home);
      assert home[x := WithTask(i)] == home;
    } else {
      LostHome(s, s', i, x, home);
    }
  }

  lemma {:induction false} CheckinKeepsHomes(cap: nat, s: State, i: nat, ok: bool, home: map<Sess, Place>)
    requires Enabled(s, i, TurnEnd(ok, true)) && Homed(s, home)
    ensures Located(Step(cap, s, i, TurnEnd(ok, true)), Moved(s, i, TurnEnd(ok, true), home))
  {
    hide NoneTwice;
    var k, x := s.tasks[i].key, s.tasks[i].phase.sess;
    var s' := Step(cap, s, i, TurnEnd(ok, true));
    assert Owns(s, i, x);
    assert s'.keys[k].idle == s.keys[k].idle + [x];
    assert forall y: Sess :: IdleIn(s', k, y) <==> IdleIn(s, k, y) || y == x;
    assert forall l: Key, y: Sess :: l != k ==> (IdleIn(s', l, y) <==> IdleIn(s, l, y));
    MovedHome(s, s', i, x, IdleAt(k), home);
  }

  lemma {:induction false} DropKeepsHomes(cap: nat, s: State, i: nat, ok: bool, home: map<Sess, Place>)
    requires Enabled(s, i, TurnEnd(ok, false)) && Homed(s, home)
    ensures Located(Step(cap, s, i, TurnEnd(ok, false)), Moved(s, i, TurnEnd(ok, false), home))
  {
    var s', x := Step(cap, s, i, TurnEnd(ok, false)), s.tasks[i].phase.sess;
    RemovedOnce(s.all, x);
    hide NoneTwice, NoRepeats;
    assert Owns(s, i, x);
    assert forall l: Key, y: Sess :: IdleIn(s', l, y) <==> IdleIn(s, l, y);
    LostHome(s, s', i, x, home);
  }

  lemma {:induction false} OtherEventsKeepHomes(cap: nat, s: State, i: nat, e: Event, home: map<Sess, Place>)
    requires Enabled(s, i, e) && Homed(s, home) && (e == Enter || e == Grant || e == Wake)
    ensures Located(Step(cap, s, i, e), home)
  {
    hide NoneTwice;
    var s' := Step(cap, s, i, e);
    assert forall l: Key, y: Sess :: IdleIn(s', l, y) <==> IdleIn(s, l, y);
    assert forall j: nat, y: Sess :: Owns(s', j, y) <==> Owns(s, j, y);
  }

  /** Every step of every interleaving keeps the invariant. */
  lemma {:induction false} InvKept(cap: nat, s: State, i: nat, e: Event)
    requires Enabled(s, i, e) && Inv(cap, s)
    ensures Inv(cap, Step(cap, s, i, e))
  {
    BalancedKept(cap, s, i, e);
    var home :| Homed(s, home);
    match e {
      case Checkout =>
        if s.keys[s.tasks[i].key].idle != [] {
          ReuseKeepsHomes(cap, s, i, home);
        } else {
          OpeningKeepsHomes(cap, s, i, home);
        }
      case ConnectEnd(ok) => ConnectKeepsHomes(cap, s, i, ok, home);
      case TurnEnd(ok, hasClient) =>
        if hasClient { CheckinKeepsHomes(cap, s, i, ok, home); } else { DropKeepsHomes(cap, s, i, ok, home); }
      case _ => OtherEventsKeepHomes(cap, s, i, e, home);
    }
    NoneTwiceKept(cap, s, i, e, home);
    assert Homed(Step(cap, s, i, e), Moved(s, i, e, home));
  }

  // ----- whole runs -----

  /** A schedule names which task takes which step; it is a run when every step is enabled. */
  ghost predicate IsRun(cap: nat, tasks: seq<Task>, schedule: seq<(nat, Event)>)
    decreases |schedule|, 0
  {
    schedule == [] ||
    var front, last := schedule[..|schedule| - 1], schedule[|schedule| - 1];
    IsRun(cap, tasks, front) && Enabled(Reached(cap, tasks, front), last.0, last.1)
  }

  ghost function Reached(cap: nat, tasks: seq<Task>, schedule: seq<(nat, Event)>): State
    requires IsRun(cap, tasks, schedule)
    decreases |schedule|, 1
  {
    if schedule == [] then Start(tasks)
    else
      var front, last := schedule[..|schedule| - 1], schedule[|schedule| - 1];
      Step(cap, Reached(cap, tasks, front), last.0, last.1)
  }

  lemma {:induction false} InvHoldsAtStart(cap: nat, tasks: seq<Task>)
    requires Fresh(tasks)
    ensures Inv(cap, Start(tasks))
  {
    assert Homed(Start(tasks), map[]);
  }

  lemma {:induction false} InvHoldsInEveryRun(cap: nat, tasks: seq<Task>, schedule: seq<(nat, Event)>)
    requires Fresh(tasks) && IsRun(cap, tasks, schedule)
    ensures Inv(cap, Reached(cap, tasks, schedule))
    decreases |schedule|
  {
    InvHoldsAtStart(cap, tasks);
    if schedule != [] {
      var front, last := schedule[..|schedule| - 1], schedule[|schedule| - 1];
      InvHoldsInEveryRun(cap, tasks, front);
      InvKept(cap, Reached(cap, tasks, front), last.0, last.1);
    }
  }

  /** Pool safety in every run, for every key and any number of tasks: permits plus tasks inside an
      acquire make the cap; idle, held and connecting sessions stay within it; no session is both
      idle and in use, in use twice, or idle twice. */
  lemma {:induction false} PoolIsSafe(cap: nat, tasks: seq<Task>, schedule: seq<(nat, Event)>, k: Key)
    requires Fresh(tasks) && IsRun(cap, tasks, schedule)
    ensures var s := Reached(cap, tasks, schedule);
      && (k in s.keys ==> s.keys[k].permits + Inside(s.tasks, k) == cap)
      && (k in s.keys ==> |s.keys[k].idle| + InUse(s.tasks, k) <= cap && NoRepeats(s.keys[k].idle))
      && (forall i: nat, j: nat, x: Sess :: Owns(s, i, x) && Owns(s, j, x) ==> i == j)
      && (forall l: Key, i: nat, x: Sess :: IdleIn(s, l, x) ==> !Owns(s, i, x))
      && (forall l: Key, m: Key, x: Sess :: IdleIn(s, l, x) && IdleIn(s, m, x) ==> l == m)
  {
    InvHoldsInEveryRun(cap, tasks, schedule);
    var home :| Homed(Reached(cap, tasks, schedule), home);
  }

  /** A step that ends an acquire, normally or by an exception, returns exactly one permit; a grant
      takes exactly one; no other step touches a permit of an existing key, and a task only starts to
      back off with a step that returned its permit. */
  lemma {:induction false} PermitAccounting(cap: nat, s: State, i: nat, e: Event, k: Key)
    requires Enabled(s, i, e) && k in s.keys
    ensures var s', t := Step(cap, s, i, e), s.tasks[i];
      var ends := e.TurnEnd? || (e.ConnectEnd? && !e.ok);
      && s'.keys[k].permits ==
           s.keys[k].permits + (if ends && k == t.key then 1 else 0) - (if e == Grant && k == t.key then 1 else 0)
      && (ends <==> InAcquire(t.phase) && !InAcquire(s'.tasks[i].phase))
      && (s'.tasks[i].phase == BackingOff ==> ends)
  {
  }

  /** Once every task is done or has given up, all permits are back and the pool's list holds
      exactly the idle sessions, so closing the listed sessions leaves none connected. */
  lemma {:induction false} QuiescentPoolIsWhole(cap: nat, tasks: seq<Task>, schedule: seq<(nat, Event)>, k: Key)
    requires Fresh(tasks) && IsRun(cap, tasks, schedule)
    requires forall t :: t in Reached(cap, tasks, schedule).tasks ==> Finished(t.phase)
    ensures var s := Reached(cap, tasks, schedule);
      && (k in s.keys ==> s.keys[k].permits == cap)
      && forall x: Sess :: x in s.all <==> exists l: Key :: IdleIn(s, l, x)
  {
    var s := Reached(cap, tasks, schedule);
    InvHoldsInEveryRun(cap, tasks, schedule);
    InUseIsInside(s.tasks, k);
    var home :| Homed(s, home);
    forall x: Sess ensures x in s.all <==> exists l: Key :: IdleIn(s, l, x) {
      if x in s.all {
        assert InPlace(s, x, home[x]);
      }
    }
  }

  lemma {:induction false} SomebodyInside(ts: seq<Task>, k: Key) returns (i: nat)
    requires Inside(ts, k) > 0
    ensures i < |ts| && ts[i].key == k && InAcquire(ts[i].phase)
    decreases |ts|
  {
    var last := |ts| - 1;
    if ts[last].key == k && InAcquire(ts[last].phase) {
      i := last;
    } else {
      i := SomebodyInside(ts[..last], k);
    }
  }

  function NextEvent(s: State, i: nat): Event
    requires i < |s.tasks|
  {
    match s.tasks[i].phase
    case Ready => Enter
    case Waiting => Grant
    case Permitted => Checkout
    case Connecting(_) => ConnectEnd(true)
    case Holding(_) => TurnEnd(true, true)
    case _ => Wake
  }

  /** No deadlock: while some task is unfinished, some task can take a step. */
  lemma {:induction false} SomeoneCanMove(cap: nat, s: State, i: nat) returns (j: nat)
    requires cap > 0 && Inv(cap, s) && i < |s.tasks| && !Finished(s.tasks[i].phase)
    ensures j < |s.tasks| && Enabled(s, j, NextEvent(s, j))
  {
    var k := s.tasks[i].key;
    if s.tasks[i].phase == Waiting && s.keys[k].permits == 0 {
      j := SomebodyInside(s.tasks, k);
    } else {
      j := i;
    }
  }

  /** An upper bound on the steps a task still takes. */
  function Remaining(t: Task): nat {
    var later := if t.attempt < t.maxAttempts then 6 * (t.maxAttempts - t.attempt) else 0;
    match t.phase
    case Ready => if t.attempt > t.maxAttempts then 1 else later + 6
    case Waiting => later + 5
    case Permitted => later + 4
    case Connecting(_) => later + 3
    case Holding(_) => later + 2
    case BackingOff => if t.attempt < t.maxAttempts then later + 1 else 2
    case _ => 0
  }

  function TotalRemaining(ts: seq<Task>): nat {
    if ts == [] then 0 else TotalRemaining(ts[..|ts| - 1]) + Remaining(ts[|ts| - 1])
  }

  lemma {:induction false} TotalUpdate(ts: seq<Task>, i: nat, t: Task)
    requires i < |ts|
    ensures TotalRemaining(ts[i := t]) + Remaining(ts[i]) == TotalRemaining(ts) + Remaining(t)
    decreases |ts|
  {
    var front := ts[..|ts| - 1];
    if i < |front| {
      TotalUpdate(front, i, t);
      assert ts[i := t][..|ts| - 1] == front[i := t];
    } else {
      assert ts[i := t][..|ts| - 1] == front;
    }
  }

  /** Every schedule ends: with retries bounded per task, no run is longer than six steps per
      attempt, whatever the connects and turns do. */
  lemma {:induction false} RunsAreBounded(cap: nat, tasks: seq<Task>, schedule: seq<(nat, Event)>)
    requires IsRun(cap, tasks, schedule)
    ensures |schedule| + TotalRemaining(Reached(cap, tasks, schedule).tasks) <= TotalRemaining(tasks)
    ensures |Reached(cap, tasks, schedule).tasks| == |tasks|
    decreases |schedule|
  {
    if schedule != [] {
      var front, last := schedule[..|schedule| - 1], schedule[|schedule| - 1];
      RunsAreBounded(cap, tasks, front);
      var s := Reached(cap, tasks, front);
      TotalUpdate(s.tasks, last.0, Step(cap, s, last.0, last.1).tasks[last.0]);
      StepUsesUp(cap, s, last.0, last.1);
    }
  }

  lemma {:induction false} StepUsesUp(cap: nat, s: State, i: nat, e: Event)
    requires Enabled(s, i, e)
    ensures var s' := Step(cap, s, i, e);
      s'.tasks == s.tasks[i := s'.tasks[i]] && Remaining(s'.tasks[i]) < Remaining(s.tasks[i])
  {
  }

  /** On the retry path a session makes one attempt per hold, so even after a failed turn it still
      has its client: it is never dropped but goes to the end of the idle list, from where the next
      caller of the key takes it. */
  lemma {:induction false} FailedTurnIsReused(cap: nat, s: State, i: nat, script: seq<Attempt>, hasClient: bool)
    requires |script| == 1 && hasClient
    requires Enabled(s, i, TurnEnd(false, Ask(script, 1, hasClient).1))
    ensures var s' := Step(cap, s, i, TurnEnd(false, Ask(script, 1, hasClient).1));
      var idle := s'.keys[s.tasks[i].key].idle;
      s'.all == s.all && idle != [] && idle[|idle| - 1] == s.tasks[i].phase.sess
  {
    AskLeavesClient(script, 1, hasClient);
  }
}
