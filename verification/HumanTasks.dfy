/** The human-task dictionary and its three minters: the push-human node, the citation router and
    the blocked grid cells (graph.py, synthesis/memo.py). */
module HumanTasks {
  import opened Models
  import Dictionary
  import opened Numbering

  function FindTask(tasks: seq<HumanTask>, id: string): Option<nat> {
    Dictionary.Find(tasks, (t: HumanTask) => t.id, id)
  }

  function PutTask(tasks: seq<HumanTask>, t: HumanTask): seq<HumanTask> {
    Dictionary.Put(tasks, (t: HumanTask) => t.id, t)
  }

  /** The first task asking for this input, in insertion order. */
  function FirstAsking(tasks: seq<HumanTask>, input: string): (k: Option<nat>)
    ensures k.Some? ==> k.value < |tasks| && tasks[k.value].requestedInput == input
    ensures k.Some? ==> forall i :: 0 <= i < k.value ==> tasks[i].requestedInput != input
    ensures k.None? ==> forall i :: 0 <= i < |tasks| ==> tasks[i].requestedInput != input
  {
    if tasks == [] then None
    else
      match FirstAsking(tasks[..|tasks| - 1], input)
      case Some(k) => Some(k)
      case None => if tasks[|tasks| - 1].requestedInput == input then Some(|tasks| - 1) else None
  }

  /** Ids are distinct; each is a counted one no larger than the dictionary, or a cell's one. */
  ghost predicate WellNumbered(tasks: seq<HumanTask>) {
    && (forall i, j :: 0 <= i < j < |tasks| ==> tasks[i].id != tasks[j].id)
    && (forall i :: 0 <= i < |tasks| ==> CountedId(tasks[i].id, |tasks|) || IsCellId(tasks[i].id))
  }

  ghost predicate CountedId(id: string, n: nat) { exists k: nat :: k <= n && id == TaskId(k) }

  ghost predicate IsCellId(id: string) { exists c: string :: id == CellTaskId(c) }

  const INTERNAL_INPUT := "內部資料 / 受限文件"

  /** node_human_push's task for the issue handed off. */
  function PushTask(tasks: seq<HumanTask>, n: IssueNode): HumanTask {
    HumanTask(TaskId(|tasks| + 1), "提供內部資料：" + n.title, INTERNAL_INPUT,
              "問題「" + n.title + "」需要外部研究無法取得的內部資料", n.title, n.impact, HumanTaskStatus.Open)
  }

  /** route_citations' task for a claim nobody could verify. */
  function SupplementTask(tasks: seq<HumanTask>, claim: string): HumanTask {
    HumanTask(TaskId(|tasks| + 1), "補充驗證：" + claim, claim,
              "決策關鍵主張無法以引用驗證（coverage < 0.85）；需人類補充可驗證的資料或判斷，才能將其當作事實呈現。",
              claim, 5, HumanTaskStatus.Open)
  }

  function CellTask(c: TaskCell): HumanTask {
    HumanTask(CellTaskId(c.id), "提供內部資料：" + c.vendor + " " + c.specGroup, INTERNAL_INPUT,
              c.vendor + " " + c.specGroup + " 的公開資料已窮盡（程式判定），需內部 / 受限文件才能補齊此格規格。",
              c.objective, 5, HumanTaskStatus.Open)
  }

  function WithCellTasks(tasks: seq<HumanTask>, cells: seq<TaskCell>): seq<HumanTask> {
    if cells == [] then tasks
    else
      var front := WithCellTasks(tasks, cells[..|cells| - 1]);
      var last := cells[|cells| - 1];
      if last.status != CellStatus.Blocked || FindTask(front, CellTaskId(last.id)).Some? then front
      else PutTask(front, CellTask(last))
  }

  method MintBlockedCellTasks(state: ResearchState)
    modifies state`humanTasks
    ensures state.humanTasks == match state.taskGrid
                                case None => old(state.humanTasks)
                                case Some(cells) => WithCellTasks(old(state.humanTasks), cells)
  {
    if state.taskGrid.Some? {
      var cells := state.taskGrid.value;
      for i := 0 to |cells|
        invariant state.humanTasks == WithCellTasks(old(state.humanTasks), cells[..i])
      {
        assert cells[..i + 1][..i] == cells[..i];
        if cells[i].status == CellStatus.Blocked {
          var known := FindTask(state.humanTasks, CellTaskId(cells[i].id));
          if known.None? {
            state.humanTasks := PutTask(state.humanTasks, CellTask(cells[i]));
          }
        }
      }
      assert cells[..|cells|] == cells;
    }
  }

  /** The next counted id is not taken, so minting appends and overwrites nothing. */
  lemma {:induction false} CountedMintIsFresh(tasks: seq<HumanTask>, t: HumanTask)
    requires WellNumbered(tasks) && t.id == TaskId(|tasks| + 1)
    ensures PutTask(tasks, t) == tasks + [t] && WellNumbered(tasks + [t])
  {
    forall i | 0 <= i < |tasks|
      ensures tasks[i].id != t.id && (CountedId(tasks[i].id, |tasks| + 1) || IsCellId(tasks[i].id))
    {
      if CountedId(tasks[i].id, |tasks|) {
        var k: nat :| k <= |tasks| && tasks[i].id == TaskId(k);
        IdsAreUnique(k, |tasks| + 1, "");
      } else {
        var c: string :| tasks[i].id == CellTaskId(c);
        IdsAreUnique(0, |tasks| + 1, c);
      }
    }
    assert CountedId(t.id, |tasks| + 1);
    AppendKeepsNumbering(tasks, t);
  }

  lemma {:induction false} AppendKeepsNumbering(tasks: seq<HumanTask>, t: HumanTask)
    requires WellNumbered(tasks) && FindTask(tasks, t.id).None?
    requires CountedId(t.id, |tasks| + 1) || IsCellId(t.id)
    ensures WellNumbered(tasks + [t])
  {
    forall i | 0 <= i < |tasks + [t]|
      ensures CountedId((tasks + [t])[i].id, |tasks| + 1) || IsCellId((tasks + [t])[i].id)
    {
      if i < |tasks| && CountedId(tasks[i].id, |tasks|) {
        var k: nat :| k <= |tasks| && tasks[i].id == TaskId(k);
      }
    }
  }

  /** Minting for blocked cells only appends, and a second pass over the same cells mints nothing. */
  lemma {:induction false} CellMintsKeep(tasks: seq<HumanTask>, cells: seq<TaskCell>)
    requires WellNumbered(tasks)
    ensures var r := WithCellTasks(tasks, cells);
      && WellNumbered(r) && tasks <= r
      && forall c :: c in cells && c.status == CellStatus.Blocked ==> FindTask(r, CellTaskId(c.id)).Some?
    decreases |cells|
  {
    if cells != [] {
      var front, last := WithCellTasks(tasks, cells[..|cells| - 1]), cells[|cells| - 1];
      CellMintsKeep(tasks, cells[..|cells| - 1]);
      assert forall c :: c in cells <==> c in cells[..|cells| - 1] || c == last;
      var r := WithCellTasks(tasks, cells);
      if r != front {
        assert r == front + [CellTask(last)];
        assert IsCellId(CellTask(last).id);
        AppendKeepsNumbering(front, CellTask(last));
      }
      forall c | c in cells && c.status == CellStatus.Blocked ensures FindTask(r, CellTaskId(c.id)).Some? {
        if c != last {
          var k := FindTask(front, CellTaskId(c.id)).value;
          assert r[k] == front[k];
        }
      }
    }
  }

  /** A cell's task: open, of the highest priority, asking for internal data on this vendor and spec group. */
  ghost predicate AsksAboutCell(t: HumanTask, c: TaskCell) {
    && t.id == CellTaskId(c.id) && t.requestedInput == "內部資料 / 受限文件" && t.blockingQuestion == c.objective
    && t.taskTitle == "提供內部資料：" + c.vendor + " " + c.specGroup
    && t.priority == 5 && t.status == HumanTaskStatus.Open
  }

  ghost predicate ForBlockedCell(t: HumanTask, cells: seq<TaskCell>) {
    exists i :: 0 <= i < |cells| && cells[i].status == CellStatus.Blocked && AsksAboutCell(t, cells[i])
  }

  /** Nothing else is minted on the way: each new task is one for a blocked cell. */
  lemma {:induction false} CellMintsMean(tasks: seq<HumanTask>, cells: seq<TaskCell>)
    ensures var r := WithCellTasks(tasks, cells);
      |tasks| <= |r| && forall k :: |tasks| <= k < |r| ==> ForBlockedCell(r[k], cells)
    decreases |cells|
  {
    if cells != [] {
      var before := cells[..|cells| - 1];
      var front, r, last := WithCellTasks(tasks, before), WithCellTasks(tasks, cells), |cells| - 1;
      CellMintsMean(tasks, before);
      forall k | |tasks| <= k < |r| ensures ForBlockedCell(r[k], cells) {
        if k < |front| {
          var i :| 0 <= i < |before| && before[i].status == CellStatus.Blocked && AsksAboutCell(front[k], before[i]);
          assert cells[i] == before[i];
        } else {
          assert AsksAboutCell(r[k], cells[last]);
        }
      }
    }
  }

  lemma {:induction false} CellMintsOnce(tasks: seq<HumanTask>, cells: seq<TaskCell>)
    requires forall c :: c in cells && c.status == CellStatus.Blocked ==> FindTask(tasks, CellTaskId(c.id)).Some?
    ensures WithCellTasks(tasks, cells) == tasks
    decreases |cells|
  {
    if cells != [] {
      assert cells[|cells| - 1] in cells;
      CellMintsOnce(tasks, cells[..|cells| - 1]);
    }
  }
}
