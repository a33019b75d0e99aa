/**
 * The progress ring of a project: how many tasks are done, the percentage
 * shown, and the colour band of that percentage.
 */
module Progress {
  import opened Wrappers
  import opened JsMath
  import opened ProjectData

  /**
   * The fields the computation reads. The code guards each with `?.`, `??`
   * or `typeof`, so each may be missing; `InputOf` fills them from a record.
   */
  datatype ProgressInput = ProgressInput(tasks: Option<seq<Task>>, taskCount: Option<int>, progress: Option<int>)

  function InputOf(p: Project): ProgressInput {
    ProgressInput(Some(p.tasks), Some(p.taskCount), Some(p.progress))
  }

  datatype ProjectProgress = ProjectProgress(doneTasks: int, percent: int, totalTasks: int)

  /** The status of each task, in order. */
  function Statuses(tasks: seq<Task>): (r: seq<TaskStatus>)
    ensures |r| == |tasks|
  {
    if tasks == [] then [] else [tasks[0].status] + Statuses(tasks[1..])
  }

  /** `tasks.filter((t) => t.status === 'done').length`. */
  function DoneCount(tasks: seq<Task>): (n: nat)
    ensures n <= |tasks|
    ensures n == 0 <==> forall i :: 0 <= i < |tasks| ==> tasks[i].status != Done
    ensures n == |tasks| <==> forall i :: 0 <= i < |tasks| ==> tasks[i].status == Done
  {
    if tasks == [] then 0
    else
      var rest := DoneCount(tasks[1..]);
      assert forall i :: 1 <= i < |tasks| ==> tasks[i] == tasks[1..][i - 1];
      (if tasks[0].status == Done then 1 else 0) + rest
  }

  /** The done count is the number of occurrences of `done` among the task statuses. */
  lemma {:induction false} DoneCountIsDoneStatuses(tasks: seq<Task>)
    ensures DoneCount(tasks) == multiset(Statuses(tasks))[Done]
  {
    if tasks != [] {
      DoneCountIsDoneStatuses(tasks[1..]);
      assert multiset(Statuses(tasks)) == multiset{tasks[0].status} + multiset(Statuses(tasks[1..]));
    }
  }

  /** `Math.max(0, Math.min(100, x))`. */
  function Clamp(x: int): (r: int)
    ensures 0 <= r <= 100
    ensures 0 <= x <= 100 ==> r == x
    ensures x < 0 ==> r == 0
    ensures x > 100 ==> r == 100
  {
    var upper := if 100 < x then 100 else x;
    if 0 > upper then 0 else upper
  }

  /** `computeProjectProgress`. */
  function ComputeProjectProgress(input: ProgressInput): (r: ProjectProgress)
    ensures 0 <= r.percent <= 100
    ensures input.tasks.Some? ==> r.totalTasks == |input.tasks.value| && 0 <= r.doneTasks <= r.totalTasks
    ensures input.tasks.None? ==> r.totalTasks == input.taskCount.GetOr(0)
    ensures input.progress.Some? ==> r.percent == Clamp(input.progress.value)
    ensures input.progress.None? && r.totalTasks == 0 ==> r.percent == 0
  {
    var totalTasks := if input.tasks.Some? then |input.tasks.value| else input.taskCount.GetOr(0);
    var doneTasks := if input.tasks.Some? then DoneCount(input.tasks.value)
                     else JsRound(input.progress.GetOr(0) * totalTasks, 100);
    var percent := if input.progress.Some? then input.progress.value
                   else if totalTasks != 0 then JsRoundRatio(doneTasks * 100, totalTasks)
                   else 0;
    ProjectProgress(doneTasks, Clamp(percent), totalTasks)
  }

  /**
   * Without a stored progress, the percentage is the done share of the tasks
   * rounded to the nearest whole percent.
   */
  lemma PercentIsRoundedShare(tasks: seq<Task>, taskCount: Option<int>)
    requires |tasks| > 0
    ensures var r := ComputeProjectProgress(ProgressInput(Some(tasks), taskCount, None));
            -|tasks| <= 2 * (100 * DoneCount(tasks) - r.percent * |tasks|) < |tasks|
  {
    var done, total := DoneCount(tasks), |tasks|;
    RoundedShareInRange(done, total);
    JsRoundIsNearest(done * 100, total, JsRound(done * 100, total));
  }

  lemma RoundedShareInRange(done: int, total: int)
    requires 0 <= done <= total && total > 0
    ensures 0 <= JsRound(done * 100, total) <= 100
  {
    var n := 2 * (done * 100) + total;
    assert n < (2 * total) * 101;
    QuotientBelow(n, 2 * total, 101);
  }

  lemma QuotientBelow(n: int, d: int, k: int)
    requires d > 0 && 0 <= n < d * k
    ensures 0 <= n / d < k
  {
    var q := n / d;
    assert (q - k) * d == q * d - k * d < 0;
  }

  /** Without tasks, a progress within 0..100 gives a done count within the task count. */
  lemma DoneFromProgressInRange(taskCount: int, progress: int)
    requires taskCount >= 0 && 0 <= progress <= 100
    ensures var r := ComputeProjectProgress(ProgressInput(None, Some(taskCount), Some(progress)));
            0 <= r.doneTasks <= r.totalTasks == taskCount
  {
    var n := progress * taskCount;
    assert 0 <= n <= 100 * taskCount by {
      assert (100 - progress) * taskCount >= 0;
    }
    assert JsRound(n, 100) == (2 * n + 100) / (2 * 100);
    QuotientBelow(2 * n + 100, 2 * 100, taskCount + 1);
  }

  /** For a project record: every task counted, and a stored progress in the API's range shown as is. */
  lemma RecordProgress(p: Project)
    ensures var r := ComputeProjectProgress(InputOf(p));
            && r.totalTasks == |p.tasks| && r.doneTasks == DoneCount(p.tasks)
            && (ProgressInApiRange(p) ==> r.percent == p.progress)
  {
  }

  datatype ProgressColor = Emerald | Amber | Red | Slate

  /** The hex colour the ring is drawn with. */
  function Hex(c: ProgressColor): string {
    match c
    case Emerald => "#10b981"
    case Amber => "#f59e0b"
    case Red => "#ef4444"
    case Slate => "#94a3b8"
  }

  /** `getProgressColor`: four bands, each an interval of percentages. */
  function GetProgressColor(percent: int): (c: ProgressColor)
    ensures c == Emerald <==> percent >= 80
    ensures c == Amber <==> 50 <= percent < 80
    ensures c == Red <==> 0 < percent < 50
    ensures c == Slate <==> percent <= 0
  {
    if percent >= 80 then Emerald
    else if percent >= 50 then Amber
    else if percent > 0 then Red
    else Slate
  }

  function Rank(c: ProgressColor): nat {
    match c
    case Slate => 0
    case Red => 1
    case Amber => 2
    case Emerald => 3
  }

  /** More progress never shows a lower band. */
  lemma ColorMonotone(p: int, q: int)
    requires p <= q
    ensures Rank(GetProgressColor(p)) <= Rank(GetProgressColor(q))
  {
  }
}
