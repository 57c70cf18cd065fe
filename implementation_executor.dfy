// The sprint plan of crates/core/src/implementation_executor.rs: a list of
// implementation tasks with counters of all, completed and blocked tasks,
// and the effort they stand for.

module ImplementationExecutor {
  import opened Wrappers
  import opened Seqs

  /** A `u8`. */
  newtype Byte = n: int | 0 <= n < 256

  datatype TaskCategory = BluetoothBackends | ProtocolMessages | FfiBridge | AndroidMerge |
    BuildPackaging | CiCd | I18nA11y | Security | Documentation | ReleaseChores

  datatype TaskStatus = Pending | InProgress | Blocked | Completed | Failed

  datatype ImplementationTask = ImplementationTask(
    taskId: string, title: string, description: string, category: TaskCategory,
    priority: Byte, status: TaskStatus, effortHours: real, assignedTo: string,
    dependencies: seq<string>, completionPercentage: Byte)

  const StartDate: string := "2025-11-21T00:00:00Z"
  const EndDate: string := "2025-11-28T23:59:59Z"

  function HasStatus(s: TaskStatus): ImplementationTask -> bool
  {
    (t: ImplementationTask) => t.status == s
  }

  function InCategory(c: TaskCategory): ImplementationTask -> bool
  {
    (t: ImplementationTask) => t.category == c
  }

  function HasId(id: string): ImplementationTask -> bool
  {
    (t: ImplementationTask) => t.taskId == id
  }

  /** The number of tasks with status s. */
  function StatusCount(tasks: seq<ImplementationTask>, s: TaskStatus): nat
  {
    |Filter(tasks, HasStatus(s))|
  }

  /** A task's effort if it is completed, nothing otherwise. */
  function CompletedEffort(t: ImplementationTask): real
  {
    if t.status == Completed then t.effortHours else 0.0
  }

  function Effort(t: ImplementationTask): real
  {
    t.effortHours
  }

  /** `saturating_sub(1)`. */
  function Decrement(n: nat): nat
  {
    if n > 0 then n - 1 else 0
  }

  /** A counter of status s after one task goes from `before` to `after`:
      one more on entering s, one fewer (never below zero) on leaving it. */
  function Recount(counter: nat, s: TaskStatus, before: TaskStatus, after: TaskStatus): (r: nat)
    ensures before == after ==> r == counter
    ensures counter > 0 && before == s && after != s ==> r + 1 == counter
    ensures before != s && after == s ==> r == counter + 1
  {
    if before == s && after != s then Decrement(counter)
    else if before != s && after == s then counter + 1
    else counter
  }

  /** Changing the status of one task moves the count of s exactly as
      `Recount` says, so a counter equal to the count stays equal. */
  lemma RecountTracksCount(tasks: seq<ImplementationTask>, i: nat, status: TaskStatus, s: TaskStatus)
    requires i < |tasks|
    ensures StatusCount(tasks[i := tasks[i].(status := status)], s) ==
            Recount(StatusCount(tasks, s), s, tasks[i].status, status)
  {
    FilterUpdate(tasks, i, tasks[i].(status := status), HasStatus(s));
    if tasks[i].status == s {
      FilterMembers(tasks, HasStatus(s), tasks[i]);
    }
  }

  /** The completed effort after a status change, as `update_task_status`
      adjusts it. */
  function ReEffort(completed: real, effort: real, before: TaskStatus, after: TaskStatus): real
  {
    if before == Completed && after != Completed then completed - effort
    else if before != Completed && after == Completed then completed + effort
    else completed
  }

  /** The adjustment keeps the completed effort equal to the sum over the
      completed tasks. */
  lemma ReEffortTracksSum(tasks: seq<ImplementationTask>, i: nat, status: TaskStatus)
    requires i < |tasks|
    ensures RealSumOf(tasks[i := tasks[i].(status := status)], CompletedEffort) ==
            ReEffort(RealSumOf(tasks, CompletedEffort), tasks[i].effortHours, tasks[i].status, status)
  {
    RealSumOfUpdate(tasks, i, tasks[i].(status := status), CompletedEffort);
  }

  /** Counters and sums that are those of the list of tasks. */
  predicate CountersMatch(tasks: seq<ImplementationTask>, total: nat, completed: nat, blocked: nat,
                          totalEffort: real, completedEffort: real)
  {
    total == |tasks| &&
    completed == StatusCount(tasks, Completed) &&
    blocked == StatusCount(tasks, Blocked) &&
    totalEffort == RealSumOf(tasks, Effort) &&
    completedEffort == RealSumOf(tasks, CompletedEffort)
  }

  /** One more task, counted in the totals and, when it arrives Completed
      or Blocked, in those counters, keeps the counters those of the list of
      tasks. */
  lemma AddKeepsCounts(tasks: seq<ImplementationTask>, task: ImplementationTask,
                       total: nat, completed: nat, blocked: nat, totalEffort: real, completedEffort: real)
    requires CountersMatch(tasks, total, completed, blocked, totalEffort, completedEffort)
    ensures CountersMatch(tasks + [task], total + 1,
      completed + (if task.status == Completed then 1 else 0), blocked + (if task.status == Blocked then 1 else 0),
      totalEffort + task.effortHours, completedEffort + (if task.status == Completed then task.effortHours else 0.0))
  {
    FilterSnoc(tasks, task, HasStatus(Completed));
    FilterSnoc(tasks, task, HasStatus(Blocked));
    RealSumOfSnoc(tasks, task, Effort);
    RealSumOfSnoc(tasks, task, CompletedEffort);
  }

  /** A status change, with the counters moved as `Recount` and `ReEffort`
      say, keeps the counters those of the list of tasks. */
  lemma StatusUpdateKeepsCounts(tasks: seq<ImplementationTask>, i: nat, status: TaskStatus,
                                total: nat, completed: nat, blocked: nat, totalEffort: real, completedEffort: real)
    requires i < |tasks|
    requires CountersMatch(tasks, total, completed, blocked, totalEffort, completedEffort)
    ensures CountersMatch(tasks[i := tasks[i].(status := status)], total,
      Recount(completed, Completed, tasks[i].status, status), Recount(blocked, Blocked, tasks[i].status, status),
      totalEffort, ReEffort(completedEffort, tasks[i].effortHours, tasks[i].status, status))
  {
    RecountTracksCount(tasks, i, status, Completed);
    RecountTracksCount(tasks, i, status, Blocked);
    ReEffortTracksSum(tasks, i, status);
    RealSumOfUpdate(tasks, i, tasks[i].(status := status), Effort);
  }

  /** Multiplication by a natural number keeps the order. */
  lemma {:induction false} MulLe(a: nat, b: nat, c: nat)
    requires a <= b
    ensures a * c <= b * c
    decreases c
  {
    if c > 0 {
      MulLe(a, b, c - 1);
      assert a * c == a * (c - 1) + a;
      assert b * c == b * (c - 1) + b;
    }
  }

  /** The share of `part` in `whole` in percent, rounded down: 0 for no
      part, 100 for the whole, at most 100 for a part of the whole. */
  lemma PercentOf(part: nat, whole: nat)
    requires whole > 0
    ensures part == 0 ==> part * 100 / whole == 0
    ensures part == whole ==> part * 100 / whole == 100
    ensures part <= whole ==> part * 100 / whole <= 100
  {
    var q, r := part * 100 / whole, part * 100 % whole;
    assert part * 100 == q * whole + r && 0 <= r < whole;
    if part <= whole {
      MulLe(part, whole, 100);
      if q > 100 {
        MulLe(101, q, whole);
      }
    }
    if part == whole && q < 100 {
      assert (q + 1) * whole == q * whole + whole;
      MulLe(q + 1, 100, whole);
    }
  }

  /** `percentage.min(100)`. */
  function Clamp(p: Byte): (r: Byte)
    ensures r <= 100 && r <= p
    ensures p <= 100 ==> r == p
  {
    if p < 100 then p else 100
  }

  class SprintPlan {
    var sprintId: string
    var sprintName: string
    var startDate: string
    var endDate: string
    var tasks: seq<ImplementationTask>
    var totalTasks: nat
    var completedTasks: nat
    var blockedTasks: nat
    var totalEffortHours: real
    var completedEffortHours: real

    /** The counters and sums are those of the list of tasks. */
    predicate Valid()
      reads this
    {
      CountersMatch(tasks, totalTasks, completedTasks, blockedTasks, totalEffortHours, completedEffortHours)
    }

    /** `new`: no tasks, the fixed sprint dates. */
    constructor (sprintId: string, sprintName: string)
      ensures Valid()
      ensures this.sprintId == sprintId && this.sprintName == sprintName
      ensures startDate == StartDate && endDate == EndDate
      ensures tasks == [] && totalTasks == 0 && completedTasks == 0 && blockedTasks == 0
    {
      this.sprintId := sprintId;
      this.sprintName := sprintName;
      startDate := StartDate;
      endDate := EndDate;
      tasks := [];
      totalTasks := 0;
      completedTasks := 0;
      blockedTasks := 0;
      totalEffortHours := 0.0;
      completedEffortHours := 0.0;
    }

    /** `add_task` as written: a new task and its effort are counted in the
        totals, but the completed and blocked counters and the completed
        effort are left as they were whatever its status. */
    method AddTaskAsWritten(task: ImplementationTask)
      modifies this
      ensures tasks == old(tasks) + [task] && totalTasks == old(totalTasks) + 1
      ensures totalEffortHours == old(totalEffortHours) + task.effortHours
      ensures completedTasks == old(completedTasks) && blockedTasks == old(blockedTasks)
      ensures completedEffortHours == old(completedEffortHours)
      ensures unchanged(`sprintId) && unchanged(`sprintName) && unchanged(`startDate) && unchanged(`endDate)
    {
      totalTasks := totalTasks + 1;
      totalEffortHours := totalEffortHours + task.effortHours;
      tasks := tasks + [task];
    }

    /** `add_task` with a task that arrives Completed or Blocked counted as
        such, which keeps the counters equal to the counts. */
    method AddTask(task: ImplementationTask)
      requires Valid()
      modifies this
      ensures Valid()
      ensures tasks == old(tasks) + [task] && totalTasks == old(totalTasks) + 1
      ensures totalEffortHours == old(totalEffortHours) + task.effortHours
      ensures completedTasks == old(completedTasks) + (if task.status == Completed then 1 else 0)
      ensures blockedTasks == old(blockedTasks) + (if task.status == Blocked then 1 else 0)
      ensures unchanged(`sprintId) && unchanged(`sprintName) && unchanged(`startDate) && unchanged(`endDate)
    {
      AddKeepsCounts(tasks, task, totalTasks, completedTasks, blockedTasks, totalEffortHours, completedEffortHours);
      totalTasks := totalTasks + 1;
      totalEffortHours := totalEffortHours + task.effortHours;
      if task.status == Completed {
        completedTasks := completedTasks + 1;
        completedEffortHours := completedEffortHours + task.effortHours;
      }
      if task.status == Blocked {
        blockedTasks := blockedTasks + 1;
      }
      tasks := tasks + [task];
    }

    /** `update_task_status`: false and no change for an unknown id;
        otherwise the first task with the id gets the status, and each
        counter moves when this one enters or leaves its status. */
    method UpdateTaskStatus(taskId: string, status: TaskStatus) returns (found: bool)
      modifies this
      ensures found <==> FirstIndex(old(tasks), HasId(taskId)).Some?
      ensures !found ==> tasks == old(tasks) && completedTasks == old(completedTasks) &&
                         blockedTasks == old(blockedTasks) && completedEffortHours == old(completedEffortHours)
      ensures found ==>
        var i := FirstIndex(old(tasks), HasId(taskId)).value;
        tasks == old(tasks)[i := old(tasks)[i].(status := status)] &&
        completedTasks == Recount(old(completedTasks), Completed, old(tasks)[i].status, status) &&
        blockedTasks == Recount(old(blockedTasks), Blocked, old(tasks)[i].status, status) &&
        completedEffortHours == ReEffort(old(completedEffortHours), old(tasks)[i].effortHours, old(tasks)[i].status, status)
      ensures old(Valid()) ==> Valid()
      ensures totalTasks == old(totalTasks) && totalEffortHours == old(totalEffortHours)
      ensures unchanged(`sprintId) && unchanged(`sprintName) && unchanged(`startDate) && unchanged(`endDate)
    {
      match FirstIndex(tasks, HasId(taskId)) {
        case None =>
          found := false;
        case Some(i) =>
          SetStatusAt(i, status);
          found := true;
      }
    }

    /** The status change of task i, with each counter moved only when the
        task enters or leaves its status. */
    method SetStatusAt(i: nat, status: TaskStatus)
      requires i < |tasks|
      modifies this
      ensures tasks == old(tasks)[i := old(tasks)[i].(status := status)]
      ensures completedTasks == Recount(old(completedTasks), Completed, old(tasks)[i].status, status)
      ensures blockedTasks == Recount(old(blockedTasks), Blocked, old(tasks)[i].status, status)
      ensures completedEffortHours == ReEffort(old(completedEffortHours), old(tasks)[i].effortHours, old(tasks)[i].status, status)
      ensures old(Valid()) ==> Valid()
      ensures totalTasks == old(totalTasks) && totalEffortHours == old(totalEffortHours)
      ensures unchanged(`sprintId) && unchanged(`sprintName) && unchanged(`startDate) && unchanged(`endDate)
    {
      var task := tasks[i];
      if Valid() {
        StatusUpdateKeepsCounts(tasks, i, status, totalTasks, completedTasks, blockedTasks,
                                totalEffortHours, completedEffortHours);
      }
      tasks := tasks[i := task.(status := status)];
      completedTasks := Recount(completedTasks, Completed, task.status, status);
      blockedTasks := Recount(blockedTasks, Blocked, task.status, status);
      completedEffortHours := ReEffort(completedEffortHours, task.effortHours, task.status, status);
    }

    /** `update_task_progress`: false and no change for an unknown id;
        otherwise the first task with the id gets the percentage, capped at
        100. */
    method UpdateTaskProgress(taskId: string, percentage: Byte) returns (found: bool)
      modifies this
      ensures found <==> FirstIndex(old(tasks), HasId(taskId)).Some?
      ensures !found ==> tasks == old(tasks)
      ensures found ==>
        var i := FirstIndex(old(tasks), HasId(taskId)).value;
        tasks == old(tasks)[i := old(tasks)[i].(completionPercentage := Clamp(percentage))]
      ensures old(Valid()) ==> Valid()
      ensures totalTasks == old(totalTasks) && completedTasks == old(completedTasks) && blockedTasks == old(blockedTasks)
      ensures totalEffortHours == old(totalEffortHours) && completedEffortHours == old(completedEffortHours)
      ensures unchanged(`sprintId) && unchanged(`sprintName) && unchanged(`startDate) && unchanged(`endDate)
    {
      match FirstIndex(tasks, HasId(taskId)) {
        case None =>
          found := false;
        case Some(i) =>
          var task := tasks[i].(completionPercentage := Clamp(percentage));
          FilterUpdate(tasks, i, task, HasStatus(Completed));
          FilterUpdate(tasks, i, task, HasStatus(Blocked));
          RealSumOfUpdate(tasks, i, task, Effort);
          RealSumOfUpdate(tasks, i, task, CompletedEffort);
          tasks := tasks[i := task];
          found := true;
      }
    }

    /** `get_completion_percentage`: 0 without tasks, else the completed
        share in percent, rounded down. */
    function CompletionPercentage(): (r: nat)
      reads this
      ensures totalTasks == 0 || completedTasks == 0 ==> r == 0
      ensures totalTasks > 0 && completedTasks == totalTasks ==> r == 100
      ensures completedTasks <= totalTasks ==> r <= 100
    {
      if totalTasks == 0 then 0
      else
        PercentOf(completedTasks, totalTasks);
        var p := completedTasks * 100 / totalTasks;
        if p > 255 then 255 else p
    }

    /** `get_effort_completion_percentage`: 0 without effort, else the
        completed share of the effort in percent. */
    function EffortCompletionPercentage(): (r: real)
      reads this
      ensures totalEffortHours == 0.0 || completedEffortHours == 0.0 ==> r == 0.0
      ensures totalEffortHours != 0.0 && completedEffortHours == totalEffortHours ==> r == 100.0
      ensures 0.0 < totalEffortHours && 0.0 <= completedEffortHours <= totalEffortHours ==> 0.0 <= r <= 100.0
    {
      if totalEffortHours == 0.0 then 0.0
      else completedEffortHours / totalEffortHours * 100.0
    }

    /** `get_tasks_by_status`: those tasks with that status, in order. */
    function TasksByStatus(status: TaskStatus): (r: seq<ImplementationTask>)
      reads this
      ensures forall t :: t in r <==> t in tasks && t.status == status
      ensures |r| == StatusCount(tasks, status)
    {
      FilterMembersAll(tasks, HasStatus(status));
      Filter(tasks, HasStatus(status))
    }

    /** `get_tasks_by_category`: those tasks of that category, in order. */
    function TasksByCategory(category: TaskCategory): (r: seq<ImplementationTask>)
      reads this
      ensures forall t :: t in r <==> t in tasks && t.category == category
    {
      FilterMembersAll(tasks, InCategory(category));
      Filter(tasks, InCategory(category))
    }

    /** In a valid plan the completed and blocked tasks together are at
        most all tasks, and the percentage is at most 100. */
    lemma CountersWithinTotal()
      requires Valid()
      ensures completedTasks + blockedTasks <= totalTasks
      ensures CompletionPercentage() <= 100
    {
      FilterPartition(tasks, HasStatus(Completed));
      var rest := Filter(tasks, Not(HasStatus(Completed)));
      FilterPartition(rest, HasStatus(Blocked));
      assert |Filter(rest, HasStatus(Blocked))| == |Filter(tasks, HasStatus(Blocked))| by {
        FilterOfComplement(tasks);
      }
    }
  }

  /** Filtering the non-completed tasks for the blocked ones finds all the
      blocked tasks. */
  lemma {:induction false} FilterOfComplement(tasks: seq<ImplementationTask>)
    ensures Filter(Filter(tasks, Not(HasStatus(Completed))), HasStatus(Blocked)) == Filter(tasks, HasStatus(Blocked))
    decreases |tasks|
  {
    if tasks != [] {
      var front, t := tasks[..|tasks| - 1], tasks[|tasks| - 1];
      FilterOfComplement(front);
      assert tasks == front + [t];
      FilterSnoc(front, t, Not(HasStatus(Completed)));
      FilterSnoc(Filter(front, Not(HasStatus(Completed))), t, HasStatus(Blocked));
      FilterSnoc(front, t, HasStatus(Blocked));
      var inner := Filter(front, Not(HasStatus(Completed)));
      if t.status == Completed {
        assert Filter(tasks, Not(HasStatus(Completed))) == inner;
        assert Filter(tasks, HasStatus(Blocked)) == Filter(front, HasStatus(Blocked));
      } else {
        assert Filter(tasks, Not(HasStatus(Completed))) == inner + [t];
      }
    }
  }

  // ---------------------------------------------------------------------
  // The unit tests of the module, as scenarios.

  function TestTask(id: string, status: TaskStatus, effort: real): ImplementationTask
  {
    ImplementationTask(id, "Test Task", "A test task", BluetoothBackends, 1, status, effort, "dev", [], 0)
  }

  /** One added task: one in the total and its four hours of effort;
      completing it counts it as completed. */
  method AddAndCompleteScenario() returns (total: nat, effort: real, completed: nat, found: bool)
    ensures total == 1 && effort == 4.0 && completed == 1 && found
  {
    var sprint := new SprintPlan("sprint-1", "Sprint 1");
    sprint.AddTask(TestTask("task-1", Pending, 4.0));
    total, effort := sprint.totalTasks, sprint.totalEffortHours;
    assert HasId("task-1")(sprint.tasks[0]);
    found := sprint.UpdateTaskStatus("task-1", Completed);
    completed := sprint.completedTasks;
  }

  /** Four tasks of which the first two arrive Completed. As written,
      `add_task` does not count them and the percentage is 0, where the
      unit test expects 50; counting them on arrival gives 50. */
  method CompletionScenario() returns (asWritten: nat, counted: nat)
    ensures asWritten == 0 && counted == 50
  {
    var t0, t1 := TestTask("task-0", Completed, 1.0), TestTask("task-1", Completed, 1.0);
    var t2, t3 := TestTask("task-2", Pending, 1.0), TestTask("task-3", Pending, 1.0);
    var plain := new SprintPlan("sprint-1", "Sprint 1");
    plain.AddTaskAsWritten(t0);
    plain.AddTaskAsWritten(t1);
    plain.AddTaskAsWritten(t2);
    plain.AddTaskAsWritten(t3);
    asWritten := plain.CompletionPercentage();
    var sprint := new SprintPlan("sprint-1", "Sprint 1");
    sprint.AddTask(t0);
    sprint.AddTask(t1);
    sprint.AddTask(t2);
    sprint.AddTask(t3);
    counted := sprint.CompletionPercentage();
  }

  /** A task that arrives Completed through the as-written `add_task` is
      not counted; moving it to Pending then leaves the completed counter
      at 0, through `saturating_sub`, and moving it back counts it once. */
  method SaturationScenario() returns (afterAdd: nat, afterPending: nat, afterCompleted: nat)
    ensures afterAdd == 0 && afterPending == 0 && afterCompleted == 1
  {
    var sprint := new SprintPlan("sprint-1", "Sprint 1");
    sprint.AddTaskAsWritten(TestTask("task-0", Completed, 1.0));
    afterAdd := sprint.completedTasks;
    assert HasId("task-0")(sprint.tasks[0]);
    var _ := sprint.UpdateTaskStatus("task-0", Pending);
    afterPending := sprint.completedTasks;
    assert HasId("task-0")(sprint.tasks[0]);
    var _ := sprint.UpdateTaskStatus("task-0", Completed);
    afterCompleted := sprint.completedTasks;
  }
}
