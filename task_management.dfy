/**
 * The staff's task page: the task list with its status and priority filters, the status counts,
 * the buttons that move a task on, and the status update, which changes the page's list only
 * after the server answered OK. Status and priority stay the strings the server sends.
 */
module TaskManagement {
  import opened Common
  import opened Lists

  datatype Task = Task(
    id: int,
    title: string,
    description: string,
    priority: string,
    status: string,
    dueDate: string,
    assignedBy: string)

  /** `tasks.map(t => t.id === id ? { ...t, status } : t)`. */
  function WithStatus(tasks: seq<Task>, id: int, status: string): (r: seq<Task>)
    ensures |r| == |tasks|
    ensures forall i :: 0 <= i < |tasks| && tasks[i].id == id ==> r[i] == tasks[i].(status := status)
    ensures forall i :: 0 <= i < |tasks| && tasks[i].id != id ==> r[i] == tasks[i]
  {
    seq(|tasks|, i requires 0 <= i < |tasks| => if tasks[i].id == id then tasks[i].(status := status) else tasks[i])
  }

  /**
   * The button under a task: Start Task on a pending task, Mark Complete on one in progress,
   * none on a completed task (nor on any other status).
   */
  function OfferedTransition(status: string): (next: Option<string>)
    ensures next == Some("in_progress") <==> status == "pending"
    ensures next == Some("completed") <==> status == "in_progress"
    ensures next.Some? ==> next.value == "in_progress" || next.value == "completed"
  {
    if status == "completed" then None
    else if status == "pending" then Some("in_progress")
    else if status == "in_progress" then Some("completed")
    else None
  }

  /** The position of a status along the workflow. */
  function Stage(status: string): (n: int)
    ensures status == "pending" <==> n == 0
    ensures status == "in_progress" <==> n == 1
    ensures status == "completed" <==> n == 2
  {
    if status == "pending" then 0 else if status == "in_progress" then 1 else if status == "completed" then 2 else -1
  }

  /**
   * The buttons only move a task one stage forward: never back, never to pending, and a
   * completed task is final; from pending, two presses reach completed.
   */
  lemma TransitionsMoveForward(status: string)
    ensures OfferedTransition(status).Some? ==> Stage(OfferedTransition(status).value) == Stage(status) + 1
    ensures OfferedTransition(status) != Some("pending")
    ensures OfferedTransition("completed").None?
    ensures OfferedTransition(OfferedTransition("pending").value) == Some("completed")
  {
  }

  /** `filteredTasks`: status and priority each `'all'` or exact. */
  predicate Shown(t: Task, filterStatus: string, filterPriority: string) {
    (filterStatus == "all" || t.status == filterStatus) && (filterPriority == "all" || t.priority == filterPriority)
  }

  function FilteredTasks(tasks: seq<Task>, filterStatus: string, filterPriority: string): (r: seq<Task>)
    ensures IsSubsequence(r, tasks)
    ensures forall t :: t in r <==> t in tasks && Shown(t, filterStatus, filterPriority)
  {
    Filter(tasks, t => Shown(t, filterStatus, filterPriority))
  }

  /** Both filters on `'all'` show every task, in order. */
  lemma NoFilterListsAll(tasks: seq<Task>)
    ensures FilteredTasks(tasks, "all", "all") == tasks
  {
    FilterKeepsAll(tasks, t => Shown(t, "all", "all"));
  }

  predicate IsPending(t: Task) { t.status == "pending" }
  predicate IsInProgress(t: Task) { t.status == "in_progress" }
  predicate IsCompleted(t: Task) { t.status == "completed" }

  /** When every task is pending, in progress or completed, the three cards add up to Total Tasks. */
  lemma StatusCountsAddUp(tasks: seq<Task>)
    requires forall i :: 0 <= i < |tasks| ==> tasks[i].status in ["pending", "in_progress", "completed"]
    ensures Count(tasks, IsPending) + Count(tasks, IsInProgress) + Count(tasks, IsCompleted) == |tasks|
  {
    CountPartition3(tasks, IsPending, IsInProgress, IsCompleted);
  }

  /** The page's task list and error banner. */
  class TaskManagementPage {
    var tasks: seq<Task>
    var error: string

    constructor (tasks: seq<Task>)
      ensures this.tasks == tasks && error == ""
    {
      this.tasks := tasks;
      error := "";
    }

    /**
     * `updateTaskStatus`: `outcome` is how the `PUT` ended. Only an OK response changes the
     * list; otherwise the list stays and the error banner says which failure it was.
     */
    method UpdateTaskStatus(taskId: int, newStatus: string, outcome: FetchOutcome)
      modifies this
      ensures outcome == ResponseOk ==> tasks == WithStatus(old(tasks), taskId, newStatus) && error == old(error)
      ensures outcome == ResponseNotOk ==> tasks == old(tasks) && error == "Failed to update task"
      ensures outcome == Thrown ==> tasks == old(tasks) && error == "Error updating task"
    {
      match outcome {
        case ResponseOk =>
          tasks := WithStatus(tasks, taskId, newStatus);
        case ResponseNotOk =>
          error := "Failed to update task";
        case Thrown =>
          error := "Error updating task";
      }
    }

    /** Pressing the button under the task at `i`: the `PUT` asks for the offered next status. */
    method PressTaskButton(i: int, outcome: FetchOutcome)
      requires 0 <= i < |tasks| && OfferedTransition(tasks[i].status).Some?
      modifies this
      ensures outcome == ResponseOk ==>
        tasks == WithStatus(old(tasks), old(tasks)[i].id, OfferedTransition(old(tasks)[i].status).value) &&
        Stage(tasks[i].status) == Stage(old(tasks)[i].status) + 1
      ensures outcome != ResponseOk ==> tasks == old(tasks)
    {
      TransitionsMoveForward(tasks[i].status);
      UpdateTaskStatus(tasks[i].id, OfferedTransition(tasks[i].status).value, outcome);
    }
  }
}
