/**
 * The manager's staff oversight page: the staff and task lists with their shared search and
 * status filter, the performance colour, task creation and the task status selector.
 */
module StaffOversight {
  import opened Common
  import opened Lists
  import opened Text

  datatype StaffStatus = Active | Inactive | OnLeave

  datatype TaskStatus = Pending | InProgress | Completed | Overdue

  datatype Priority = Low | MediumPriority | High

  function StaffStatusName(s: StaffStatus): (n: string)
    ensures |n| > 0
  {
    match s
    case Active => "active"
    case Inactive => "inactive"
    case OnLeave => "on_leave"
  }

  function TaskStatusName(s: TaskStatus): (n: string)
    ensures |n| > 0
  {
    match s
    case Pending => "pending"
    case InProgress => "in_progress"
    case Completed => "completed"
    case Overdue => "overdue"
  }

  /** A staff member; the performance score is a whole percentage. */
  datatype StaffMember = StaffMember(
    id: int,
    name: string,
    email: string,
    department: string,
    status: StaffStatus,
    performanceScore: int)

  datatype OversightTask = OversightTask(
    id: int,
    title: string,
    description: string,
    assignedTo: int,
    assignedToName: string,
    status: TaskStatus,
    priority: Priority,
    dueDate: string,
    createdDate: string)

  /** The new-task form. */
  datatype NewTaskForm = NewTaskForm(title: string, description: string, assignedTo: int, priority: Priority, dueDate: string)

  /** The form's initial and reset value: empty texts, nobody assigned, medium priority. */
  function EmptyTaskForm(): (f: NewTaskForm)
    ensures f.title == "" && f.description == "" && f.assignedTo == 0 && f.priority == MediumPriority && f.dueDate == ""
  {
    NewTaskForm("", "", 0, MediumPriority, "")
  }

  /** `getPerformanceColor`: green, yellow or red. */
  datatype PerformanceColor = Green | Yellow | Red

  function PerformanceColorOf(score: int): (c: PerformanceColor)
    ensures c == Green <==> score >= 90
    ensures c == Yellow <==> 75 <= score < 90
    ensures c == Red <==> score < 75
  {
    if score >= 90 then Green else if score >= 75 then Yellow else Red
  }

  function ColorRank(c: PerformanceColor): nat {
    match c
    case Red => 0
    case Yellow => 1
    case Green => 2
  }

  /** A higher score never gets a worse colour. */
  lemma PerformanceColorMonotone(s: int, t: int)
    requires s <= t
    ensures ColorRank(PerformanceColorOf(s)) <= ColorRank(PerformanceColorOf(t))
  {
  }

  /** The staff offered in the Assign To drop-down: only the active ones, in list order. */
  function AssignableStaff(staff: seq<StaffMember>): (r: seq<StaffMember>)
    ensures IsSubsequence(r, staff)
    ensures forall m :: m in r <==> m in staff && m.status == Active
  {
    Filter(staff, (m: StaffMember) => m.status == Active)
  }

  /** `filteredStaff`: name, e-mail or department, and status `'all'` or exact. */
  predicate StaffShown(m: StaffMember, searchTerm: string, filterStatus: string) {
    (MatchesSearch(m.name, searchTerm) || MatchesSearch(m.email, searchTerm) || MatchesSearch(m.department, searchTerm)) &&
    (filterStatus == "all" || StaffStatusName(m.status) == filterStatus)
  }

  function FilteredStaff(staff: seq<StaffMember>, searchTerm: string, filterStatus: string): (r: seq<StaffMember>)
    ensures IsSubsequence(r, staff)
    ensures forall m :: m in r <==> m in staff && StaffShown(m, searchTerm, filterStatus)
  {
    Filter(staff, m => StaffShown(m, searchTerm, filterStatus))
  }

  /** `filteredTasks`: title or assignee name, and status `'all'` or exact. */
  predicate TaskShown(t: OversightTask, searchTerm: string, filterStatus: string) {
    (MatchesSearch(t.title, searchTerm) || MatchesSearch(t.assignedToName, searchTerm)) &&
    (filterStatus == "all" || TaskStatusName(t.status) == filterStatus)
  }

  function FilteredTasks(tasks: seq<OversightTask>, searchTerm: string, filterStatus: string): (r: seq<OversightTask>)
    ensures IsSubsequence(r, tasks)
    ensures forall t :: t in r <==> t in tasks && TaskShown(t, searchTerm, filterStatus)
  {
    Filter(tasks, t => TaskShown(t, searchTerm, filterStatus))
  }

  /** No staff status is spelled like a task status. */
  lemma StatusNamesDisjoint(s: StaffStatus, t: TaskStatus)
    ensures StaffStatusName(s) != TaskStatusName(t)
  {
  }

  /**
   * One status filter serves both tabs: a staff status name hides every task, and a task status
   * name hides every staff member.
   */
  lemma FilterNamesBelongToOneTab(staff: seq<StaffMember>, tasks: seq<OversightTask>, searchTerm: string,
                                  s: StaffStatus, t: TaskStatus)
    ensures FilteredTasks(tasks, searchTerm, StaffStatusName(s)) == []
    ensures FilteredStaff(staff, searchTerm, TaskStatusName(t)) == []
  {
    forall i | 0 <= i < |tasks|
      ensures !TaskShown(tasks[i], searchTerm, StaffStatusName(s))
    {
      StatusNamesDisjoint(s, tasks[i].status);
    }
    forall i | 0 <= i < |staff|
      ensures !StaffShown(staff[i], searchTerm, TaskStatusName(t))
    {
      StatusNamesDisjoint(staff[i].status, t);
    }
  }

  /** The options of the status selector: none (it is hidden) for a completed task, otherwise never overdue. */
  function StatusChoices(t: OversightTask): (opts: seq<TaskStatus>)
    ensures t.status == Completed <==> opts == []
    ensures Overdue !in opts
    ensures t.status != Completed ==> Pending in opts && InProgress in opts && Completed in opts
  {
    if t.status == Completed then [] else [Pending, InProgress, Completed]
  }

  /** `tasks.map(t => t.id === id ? { ...t, status } : t)`. */
  function WithStatus(tasks: seq<OversightTask>, id: int, status: TaskStatus): (r: seq<OversightTask>)
    ensures |r| == |tasks|
    ensures forall i :: 0 <= i < |tasks| && tasks[i].id == id ==> r[i] == tasks[i].(status := status)
    ensures forall i :: 0 <= i < |tasks| && tasks[i].id != id ==> r[i] == tasks[i]
  {
    seq(|tasks|, i requires 0 <= i < |tasks| => if tasks[i].id == id then tasks[i].(status := status) else tasks[i])
  }

  /** The name recorded for an assignment: `staff.find(s => s.id === id)?.name || ''`. */
  function AssigneeName(staff: seq<StaffMember>, id: int): (name: string)
    ensures (forall i :: 0 <= i < |staff| ==> staff[i].id != id) ==> name == ""
    ensures name != "" ==> exists i :: 0 <= i < |staff| && staff[i].id == id && staff[i].name == name
    ensures forall k :: 0 <= k < |staff| && staff[k].id == id && (forall j :: 0 <= j < k ==> staff[j].id != id) ==>
              name == staff[k].name
  {
    var found := Find(staff, (m: StaffMember) => m.id == id);
    if found.Some? then
      assert forall k :: 0 <= k < |staff| && staff[k].id == id && (forall j :: 0 <= j < k ==> staff[j].id != id) ==>
               staff[k] == found.value;
      found.value.name
    else ""
  }

  /** The page's state that its handlers change. */
  class StaffOversightPage {
    var staff: seq<StaffMember>
    var tasks: seq<OversightTask>
    var newTask: NewTaskForm
    var showTaskModal: bool

    constructor (staff: seq<StaffMember>, tasks: seq<OversightTask>)
      ensures this.staff == staff && this.tasks == tasks && newTask == EmptyTaskForm() && !showTaskModal
    {
      this.staff := staff;
      this.tasks := tasks;
      newTask := EmptyTaskForm();
      showTaskModal := false;
    }

    /**
     * `createNewTask`: one pending task from the form goes to the end of the list, with id
     * `tasks.length + 1` (not necessarily unused) and the assignee's name; `today` is the date
     * part of the current time. Then the dialog closes and the form resets.
     */
    method CreateNewTask(today: string)
      modifies this
      ensures |tasks| == |old(tasks)| + 1 && tasks[..|old(tasks)|] == old(tasks)
      ensures var t := tasks[|old(tasks)|];
              t.id == |old(tasks)| + 1 && t.title == old(newTask).title && t.description == old(newTask).description &&
              t.assignedTo == old(newTask).assignedTo && t.assignedToName == AssigneeName(staff, old(newTask).assignedTo) &&
              t.status == Pending && t.priority == old(newTask).priority && t.dueDate == old(newTask).dueDate &&
              t.createdDate == today
      ensures staff == old(staff) && newTask == EmptyTaskForm() && !showTaskModal
    {
      var t := OversightTask(|tasks| + 1, newTask.title, newTask.description, newTask.assignedTo,
                             AssigneeName(staff, newTask.assignedTo), Pending, newTask.priority, newTask.dueDate, today);
      tasks := tasks + [t];
      showTaskModal := false;
      newTask := EmptyTaskForm();
    }

    /** `updateTaskStatus`: every task with that id takes the status; nothing else changes. */
    method UpdateTaskStatus(taskId: int, newStatus: TaskStatus)
      modifies this
      ensures tasks == WithStatus(old(tasks), taskId, newStatus)
      ensures staff == old(staff) && newTask == old(newTask) && showTaskModal == old(showTaskModal)
    {
      tasks := WithStatus(tasks, taskId, newStatus);
    }
  }
}
