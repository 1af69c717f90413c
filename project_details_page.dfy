/** The task list of one project (src/pages/ProjectDetailsPage.tsx): the task form's
    validation, the status filter, the list updates of the handlers and the progress bar. */
module ProjectDetails {
  import opened Wrappers
  import opened Constants
  import opened Lists
  import opened Rounding

  datatype Task = Task(
    id: string,
    title: string,
    description: string,
    status: string,
    priority: string,
    dueDate: Option<string>,
    createdAt: string)

  /** The editable fields a save writes over a task (`{ ...task, ...updatedTask }`). */
  datatype TaskEdit = TaskEdit(
    title: string,
    description: string,
    status: string,
    priority: string,
    dueDate: Option<string>)

  /** The `taskErrors` object: a message per field, or no key. */
  datatype TaskErrors = TaskErrors(title: Option<string>, description: Option<string>)

  const NO_TASK_ERRORS: TaskErrors := TaskErrors(None, None)

  /** The filter value that shows every task. */
  const ALL_FILTER: string := "all"

  // ---------------------------------------------------------------------------
  // Validation

  /** What the task form accepts. */
  predicate TaskFormValid(title: string, description: string)
  {
    3 <= |title| <= 100 && |description| <= 500
  }

  function TaskTitleError(title: string): (e: Option<string>)
    ensures title == "" ==> e == Some(REQUIRED)
    ensures 0 < |title| < 3 ==> e == Some(TASK_TITLE_MIN_LENGTH)
    ensures |title| > 100 ==> e == Some(TASK_TITLE_MAX_LENGTH)
    ensures e == None <==> 3 <= |title| <= 100
  {
    if title == "" then Some(REQUIRED)
    else if |title| < 3 then Some(TASK_TITLE_MIN_LENGTH)
    else if |title| > 100 then Some(TASK_TITLE_MAX_LENGTH)
    else None
  }

  function TaskDescriptionError(description: string): (e: Option<string>)
    ensures e.Some? <==> |description| > 500
    ensures e.Some? ==> e.value == DESCRIPTION_MAX_LENGTH
    ensures description == "" ==> e == None
  {
    if description != "" && |description| > 500 then Some(DESCRIPTION_MAX_LENGTH) else None
  }

  /** The errors object `validateTaskForm` stores; the form is valid exactly when it is empty. */
  function TaskFormErrors(title: string, description: string): (e: TaskErrors)
    ensures e.title == TaskTitleError(title) && e.description == TaskDescriptionError(description)
    ensures e == NO_TASK_ERRORS <==> TaskFormValid(title, description)
  {
    TaskErrors(TaskTitleError(title), TaskDescriptionError(description))
  }

  // ---------------------------------------------------------------------------
  // Filter

  function StatusIs(status: string): Task -> bool
  {
    (t: Task) => t.status == status
  }

  function IdIsNot(id: string): Task -> bool
  {
    (t: Task) => t.id != id
  }

  /** The list the filter effect shows: everything for `all`, otherwise the tasks with
      that status, in list order. */
  function TaskFilter(tasks: seq<Task>, filter: string): (r: seq<Task>)
    ensures filter == ALL_FILTER ==> r == tasks
    ensures filter != ALL_FILTER ==> forall t :: t in r <==> t in tasks && t.status == filter
    ensures forall t ::
      multiset(r)[t] == if filter == ALL_FILTER || t.status == filter then multiset(tasks)[t] else 0
    ensures IsSubsequence(r, tasks)
  {
    if filter == ALL_FILTER then
      SubsequenceOfItself(tasks);
      tasks
    else
      Filter(StatusIs(filter), tasks)
  }

  /** Applying the same filter twice shows the same list. */
  lemma TaskFilterIdempotent(tasks: seq<Task>, filter: string)
    ensures TaskFilter(TaskFilter(tasks, filter), filter) == TaskFilter(tasks, filter)
  {
    if filter != ALL_FILTER {
      FilterIdempotent(StatusIs(filter), tasks);
    }
  }

  /** A created task shows at the end of the filtered list exactly when it passes the filter. */
  lemma CreatedTaskShownLast(tasks: seq<Task>, t: Task, filter: string)
    ensures TaskFilter(tasks + [t], filter) ==
      TaskFilter(tasks, filter) + (if filter == ALL_FILTER || t.status == filter then [t] else [])
  {
    if filter != ALL_FILTER {
      FilterAppend(StatusIs(filter), tasks, [t]);
      assert Filter(StatusIs(filter), [t]) == Filter(StatusIs(filter), [t][1..]) + (if t.status == filter then [t] else []);
    }
  }

  // ---------------------------------------------------------------------------
  // List updates

  /** `handleStatusChange`'s map: only the status of the tasks with `taskId` changes. */
  function WithStatus(tasks: seq<Task>, taskId: string, newStatus: string): (r: seq<Task>)
    ensures |r| == |tasks|
    ensures forall i :: 0 <= i < |r| ==>
      && r[i].(status := tasks[i].status) == tasks[i]
      && r[i].status == (if tasks[i].id == taskId then newStatus else tasks[i].status)
  {
    seq(|tasks|, i requires 0 <= i < |tasks| =>
      if tasks[i].id == taskId then tasks[i].(status := newStatus) else tasks[i])
  }

  /** Changing a task's status twice to the same value is changing it once. */
  lemma WithStatusIdempotent(tasks: seq<Task>, taskId: string, newStatus: string)
    ensures WithStatus(WithStatus(tasks, taskId, newStatus), taskId, newStatus)
         == WithStatus(tasks, taskId, newStatus)
  {
  }

  /** The editable fields of a task. */
  function EditOf(t: Task): TaskEdit
  {
    TaskEdit(t.title, t.description, t.status, t.priority, t.dueDate)
  }

  /** `{ ...task, ...updatedTask }`: the edit replaces the editable fields, `_id` and
      `createdAt` stay. */
  function ApplyEdit(t: Task, edit: TaskEdit): (r: Task)
    ensures EditOf(r) == edit
    ensures r.id == t.id && r.createdAt == t.createdAt
  {
    t.(title := edit.title, description := edit.description, status := edit.status,
       priority := edit.priority, dueDate := edit.dueDate)
  }

  /** `handleUpdateTask`'s map: the tasks with `taskId` take the edit, all others stay. */
  function UpdateTask(tasks: seq<Task>, taskId: string, edit: TaskEdit): (r: seq<Task>)
    ensures |r| == |tasks|
    ensures forall i :: 0 <= i < |r| ==> r[i].id == tasks[i].id && r[i].createdAt == tasks[i].createdAt
    ensures forall i :: 0 <= i < |r| ==>
      if tasks[i].id == taskId then EditOf(r[i]) == edit else r[i] == tasks[i]
  {
    seq(|tasks|, i requires 0 <= i < |tasks| =>
      if tasks[i].id == taskId then ApplyEdit(tasks[i], edit) else tasks[i])
  }

  /** `handleDeleteTask`'s filter: every task with `taskId` goes, the others keep their order. */
  function RemoveTask(tasks: seq<Task>, taskId: string): (r: seq<Task>)
    ensures forall t :: t in r <==> t in tasks && t.id != taskId
    ensures forall t :: multiset(r)[t] == if t.id != taskId then multiset(tasks)[t] else 0
    ensures IsSubsequence(r, tasks)
    ensures |r| <= |tasks|
  {
    Filter(IdIsNot(taskId), tasks)
  }

  /** Deleting the same task again changes nothing. */
  lemma RemoveTaskIdempotent(tasks: seq<Task>, taskId: string)
    ensures RemoveTask(RemoveTask(tasks, taskId), taskId) == RemoveTask(tasks, taskId)
  {
    FilterIdempotent(IdIsNot(taskId), tasks);
  }

  /** Deleting a task id the list does not hold changes nothing. */
  lemma RemoveAbsentTask(tasks: seq<Task>, taskId: string)
    requires forall t :: t in tasks ==> t.id != taskId
    ensures RemoveTask(tasks, taskId) == tasks
  {
    FilterKeepsAll(IdIsNot(taskId), tasks);
  }

  /** `taskDueDate || null`: an empty due date is stored as null. */
  function DueDateOrNull(d: string): (r: Option<string>)
    ensures r == None <==> d == ""
    ensures r.Some? ==> r.value == d
  {
    if d == "" then None else Some(d)
  }

  /** `task.dueDate || ''`: how the edit form shows a stored due date. */
  function DueDateText(d: Option<string>): (r: string)
    ensures r == "" <==> d == None || d == Some("")
  {
    match d
    case None => ""
    case Some(s) => s
  }

  /** Showing a stored due date in the form and saving it gives it back, except for the
      empty string, which is saved as null. */
  lemma DueDateRoundTrip(d: Option<string>, text: string)
    ensures d != Some("") ==> DueDateOrNull(DueDateText(d)) == d
    ensures DueDateText(DueDateOrNull(text)) == text
  {
  }

  // ---------------------------------------------------------------------------
  // Progress and display

  function CompletedCount(tasks: seq<Task>): (n: nat)
    ensures n <= |tasks|
  {
    |Filter(StatusIs(COMPLETED), tasks)|
  }

  /** The progress bar: 0 for an empty list, otherwise the rounded share of completed tasks. */
  function ProgressPercentage(tasks: seq<Task>): (r: nat)
    ensures tasks == [] ==> r == 0
    ensures r <= 100
    ensures tasks != [] ==>
      2 * |tasks| * r <= 200 * CompletedCount(tasks) + |tasks| < 2 * |tasks| * (r + 1)
    ensures CompletedCount(tasks) == 0 ==> r == 0
    ensures tasks != [] && CompletedCount(tasks) == |tasks| ==> r == 100
  {
    if |tasks| > 0 then Percent(CompletedCount(tasks), |tasks|) else 0
  }

  /** A list whose every task is completed is at 100%. */
  lemma AllCompletedIsFull(tasks: seq<Task>)
    requires tasks != []
    requires forall t :: t in tasks ==> t.status == COMPLETED
    ensures ProgressPercentage(tasks) == 100
  {
    FilterKeepsAll(StatusIs(COMPLETED), tasks);
  }

  const RED_CLASSES: string := "text-red-600 bg-red-50"
  const YELLOW_CLASSES: string := "text-yellow-600 bg-yellow-50"
  const GREEN_CLASSES: string := "text-green-600 bg-green-50"
  const GRAY_CLASSES: string := "text-gray-600 bg-gray-50"

  /** `getPriorityColor`: one colour per known priority, gray for anything else. */
  function PriorityColor(priority: string): (c: string)
    ensures c == RED_CLASSES <==> priority == HIGH
    ensures c == YELLOW_CLASSES <==> priority == MEDIUM
    ensures c == GREEN_CLASSES <==> priority == LOW
    ensures c == GRAY_CLASSES <==> priority !in {HIGH, MEDIUM, LOW}
  {
    if priority == HIGH then RED_CLASSES
    else if priority == MEDIUM then YELLOW_CLASSES
    else if priority == LOW then GREEN_CLASSES
    else GRAY_CLASSES
  }

  // ---------------------------------------------------------------------------
  // The page

  /** The fields of the task form. */
  datatype TaskForm = TaskForm(
    title: string,
    description: string,
    status: string,
    priority: string,
    dueDate: string)

  const EMPTY_FORM: TaskForm := TaskForm("", "", TODO, MEDIUM, "")

  /** The saved form a task would get from an unchanged edit form. */
  function FormEdit(f: TaskForm): TaskEdit
  {
    TaskEdit(f.title, f.description, f.status, f.priority, DueDateOrNull(f.dueDate))
  }

  /** Saving the edit form exactly as it was opened leaves the task as it was, unless its
      due date was the empty string. */
  lemma UnchangedEditKeepsTask(t: Task)
    requires t.dueDate != Some("")
    ensures ApplyEdit(t, FormEdit(TaskForm(t.title, t.description, t.status, t.priority,
                                           DueDateText(t.dueDate)))) == t
  {
    DueDateRoundTrip(t.dueDate, "");
  }

  class ProjectDetailsPage {
    var tasks: seq<Task>
    var activeFilter: string
    var taskTitle: string
    var taskDescription: string
    var taskStatus: string
    var taskPriority: string
    var taskDueDate: string
    var taskErrors: TaskErrors
    var selectedTask: Option<Task>
    var isEditing: bool
    var isSubmitting: bool

    function Form(): TaskForm
      reads this
    {
      TaskForm(taskTitle, taskDescription, taskStatus, taskPriority, taskDueDate)
    }

    /** The list the filter effect keeps in `filteredTasks`. */
    function FilteredTasks(): seq<Task>
      reads this
    {
      TaskFilter(tasks, activeFilter)
    }

    /** The page once its task list has loaded as `loaded`. */
    constructor (loaded: seq<Task>)
      ensures tasks == loaded && activeFilter == ALL_FILTER && FilteredTasks() == loaded
      ensures Form() == EMPTY_FORM && taskErrors == NO_TASK_ERRORS
      ensures selectedTask == None && !isEditing && !isSubmitting
    {
      tasks := loaded;
      activeFilter := ALL_FILTER;
      taskTitle, taskDescription, taskStatus, taskPriority, taskDueDate := "", "", TODO, MEDIUM, "";
      taskErrors := NO_TASK_ERRORS;
      selectedTask := None;
      isEditing := false;
      isSubmitting := false;
    }

    /** `validateTaskForm`: builds the errors object field by field and stores it. */
    method ValidateTaskForm() returns (valid: bool)
      modifies this`taskErrors
      ensures taskErrors == TaskFormErrors(taskTitle, taskDescription)
      ensures valid <==> TaskFormValid(taskTitle, taskDescription)
    {
      var errors := NO_TASK_ERRORS;
      if taskTitle == "" {
        errors := errors.(title := Some(REQUIRED));
      } else if |taskTitle| < 3 {
        errors := errors.(title := Some(TASK_TITLE_MIN_LENGTH));
      } else if |taskTitle| > 100 {
        errors := errors.(title := Some(TASK_TITLE_MAX_LENGTH));
      }
      if taskDescription != "" && |taskDescription| > 500 {
        errors := errors.(description := Some(DESCRIPTION_MAX_LENGTH));
      }
      taskErrors := errors;
      valid := errors == NO_TASK_ERRORS;
    }

    /** `handleStatusChange(taskId, newStatus)` with `reply` the answer to the patch request. */
    method HandleStatusChange(taskId: string, newStatus: string, reply: Reply)
      modifies this`tasks
      ensures tasks == if reply.Succeeded? then WithStatus(old(tasks), taskId, newStatus) else old(tasks)
    {
      if reply.Succeeded? {
        tasks := WithStatus(tasks, taskId, newStatus);
      }
    }

    /** `closeTaskModal`: clears the selection and resets the form. */
    method CloseTaskModal()
      modifies this`selectedTask, this`taskTitle, this`taskDescription, this`taskStatus,
               this`taskPriority, this`taskDueDate, this`taskErrors, this`isEditing
      ensures selectedTask == None && Form() == EMPTY_FORM && taskErrors == NO_TASK_ERRORS && !isEditing
    {
      selectedTask := None;
      taskTitle, taskDescription, taskStatus, taskPriority, taskDueDate := "", "", TODO, MEDIUM, "";
      taskErrors := NO_TASK_ERRORS;
      isEditing := false;
    }

    /** `openCreateTaskModal`: resets the form; the selection is left as it is. */
    method OpenCreateTaskModal()
      modifies this`taskTitle, this`taskDescription, this`taskStatus,
               this`taskPriority, this`taskDueDate, this`taskErrors, this`isEditing
      ensures Form() == EMPTY_FORM && taskErrors == NO_TASK_ERRORS && !isEditing
    {
      taskTitle, taskDescription, taskStatus, taskPriority, taskDueDate := "", "", TODO, MEDIUM, "";
      taskErrors := NO_TASK_ERRORS;
      isEditing := false;
    }

    /** `openEditTaskModal(task)`: selects the task and loads its fields into the form. */
    method OpenEditTaskModal(task: Task)
      modifies this`selectedTask, this`taskTitle, this`taskDescription, this`taskStatus,
               this`taskPriority, this`taskDueDate, this`taskErrors, this`isEditing
      ensures selectedTask == Some(task) && taskErrors == NO_TASK_ERRORS && isEditing
      ensures Form() == TaskForm(task.title, task.description, task.status, task.priority,
                                 DueDateText(task.dueDate))
    {
      selectedTask := Some(task);
      taskTitle := task.title;
      taskDescription := task.description;
      taskStatus := task.status;
      taskPriority := task.priority;
      taskDueDate := DueDateText(task.dueDate);
      taskErrors := NO_TASK_ERRORS;
      isEditing := true;
    }

    method OpenDeleteTaskModal(task: Task)
      modifies this`selectedTask
      ensures selectedTask == Some(task)
    {
      selectedTask := Some(task);
    }

    method CloseDeleteTaskModal()
      modifies this`selectedTask
      ensures selectedTask == None
    {
      selectedTask := None;
    }

    /** `handleCreateTask` with `reply` the answer to the create request; the appended task
        takes its id and creation time from `newId` and `createdAt`. */
    method HandleCreateTask(reply: Reply, newId: string, createdAt: string)
      modifies this`tasks, this`taskErrors, this`isSubmitting, this`selectedTask, this`taskTitle,
               this`taskDescription, this`taskStatus, this`taskPriority, this`taskDueDate, this`isEditing
      ensures taskErrors == TaskFormErrors(old(taskTitle), old(taskDescription))
      ensures var valid := TaskFormValid(old(taskTitle), old(taskDescription));
        && tasks == (if valid && reply.Succeeded?
                     then old(tasks) + [Task(newId, old(taskTitle), old(taskDescription), old(taskStatus),
                                             old(taskPriority), DueDateOrNull(old(taskDueDate)), createdAt)]
                     else old(tasks))
        && isSubmitting == (if valid then false else old(isSubmitting))
        && (if valid && reply.Succeeded?
            then Form() == EMPTY_FORM && selectedTask == None && !isEditing
            else Form() == old(Form()) && selectedTask == old(selectedTask) && isEditing == old(isEditing))
    {
      var valid := ValidateTaskForm();
      if !valid {
        return;
      }
      isSubmitting := true;
      if reply.Succeeded? {
        // the handler's closure still holds the form as submitted after the modal closes,
        // and its later write wins: the task built from that form
        var created := Task(newId, taskTitle, taskDescription, taskStatus, taskPriority,
                            DueDateOrNull(taskDueDate), createdAt);
        CloseTaskModal();
        tasks := tasks + [created];
      }
      isSubmitting := false;
    }

    /** `handleUpdateTask` with `reply` the answer to the update request. */
    method HandleUpdateTask(reply: Reply)
      modifies this`tasks, this`taskErrors, this`isSubmitting, this`selectedTask, this`taskTitle,
               this`taskDescription, this`taskStatus, this`taskPriority, this`taskDueDate, this`isEditing
      ensures taskErrors == TaskFormErrors(old(taskTitle), old(taskDescription))
      ensures var proceeds := TaskFormValid(old(taskTitle), old(taskDescription)) && old(selectedTask).Some?;
        && tasks == (if proceeds && reply.Succeeded?
                     then UpdateTask(old(tasks), old(selectedTask).value.id, FormEdit(old(Form())))
                     else old(tasks))
        && isSubmitting == (if proceeds then false else old(isSubmitting))
        && (if proceeds && reply.Succeeded?
            then Form() == EMPTY_FORM && selectedTask == None && !isEditing
            else Form() == old(Form()) && selectedTask == old(selectedTask) && isEditing == old(isEditing))
    {
      var valid := ValidateTaskForm();
      if !valid || selectedTask.None? {
        return;
      }
      isSubmitting := true;
      if reply.Succeeded? {
        tasks := UpdateTask(tasks, selectedTask.value.id, FormEdit(Form()));
        CloseTaskModal();
      }
      isSubmitting := false;
    }

    /** `handleDeleteTask` with `reply` the answer to the delete request. */
    method HandleDeleteTask(reply: Reply)
      modifies this`tasks, this`isSubmitting, this`selectedTask
      ensures var proceeds := old(selectedTask).Some?;
        && tasks == (if proceeds && reply.Succeeded?
                     then RemoveTask(old(tasks), old(selectedTask).value.id)
                     else old(tasks))
        && isSubmitting == (if proceeds then false else old(isSubmitting))
        && selectedTask == (if proceeds && reply.Succeeded? then None else old(selectedTask))
    {
      if selectedTask.None? {
        return;
      }
      isSubmitting := true;
      if reply.Succeeded? {
        tasks := RemoveTask(tasks, selectedTask.value.id);
        CloseDeleteTaskModal();
      }
      isSubmitting := false;
    }
  }
}
