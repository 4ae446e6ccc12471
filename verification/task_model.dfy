/**
 * The `Task` record of Config/models/task.py: its defaults, the overdue
 * test and the two colour lookups. Instants are whole seconds; the current
 * time is a parameter.
 */
module TaskModel {
  import opened Common

  const DefaultPriority := "medium"
  const DefaultStatus := "pending"
  const FallbackColor := "#f3f4f6"

  datatype Task = Task(
    title: string,
    priority: string,
    status: string,
    assignedTo: Option<int>,
    createdBy: int,
    dueDate: Option<int>,
    completedAt: Option<int>)

  /** A row created with only the mandatory columns. */
  function NewTask(title: string, createdBy: int, dueDate: Option<int>): (t: Task)
    ensures t.priority == DefaultPriority && t.status == DefaultStatus
    ensures t.completedAt.None? && t.dueDate == dueDate
  {
    Task(title, DefaultPriority, DefaultStatus, None, createdBy, dueDate, None)
  }

  /** `is_overdue` at instant `now`. */
  predicate IsOverdue(t: Task, now: int) {
    if t.dueDate.Some? && t.status != "completed" then t.dueDate.value < now else false
  }

  /**
   * A task is overdue exactly when it has a due date in the past and is not
   * completed; a cancelled task is not exempt.
   */
  lemma OverdueRule(t: Task, now: int)
    ensures IsOverdue(t, now) <==> t.dueDate.Some? && t.dueDate.value < now && t.status != "completed"
    ensures t.status == "cancelled" && t.dueDate.Some? && t.dueDate.value < now ==> IsOverdue(t, now)
  {
  }

  /** Once overdue, a task stays overdue as time passes, until it is completed. */
  lemma OverdueStaysOverdue(t: Task, now: int, later: int)
    requires now <= later
    ensures IsOverdue(t, now) ==> IsOverdue(t, later)
    ensures !IsOverdue(t.(status := "completed"), later)
  {
  }

  /** `get_priority_color`. */
  function PriorityColor(priority: string): (c: string)
    ensures c == FallbackColor <==> priority !in {"low", "medium", "high"}
    ensures priority == "high" ==> c == "#fee2e2"
  {
    match priority
    case "low" => "#dcfce7"
    case "medium" => "#fef3c7"
    case "high" => "#fee2e2"
    case _ => FallbackColor
  }

  /** `get_status_color`. */
  function StatusColor(status: string): (c: string)
    ensures c == FallbackColor <==> status !in {"pending", "in_progress", "completed", "cancelled"}
    ensures status == "completed" ==> c == "#dcfce7"
  {
    match status
    case "pending" => "#fef3c7"
    case "in_progress" => "#dbeafe"
    case "completed" => "#dcfce7"
    case "cancelled" => "#fee2e2"
    case _ => FallbackColor
  }

  /**
   * The two tables share their palette: a low-priority task and a completed
   * one are green, medium and pending yellow, high and cancelled red; so a
   * fresh task shows yellow in both.
   */
  lemma PalettesAgree(title: string, createdBy: int, dueDate: Option<int>)
    ensures PriorityColor("low") == StatusColor("completed")
    ensures PriorityColor("medium") == StatusColor("pending")
    ensures PriorityColor("high") == StatusColor("cancelled")
    ensures PriorityColor(NewTask(title, createdBy, dueDate).priority) == StatusColor(NewTask(title, createdBy, dueDate).status)
  {
  }
}
