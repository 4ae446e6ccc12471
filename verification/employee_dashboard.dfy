/**
 * The task list of employee_dashboard.js: the priority and status lookups,
 * the action offered for each task and the two requests those actions send,
 * related to the server routes they reach.
 */
module EmployeeDashboard {
  import opened Common
  import opened TaskModel
  import opened EmployeeRoutes

  /** `getPriorityClass`. */
  function PriorityClass(priority: string): (c: string)
    ensures priority !in {"high", "low"} ==> c == "priority-medium"
    ensures c in {"priority-high", "priority-medium", "priority-low"}
  {
    match priority
    case "high" => "priority-high"
    case "medium" => "priority-medium"
    case "low" => "priority-low"
    case _ => "priority-medium"
  }

  /** `getPriorityText`. */
  function PriorityText(priority: string): (t: string)
    ensures priority !in {"high", "low"} ==> t == "Media"
    ensures t in {"Alta", "Media", "Baja"}
  {
    match priority
    case "high" => "Alta"
    case "medium" => "Media"
    case "low" => "Baja"
    case _ => "Media"
  }

  /** `getStatusText`. */
  function StatusText(status: string): (t: string)
    ensures status !in {"in_progress", "completed"} ==> t == "Pendiente"
    ensures t in {"Pendiente", "En Progreso", "Completada"}
  {
    match status
    case "pending" => "Pendiente"
    case "in_progress" => "En Progreso"
    case "completed" => "Completada"
    case _ => "Pendiente"
  }

  /** `getStatusClass`. */
  function StatusClass(status: string): (c: string)
    ensures status !in {"in_progress", "completed"} ==> c == "status-pending"
    ensures c in {"status-pending", "status-in-progress", "status-completed"}
  {
    match status
    case "pending" => "status-pending"
    case "in_progress" => "status-in-progress"
    case "completed" => "status-completed"
    case _ => "status-pending"
  }

  /**
   * Class and text always name the same thing, and a cancelled task, which
   * the server accepts as a status, is displayed as pending.
   */
  lemma LookupsAgree(priority: string, status: string)
    ensures PriorityText(priority) == "Media" <==> PriorityClass(priority) == "priority-medium"
    ensures StatusText(status) == "Pendiente" <==> StatusClass(status) == "status-pending"
    ensures "cancelled" in ValidStatuses && StatusText("cancelled") == StatusText("pending")
  {
  }

  /** What `getTaskActions` renders for a task. */
  datatype TaskAction = CompletedLabel | StartButton | CompleteButton | NoAction

  function TaskActions(status: string): (a: TaskAction)
    ensures a == CompletedLabel <==> status == "completed"
    ensures a == StartButton <==> status == "pending"
    ensures a == CompleteButton <==> status == "in_progress"
  {
    if status == "completed" then CompletedLabel
    else if status == "pending" then StartButton
    else if status == "in_progress" then CompleteButton
    else NoAction
  }

  /** The request a button sends: `startTask` and `completeTask`. */
  datatype TaskRequest = StatusPut(taskId: int, status: string) | CompletePost(taskId: int)

  function StartTask(taskId: int): (r: TaskRequest)
    ensures r.StatusPut? && r.taskId == taskId && r.status in ValidStatuses
  {
    StatusPut(taskId, "in_progress")
  }

  function CompleteTaskRequest(taskId: int): (r: TaskRequest)
    ensures r.CompletePost? && r.taskId == taskId
  {
    CompletePost(taskId)
  }

  /**
   * The buttons lead through the server's states: on an assigned pending
   * task, "Iniciar" is accepted and the task then offers "Completar"; that
   * is accepted in turn and the task then shows the completed label, for
   * which the server would refuse a second completion.
   */
  lemma ButtonsFollowServer(tasks: map<int, Task>, current: int, id: int, now: int, later: int)
    requires id in tasks && tasks[id].assignedTo == Some(current)
    requires TaskActions(tasks[id].status) == StartButton
    ensures var (s1, tasks1) := UpdateTaskStatus(tasks, current, id, Some(StartTask(id).status), now);
            && s1 == Ok200 && TaskActions(tasks1[id].status) == CompleteButton
            && var (s2, tasks2) := CompleteTask(tasks1, current, id, later);
            && s2 == Ok200 && TaskActions(tasks2[id].status) == CompletedLabel
            && CompleteTask(tasks2, current, id, later).0 == BadRequest400
  {
  }
}
