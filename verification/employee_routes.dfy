/**
 * The employee's task routes (employee/routes.py): the statistics of
 * `tasks_data`, and `get_task`, `update_task_status` and `complete_task`
 * over the task table. The current instant is a parameter. Every route looks
 * the task up with `get_or_404` inside `try ... except Exception`, so an
 * unknown id is answered with 500.
 */
module EmployeeRoutes {
  import opened Common
  import opened Seqs
  import opened TaskModel

  // ----- statistics -----

  predicate IsPending(t: Task) { t.status == "pending" }
  predicate IsInProgress(t: Task) { t.status == "in_progress" }
  predicate IsCompleted(t: Task) { t.status == "completed" }
  predicate IsUrgent(t: Task) { t.priority == "high" }

  /** A status the three counters do not count (such as 'cancelled'). */
  predicate IsUncounted(t: Task) {
    !IsPending(t) && !IsInProgress(t) && !IsCompleted(t)
  }

  datatype TaskStats = TaskStats(pending: nat, inProgress: nat, completed: nat, urgent: nat, total: nat)

  /** The `stats` dictionary of `tasks_data` for the employee's task list. */
  function StatsOf(tasks: seq<Task>): TaskStats {
    TaskStats(CountIf(tasks, IsPending), CountIf(tasks, IsInProgress), CountIf(tasks, IsCompleted),
              CountIf(tasks, IsUrgent), |tasks|)
  }

  /**
   * Every task is counted by at most one status counter: the three counters
   * and the uncounted tasks add up to the total, so the counters never
   * exceed it and reach it exactly when no task is cancelled or unknown.
   */
  lemma {:induction false} StatusCountsPartition(tasks: seq<Task>)
    ensures StatsOf(tasks).pending + StatsOf(tasks).inProgress + StatsOf(tasks).completed
            + CountIf(tasks, IsUncounted) == StatsOf(tasks).total
    decreases |tasks|
  {
    if tasks != [] {
      StatusCountsPartition(tasks[..|tasks| - 1]);
    }
  }

  lemma StatsBounded(tasks: seq<Task>)
    ensures StatsOf(tasks).pending + StatsOf(tasks).inProgress + StatsOf(tasks).completed <= StatsOf(tasks).total
    ensures StatsOf(tasks).pending + StatsOf(tasks).inProgress + StatsOf(tasks).completed == StatsOf(tasks).total
            <==> forall i :: 0 <= i < |tasks| ==> !IsUncounted(tasks[i])
    ensures StatsOf(tasks).urgent <= StatsOf(tasks).total
  {
    StatusCountsPartition(tasks);
    if CountIf(tasks, IsUncounted) == 0 {
      assert Filter(tasks, IsUncounted) == [];
    } else {
      var f := Filter(tasks, IsUncounted);
      assert IsUncounted(f[0]) && f[0] in tasks;
    }
  }

  /** The counting loop of `tasks_data`. */
  method TasksStats(tasks: seq<Task>) returns (stats: TaskStats)
    ensures stats == StatsOf(tasks)
  {
    stats := TaskStats(0, 0, 0, 0, |tasks|);
    for i := 0 to |tasks|
      invariant stats == StatsOf(tasks[..i]).(total := |tasks|)
    {
      var t := tasks[i];
      assert tasks[..i + 1][..i] == tasks[..i];
      if t.status == "pending" {
        stats := stats.(pending := stats.pending + 1);
      } else if t.status == "in_progress" {
        stats := stats.(inProgress := stats.inProgress + 1);
      } else if t.status == "completed" {
        stats := stats.(completed := stats.completed + 1);
      }
      if t.priority == "high" {
        stats := stats.(urgent := stats.urgent + 1);
      }
    }
    assert tasks[..|tasks|] == tasks;
  }

  // ----- task routes -----

  const ValidStatuses: seq<string> := ["pending", "in_progress", "completed", "cancelled"]

  /** The state the routes keep: completion is stamped exactly on completed tasks. */
  ghost predicate Stamped(tasks: map<int, Task>) {
    forall id :: id in tasks ==> (tasks[id].status == "completed" <==> tasks[id].completedAt.Some?)
  }

  /** `get_task`: 500 for an unknown id, 403 for a task of someone else. */
  function GetTask(tasks: map<int, Task>, current: int, id: int): (r: (Status, Option<Task>))
    ensures r.0 == Ok200 <==> id in tasks && tasks[id].assignedTo == Some(current)
    ensures r.1.Some? <==> r.0 == Ok200
    ensures r.1.Some? ==> r.1.value == tasks[id]
  {
    if id !in tasks then (InternalError500, None)
    else if tasks[id].assignedTo != Some(current) then (Forbidden403, None)
    else (Ok200, Some(tasks[id]))
  }

  /** `completed_at` after a change of status: stamped on entering 'completed', kept inside it, cleared outside it. */
  function CompletedAtAfter(t: Task, status: string, now: int): Option<int> {
    if status == "completed" && t.status != "completed" then Some(now)
    else if status != "completed" then None
    else t.completedAt
  }

  /** `update_task_status`; `status` is None when the body has no `status` key. */
  function UpdateTaskStatus(tasks: map<int, Task>, current: int, id: int, status: Option<string>, now: int)
    : (Status, map<int, Task>)
  {
    if id !in tasks then (InternalError500, tasks)
    else if tasks[id].assignedTo != Some(current) then (Forbidden403, tasks)
    else if status.None? then (BadRequest400, tasks)
    else if status.value !in ValidStatuses then (BadRequest400, tasks)
    else
      var t := tasks[id];
      (Ok200, tasks[id := t.(status := status.value, completedAt := CompletedAtAfter(t, status.value, now))])
  }

  /** `complete_task`. */
  function CompleteTask(tasks: map<int, Task>, current: int, id: int, now: int): (Status, map<int, Task>) {
    if id !in tasks then (InternalError500, tasks)
    else if tasks[id].assignedTo != Some(current) then (Forbidden403, tasks)
    else if tasks[id].status == "completed" then (BadRequest400, tasks)
    else (Ok200, tasks[id := tasks[id].(status := "completed", completedAt := Some(now))])
  }

  /**
   * A status update succeeds exactly for an assigned task and one of the
   * four statuses; it then changes only that task's status and completion
   * stamp: set on entering 'completed', kept from 'completed' to
   * 'completed', cleared for any other status. A refusal changes nothing.
   */
  lemma UpdateTaskStatusRule(tasks: map<int, Task>, current: int, id: int, status: Option<string>, now: int)
    ensures UpdateTaskStatus(tasks, current, id, status, now).0 == Ok200 <==>
              id in tasks && tasks[id].assignedTo == Some(current) &&
              status.Some? && status.value in {"pending", "in_progress", "completed", "cancelled"}
    ensures UpdateTaskStatus(tasks, current, id, status, now).0 == Forbidden403 <==>
              id in tasks && tasks[id].assignedTo != Some(current)
    ensures UpdateTaskStatus(tasks, current, id, status, now).0 != Ok200 ==>
              UpdateTaskStatus(tasks, current, id, status, now).1 == tasks
    ensures UpdateTaskStatus(tasks, current, id, status, now).0 == Ok200 ==>
              var t := tasks[id];
              var t' := UpdateTaskStatus(tasks, current, id, status, now).1[id];
              && UpdateTaskStatus(tasks, current, id, status, now).1 == tasks[id := t']
              && t' == t.(status := status.value, completedAt := t'.completedAt)
              && (status.value == "completed" && t.status != "completed" ==> t'.completedAt == Some(now))
              && (status.value == "completed" && t.status == "completed" ==> t'.completedAt == t.completedAt)
              && (status.value != "completed" ==> t'.completedAt.None?)
  {
  }

  /**
   * Completing succeeds exactly for an assigned task that is not completed
   * yet, and stamps it with the current instant; a second completion is
   * refused with 400 and changes nothing.
   */
  lemma CompleteTaskRule(tasks: map<int, Task>, current: int, id: int, now: int, later: int)
    ensures CompleteTask(tasks, current, id, now).0 == Ok200 <==>
              id in tasks && tasks[id].assignedTo == Some(current) && tasks[id].status != "completed"
    ensures CompleteTask(tasks, current, id, now).0 != Ok200 ==> CompleteTask(tasks, current, id, now).1 == tasks
    ensures CompleteTask(tasks, current, id, now).0 == Ok200 ==>
              var tasks' := CompleteTask(tasks, current, id, now).1;
              && tasks'[id] == tasks[id].(status := "completed", completedAt := Some(now))
              && CompleteTask(tasks', current, id, later) == (BadRequest400, tasks')
  {
  }

  /** Completing through either route leaves the same task, apart from the stamp kept for an already completed one. */
  lemma CompleteAgreesWithStatusUpdate(tasks: map<int, Task>, current: int, id: int, now: int)
    requires CompleteTask(tasks, current, id, now).0 == Ok200
    ensures UpdateTaskStatus(tasks, current, id, Some("completed"), now) == CompleteTask(tasks, current, id, now)
  {
  }

  /** Both routes keep completion stamped exactly on completed tasks. */
  lemma RoutesKeepStamped(tasks: map<int, Task>, current: int, id: int, status: Option<string>, now: int)
    requires Stamped(tasks)
    ensures Stamped(UpdateTaskStatus(tasks, current, id, status, now).1)
    ensures Stamped(CompleteTask(tasks, current, id, now).1)
  {
  }

  /** The task table and its routes, performed in place. */
  class TaskBoard {
    var tasks: map<int, Task>

    constructor(tasks0: map<int, Task>)
      ensures tasks == tasks0
    {
      tasks := tasks0;
    }

    method UpdateTaskStatusRoute(current: int, id: int, status': Option<string>, now: int) returns (status: Status)
      modifies this
      ensures (status, tasks) == UpdateTaskStatus(old(tasks), current, id, status', now)
    {
      if id !in tasks {
        return InternalError500;
      }
      var t := tasks[id];
      if t.assignedTo != Some(current) {
        return Forbidden403;
      }
      if status'.None? || status'.value !in ValidStatuses {
        return BadRequest400;
      }
      var stamp := t.completedAt;
      if status'.value == "completed" && t.status != "completed" {
        stamp := Some(now);
      } else if status'.value != "completed" {
        stamp := None;
      }
      tasks := tasks[id := t.(status := status'.value, completedAt := stamp)];
      status := Ok200;
    }

    method CompleteTaskRoute(current: int, id: int, now: int) returns (status: Status)
      modifies this
      ensures (status, tasks) == CompleteTask(old(tasks), current, id, now)
    {
      if id !in tasks {
        return InternalError500;
      }
      if tasks[id].assignedTo != Some(current) {
        return Forbidden403;
      }
      if tasks[id].status == "completed" {
        return BadRequest400;
      }
      tasks := tasks[id := tasks[id].(status := "completed", completedAt := Some(now))];
      status := Ok200;
    }
  }
}
