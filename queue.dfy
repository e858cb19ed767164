/**
  The scheduling and workflow rules of the async task queue and the workflow
  executor, as operations on a `Database`. The worker threads and channels
  are not modelled: a command sent to the workers is returned as the id it
  carries, and the current time is a parameter.
 */
module TaskQueue {
  import opened Common
  import opened TaskStore

  /** What a worker reports for a task it ran. */
  datatype TaskResult = TaskResult(taskId: Uuid, success: bool, result: Option<string>, error: Option<string>)

  /** `WorkflowStatus`, the summary `get_workflow_status` returns. */
  datatype WorkflowSummary = WorkflowSummary(
    workflow: Workflow,
    phases: seq<WorkflowPhase>,
    totalTasks: nat,
    completedTasks: nat,
    failedTasks: nat,
    runningTasks: nat)

  // ---------------------------------------------------------------------
  // The workflow verdict
  // ---------------------------------------------------------------------

  /**
    The status a workflow takes from its tasks: Failed as soon as one task
    failed; otherwise Completed once every task is terminal (so a workflow
    with no tasks is Completed); otherwise no change.
   */
  function WorkflowVerdict(members: set<AsyncTask>): (v: Option<TaskStatus>)
    ensures v == Some(Failed) <==> exists t :: t in members && t.status == Failed
    ensures v == Some(Completed) <==> (forall t :: t in members ==> IsComplete(t)) && (forall t :: t in members ==> t.status != Failed)
    ensures v.None? <==> (exists t :: t in members && !IsComplete(t)) && (forall t :: t in members ==> t.status != Failed)
    ensures members == {} ==> v == Some(Completed)
  {
    if exists t :: t in members && t.status == Failed then Some(Failed)
    else if forall t :: t in members ==> t.status == Completed then Some(Completed)
    else if forall t :: t in members ==> IsComplete(t) then Some(Completed)
    else None
  }

  /** The workflow table after a verdict: the workflow takes the verdict's status, if any. */
  function ApplyVerdict(workflows: map<Uuid, Workflow>, workflowId: Uuid, v: Option<TaskStatus>, now: Timestamp): map<Uuid, Workflow>
  {
    if v.Some? && workflowId in workflows
    then workflows[workflowId := WorkflowWithStatus(workflows[workflowId], v.value, now)]
    else workflows
  }

  /** A verdict changes the status and stamps of that one workflow, and only when there is a verdict. */
  lemma ApplyVerdictTouchesOnlyThatWorkflow(workflows: map<Uuid, Workflow>, workflowId: Uuid, v: Option<TaskStatus>, now: Timestamp)
    ensures var after := ApplyVerdict(workflows, workflowId, v, now);
            && after.Keys == workflows.Keys
            && (forall id :: id in workflows && id != workflowId ==> after[id] == workflows[id])
            && (v.None? ==> after == workflows)
            && (v.Some? && workflowId in workflows ==>
                  after[workflowId].status == v.value
                  && after[workflowId].(status := workflows[workflowId].status,
                                        startedAt := workflows[workflowId].startedAt,
                                        completedAt := workflows[workflowId].completedAt) == workflows[workflowId])
  {
  }

  /** The verdict as `update_workflow_status` computes it, over the fetched rows. */
  function RowsVerdict(rows: seq<AsyncTask>): Option<TaskStatus>
  {
    if exists i :: 0 <= i < |rows| && rows[i].status == Failed then Some(Failed)
    else if forall i :: 0 <= i < |rows| ==> rows[i].status == Completed then Some(Completed)
    else if forall i :: 0 <= i < |rows| ==> IsComplete(rows[i]) then Some(Completed)
    else None
  }

  /** Over rows holding exactly the workflow's tasks, the computed verdict is the verdict of the set. */
  lemma RowsVerdictAgrees(rows: seq<AsyncTask>, members: set<AsyncTask>)
    requires forall v :: v in members <==> v in rows
    ensures RowsVerdict(rows) == WorkflowVerdict(members)
  {
    if exists t :: t in members && t.status == Failed {
      var t :| t in members && t.status == Failed;
      var i :| 0 <= i < |rows| && rows[i] == t;
    } else if exists t :: t in members && !IsComplete(t) {
      var t :| t in members && !IsComplete(t);
      var i :| 0 <= i < |rows| && rows[i] == t;
    }
  }

  /** `TaskQueue::update_workflow_status`: the verdict over the workflow's tasks, applied. */
  method UpdateWorkflowStatus(db: Database, workflowId: Uuid, now: Timestamp)
    requires db.Valid()
    modifies db
    ensures db.Valid()
    ensures db.workflows == ApplyVerdict(old(db.workflows), workflowId, WorkflowVerdict(WorkflowTasks(old(db.tasks), workflowId)), now)
    ensures db.tasks == old(db.tasks) && db.phases == old(db.phases)
    ensures db.taskLogs == old(db.taskLogs) && db.deliveries == old(db.deliveries)
  {
    var rows := db.GetWorkflowTasks(workflowId);
    ghost var members := WorkflowTasks(db.tasks, workflowId);
    UnlimitedSelectionIsComplete(members, CreatedKey, rows);
    RowsVerdictAgrees(rows, members);
    var verdict := VerdictOf(rows);
    if verdict.Some? {
      db.UpdateWorkflowStatus(workflowId, verdict.value, now);
    }
  }

  /** The three checks `update_workflow_status` makes over the fetched rows, and the status they pick. */
  method VerdictOf(rows: seq<AsyncTask>) returns (v: Option<TaskStatus>)
    ensures v == RowsVerdict(rows)
  {
    var allCompleted := forall i :: 0 <= i < |rows| ==> rows[i].status == Completed;
    var anyFailed := exists i :: 0 <= i < |rows| && rows[i].status == Failed;
    var allDone := forall i :: 0 <= i < |rows| ==> IsComplete(rows[i]);
    if anyFailed {
      v := Some(Failed);
    } else if allCompleted {
      v := Some(Completed);
    } else if allDone {
      v := Some(Completed);
    } else {
      v := None;
    }
  }

  // ---------------------------------------------------------------------
  // Counting
  // ---------------------------------------------------------------------

  /** `tasks.iter().filter(|t| t.status == status).count()` */
  function CountStatus(rows: seq<AsyncTask>, status: TaskStatus): (n: nat)
    ensures n <= |rows|
  {
    if rows == [] then 0
    else CountStatus(rows[..|rows| - 1], status) + (if rows[|rows| - 1].status == status then 1 else 0)
  }

  function Members(rows: seq<AsyncTask>): set<AsyncTask>
  {
    set t | t in rows
  }

  function MembersWithStatus(rows: seq<AsyncTask>, status: TaskStatus): set<AsyncTask>
  {
    set t | t in rows && t.status == status
  }

  /** Distinct rows are as many as the set of rows. */
  lemma {:induction false} LengthIsSetSize(rows: seq<AsyncTask>)
    requires forall i, j :: 0 <= i < j < |rows| ==> rows[i] != rows[j]
    ensures |Members(rows)| == |rows|
  {
    if rows != [] {
      var front := rows[..|rows| - 1];
      var last := rows[|rows| - 1];
      assert rows == front + [last];
      LengthIsSetSize(front);
      assert last !in front;
      assert Members(rows) == Members(front) + {last};
    }
  }

  /** Appending a row adds it to the rows with its status and to no other status. */
  lemma MembersWithStatusSnoc(front: seq<AsyncTask>, last: AsyncTask, status: TaskStatus)
    ensures MembersWithStatus(front + [last], status)
         == MembersWithStatus(front, status) + (if last.status == status then {last} else {})
  {
    var rows := front + [last];
    forall t ensures t in MembersWithStatus(rows, status) <==> t in MembersWithStatus(front, status) || (t == last && last.status == status) {
      assert t in rows <==> t in front || t == last;
    }
  }

  /** Over distinct rows, a per-status count is the size of the set of rows with that status. */
  lemma {:induction false} CountIsSetSize(rows: seq<AsyncTask>, status: TaskStatus)
    requires forall i, j :: 0 <= i < j < |rows| ==> rows[i] != rows[j]
    ensures CountStatus(rows, status) == |MembersWithStatus(rows, status)|
  {
    if rows != [] {
      var front := rows[..|rows| - 1];
      var last := rows[|rows| - 1];
      assert rows == front + [last];
      CountIsSetSize(front, status);
      MembersWithStatusSnoc(front, last, status);
      assert last !in front;
    }
  }

  /** The completed, failed and running counts never add up to more than the total. */
  lemma {:induction false} CountsBounded(rows: seq<AsyncTask>)
    ensures CountStatus(rows, Completed) + CountStatus(rows, Failed) + CountStatus(rows, Running) <= |rows|
  {
    if rows != [] {
      CountsBounded(rows[..|rows| - 1]);
    }
  }

  /** The tasks of a workflow that have the given status. */
  function WorkflowTasksWithStatus(tasks: map<Uuid, AsyncTask>, workflowId: Uuid, status: TaskStatus): set<AsyncTask>
  {
    set t | t in WorkflowTasks(tasks, workflowId) && t.status == status
  }

  /**
    `get_workflow_status`: "Workflow not found" for an unknown id; otherwise
    the workflow, its phases oldest first, the number of its tasks, and how
    many of them are Completed, Failed and Running.
   */
  method GetWorkflowStatus(db: Database, workflowId: Uuid) returns (r: Result<WorkflowSummary, string>)
    requires db.Valid()
    ensures r.Err? <==> workflowId !in db.workflows
    ensures r.Err? ==> r.error == "Workflow not found"
    ensures r.Ok? ==>
      && r.value.workflow == db.workflows[workflowId]
      && IsOrderedSelection(WorkflowPhases(db.phases, workflowId), PhaseCreatedKey, None, r.value.phases)
      && r.value.totalTasks == |WorkflowTasks(db.tasks, workflowId)|
      && r.value.completedTasks == |WorkflowTasksWithStatus(db.tasks, workflowId, Completed)|
      && r.value.failedTasks == |WorkflowTasksWithStatus(db.tasks, workflowId, Failed)|
      && r.value.runningTasks == |WorkflowTasksWithStatus(db.tasks, workflowId, Running)|
      && r.value.completedTasks + r.value.failedTasks + r.value.runningTasks <= r.value.totalTasks
  {
    var workflow := db.GetWorkflow(workflowId);
    if workflow.None? {
      return Err("Workflow not found");
    }
    var phases := db.GetWorkflowPhases(workflowId);
    var rows := db.GetWorkflowTasks(workflowId);
    ghost var pool := WorkflowTasks(db.tasks, workflowId);
    UnlimitedSelectionIsComplete(pool, CreatedKey, rows);
    assert Members(rows) == pool;
    LengthIsSetSize(rows);
    CountIsSetSize(rows, Completed);
    CountIsSetSize(rows, Failed);
    CountIsSetSize(rows, Running);
    assert MembersWithStatus(rows, Completed) == WorkflowTasksWithStatus(db.tasks, workflowId, Completed);
    assert MembersWithStatus(rows, Failed) == WorkflowTasksWithStatus(db.tasks, workflowId, Failed);
    assert MembersWithStatus(rows, Running) == WorkflowTasksWithStatus(db.tasks, workflowId, Running);
    CountsBounded(rows);
    return Ok(WorkflowSummary(workflow.value, phases, |rows|,
      CountStatus(rows, Completed), CountStatus(rows, Failed), CountStatus(rows, Running)));
  }

  // ---------------------------------------------------------------------
  // Submission rules
  // ---------------------------------------------------------------------

  /**
    Whether `start_workflow` submits a task: it has no task dependencies and
    either has no phase or its phase exists and depends on no other phase.
    The phase is found by the phases table's key (workflow_id, phase_id).
   */
  predicate StartsWithWorkflow(phases: map<PhaseKey, WorkflowPhase>, t: AsyncTask)
  {
    && t.dependencies == []
    && (t.phaseId.Some? && t.workflowId.Some? ==>
          (t.workflowId.value, t.phaseId.value) in phases && phases[(t.workflowId.value, t.phaseId.value)].dependsOn == [])
  }

  /**
    Whether `schedule_pending_tasks` submits a pending task: its task
    dependencies are complete, and when it names a workflow and a phase that
    exists, that phase's dependencies are complete. A missing phase does not
    hold a task back.
   */
  predicate Schedulable(tasks: map<Uuid, AsyncTask>, phases: map<PhaseKey, WorkflowPhase>, t: AsyncTask)
  {
    && DependenciesCompleted(tasks, t.dependencies)
    && (t.workflowId.Some? && t.phaseId.Some? && (t.workflowId.value, t.phaseId.value) in phases ==>
          var phase := phases[(t.workflowId.value, t.phaseId.value)];
          PhaseDependenciesCompleted(phases, t.workflowId.value, phase.dependsOn))
  }

  /** A task whose phase row is missing is never submitted by `start_workflow` but is submitted by the scheduler. */
  lemma MissingPhaseRulesDisagree(tasks: map<Uuid, AsyncTask>, phases: map<PhaseKey, WorkflowPhase>, t: AsyncTask)
    requires t.dependencies == [] && t.workflowId.Some? && t.phaseId.Some?
    requires (t.workflowId.value, t.phaseId.value) !in phases
    ensures !StartsWithWorkflow(phases, t)
    ensures Schedulable(tasks, phases, t)
  {
  }

  /** Every task `start_workflow` submits would also be submitted by the scheduler. */
  lemma StartedTasksAreSchedulable(tasks: map<Uuid, AsyncTask>, phases: map<PhaseKey, WorkflowPhase>, t: AsyncTask)
    requires StartsWithWorkflow(phases, t)
    ensures Schedulable(tasks, phases, t)
  {
  }

  /** The two submission rules, with the tables they consult. */
  datatype Rule =
    | AtStart(phases: map<PhaseKey, WorkflowPhase>)
    | AtSchedule(tasks: map<Uuid, AsyncTask>, phases: map<PhaseKey, WorkflowPhase>)

  predicate Admits(rule: Rule, t: AsyncTask)
  {
    match rule
    case AtStart(phases) => StartsWithWorkflow(phases, t)
    case AtSchedule(tasks, phases) => Schedulable(tasks, phases, t)
  }

  /** The ids of the rows a rule admits, in row order. */
  function Submitted(rows: seq<AsyncTask>, rule: Rule): (ids: seq<Uuid>)
    ensures |ids| <= |rows|
  {
    if rows == [] then []
    else
      var front := Submitted(rows[..|rows| - 1], rule);
      var last := rows[|rows| - 1];
      if Admits(rule, last) then front + [last.id] else front
  }

  /** An id is submitted exactly when some row the rule admits carries it. */
  lemma {:induction false} SubmittedMembers(rows: seq<AsyncTask>, rule: Rule)
    ensures forall id :: id in Submitted(rows, rule) <==> exists i :: 0 <= i < |rows| && Admits(rule, rows[i]) && rows[i].id == id
  {
    if rows != [] {
      var front := rows[..|rows| - 1];
      SubmittedMembers(front, rule);
      assert forall i :: 0 <= i < |rows| - 1 ==> front[i] == rows[i];
    }
  }

  /** Visiting one more row appends its id exactly when the rule admits it. */
  lemma SubmittedStep(rows: seq<AsyncTask>, i: nat, rule: Rule)
    requires i < |rows|
    ensures Submitted(rows[..i + 1], rule)
         == Submitted(rows[..i], rule) + (if Admits(rule, rows[i]) then [rows[i].id] else [])
  {
    assert rows[..i + 1][..i] == rows[..i];
  }

  /**
    `start_workflow`: the workflow becomes Running, then its tasks are
    visited oldest first and those `StartsWithWorkflow` admits are submitted.
   */
  method StartWorkflow(db: Database, workflowId: Uuid, now: Timestamp) returns (submitted: seq<Uuid>, ghost rows: seq<AsyncTask>)
    requires db.Valid()
    modifies db
    ensures db.Valid()
    ensures db.workflows == ApplyVerdict(old(db.workflows), workflowId, Some(Running), now)
    ensures db.tasks == old(db.tasks) && db.phases == old(db.phases)
    ensures db.taskLogs == old(db.taskLogs) && db.deliveries == old(db.deliveries)
    ensures forall id :: id in submitted <==>
      id in db.tasks && db.tasks[id].workflowId == Some(workflowId) && StartsWithWorkflow(db.phases, db.tasks[id])
    ensures IsOrderedSelection(WorkflowTasks(db.tasks, workflowId), CreatedKey, None, rows)
    ensures submitted == Submitted(rows, AtStart(db.phases))
  {
    db.UpdateWorkflowStatus(workflowId, Running, now);
    var tasks := db.GetWorkflowTasks(workflowId);
    rows := tasks;
    UnlimitedSelectionIsComplete(WorkflowTasks(db.tasks, workflowId), CreatedKey, tasks);
    submitted := SubmitStartable(tasks, db.phases);
    StartableAreWorkflowTasks(db.tasks, db.phases, workflowId, tasks);
  }

  /** The loop of `start_workflow`: the ids of the rows `StartsWithWorkflow` admits, in row order. */
  method SubmitStartable(rows: seq<AsyncTask>, phases: map<PhaseKey, WorkflowPhase>) returns (submitted: seq<Uuid>)
    ensures submitted == Submitted(rows, AtStart(phases))
  {
    submitted := [];
    var i := 0;
    while i < |rows|
      invariant 0 <= i <= |rows|
      invariant submitted == Submitted(rows[..i], AtStart(phases))
    {
      var task := rows[i];
      if task.dependencies == [] {
        if task.phaseId.Some? && task.workflowId.Some? {
          var key := (task.workflowId.value, task.phaseId.value);
          if key in phases && phases[key].dependsOn == [] {
            submitted := submitted + [task.id];
          }
        } else {
          submitted := submitted + [task.id];
        }
      }
      SubmittedStep(rows, i, AtStart(phases));
      i := i + 1;
    }
    assert rows[..i] == rows;
  }

  /** Over rows holding exactly a workflow's tasks, the started ids are those of its tasks `StartsWithWorkflow` admits. */
  lemma StartableAreWorkflowTasks(tasks: map<Uuid, AsyncTask>, phases: map<PhaseKey, WorkflowPhase>, workflowId: Uuid, rows: seq<AsyncTask>)
    requires TasksKeyedById(tasks)
    requires forall v :: v in WorkflowTasks(tasks, workflowId) <==> v in rows
    ensures forall id :: id in Submitted(rows, AtStart(phases)) <==>
      id in tasks && tasks[id].workflowId == Some(workflowId) && StartsWithWorkflow(phases, tasks[id])
  {
    SubmittedMembers(rows, AtStart(phases));
    forall id
      ensures id in Submitted(rows, AtStart(phases)) <==>
        id in tasks && tasks[id].workflowId == Some(workflowId) && StartsWithWorkflow(phases, tasks[id])
    {
      if id in Submitted(rows, AtStart(phases)) {
        var j :| 0 <= j < |rows| && Admits(AtStart(phases), rows[j]) && rows[j].id == id;
        assert rows[j] in WorkflowTasks(tasks, workflowId);
      }
      if id in tasks && tasks[id].workflowId == Some(workflowId) && StartsWithWorkflow(phases, tasks[id]) {
        assert tasks[id] in WorkflowTasks(tasks, workflowId);
        var j :| 0 <= j < |rows| && rows[j] == tasks[id];
      }
    }
  }

  /**
    `schedule_pending_tasks`: the at most 100 pending tasks in pending order
    are visited, and each that is `Schedulable` is sent to the workers. The
    count is the number sent.
   */
  method SchedulePendingTasks(db: Database) returns (sent: seq<Uuid>, scheduled: nat, ghost considered: seq<AsyncTask>)
    requires db.Valid()
    ensures IsOrderedSelection(PendingTasks(db.tasks), PendingKey, Some(100), considered)
    ensures sent == Submitted(considered, AtSchedule(db.tasks, db.phases))
    ensures scheduled == |sent| <= 100
  {
    var rows := db.GetPendingTasks(100);
    considered := rows;
    sent, scheduled := SendSchedulable(db, rows);
  }

  /** The loop of `schedule_pending_tasks`: the ids of the schedulable rows, in row order, and their count. */
  method SendSchedulable(db: Database, rows: seq<AsyncTask>) returns (sent: seq<Uuid>, scheduled: nat)
    ensures sent == Submitted(rows, AtSchedule(db.tasks, db.phases))
    ensures scheduled == |sent|
  {
    sent := [];
    scheduled := 0;
    var i := 0;
    while i < |rows|
      invariant 0 <= i <= |rows|
      invariant sent == Submitted(rows[..i], AtSchedule(db.tasks, db.phases))
      invariant scheduled == |sent|
    {
      var task := rows[i];
      var go := CanSchedule(db, task);
      if go {
        sent := sent + [task.id];
        scheduled := scheduled + 1;
      }
      SubmittedStep(rows, i, AtSchedule(db.tasks, db.phases));
      i := i + 1;
    }
    assert rows[..i] == rows;
  }

  /** The checks `schedule_pending_tasks` makes for one task: its task dependencies, then its phase's. */
  method CanSchedule(db: Database, task: AsyncTask) returns (go: bool)
    ensures go == Schedulable(db.tasks, db.phases, task)
  {
    var ready := db.AreDependenciesCompleted(task);
    var blocked := false;
    if ready && task.workflowId.Some? && task.phaseId.Some? {
      var key := (task.workflowId.value, task.phaseId.value);
      if key in db.phases {
        var phaseReady := db.ArePhaseDependenciesCompleted(task.workflowId.value, db.phases[key]);
        blocked := !phaseReady;
      }
    }
    go := ready && !blocked;
  }

  /** Every task the scheduler sends is pending and has its task dependencies complete. */
  lemma ScheduledTasksAreReady(tasks: map<Uuid, AsyncTask>, phases: map<PhaseKey, WorkflowPhase>, considered: seq<AsyncTask>, id: Uuid)
    requires IsOrderedSelection(PendingTasks(tasks), PendingKey, Some(100), considered)
    requires id in Submitted(considered, AtSchedule(tasks, phases))
    ensures exists t :: t in tasks.Values && t.id == id && IsReady(t) && DependenciesCompleted(tasks, t.dependencies)
  {
    SubmittedMembers(considered, AtSchedule(tasks, phases));
    var i :| 0 <= i < |considered| && Admits(AtSchedule(tasks, phases), considered[i]) && considered[i].id == id;
    assert considered[i] in PendingTasks(tasks);
  }

  // ---------------------------------------------------------------------
  // Worker commands and results
  // ---------------------------------------------------------------------

  /** `cancel_task`: a task becomes Cancelled and one log row is added. */
  method CancelTask(db: Database, taskId: Uuid, now: Timestamp)
    requires db.Valid()
    modifies db
    ensures db.Valid()
    ensures db.tasks == if taskId in old(db.tasks) then old(db.tasks)[taskId := TaskWithStatus(old(db.tasks)[taskId], Cancelled, now)] else old(db.tasks)
    ensures db.taskLogs == old(db.taskLogs) + [TaskLogEntry(taskId, now, "INFO", "Task cancelled", None)]
    ensures db.workflows == old(db.workflows) && db.phases == old(db.phases) && db.deliveries == old(db.deliveries)
  {
    db.UpdateTaskStatus(taskId, Cancelled, now);
    db.AddTaskLog(taskId, "INFO", "Task cancelled", None, now);
  }

  /**
    `retry_task`: an unknown task or one that `can_retry` rejects is left
    alone; otherwise that task goes back to Pending, with its retry count
    unchanged, and one log row is added.
   */
  method RetryTask(db: Database, taskId: Uuid, now: Timestamp)
    requires db.Valid()
    modifies db
    ensures db.Valid()
    ensures if taskId in old(db.tasks) && CanRetry(old(db.tasks)[taskId])
      then db.tasks == old(db.tasks)[taskId := TaskWithStatus(old(db.tasks)[taskId], Pending, now)]
           && db.taskLogs == old(db.taskLogs) + [TaskLogEntry(taskId, now, "INFO", "Task retry scheduled", None)]
      else db.tasks == old(db.tasks) && db.taskLogs == old(db.taskLogs)
    ensures db.workflows == old(db.workflows) && db.phases == old(db.phases) && db.deliveries == old(db.deliveries)
  {
    var task := db.GetTask(taskId);
    if task.None? {
      return;
    }
    if !CanRetry(task.value) {
      return;
    }
    db.UpdateTaskStatus(taskId, Pending, now);
    db.AddTaskLog(taskId, "INFO", "Task retry scheduled", None, now);
  }

  /**
    Retrying never consumes the retry budget: a retried task that fails again
    can be retried again, however many times this repeats.
   */
  lemma RetryKeepsBudget(t: AsyncTask, now: Timestamp, later: Timestamp, error: string)
    requires CanRetry(t)
    ensures var retried := TaskWithStatus(t, Pending, now);
            && IsReady(retried)
            && retried.retryCount == t.retryCount
            && CanRetry(retried.(error := Some(error), status := Failed, completedAt := Some(later)))
  {
  }

  /** Whether a result changes its task: a success with a result, or a failure with an error. */
  predicate ResultApplies(r: TaskResult)
  {
    (r.success && r.result.Some?) || (!r.success && r.error.Some?)
  }

  /** The tasks table after `process_task_result` wrote the result. */
  function TasksAfterResult(tasks: map<Uuid, AsyncTask>, r: TaskResult, now: Timestamp): (after: map<Uuid, AsyncTask>)
    ensures after.Keys == tasks.Keys
    ensures forall id :: id in tasks && id != r.taskId ==> after[id] == tasks[id]
    ensures !ResultApplies(r) ==> after == tasks
    ensures r.taskId in tasks && r.success && r.result.Some? ==>
      after[r.taskId].status == Completed && after[r.taskId].result == r.result && after[r.taskId].completedAt == Some(now)
    ensures r.taskId in tasks && !r.success && r.error.Some? ==>
      after[r.taskId].status == Failed && after[r.taskId].error == r.error && after[r.taskId].completedAt == Some(now)
  {
    if r.taskId !in tasks || !ResultApplies(r) then tasks
    else if r.success then tasks[r.taskId := tasks[r.taskId].(result := r.result, status := Completed, completedAt := Some(now))]
    else tasks[r.taskId := tasks[r.taskId].(error := r.error, status := Failed, completedAt := Some(now))]
  }

  /** The log row `process_task_result` adds, if any; it is added even for an unknown task id. */
  function ResultLog(r: TaskResult, now: Timestamp): seq<TaskLogEntry>
  {
    if !ResultApplies(r) then []
    else if r.success then [TaskLogEntry(r.taskId, now, "INFO", "Task completed successfully", None)]
    else [TaskLogEntry(r.taskId, now, "ERROR", "Task failed", None)]
  }

  /** At most one entry is logged: for the task the result names, at ERROR level exactly for a failure. */
  lemma ResultLogMatchesOutcome(r: TaskResult, now: Timestamp)
    ensures |ResultLog(r, now)| == (if ResultApplies(r) then 1 else 0)
    ensures ResultApplies(r) ==>
              var e := ResultLog(r, now)[0];
              && e.taskId == r.taskId && e.timestamp == now && e.metadata.None?
              && (e.level == "ERROR" <==> !r.success)
              && (e.message == "Task failed" <==> !r.success)
  {
  }

  /**
    `process_task_result`: write the result or the error, log it, and, when
    that task belongs to a workflow, bring the workflow's status up to date.
   */
  method ProcessTaskResult(db: Database, r: TaskResult, now: Timestamp)
    requires db.Valid()
    modifies db
    ensures db.Valid()
    ensures db.tasks == TasksAfterResult(old(db.tasks), r, now)
    ensures db.taskLogs == old(db.taskLogs) + ResultLog(r, now)
    ensures db.workflows ==
      if r.taskId in db.tasks && db.tasks[r.taskId].workflowId.Some?
      then var w := db.tasks[r.taskId].workflowId.value;
           ApplyVerdict(old(db.workflows), w, WorkflowVerdict(WorkflowTasks(db.tasks, w)), now)
      else old(db.workflows)
    ensures db.phases == old(db.phases) && db.deliveries == old(db.deliveries)
  {
    if r.success {
      if r.result.Some? {
        db.UpdateTaskResult(r.taskId, r.result.value, now);
        db.AddTaskLog(r.taskId, "INFO", "Task completed successfully", None, now);
      }
    } else {
      if r.error.Some? {
        db.UpdateTaskError(r.taskId, r.error.value, now);
        db.AddTaskLog(r.taskId, "ERROR", "Task failed", None, now);
      }
    }
    var task := db.GetTask(r.taskId);
    if task.Some? && task.value.workflowId.Some? {
      UpdateWorkflowStatus(db, task.value.workflowId.value, now);
    }
  }

  /**
    `process_task_result` as written: the result is written, but the log
    INSERT fails, and the `?` returns that error before that task's workflow
    is looked at. A result that writes nothing goes on to the workflow check.
   */
  method ProcessTaskResultAsWritten(db: Database, r: TaskResult, now: Timestamp) returns (res: Result<(), string>)
    requires db.Valid()
    modifies db
    ensures db.Valid()
    ensures db.tasks == TasksAfterResult(old(db.tasks), r, now)
    ensures db.taskLogs == old(db.taskLogs)
    ensures res.Err? <==> ResultApplies(r)
    ensures db.workflows ==
      if !ResultApplies(r) && r.taskId in db.tasks && db.tasks[r.taskId].workflowId.Some?
      then var w := db.tasks[r.taskId].workflowId.value;
           ApplyVerdict(old(db.workflows), w, WorkflowVerdict(WorkflowTasks(db.tasks, w)), now)
      else old(db.workflows)
    ensures db.phases == old(db.phases) && db.deliveries == old(db.deliveries)
  {
    if ResultApplies(r) {
      if r.success {
        db.UpdateTaskResult(r.taskId, r.result.value, now);
        res := db.AddTaskLogAsWritten(r.taskId, "INFO", "Task completed successfully", None, now);
      } else {
        db.UpdateTaskError(r.taskId, r.error.value, now);
        res := db.AddTaskLogAsWritten(r.taskId, "ERROR", "Task failed", None, now);
      }
      return;
    }
    var task := db.GetTask(r.taskId);
    if task.Some? && task.value.workflowId.Some? {
      UpdateWorkflowStatus(db, task.value.workflowId.value, now);
    }
    res := Ok(());
  }

  /**
    The failing log changes the outcome: a workflow whose one running task
    reports success would be Completed, but as written it stays Running.
   */
  lemma LogFailureLeavesWorkflowRunning(now: Timestamp)
    ensures var t := NewTask(1, "t", "a", "i", 0).(workflowId := Some(7), status := Running);
            var tasks := map[1 := t];
            var workflows := map[7 := Workflow(7, "w", None, Running, 0, Some(0), None, None)];
            var r := TaskResult(1, true, Some("done"), None);
            var after := TasksAfterResult(tasks, r, now);
            && ResultApplies(r)
            && ApplyVerdict(workflows, 7, WorkflowVerdict(WorkflowTasks(after, 7)), now)[7].status == Completed
            && workflows[7].status == Running
  {
    var t := NewTask(1, "t", "a", "i", 0).(workflowId := Some(7), status := Running);
    var r := TaskResult(1, true, Some("done"), None);
    var after := TasksAfterResult(map[1 := t], r, now);
    assert after == map[1 := t.(result := Some("done"), status := Completed, completedAt := Some(now))];
    assert WorkflowTasks(after, 7) == {after[1]};
  }

  // ---------------------------------------------------------------------
  // Workflow executor
  // ---------------------------------------------------------------------

  /** `create_workflow`: a Pending workflow with no timestamps but its creation time; `id` is the fresh UUID. */
  method CreateWorkflow(db: Database, id: Uuid, name: string, description: Option<string>, now: Timestamp) returns (r: Result<Uuid, string>)
    requires db.Valid()
    modifies db
    ensures db.Valid()
    ensures id !in old(db.workflows) ==>
              r == Ok(id) && db.workflows == old(db.workflows)[id := Workflow(id, name, description, Pending, now, None, None, None)]
    ensures id in old(db.workflows) ==> r.Err? && db.workflows == old(db.workflows)
    ensures db.tasks == old(db.tasks) && db.phases == old(db.phases)
    ensures db.taskLogs == old(db.taskLogs) && db.deliveries == old(db.deliveries)
  {
    var workflow := Workflow(id, name, description, Pending, now, None, None, None);
    var inserted := db.InsertWorkflow(workflow);
    if inserted.Err? {
      return Err(inserted.error);
    }
    return Ok(workflow.id);
  }

  /** `add_phase`: a Pending phase of the workflow with no timestamps but its creation time. */
  method AddPhase(db: Database, workflowId: Uuid, phaseId: string, name: string, dependsOn: seq<string>, now: Timestamp) returns (r: Result<(), string>)
    requires db.Valid()
    modifies db
    ensures db.Valid()
    ensures (workflowId, phaseId) !in old(db.phases) ==>
              r.Ok? && db.phases == old(db.phases)[(workflowId, phaseId) := WorkflowPhase(workflowId, phaseId, name, dependsOn, Pending, now, None, None)]
    ensures (workflowId, phaseId) in old(db.phases) ==> r.Err? && db.phases == old(db.phases)
    ensures db.tasks == old(db.tasks) && db.workflows == old(db.workflows)
    ensures db.taskLogs == old(db.taskLogs) && db.deliveries == old(db.deliveries)
  {
    r := db.InsertPhase(WorkflowPhase(workflowId, phaseId, name, dependsOn, Pending, now, None, None));
  }

  /** `add_phase_task`: a task, stamped with the workflow and the phase, is inserted and its own id returned. */
  method AddPhaseTask(db: Database, workflowId: Uuid, phaseId: string, task: AsyncTask) returns (r: Result<Uuid, string>)
    requires db.Valid()
    modifies db
    ensures db.Valid()
    ensures task.id !in old(db.tasks) ==>
              r == Ok(task.id) && db.tasks == old(db.tasks)[task.id := task.(workflowId := Some(workflowId), phaseId := Some(phaseId))]
    ensures task.id in old(db.tasks) ==> r.Err? && db.tasks == old(db.tasks)
    ensures db.workflows == old(db.workflows) && db.phases == old(db.phases)
    ensures db.taskLogs == old(db.taskLogs) && db.deliveries == old(db.deliveries)
  {
    var stamped := WithPhase(WithWorkflow(task, workflowId), phaseId);
    var inserted := db.InsertTask(stamped);
    if inserted.Err? {
      return Err(inserted.error);
    }
    return Ok(stamped.id);
  }
}
