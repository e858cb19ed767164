/**
  Task store: the status and priority codecs, each task record with its
  builders and lifecycle predicates, and the four DuckDB tables (tasks,
  workflows, workflow phases, and the append-only task and webhook logs) as
  maps keyed by their primary keys. Identifiers are naturals chosen by the
  caller, and timestamps are naturals the caller supplies as "now".
 */
module TaskStore {
  import opened Common

  type Uuid = nat
  type Timestamp = nat

  // ---------------------------------------------------------------------
  // Status
  // ---------------------------------------------------------------------

  datatype TaskStatus = Pending | Running | Completed | Failed | Cancelled

  /** `TaskStatus::as_str`: distinct statuses get distinct lower-case names. */
  function StatusName(s: TaskStatus): string
  {
    match s
    case Pending => "pending"
    case Running => "running"
    case Completed => "completed"
    case Failed => "failed"
    case Cancelled => "cancelled"
  }

  /** `TaskStatus::from_str`: the status whose name this is, or None for any other text. */
  function ParseStatus(name: string): (r: Option<TaskStatus>)
    ensures r.Some? ==> StatusName(r.value) == name
    ensures r.None? <==> forall s: TaskStatus :: StatusName(s) != name
  {
    match name
    case "pending" => Some(Pending)
    case "running" => Some(Running)
    case "completed" => Some(Completed)
    case "failed" => Some(Failed)
    case "cancelled" => Some(Cancelled)
    case _ => None
  }

  /** Distinct statuses have distinct names, and parsing a name gives its status back. */
  lemma StatusNameRoundTrip(s: TaskStatus)
    ensures ParseStatus(StatusName(s)) == Some(s)
    ensures forall t: TaskStatus :: t != s ==> StatusName(t) != StatusName(s)
  {
  }

  /** Completed, Failed and Cancelled: the statuses that stamp `completed_at`. */
  predicate IsTerminal(s: TaskStatus)
  {
    s == Completed || s == Failed || s == Cancelled
  }

  // ---------------------------------------------------------------------
  // Priority
  // ---------------------------------------------------------------------

  datatype TaskPriority = Low | Normal | High | Critical

  /** `TaskPriority::as_i32`: the enum's discriminants 1, 5, 10 and 20. */
  function PriorityValue(p: TaskPriority): (v: int)
    ensures v == 1 || v == 5 || v == 10 || v == 20
  {
    match p
    case Low => 1
    case Normal => 5
    case High => 10
    case Critical => 20
  }

  /** `TaskPriority::from_i32`: the priority with that value, and Normal for every other integer. */
  function PriorityOf(v: int): (p: TaskPriority)
    ensures PriorityValue(p) == v || (p == Normal && v != 1 && v != 5 && v != 10 && v != 20)
  {
    match v
    case 1 => Low
    case 5 => Normal
    case 10 => High
    case 20 => Critical
    case _ => Normal
  }

  /** Distinct priorities have distinct values, and each value maps back to its priority. */
  lemma PriorityRoundTrip(p: TaskPriority)
    ensures PriorityOf(PriorityValue(p)) == p
    ensures forall q: TaskPriority :: q != p ==> PriorityValue(q) != PriorityValue(p)
  {
  }

  /** The position of a variant in the declaration, which the derived `Ord` compares. */
  function DeclarationRank(p: TaskPriority): nat
  {
    match p
    case Low => 0
    case Normal => 1
    case High => 2
    case Critical => 3
  }

  /** The derived order of the enum agrees with the order of the integer values. */
  lemma PriorityOrderAgrees(p: TaskPriority, q: TaskPriority)
    ensures DeclarationRank(p) <= DeclarationRank(q) <==> PriorityValue(p) <= PriorityValue(q)
  {
  }

  // ---------------------------------------------------------------------
  // Task record
  // ---------------------------------------------------------------------

  datatype AsyncTask = AsyncTask(
    id: Uuid,
    name: string,
    description: Option<string>,
    workflowId: Option<Uuid>,
    phaseId: Option<string>,
    agentName: string,
    agentInstructions: string,
    status: TaskStatus,
    priority: TaskPriority,
    dependencies: seq<Uuid>,
    createdAt: Timestamp,
    startedAt: Option<Timestamp>,
    completedAt: Option<Timestamp>,
    result: Option<string>,
    error: Option<string>,
    webhookUrl: Option<string>,
    retryCount: int,
    maxRetries: int,
    timeoutSeconds: Option<int>,
    metadata: Option<string>)

  /** `AsyncTask::new`, with the fresh id and the creation time supplied by the caller. */
  function NewTask(id: Uuid, name: string, agentName: string, instructions: string, now: Timestamp): (t: AsyncTask)
    ensures t.id == id && t.name == name && t.agentName == agentName && t.agentInstructions == instructions
    ensures t.status == Pending && t.priority == Normal && t.dependencies == []
    ensures t.retryCount == 0 && t.maxRetries == 3 && t.createdAt == now
    ensures t.description.None? && t.workflowId.None? && t.phaseId.None?
    ensures t.startedAt.None? && t.completedAt.None? && t.result.None? && t.error.None?
    ensures t.webhookUrl.None? && t.timeoutSeconds.None? && t.metadata.None?
  {
    AsyncTask(id, name, None, None, None, agentName, instructions, Pending, Normal, [], now,
              None, None, None, None, None, 0, 3, None, None)
  }

  function WithWorkflow(t: AsyncTask, workflowId: Uuid): AsyncTask { t.(workflowId := Some(workflowId)) }
  function WithPhase(t: AsyncTask, phaseId: string): AsyncTask { t.(phaseId := Some(phaseId)) }
  function WithPriority(t: AsyncTask, p: TaskPriority): AsyncTask { t.(priority := p) }
  function WithDependencies(t: AsyncTask, deps: seq<Uuid>): AsyncTask { t.(dependencies := deps) }
  function WithWebhook(t: AsyncTask, url: string): AsyncTask { t.(webhookUrl := Some(url)) }
  function WithTimeout(t: AsyncTask, seconds: int): AsyncTask { t.(timeoutSeconds := Some(seconds)) }
  /** `with_metadata` stores the JSON value's text. */
  function WithMetadata(t: AsyncTask, json: string): AsyncTask { t.(metadata := Some(json)) }

  /** `is_ready`: a task waits to be scheduled. */
  predicate IsReady(t: AsyncTask) { t.status == Pending }

  /** `is_complete`: a task reached a terminal status. */
  predicate IsComplete(t: AsyncTask) { IsTerminal(t.status) }

  /** `can_retry`: a task failed and has retries left. */
  predicate CanRetry(t: AsyncTask) { t.status == Failed && t.retryCount < t.maxRetries }

  /** A ready task is not complete, and a task that can be retried is complete and not ready. */
  lemma LifecyclePredicatesRelate(t: AsyncTask)
    ensures IsReady(t) ==> !IsComplete(t)
    ensures CanRetry(t) ==> IsComplete(t) && !IsReady(t)
    ensures IsReady(NewTask(t.id, t.name, t.agentName, t.agentInstructions, t.createdAt))
    ensures !CanRetry(NewTask(t.id, t.name, t.agentName, t.agentInstructions, t.createdAt))
  {
  }

  /** No builder changes the id or anything the lifecycle predicates read. */
  lemma BuildersKeepLifecycle(t: AsyncTask, w: Uuid, ph: string, p: TaskPriority, deps: seq<Uuid>, url: string, secs: int, json: string)
    ensures var all := [WithWorkflow(t, w), WithPhase(t, ph), WithPriority(t, p), WithDependencies(t, deps),
                        WithWebhook(t, url), WithTimeout(t, secs), WithMetadata(t, json)];
            forall i :: 0 <= i < |all| ==>
              all[i].id == t.id && all[i].status == t.status
              && all[i].retryCount == t.retryCount && all[i].maxRetries == t.maxRetries
              && (IsReady(all[i]) <==> IsReady(t)) && (IsComplete(all[i]) <==> IsComplete(t))
              && (CanRetry(all[i]) <==> CanRetry(t))
  {
  }

  /** Each builder sets its own field to the given value and leaves every other field as it was. */
  lemma BuildersSetOnlyTheirField(t: AsyncTask, w: Uuid, ph: string, p: TaskPriority, deps: seq<Uuid>, url: string, secs: int, json: string)
    ensures WithWorkflow(t, w).workflowId == Some(w) && WithWorkflow(t, w).(workflowId := t.workflowId) == t
    ensures WithPhase(t, ph).phaseId == Some(ph) && WithPhase(t, ph).(phaseId := t.phaseId) == t
    ensures WithPriority(t, p).priority == p && WithPriority(t, p).(priority := t.priority) == t
    ensures WithDependencies(t, deps).dependencies == deps && WithDependencies(t, deps).(dependencies := t.dependencies) == t
    ensures WithWebhook(t, url).webhookUrl == Some(url) && WithWebhook(t, url).(webhookUrl := t.webhookUrl) == t
    ensures WithTimeout(t, secs).timeoutSeconds == Some(secs) && WithTimeout(t, secs).(timeoutSeconds := t.timeoutSeconds) == t
    ensures WithMetadata(t, json).metadata == Some(json) && WithMetadata(t, json).(metadata := t.metadata) == t
  {
  }

  // ---------------------------------------------------------------------
  // Status updates and their timestamps
  // ---------------------------------------------------------------------

  /**
    The timestamps after a status update, as (started_at, completed_at): Running
    stamps `started_at`, a terminal status stamps `completed_at`, and Pending
    stamps neither.
   */
  function Stamped(status: TaskStatus, now: Timestamp, started: Option<Timestamp>, completed: Option<Timestamp>): (r: (Option<Timestamp>, Option<Timestamp>))
    ensures status == Running ==> r == (Some(now), completed)
    ensures IsTerminal(status) ==> r == (started, Some(now))
    ensures status == Pending ==> r == (started, completed)
  {
    match status
    case Running => (Some(now), completed)
    case Completed | Failed | Cancelled => (started, Some(now))
    case Pending => (started, completed)
  }

  /** The row `update_task_status` leaves: the new status with its stamp, nothing else changed. */
  function TaskWithStatus(t: AsyncTask, status: TaskStatus, now: Timestamp): AsyncTask
  {
    var stamps := Stamped(status, now, t.startedAt, t.completedAt);
    t.(status := status, startedAt := stamps.0, completedAt := stamps.1)
  }

  /** `update_task_status` to Pending changes the status alone; no update changes any other column. */
  lemma TaskStatusUpdateChangesOnlyStatusAndStamp(t: AsyncTask, status: TaskStatus, now: Timestamp)
    ensures var r := TaskWithStatus(t, status, now);
            && r.status == status
            && (r.startedAt != t.startedAt ==> status == Running)
            && (r.completedAt != t.completedAt ==> IsTerminal(status))
            && (status == Pending ==> r == t.(status := Pending))
            && r.(status := t.status, startedAt := t.startedAt, completedAt := t.completedAt) == t
  {
  }

  // ---------------------------------------------------------------------
  // Workflows, phases, log rows
  // ---------------------------------------------------------------------

  datatype Workflow = Workflow(
    id: Uuid,
    name: string,
    description: Option<string>,
    status: TaskStatus,
    createdAt: Timestamp,
    startedAt: Option<Timestamp>,
    completedAt: Option<Timestamp>,
    metadata: Option<string>)

  datatype WorkflowPhase = WorkflowPhase(
    workflowId: Uuid,
    phaseId: string,
    name: string,
    dependsOn: seq<string>,
    status: TaskStatus,
    createdAt: Timestamp,
    startedAt: Option<Timestamp>,
    completedAt: Option<Timestamp>)

  function WorkflowWithStatus(w: Workflow, status: TaskStatus, now: Timestamp): Workflow
  {
    var stamps := Stamped(status, now, w.startedAt, w.completedAt);
    w.(status := status, startedAt := stamps.0, completedAt := stamps.1)
  }

  function PhaseWithStatus(p: WorkflowPhase, status: TaskStatus, now: Timestamp): WorkflowPhase
  {
    var stamps := Stamped(status, now, p.startedAt, p.completedAt);
    p.(status := status, startedAt := stamps.0, completedAt := stamps.1)
  }

  /** Workflow and phase status updates stamp exactly as task updates do, and change nothing else. */
  lemma WorkflowAndPhaseStampLikeTasks(w: Workflow, p: WorkflowPhase, status: TaskStatus, now: Timestamp)
    ensures var r := WorkflowWithStatus(w, status, now);
            && r.status == status
            && (status == Running ==> r.startedAt == Some(now))
            && (IsTerminal(status) ==> r.completedAt == Some(now))
            && (r.startedAt != w.startedAt ==> status == Running)
            && (r.completedAt != w.completedAt ==> IsTerminal(status))
            && r.(status := w.status, startedAt := w.startedAt, completedAt := w.completedAt) == w
    ensures var r := PhaseWithStatus(p, status, now);
            && r.status == status
            && (status == Running ==> r.startedAt == Some(now))
            && (IsTerminal(status) ==> r.completedAt == Some(now))
            && (r.startedAt != p.startedAt ==> status == Running)
            && (r.completedAt != p.completedAt ==> IsTerminal(status))
            && r.(status := p.status, startedAt := p.startedAt, completedAt := p.completedAt) == p
  {
  }

  /** A row of `task_logs`. */
  datatype TaskLogEntry = TaskLogEntry(taskId: Uuid, timestamp: Timestamp, level: string, message: string, metadata: Option<string>)

  /** A row of `webhook_deliveries`. */
  datatype WebhookDelivery = WebhookDelivery(
    taskId: Uuid,
    webhookUrl: string,
    payload: string,
    statusCode: Option<int>,
    response: Option<string>,
    attemptedAt: Timestamp,
    deliveredAt: Option<Timestamp>)

  type PhaseKey = (Uuid, string)

  // ---------------------------------------------------------------------
  // ORDER BY ... LIMIT
  // ---------------------------------------------------------------------

  /** Lexicographic order on sort keys. */
  predicate KeyLe(a: (int, int), b: (int, int))
  {
    a.0 < b.0 || (a.0 == b.0 && a.1 <= b.1)
  }

  /**
    `SELECT ... ORDER BY key [LIMIT limit]` over the rows in `pool`: distinct
    rows of the pool in key order, no more than the limit, a row left out only
    when the limit is reached, and no row left out with a smaller key than a
    row returned. Rows with equal keys may come in any order.
   */
  ghost predicate IsOrderedSelection<V>(pool: set<V>, key: V -> (int, int), limit: Option<nat>, rows: seq<V>)
  {
    && (limit.Some? ==> |rows| <= limit.value)
    && (forall i :: 0 <= i < |rows| ==> rows[i] in pool)
    && (forall i, j :: 0 <= i < j < |rows| ==> rows[i] != rows[j])
    && (forall i, j :: 0 <= i < j < |rows| ==> KeyLe(key(rows[i]), key(rows[j])))
    && (forall v :: v in pool && v !in rows ==> limit.Some? && |rows| == limit.value)
    && (forall i, v :: 0 <= i < |rows| && v in pool && v !in rows ==> KeyLe(key(rows[i]), key(v)))
  }

  /** A row of `among` with the smallest sort key. */
  method LeastRow<V>(among: set<V>, key: V -> (int, int)) returns (best: V)
    requires among != {}
    ensures best in among
    ensures forall v :: v in among ==> KeyLe(key(best), key(v))
  {
    best :| best in among;
    var todo := among - {best};
    while todo != {}
      invariant todo <= among && best in among
      invariant forall v :: v in among && v !in todo ==> KeyLe(key(best), key(v))
      decreases todo
    {
      var v :| v in todo;
      if !KeyLe(key(best), key(v)) {
        best := v;
      }
      todo := todo - {v};
    }
  }

  /** The rows of an ordered query, collected one by one until the pool or the limit runs out. */
  method SelectOrdered<V(==)>(pool: set<V>, key: V -> (int, int), limit: Option<nat>) returns (rows: seq<V>)
    ensures IsOrderedSelection(pool, key, limit, rows)
  {
    var rest := pool;
    rows := [];
    while (limit.None? || |rows| < limit.value) && rest != {}
      invariant limit.Some? ==> |rows| <= limit.value
      invariant rest <= pool
      invariant forall i :: 0 <= i < |rows| ==> rows[i] in pool && rows[i] !in rest
      invariant forall v :: v in pool && v !in rows ==> v in rest
      invariant forall i, j :: 0 <= i < j < |rows| ==> rows[i] != rows[j]
      invariant forall i, j :: 0 <= i < j < |rows| ==> KeyLe(key(rows[i]), key(rows[j]))
      invariant forall i, v :: 0 <= i < |rows| && v in rest ==> KeyLe(key(rows[i]), key(v))
      decreases rest
    {
      var best := LeastRow(rest, key);
      rows := rows + [best];
      rest := rest - {best};
    }
  }

  /** With no limit, the query returns every row of the pool and nothing else. */
  lemma UnlimitedSelectionIsComplete<V>(pool: set<V>, key: V -> (int, int), rows: seq<V>)
    requires IsOrderedSelection(pool, key, None, rows)
    ensures forall v :: v in pool <==> v in rows
  {
  }

  // The WHERE clauses of the queries.

  function PendingTasks(tasks: map<Uuid, AsyncTask>): set<AsyncTask>
  {
    set id | id in tasks && tasks[id].status == Pending :: tasks[id]
  }

  function WorkflowTasks(tasks: map<Uuid, AsyncTask>, workflowId: Uuid): set<AsyncTask>
  {
    set id | id in tasks && tasks[id].workflowId == Some(workflowId) :: tasks[id]
  }

  function PhaseTasks(tasks: map<Uuid, AsyncTask>, workflowId: Uuid, phaseId: string): set<AsyncTask>
  {
    set id | id in tasks && tasks[id].workflowId == Some(workflowId) && tasks[id].phaseId == Some(phaseId) :: tasks[id]
  }

  function WorkflowPhases(phases: map<PhaseKey, WorkflowPhase>, workflowId: Uuid): set<WorkflowPhase>
  {
    set k | k in phases && phases[k].workflowId == workflowId :: phases[k]
  }

  /** Every listed task exists and is Completed. */
  predicate DependenciesCompleted(tasks: map<Uuid, AsyncTask>, deps: seq<Uuid>)
  {
    forall d :: d in deps ==> d in tasks && tasks[d].status == Completed
  }

  /** Every listed phase of the workflow exists and is Completed. */
  predicate PhaseDependenciesCompleted(phases: map<PhaseKey, WorkflowPhase>, workflowId: Uuid, dependsOn: seq<string>)
  {
    forall d :: d in dependsOn ==> (workflowId, d) in phases && phases[(workflowId, d)].status == Completed
  }

  /** `ORDER BY priority DESC, created_at ASC` */
  function PendingKey(t: AsyncTask): (int, int)
  {
    (-PriorityValue(t.priority), t.createdAt)
  }

  /** `ORDER BY created_at ASC` */
  function CreatedKey(t: AsyncTask): (int, int)
  {
    (t.createdAt, 0)
  }

  function PhaseCreatedKey(p: WorkflowPhase): (int, int)
  {
    (p.createdAt, 0)
  }

  // ---------------------------------------------------------------------
  // The database
  // ---------------------------------------------------------------------

  /** Each task row is stored under its own id, the primary key of `tasks`. */
  // ---------------------------------------------------------------------
  // Keys of the log tables
  // ---------------------------------------------------------------------

  /**
    A primary-key column of a table whose n rows hold the keys 0 to n - 1
    takes a value that is present and not used yet; it never takes NULL.
   */
  predicate KeyAccepts(n: nat, key: Option<int>)
  {
    key.Some? && !(0 <= key.value < n)
  }

  /**
    The key the INSERTs of `add_task_log` and `log_delivery` give the
    `id INTEGER PRIMARY KEY` column of `task_logs` and `webhook_deliveries`:
    their column lists leave `id` out and the column has no default, so it
    is NULL.
   */
  const LogInsertKey: Option<int> := None

  /** The log INSERT as written is rejected whatever the table holds, where a key past the last row is accepted. */
  lemma LogInsertKeyRejected(n: nat)
    ensures !KeyAccepts(n, LogInsertKey)
    ensures KeyAccepts(n, Some(n))
  {
  }

  ghost predicate TasksKeyedById(tasks: map<Uuid, AsyncTask>)
  {
    forall id :: id in tasks ==> tasks[id].id == id
  }

  /** The DuckDB database: one map per table, keyed by the table's primary key, and the two logs. */
  class Database {
    var tasks: map<Uuid, AsyncTask>
    var workflows: map<Uuid, Workflow>
    var phases: map<PhaseKey, WorkflowPhase>
    var taskLogs: seq<TaskLogEntry>
    var deliveries: seq<WebhookDelivery>

    /** Every row is stored under its own primary key. */
    ghost predicate Valid()
      reads this
    {
      && TasksKeyedById(tasks)
      && (forall id :: id in workflows ==> workflows[id].id == id)
      && (forall k :: k in phases ==> (phases[k].workflowId, phases[k].phaseId) == k)
    }

    /** `Database::in_memory` after `init_schema`: every table empty. */
    constructor ()
      ensures Valid()
      ensures tasks == map[] && workflows == map[] && phases == map[]
      ensures taskLogs == [] && deliveries == []
    {
      tasks := map[];
      workflows := map[];
      phases := map[];
      taskLogs := [];
      deliveries := [];
    }

    // ----- tasks -----

    /** `insert_task`: a second row with the same id violates the primary key. */
    method InsertTask(task: AsyncTask) returns (r: Result<(), string>)
      requires Valid()
      modifies this
      ensures Valid()
      ensures task.id in old(tasks) ==> r.Err? && tasks == old(tasks)
      ensures task.id !in old(tasks) ==> r.Ok? && tasks == old(tasks)[task.id := task]
      ensures workflows == old(workflows) && phases == old(phases)
      ensures taskLogs == old(taskLogs) && deliveries == old(deliveries)
    {
      if task.id in tasks {
        return Err("duplicate key: tasks.id");
      }
      tasks := tasks[task.id := task];
      return Ok(());
    }

    /** `get_task` */
    method GetTask(id: Uuid) returns (r: Option<AsyncTask>)
      requires Valid()
      ensures r.Some? <==> id in tasks
      ensures r.Some? ==> r.value == tasks[id] && r.value.id == id
    {
      if id in tasks {
        return Some(tasks[id]);
      }
      return None;
    }

    /** The one write every task update makes: replace the row if it exists; an unknown id matches no row. */
    method UpdateTaskRow(id: Uuid, row: AsyncTask)
      requires Valid() && row.id == id
      modifies this
      ensures Valid()
      ensures tasks == if id in old(tasks) then old(tasks)[id := row] else old(tasks)
      ensures workflows == old(workflows) && phases == old(phases)
      ensures taskLogs == old(taskLogs) && deliveries == old(deliveries)
    {
      if id in tasks {
        tasks := tasks[id := row];
      }
    }

    /** `update_task_status` */
    method UpdateTaskStatus(id: Uuid, status: TaskStatus, now: Timestamp)
      requires Valid()
      modifies this
      ensures Valid()
      ensures tasks == if id in old(tasks) then old(tasks)[id := TaskWithStatus(old(tasks)[id], status, now)] else old(tasks)
      ensures workflows == old(workflows) && phases == old(phases)
      ensures taskLogs == old(taskLogs) && deliveries == old(deliveries)
    {
      if id in tasks {
        UpdateTaskRow(id, TaskWithStatus(tasks[id], status, now));
      }
    }

    /** `update_task_result`: the result, status Completed and `completed_at`, in one statement. */
    method UpdateTaskResult(id: Uuid, result: string, now: Timestamp)
      requires Valid()
      modifies this
      ensures Valid()
      ensures tasks == if id in old(tasks)
        then old(tasks)[id := old(tasks)[id].(result := Some(result), status := Completed, completedAt := Some(now))]
        else old(tasks)
      ensures workflows == old(workflows) && phases == old(phases)
      ensures taskLogs == old(taskLogs) && deliveries == old(deliveries)
    {
      if id in tasks {
        UpdateTaskRow(id, tasks[id].(result := Some(result), status := Completed, completedAt := Some(now)));
      }
    }

    /** `update_task_error`: the error, status Failed and `completed_at`, in one statement. */
    method UpdateTaskError(id: Uuid, error: string, now: Timestamp)
      requires Valid()
      modifies this
      ensures Valid()
      ensures tasks == if id in old(tasks)
        then old(tasks)[id := old(tasks)[id].(error := Some(error), status := Failed, completedAt := Some(now))]
        else old(tasks)
      ensures workflows == old(workflows) && phases == old(phases)
      ensures taskLogs == old(taskLogs) && deliveries == old(deliveries)
    {
      if id in tasks {
        UpdateTaskRow(id, tasks[id].(error := Some(error), status := Failed, completedAt := Some(now)));
      }
    }

    /** `get_pending_tasks(limit)`: pending tasks, highest priority first, oldest first within a priority. */
    method GetPendingTasks(limit: nat) returns (r: seq<AsyncTask>)
      requires Valid()
      ensures IsOrderedSelection(PendingTasks(tasks), PendingKey, Some(limit), r)
    {
      r := SelectOrdered(PendingTasks(tasks), PendingKey, Some(limit));
    }

    /** `get_workflow_tasks`: the workflow's tasks, oldest first. */
    method GetWorkflowTasks(workflowId: Uuid) returns (r: seq<AsyncTask>)
      requires Valid()
      ensures IsOrderedSelection(WorkflowTasks(tasks, workflowId), CreatedKey, None, r)
    {
      r := SelectOrdered(WorkflowTasks(tasks, workflowId), CreatedKey, None);
    }

    /** `get_phase_tasks`: the tasks of one phase of a workflow, oldest first. */
    method GetPhaseTasks(workflowId: Uuid, phaseId: string) returns (r: seq<AsyncTask>)
      requires Valid()
      ensures IsOrderedSelection(PhaseTasks(tasks, workflowId, phaseId), CreatedKey, None, r)
    {
      r := SelectOrdered(PhaseTasks(tasks, workflowId, phaseId), CreatedKey, None);
    }

    /**
      `are_dependencies_completed`: true iff every listed dependency exists and
      is Completed. The loop stops at the first one that is missing or not done.
     */
    method AreDependenciesCompleted(task: AsyncTask) returns (done: bool)
      ensures done <==> DependenciesCompleted(tasks, task.dependencies)
    {
      if |task.dependencies| == 0 {
        return true;
      }
      var i := 0;
      while i < |task.dependencies|
        invariant 0 <= i <= |task.dependencies|
        invariant forall j :: 0 <= j < i ==> task.dependencies[j] in tasks && tasks[task.dependencies[j]].status == Completed
      {
        var dep := task.dependencies[i];
        if dep !in tasks || tasks[dep].status != Completed {
          return false;
        }
        i := i + 1;
      }
      return true;
    }

    // ----- workflows -----

    /** `insert_workflow` */
    method InsertWorkflow(w: Workflow) returns (r: Result<(), string>)
      requires Valid()
      modifies this
      ensures Valid()
      ensures w.id in old(workflows) ==> r.Err? && workflows == old(workflows)
      ensures w.id !in old(workflows) ==> r.Ok? && workflows == old(workflows)[w.id := w]
      ensures tasks == old(tasks) && phases == old(phases)
      ensures taskLogs == old(taskLogs) && deliveries == old(deliveries)
    {
      if w.id in workflows {
        return Err("duplicate key: workflows.id");
      }
      workflows := workflows[w.id := w];
      return Ok(());
    }

    /** `get_workflow` */
    method GetWorkflow(id: Uuid) returns (r: Option<Workflow>)
      requires Valid()
      ensures r.Some? <==> id in workflows
      ensures r.Some? ==> r.value == workflows[id] && r.value.id == id
    {
      if id in workflows {
        return Some(workflows[id]);
      }
      return None;
    }

    /** `update_workflow_status`: the same timestamp rule as for tasks. */
    method UpdateWorkflowStatus(id: Uuid, status: TaskStatus, now: Timestamp)
      requires Valid()
      modifies this
      ensures Valid()
      ensures workflows == if id in old(workflows) then old(workflows)[id := WorkflowWithStatus(old(workflows)[id], status, now)] else old(workflows)
      ensures tasks == old(tasks) && phases == old(phases)
      ensures taskLogs == old(taskLogs) && deliveries == old(deliveries)
    {
      if id in workflows {
        workflows := workflows[id := WorkflowWithStatus(workflows[id], status, now)];
      }
    }

    // ----- phases -----

    /** `insert_phase`: the primary key is (workflow_id, phase_id). */
    method InsertPhase(p: WorkflowPhase) returns (r: Result<(), string>)
      requires Valid()
      modifies this
      ensures Valid()
      ensures (p.workflowId, p.phaseId) in old(phases) ==> r.Err? && phases == old(phases)
      ensures (p.workflowId, p.phaseId) !in old(phases) ==> r.Ok? && phases == old(phases)[(p.workflowId, p.phaseId) := p]
      ensures tasks == old(tasks) && workflows == old(workflows)
      ensures taskLogs == old(taskLogs) && deliveries == old(deliveries)
    {
      if (p.workflowId, p.phaseId) in phases {
        return Err("duplicate key: workflow_phases(workflow_id, phase_id)");
      }
      phases := phases[(p.workflowId, p.phaseId) := p];
      return Ok(());
    }

    /** `get_workflow_phases`: the workflow's phases, oldest first. */
    method GetWorkflowPhases(workflowId: Uuid) returns (r: seq<WorkflowPhase>)
      requires Valid()
      ensures IsOrderedSelection(WorkflowPhases(phases, workflowId), PhaseCreatedKey, None, r)
    {
      r := SelectOrdered(WorkflowPhases(phases, workflowId), PhaseCreatedKey, None);
    }

    /** `update_phase_status` */
    method UpdatePhaseStatus(workflowId: Uuid, phaseId: string, status: TaskStatus, now: Timestamp)
      requires Valid()
      modifies this
      ensures Valid()
      ensures var k := (workflowId, phaseId);
              phases == if k in old(phases) then old(phases)[k := PhaseWithStatus(old(phases)[k], status, now)] else old(phases)
      ensures tasks == old(tasks) && workflows == old(workflows)
      ensures taskLogs == old(taskLogs) && deliveries == old(deliveries)
    {
      var k := (workflowId, phaseId);
      if k in phases {
        phases := phases[k := PhaseWithStatus(phases[k], status, now)];
      }
    }

    /**
      `are_phase_dependencies_completed`: true iff every phase listed in
      `depends_on` exists in the same workflow and is Completed.
     */
    method ArePhaseDependenciesCompleted(workflowId: Uuid, phase: WorkflowPhase) returns (done: bool)
      ensures done <==> PhaseDependenciesCompleted(phases, workflowId, phase.dependsOn)
    {
      if |phase.dependsOn| == 0 {
        return true;
      }
      var i := 0;
      while i < |phase.dependsOn|
        invariant 0 <= i <= |phase.dependsOn|
        invariant forall j :: 0 <= j < i ==> (workflowId, phase.dependsOn[j]) in phases && phases[(workflowId, phase.dependsOn[j])].status == Completed
      {
        var k := (workflowId, phase.dependsOn[i]);
        if k !in phases || phases[k].status != Completed {
          return false;
        }
        i := i + 1;
      }
      return true;
    }

    // ----- logs -----

    /** `add_task_log`: appends one row; a task id is not checked against `tasks`. */
    method AddTaskLog(taskId: Uuid, level: string, message: string, metadata: Option<string>, now: Timestamp)
      requires Valid()
      modifies this
      ensures Valid()
      ensures taskLogs == old(taskLogs) + [TaskLogEntry(taskId, now, level, message, metadata)]
      ensures tasks == old(tasks) && workflows == old(workflows) && phases == old(phases)
      ensures deliveries == old(deliveries)
    {
      taskLogs := taskLogs + [TaskLogEntry(taskId, now, level, message, metadata)];
    }

    /**
      An INSERT into `task_logs` whose `id` column gets `key`: the row is
      added when the key is accepted; otherwise the INSERT fails and the table
      is unchanged.
     */
    method InsertTaskLog(entry: TaskLogEntry, key: Option<int>) returns (r: Result<(), string>)
      requires Valid()
      modifies this
      ensures Valid()
      ensures r.Ok? <==> KeyAccepts(|old(taskLogs)|, key)
      ensures taskLogs == if r.Ok? then old(taskLogs) + [entry] else old(taskLogs)
      ensures tasks == old(tasks) && workflows == old(workflows) && phases == old(phases)
      ensures deliveries == old(deliveries)
    {
      if KeyAccepts(|taskLogs|, key) {
        taskLogs := taskLogs + [entry];
        r := Ok(());
      } else {
        r := Err("constraint violated: task_logs.id");
      }
    }

    /** `add_task_log` as written: its INSERT gives the key `LogInsertKey`, so it fails and adds no row. */
    method AddTaskLogAsWritten(taskId: Uuid, level: string, message: string, metadata: Option<string>, now: Timestamp)
      returns (r: Result<(), string>)
      requires Valid()
      modifies this
      ensures Valid()
      ensures r.Err? && taskLogs == old(taskLogs)
      ensures tasks == old(tasks) && workflows == old(workflows) && phases == old(phases)
      ensures deliveries == old(deliveries)
    {
      LogInsertKeyRejected(|taskLogs|);
      r := InsertTaskLog(TaskLogEntry(taskId, now, level, message, metadata), LogInsertKey);
    }
  }

  /** The pending query returns only pending tasks of the table, by priority then age, at most `limit` of them. */
  lemma PendingSelectionShape(tasks: map<Uuid, AsyncTask>, limit: nat, r: seq<AsyncTask>)
    requires IsOrderedSelection(PendingTasks(tasks), PendingKey, Some(limit), r)
    ensures |r| <= limit
    ensures forall i :: 0 <= i < |r| ==> r[i].status == Pending && r[i] in tasks.Values
    ensures forall i, j :: 0 <= i < j < |r| ==> PriorityValue(r[i].priority) >= PriorityValue(r[j].priority)
    ensures forall i, j :: 0 <= i < j < |r| && r[i].priority == r[j].priority ==> r[i].createdAt <= r[j].createdAt
  {
  }
}
