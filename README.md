# orchestr8 core, modelled in Dafny

This project models five parts of the orchestr8 plugin:

- **Workflow-file rewriter** (`update_workflows.py`). It rewrites references to old documentation file names in workflow command files so that they point into `.orchestr8/docs/<category>/`. Three patterns do this:
  - a backtick reference;
  - a dash list item with backticks;
  - a dash list item without backticks.
  A file is written back only when its text changed.
  One row's pass is not idempotent: applying it a second time can change a text again. It can also leave a backtick reference to an old name behind, directly after a rewritten one.
- **Async task store** (`orchestr8-async/src/db.rs`). It covers:
  - task status and priority codecs;
  - the `AsyncTask` builder and its lifecycle predicates;
  - the `Database` operations on tasks, workflows, phases and task logs, including the ordered selections (`ORDER BY … LIMIT`) and the dependency checks.
- **Task queue and workflow executor** (`orchestr8-async/src/queue.rs`). It covers:
  - scheduling of pending tasks;
  - cancel and retry;
  - processing of a task result;
  - the workflow verdict (failed / completed / still open);
  - workflow creation, phases and phase tasks;
  - starting a workflow;
  - the workflow status summary.
- **Webhook delivery** (`orchestr8-async/src/webhook.rs`). It covers:
  - the payload built from a task;
  - a send that succeeds only on a 2xx reply;
  - one delivery-log row per attempt;
  - the retry loop with its linearly growing delays;
  - the query for tasks whose webhook is still owed.
- **MCP JSON-RPC handler** (`orchestr8-bin/src/mcp.rs`). It covers:
  - response construction and method dispatch;
  - the agent-query cache key and the reasoning text;
  - `cache/clear`;
  - `resources/list` pagination;
  - `resources/read` URI parsing.

Modules:

- `Common` (`common.dfy`) holds what the others share: `Option`, `Result`, a JSON value, the lexicographic string order with a sort-by-key specification, and decimal printing and `usize` parsing.
- `WorkflowRewriter` is in `rewriter.dfy`.
- `TaskStore` is in `store.dfy`. Its `Database` class keeps the tables as maps and the log tables as sequences, and its methods update them in place.
- `TaskQueue` is in `queue.dfy`.
- `Webhooks` is in `webhook.dfy`.
- `McpServer` is in `mcp.dfy`. Its `McpHandler` class owns the query cache.

External effects are parameters:

- the clock is a `Timestamp` argument;
- HTTP replies are a function from attempt number to outcome;
- the agent database query is a function;
- the commands directory is a map from file name to document;
- the command channel is the returned sequence of task ids;
- uuids are supplied by the caller.

## Model

| member | source | states |
|---|---|---|
| WorkflowRewriter.ReplaceRewritesReference | plugins/orchestr8/scripts/update_workflows.py:116 | `Replace` models Python's `str.replace`. A backtick reference to the old name, preceded by text without backticks, becomes a backtick reference to the new path `.orchestr8/docs/<category>/<new name>` (`NewPath`). The rest of the text is rewritten the same way. |
| WorkflowRewriter.ReplaceWithoutOccurrence | plugins/orchestr8/scripts/update_workflows.py:116 | Text with no occurrence of the pattern is left unchanged by the replacement. |
| WorkflowRewriter.ReplaceSurvivorsFollowNewPath | plugins/orchestr8/scripts/update_workflows.py:116 | Any backtick reference to the old name that remains after the replacement is immediately preceded by the last character of the new path. |
| WorkflowRewriter.PatternTwoNeverFires | plugins/orchestr8/scripts/update_workflows.py:115-124 | For every well-formed mapping row, after pattern 1 no dash list item with the old name in backticks is left, so pattern 2 is a no-op. |
| WorkflowRewriter.StepSkipsPatternTwo | plugins/orchestr8/scripts/update_workflows.py:112-132 | `Step`, the three passes for one mapping row, equals pattern 1 followed by pattern 3. |
| WorkflowRewriter.SkipSpaces | plugins/orchestr8/scripts/update_workflows.py:120 | Returns the end of the maximal run of whitespace (`\s`) starting at the given position. |
| WorkflowRewriter.DashNameRewritesAt | plugins/orchestr8/scripts/update_workflows.py:127-132 | Pattern 3 (`SubDashName`): at a line start, indentation, a dash, whitespace (possibly spanning lines), the old name and then whitespace or the end of text form a match. The match is rewritten to the indentation, "- " and the new path, and the text after the name is kept. |
| WorkflowRewriter.SubDashNameIdentity | plugins/orchestr8/scripts/update_workflows.py:127-132 | With no pattern-3 match at any line start, pattern 3 leaves the text unchanged. |
| WorkflowRewriter.SubDashTickIdentity | plugins/orchestr8/scripts/update_workflows.py:119-124 | With no pattern-2 match at any line start, pattern 2 (`SubDashTick`) leaves the text unchanged. |
| WorkflowRewriter.RewriteWithoutFormsIsIdentity | plugins/orchestr8/scripts/update_workflows.py:112-132 | A text containing none of the three forms for any row comes out of the whole table unchanged. |
| WorkflowRewriter.StepIsNotIdempotent | plugins/orchestr8/scripts/update_workflows.py:116 | For every well-formed row, one row's `Step` is not idempotent: it turns "`old`old`old`" into a text that a second `Step` of the same row changes again. |
| WorkflowRewriter.ArchitectureRowIsNotIdempotent | plugins/orchestr8/scripts/update_workflows.py:27 | The concrete table row for architecture.md exhibits the non-idempotence. |
| WorkflowRewriter.RewriteContent | plugins/orchestr8/scripts/update_workflows.py:112-132 | The loop over the table computes `Rewrite`, the rewrite of the content by every row in order. |
| WorkflowRewriter.UpdateWorkflowFile | plugins/orchestr8/scripts/update_workflows.py:103-143 | Reports an update exactly when the file is readable and writable and the rewrite changes its text. Only then is the file replaced by the rewritten text; otherwise the document is unchanged. |
| WorkflowRewriter.UntouchedDocumentNotUpdated | plugins/orchestr8/scripts/update_workflows.py:134-139 | A file with none of the mapped forms is not reported as updated and not written. |
| WorkflowRewriter.SortNames | plugins/orchestr8/scripts/update_workflows.py:164 | Returns the file names strictly sorted, holding exactly the given set. |
| WorkflowRewriter.UpdateFiles | plugins/orchestr8/scripts/update_workflows.py:163-169 | Produces one report entry per file, in order, each saying whether that file would be updated. The count equals the number of updated entries. The directory after the run has every listed file updated and every other file unchanged. |
| WorkflowRewriter.RunWithTable | plugins/orchestr8/scripts/update_workflows.py:146-171 | Exits with 1, touching nothing, exactly when no argument is given or the argument is not a directory. Otherwise exits with 0 and updates the sorted workflow documents (`IsWorkflowDoc`: `*.md` files other than add-feature.md). |
| WorkflowRewriter.RunScript | plugins/orchestr8/scripts/update_workflows.py:17-100 | The script entry point with the fixed 65-row mapping table `FileMappings`. It has the same exit codes and directory effect as RunWithTable. |
| TaskStore.ParseStatus | plugins/orchestr8/mcp-server/orchestr8-async/src/db.rs:34-43 | Parsing yields a status exactly for the five status names, and the status parsed prints back as the same name. |
| TaskStore.StatusNameRoundTrip | plugins/orchestr8/mcp-server/orchestr8-async/src/db.rs:24-43 | Parsing the name of a status (`StatusName`) gives that status, and distinct statuses have distinct names. |
| TaskStore.PriorityValue | plugins/orchestr8/mcp-server/orchestr8-async/src/db.rs:65-67 | The priority values are 1, 5, 10 and 20. |
| TaskStore.PriorityOf | plugins/orchestr8/mcp-server/orchestr8-async/src/db.rs:69-77 | Decodes the four values and maps every other integer to Normal. |
| TaskStore.PriorityRoundTrip | plugins/orchestr8/mcp-server/orchestr8-async/src/db.rs:65-77 | Decoding a priority's value gives that priority, and distinct priorities have distinct values. |
| TaskStore.PriorityOrderAgrees | plugins/orchestr8/mcp-server/orchestr8-async/src/db.rs:57-62 | The declaration order Low < Normal < High < Critical agrees with the numeric order used by `ORDER BY priority DESC`. |
| TaskStore.NewTask | plugins/orchestr8/mcp-server/orchestr8-async/src/db.rs:106-133 | A new task is pending with normal priority, no dependencies, retry count 0, three retries allowed, created now, and every optional field empty. |
| TaskStore.BuildersKeepLifecycle | plugins/orchestr8/mcp-server/orchestr8-async/src/db.rs:135-168 | No builder changes a task's id, status, retry count or retry limit, nor whether it is ready, complete or retryable. |
| TaskStore.BuildersSetOnlyTheirField | plugins/orchestr8/mcp-server/orchestr8-async/src/db.rs:135-168 | Each builder (`WithWorkflow`, `WithPhase`, `WithPriority`, `WithDependencies`, `WithWebhook`, `WithTimeout`, `WithMetadata`) sets its own field to the given value, and resetting that field gives back the original task. |
| TaskStore.LifecyclePredicatesRelate | plugins/orchestr8/mcp-server/orchestr8-async/src/db.rs:170-183 | About `IsReady`, `IsComplete` and `CanRetry`: a ready task is not complete. A retryable task is complete (failed) and not ready. A new task is ready and not retryable. |
| TaskStore.Stamped | plugins/orchestr8/mcp-server/orchestr8-async/src/db.rs:415-441 | Running stamps started_at. Completed, Failed and Cancelled stamp completed_at. Pending changes no timestamp. |
| TaskStore.TaskStatusUpdateChangesOnlyStatusAndStamp | plugins/orchestr8/mcp-server/orchestr8-async/src/db.rs:415-441 | A status update (`TaskWithStatus`) changes the status and at most the matching timestamp, nothing else. |
| TaskStore.WorkflowAndPhaseStampLikeTasks | plugins/orchestr8/mcp-server/orchestr8-async/src/db.rs:611-637 | Workflow updates (`WorkflowWithStatus`), and phase updates (`PhaseWithStatus`, db.rs:689-715), set the status. Running stamps started_at and a terminal status stamps completed_at. Nothing else changes. |
| TaskStore.LeastRow | plugins/orchestr8/mcp-server/orchestr8-async/src/db.rs:473 | Picks a member of the pool whose sort key is no larger than any other's. |
| TaskStore.SelectOrdered | plugins/orchestr8/mcp-server/orchestr8-async/src/db.rs:464-487 | Returns distinct pool members in key order, at most the limit, and they are the least ones: every member left out is not smaller than any returned. |
| TaskStore.UnlimitedSelectionIsComplete | plugins/orchestr8/mcp-server/orchestr8-async/src/db.rs:490-512 | A selection without a limit returns every row of the pool. |
| TaskStore.PendingSelectionShape | plugins/orchestr8/mcp-server/orchestr8-async/src/db.rs:464-487 | Pending-task selection returns at most `limit` stored pending tasks, by priority descending and then creation time ascending. |
| TaskStore.Database.constructor | plugins/orchestr8/mcp-server/orchestr8-async/src/db.rs:234 | An in-memory database starts with every table empty. |
| TaskStore.Database.InsertTask | plugins/orchestr8/mcp-server/orchestr8-async/src/db.rs:356-392 | Adds a task under its id, or fails and changes nothing when the id already exists. Other tables are unchanged. |
| TaskStore.Database.GetTask | plugins/orchestr8/mcp-server/orchestr8-async/src/db.rs:395-412 | Returns the stored task exactly when the id is present. |
| TaskStore.Database.UpdateTaskStatus | plugins/orchestr8/mcp-server/orchestr8-async/src/db.rs:415-441 | Applies the status change and its timestamp to a task if it exists; an unknown id changes nothing. |
| TaskStore.Database.UpdateTaskResult | plugins/orchestr8/mcp-server/orchestr8-async/src/db.rs:444-451 | Sets the result, status Completed and completed_at on an existing task; nothing else changes. |
| TaskStore.Database.UpdateTaskError | plugins/orchestr8/mcp-server/orchestr8-async/src/db.rs:454-461 | Sets the error, status Failed and completed_at on an existing task; nothing else changes. |
| TaskStore.Database.GetPendingTasks | plugins/orchestr8/mcp-server/orchestr8-async/src/db.rs:464-487 | An ordered selection of pending tasks by (priority desc, created_at asc), limited. |
| TaskStore.Database.GetWorkflowTasks | plugins/orchestr8/mcp-server/orchestr8-async/src/db.rs:490-512 | All tasks of the workflow, ordered by creation time. |
| TaskStore.Database.GetPhaseTasks | plugins/orchestr8/mcp-server/orchestr8-async/src/db.rs:515-537 | All tasks of the workflow phase, ordered by creation time. |
| TaskStore.Database.AreDependenciesCompleted | plugins/orchestr8/mcp-server/orchestr8-async/src/db.rs:540-566 | True exactly when every dependency id names a stored task whose status is Completed (`DependenciesCompleted`). |
| TaskStore.Database.InsertWorkflow | plugins/orchestr8/mcp-server/orchestr8-async/src/db.rs:571-590 | Adds the workflow or fails on a duplicate id; other tables are unchanged. |
| TaskStore.Database.GetWorkflow | plugins/orchestr8/mcp-server/orchestr8-async/src/db.rs:593-608 | Returns the stored workflow exactly when the id is present. |
| TaskStore.Database.UpdateWorkflowStatus | plugins/orchestr8/mcp-server/orchestr8-async/src/db.rs:611-637 | Applies the status change and its timestamp to an existing workflow; nothing else changes. |
| TaskStore.Database.InsertPhase | plugins/orchestr8/mcp-server/orchestr8-async/src/db.rs:642-663 | Adds the phase under (workflow, phase id) or fails on a duplicate key; other tables are unchanged. |
| TaskStore.Database.GetWorkflowPhases | plugins/orchestr8/mcp-server/orchestr8-async/src/db.rs:666-686 | All phases of the workflow, ordered by creation time. |
| TaskStore.Database.UpdatePhaseStatus | plugins/orchestr8/mcp-server/orchestr8-async/src/db.rs:689-715 | Applies the status change and its timestamp to an existing phase; nothing else changes. |
| TaskStore.Database.ArePhaseDependenciesCompleted | plugins/orchestr8/mcp-server/orchestr8-async/src/db.rs:718-744 | True exactly when every named phase of the same workflow exists and is Completed. |
| TaskStore.Database.AddTaskLog | plugins/orchestr8/mcp-server/orchestr8-async/src/db.rs:749-765 | Appends exactly one log entry; no table changes. |
| TaskStore.LogInsertKeyRejected | plugins/orchestr8/mcp-server/orchestr8-async/src/db.rs:316-317 | The `id INTEGER PRIMARY KEY` column of the log tables never accepts the NULL key that the log INSERTs give it, while a key past the last row would be accepted. |
| TaskStore.Database.InsertTaskLog | plugins/orchestr8/mcp-server/orchestr8-async/src/db.rs:749-765 | An INSERT into task_logs with a given key adds the row exactly when the key is accepted; otherwise it fails and the table is unchanged. |
| TaskStore.Database.AddTaskLogAsWritten | plugins/orchestr8/mcp-server/orchestr8-async/src/db.rs:749-765 | add_task_log as written always fails and adds no row, because its INSERT leaves the key NULL. |
| TaskQueue.WorkflowVerdict | plugins/orchestr8/mcp-server/orchestr8-async/src/queue.rs:348-359 | Failed if and only if some task failed. Completed if and only if every task is complete and none failed, which includes the empty workflow. No update if and only if some task is still open and none failed. |
| TaskQueue.RowsVerdictAgrees | plugins/orchestr8/mcp-server/orchestr8-async/src/queue.rs:348-359 | The three-flag computation over task rows gives the same verdict as the set-level definition. |
| TaskQueue.VerdictOf | plugins/orchestr8/mcp-server/orchestr8-async/src/queue.rs:348-359 | The loop over the rows computes the row verdict. |
| TaskQueue.UpdateWorkflowStatus | plugins/orchestr8/mcp-server/orchestr8-async/src/queue.rs:345-362 | The workflow gets the verdict of its stored tasks (or is untouched when the verdict is no update); tasks, phases and logs are unchanged. |
| TaskQueue.ApplyVerdictTouchesOnlyThatWorkflow | plugins/orchestr8/mcp-server/orchestr8-async/src/queue.rs:345-362 | Applying a verdict (`ApplyVerdict`) keeps the set of workflows. Only the named workflow changes, and only its status and stamps. No verdict changes nothing. |
| TaskQueue.CountIsSetSize | plugins/orchestr8/mcp-server/orchestr8-async/src/queue.rs:464-476 | Counting rows with a status over distinct rows equals the number of distinct tasks with that status. |
| TaskQueue.CountsBounded | plugins/orchestr8/mcp-server/orchestr8-async/src/queue.rs:464-476 | Completed + failed + running never exceeds the total. |
| TaskQueue.GetWorkflowStatus | plugins/orchestr8/mcp-server/orchestr8-async/src/queue.rs:456-486 | Fails with "Workflow not found" exactly when the workflow is missing. Otherwise it returns the workflow, its phases, and the total, completed, failed and running task counts, each equal to the size of the matching set of stored tasks. |
| TaskQueue.MissingPhaseRulesDisagree | plugins/orchestr8/mcp-server/orchestr8-async/src/queue.rs:186-199 | A dependency-free workflow task whose phase row is missing is never submitted by start_workflow, but it is scheduled by the pending-task scheduler. |
| TaskQueue.StartedTasksAreSchedulable | plugins/orchestr8/mcp-server/orchestr8-async/src/queue.rs:437-449 | Every task start_workflow submits (`StartsWithWorkflow`) also passes the scheduler's test (`Schedulable`). |
| TaskQueue.SubmittedMembers | plugins/orchestr8/mcp-server/orchestr8-async/src/queue.rs:186-202 | An id is submitted exactly when some row admitted by the rule carries it. |
| TaskQueue.StartWorkflow | plugins/orchestr8/mcp-server/orchestr8-async/src/queue.rs:430-453 | Marks the workflow Running. It reads the workflow's tasks in creation order and submits, in that order, exactly the tasks with no dependencies that either have no phase or have an existing phase with no phase dependencies. Tasks and phases are unchanged. |
| TaskQueue.SubmitStartable | plugins/orchestr8/mcp-server/orchestr8-async/src/queue.rs:437-450 | The loop submits, in row order, the ids of the rows the start rule admits. |
| TaskQueue.StartableAreWorkflowTasks | plugins/orchestr8/mcp-server/orchestr8-async/src/queue.rs:435-450 | The submitted ids are exactly the ids of stored workflow tasks that the start rule admits. |
| TaskQueue.SchedulePendingTasks | plugins/orchestr8/mcp-server/orchestr8-async/src/queue.rs:182-205 | Considers at most 100 pending tasks in priority order. It sends exactly the ones whose dependencies and whose existing phase's dependencies are completed, and returns how many it sent. |
| TaskQueue.SendSchedulable | plugins/orchestr8/mcp-server/orchestr8-async/src/queue.rs:186-202 | The loop sends, in order, the rows that pass the scheduler's test, and counts them. |
| TaskQueue.CanSchedule | plugins/orchestr8/mcp-server/orchestr8-async/src/queue.rs:188-197 | True exactly when a task's dependencies are completed and, if it is in a workflow phase that exists, that phase's dependencies are completed (`Schedulable`). |
| TaskQueue.ScheduledTasksAreReady | plugins/orchestr8/mcp-server/orchestr8-async/src/queue.rs:182-205 | Every scheduled id belongs to a stored pending task whose dependencies are completed. |
| TaskQueue.CancelTask | plugins/orchestr8/mcp-server/orchestr8-async/src/queue.rs:265-276 | Marks an existing task Cancelled with completed_at, and always appends the "Task cancelled" log entry. |
| TaskQueue.RetryTask | plugins/orchestr8/mcp-server/orchestr8-async/src/queue.rs:278-312 | Only a stored task that can be retried is reset to Pending, and then the "Task retry scheduled" entry is logged. Otherwise nothing changes. |
| TaskQueue.RetryKeepsBudget | plugins/orchestr8/mcp-server/orchestr8-async/src/queue.rs:298-311 | A retry leaves retry_count unchanged, so a task that fails again stays retryable. |
| TaskQueue.TasksAfterResult | plugins/orchestr8/mcp-server/orchestr8-async/src/queue.rs:317-327 | A success with data completes that task with its result; a failure with an error fails it with that error. A result without data changes nothing, and no other task changes. |
| TaskQueue.ResultLogMatchesOutcome | plugins/orchestr8/mcp-server/orchestr8-async/src/queue.rs:317-327 | A result logs one entry exactly when it applies (`ResultLog`). The entry is for that task at that time. It is at ERROR level with "Task failed" exactly for a failure. |
| TaskQueue.ProcessTaskResult | plugins/orchestr8/mcp-server/orchestr8-async/src/queue.rs:314-343 | Applies the result and appends the matching log entry, even for an unknown id. It then re-evaluates its workflow's verdict when a task with that id exists and belongs to a workflow. |
| TaskQueue.ProcessTaskResultAsWritten | plugins/orchestr8/mcp-server/orchestr8-async/src/queue.rs:314-343 | With the log INSERT as written, a result that applies is written and then fails at the log, returning an error before the workflow verdict. A result that writes nothing still reaches the verdict. |
| TaskQueue.LogFailureLeavesWorkflowRunning | plugins/orchestr8/mcp-server/orchestr8-async/src/queue.rs:317-340 | For a workflow whose one running task reports success, the intended processing makes the workflow Completed, while as written it stays Running. |
| TaskQueue.CreateWorkflow | plugins/orchestr8/mcp-server/orchestr8-async/src/queue.rs:377-391 | Inserts a pending workflow with no timestamps or metadata and returns its id, or fails on a duplicate id. |
| TaskQueue.AddPhase | plugins/orchestr8/mcp-server/orchestr8-async/src/queue.rs:394-414 | Inserts a pending phase with the given dependencies, or fails on a duplicate key. |
| TaskQueue.AddPhaseTask | plugins/orchestr8/mcp-server/orchestr8-async/src/queue.rs:417-427 | Inserts a task tagged with the workflow and phase and returns its id, or fails on a duplicate id. |
| Webhooks.FromTask | plugins/orchestr8/mcp-server/orchestr8-async/src/webhook.rs:25-38 | The payload carries a task's id, name, status name, result, error and completion time. Metadata is present exactly when it parses as JSON. |
| Webhooks.SendWebhook | plugins/orchestr8/mcp-server/orchestr8-async/src/webhook.rs:118-144 | Succeeds, with status and body, exactly on a 2xx reply (`IsSuccessStatus`); every other reply or transport failure is an error. |
| Webhooks.LogRow | plugins/orchestr8/mcp-server/orchestr8-async/src/webhook.rs:190-215 | A log row has a status code exactly when the attempt was delivered. Then the code is that 2xx status, the response is the reply body, and delivered_at is set. An undelivered attempt records its error text as the response. |
| Webhooks.LogDelivery | plugins/orchestr8/mcp-server/orchestr8-async/src/webhook.rs:190-215 | Appends exactly that row to the delivery log; no other table changes. |
| Webhooks.InsertDelivery | plugins/orchestr8/mcp-server/orchestr8-async/src/webhook.rs:190-215 | An INSERT into webhook_deliveries with a given key adds the row exactly when the key is accepted; otherwise it fails and the table is unchanged. |
| Webhooks.LogDeliveryAsWritten | plugins/orchestr8/mcp-server/orchestr8-async/src/webhook.rs:190-215 | log_delivery as written always fails and adds no row, because its INSERT leaves the key NULL. |
| Webhooks.FirstDelivery | plugins/orchestr8/mcp-server/orchestr8-async/src/webhook.rs:153-181 | Finds the first delivered attempt in a range, or one past the end; every earlier attempt failed. |
| Webhooks.Attempt | plugins/orchestr8/mcp-server/orchestr8-async/src/webhook.rs:162-179 | One send plus one log row; it reports delivery exactly on a 2xx reply. |
| Webhooks.RetryDelaysGrowLinearly | plugins/orchestr8/mcp-server/orchestr8-async/src/webhook.rs:153-154 | The k-th retry waits `Delay` = delay × k seconds, so the waits grow by a constant step. The backoff is linear, not exponential. |
| Webhooks.DefaultConfigDelays | plugins/orchestr8/mcp-server/orchestr8-async/src/webhook.rs:49-57 | The default configuration (`DefaultConfig`) allows 3 retries with a 30-second timeout, waiting 5, 10 and 15 seconds. |
| Webhooks.RetryWebhook | plugins/orchestr8/mcp-server/orchestr8-async/src/webhook.rs:147-187 | Retries from attempt 1 until the first 2xx or until max_retries. It logs one row per attempt, succeeds exactly when the last attempt was delivered, and otherwise fails with the exhausted message. |
| Webhooks.AttemptCountBounds | plugins/orchestr8/mcp-server/orchestr8-async/src/webhook.rs:93-108 | Between 1 and max_retries + 1 attempts are made. All but the last failed, and an undelivered last attempt means the budget ran out. |
| Webhooks.SendWithRetries | plugins/orchestr8/mcp-server/orchestr8-async/src/webhook.rs:93-108 | The first send followed by the retries logs exactly the rows of attempts 0 up to the attempt count. |
| Webhooks.DeliverWebhook | plugins/orchestr8/mcp-server/orchestr8-async/src/webhook.rs:81-115 | Fails with "Task not found" for an unknown id. It does nothing for a task without a URL or not complete. Otherwise it delivers with retries and changes only the delivery log. |
| Webhooks.DeliverWebhookAsWritten | plugins/orchestr8/mcp-server/orchestr8-async/src/webhook.rs:81-115 | With the log INSERT as written, delivering to a complete task with a URL fails after the first send. It makes no retry and writes no delivery row, so that task stays in the pending-webhook query. |
| Webhooks.DeliveryLogShape | plugins/orchestr8/mcp-server/orchestr8-async/src/webhook.rs:93-108 | In the rows of one delivery, every row before the last has no status and no delivered_at, and the last row is the final attempt. |
| Webhooks.FindPendingWebhooks | plugins/orchestr8/mcp-server/orchestr8-async/src/webhook.rs:283-313 | Returns the ids of at most 100 tasks with a URL, status completed or failed and no 2xx delivery, ordered by completion time. |
| Webhooks.CancelledTasksAreNeverPicked | plugins/orchestr8/mcp-server/orchestr8-async/src/webhook.rs:290 | A cancelled task is complete, so deliver_webhook would send it, yet the pending query never picks it. |
| Webhooks.DeliveredTaskLeavesQueue | plugins/orchestr8/mcp-server/orchestr8-async/src/webhook.rs:283-313 | After a delivery whose last attempt succeeded, that task is no longer awaiting a webhook. |
| McpServer.Success | plugins/orchestr8/mcp-server/orchestr8-bin/src/mcp.rs:47-54 | A success response is JSON-RPC 2.0 with the result, no error and the request id. |
| McpServer.Error | plugins/orchestr8/mcp-server/orchestr8-bin/src/mcp.rs:56-67 | An error response is JSON-RPC 2.0 with no result, the given code, message and data, and the request id. |
| McpServer.HandleRequest | plugins/orchestr8/mcp-server/orchestr8-bin/src/mcp.rs:199-246 | Every response has exactly one of result or error and echoes the id. A method outside the dispatch table (`Methods`) gives -32601 "Method not found" with the method name. A handler error gives -32603 "Internal error", and a handler value is returned as success. |
| McpServer.UnknownMethodRunsNoHandler | plugins/orchestr8/mcp-server/orchestr8-bin/src/mcp.rs:220-228 | For an unknown method the response does not depend on any handler. |
| McpServer.CacheKey | plugins/orchestr8/mcp-server/orchestr8-bin/src/mcp.rs:294-299 | Every cache key starts with "query:". |
| McpServer.CacheKeyIgnoresLimit | plugins/orchestr8/mcp-server/orchestr8-bin/src/mcp.rs:294-299 | The cache key does not depend on the limit, so queries differing only in limit share an entry. |
| McpServer.CacheKeyCollides | plugins/orchestr8/mcp-server/orchestr8-bin/src/mcp.rs:294-299 | An absent field and an empty one give the same key, and a ':' inside a field collides with the field separator. |
| McpServer.CriteriaPhrases | plugins/orchestr8/mcp-server/orchestr8-bin/src/mcp.rs:781-789 | There are no criterion phrases exactly when no criterion is given. |
| McpServer.GenerateReasoning | plugins/orchestr8/mcp-server/orchestr8-bin/src/mcp.rs:778-796 | The text is "Listing all available agents" exactly when no criterion is given. |
| McpServer.ReasoningNamesFirstCriterion | plugins/orchestr8/mcp-server/orchestr8-bin/src/mcp.rs:778-796 | Otherwise the text begins "Found agents for: " followed by the phrase for the first criterion given, in the order context, role, capability. |
| McpServer.ReasoningTextOne | plugins/orchestr8/mcp-server/orchestr8-bin/src/mcp.rs:778-796 | With one criterion, the text is "Found agents for: " and that criterion's phrase: context matching 'c', role 'r' or capability 'k'. |
| McpServer.ReasoningTextContextRole | plugins/orchestr8/mcp-server/orchestr8-bin/src/mcp.rs:778-796 | With a context and a role, the text is "Found agents for: context matching 'c', role 'r'". |
| McpServer.ReasoningTextContextCapability | plugins/orchestr8/mcp-server/orchestr8-bin/src/mcp.rs:778-796 | With a context and a capability, the text is "Found agents for: context matching 'c', capability 'k'". |
| McpServer.ReasoningTextRoleCapability | plugins/orchestr8/mcp-server/orchestr8-bin/src/mcp.rs:778-796 | With a role and a capability, the text is "Found agents for: role 'r', capability 'k'". |
| McpServer.ReasoningTextThree | plugins/orchestr8/mcp-server/orchestr8-bin/src/mcp.rs:778-796 | With all three criteria, the text is "Found agents for: context matching 'c', role 'r', capability 'k'". |
| McpServer.McpHandler.constructor | plugins/orchestr8/mcp-server/orchestr8-bin/src/mcp.rs:175-197 | A new handler keeps the query cache its caller passes in, provided every cached answer says cache_hit false. |
| McpServer.McpHandler.HandleAgentQuery | plugins/orchestr8/mcp-server/orchestr8-bin/src/mcp.rs:280-324 | Missing parameters default to limit 10. A cached answer under the key is returned unchanged. Otherwise the agents are queried, the answer with the reasoning text is built and cached under the key, and it never reports a cache hit. |
| McpServer.McpHandler.HandleCacheClear | plugins/orchestr8/mcp-server/orchestr8-bin/src/mcp.rs:414-418 | Empties the cache and answers {"cleared": true}. |
| McpServer.PageLimit | plugins/orchestr8/mcp-server/orchestr8-bin/src/mcp.rs:677 | The page size is the limit capped at 100, or 20 when absent. |
| McpServer.CursorOffset | plugins/orchestr8/mcp-server/orchestr8-bin/src/mcp.rs:678-680 | The offset is the cursor parsed as a decimal usize, or 0 when the cursor is absent or does not parse. |
| McpServer.CursorRoundTrip | plugins/orchestr8/mcp-server/orchestr8-bin/src/mcp.rs:678-680 | A cursor printed from a usize offset parses back to that offset. |
| McpServer.ByName | plugins/orchestr8/mcp-server/orchestr8-bin/src/mcp.rs:693 | Sorting by name gives a permutation of the agents in name order. |
| McpServer.PageOf | plugins/orchestr8/mcp-server/orchestr8-bin/src/mcp.rs:699-707 | The page holds exactly the resources of the agents in the slice, in order, each with URI "agent://name". |
| McpServer.NextCursor | plugins/orchestr8/mcp-server/orchestr8-bin/src/mcp.rs:710-714 | A next cursor is returned exactly when more agents follow the page. |
| McpServer.PaginateAsWritten | plugins/orchestr8/mcp-server/orchestr8-bin/src/mcp.rs:695-714 | The slice panics exactly when the cursor offset exceeds the number of agents. |
| McpServer.ResourcesListAsWritten | plugins/orchestr8/mcp-server/orchestr8-bin/src/mcp.rs:660-725 | The handler as written panics exactly when the offset exceeds the agent count. |
| McpServer.CursorPastEndPanics | plugins/orchestr8/mcp-server/orchestr8-bin/src/mcp.rs:699 | With no agents and cursor "1", the handler as written panics. |
| McpServer.ClampedAgreesWhereNoPanic | plugins/orchestr8/mcp-server/orchestr8-bin/src/mcp.rs:695-714 | The clamped pagination gives the same page as the handler as written whenever the latter does not panic. |
| McpServer.ResourcesList | plugins/orchestr8/mcp-server/orchestr8-bin/src/mcp.rs:660-725 | resources/list with the start of the slice clamped never fails: total is the agent count, count is the page length within the page size, and an offset at or past the end gives an empty page with no cursor. |
| McpServer.PaginateContents | plugins/orchestr8/mcp-server/orchestr8-bin/src/mcp.rs:695-723 | For `Paginate`: total is the agent count, count is the page length (at most the page size), and the page is the sorted agents from the offset on. |
| McpServer.ResourcesListSorted | plugins/orchestr8/mcp-server/orchestr8-bin/src/mcp.rs:693-707 | The listed resources are in name order. |
| McpServer.NextCursorContinues | plugins/orchestr8/mcp-server/orchestr8-bin/src/mcp.rs:709-714 | A returned cursor parses to the offset just past the page, so following it continues where the page ended. |
| McpServer.ZeroLimitStalls | plugins/orchestr8/mcp-server/orchestr8-bin/src/mcp.rs:677 | With limit 0, a page before the end is empty and its cursor points at the same offset, so paging never advances. |
| McpServer.FindAgent | plugins/orchestr8/mcp-server/orchestr8-bin/src/mcp.rs:745-748 | Finds an agent with exactly that name, or reports that none has it. |
| McpServer.Split | plugins/orchestr8/mcp-server/orchestr8-bin/src/mcp.rs:737 | `str::split` yields at least one piece, and no piece contains the separator. |
| McpServer.SplitJoinsBack | plugins/orchestr8/mcp-server/orchestr8-bin/src/mcp.rs:737 | Joining the pieces of a split with the separator gives back the original text. |
| McpServer.IsAgentUriIff | plugins/orchestr8/mcp-server/orchestr8-bin/src/mcp.rs:737-740 | The URI check (`IsAgentUri`): splitting on "://" gives exactly ["agent", name] if and only if the URI starts with "agent://" and contains no further "://". |
| McpServer.ResourcesRead | plugins/orchestr8/mcp-server/orchestr8-bin/src/mcp.rs:727-776 | A malformed URI gives the "Invalid resource URI format" error. A well-formed URI with an unknown agent gives "Resource not found". A found agent's name is exactly the URI's remainder. |
| Common.ParseUsizeOfNatToString | plugins/orchestr8/mcp-server/orchestr8-bin/src/mcp.rs:711 | Printing a usize in decimal and parsing it back yields the same number. |
| Common.SortBy | plugins/orchestr8/mcp-server/orchestr8-bin/src/mcp.rs:693 | Sorting by a string key returns a permutation ordered by the key. |

## Left out

- Database errors other than the log-key rejection are not modelled. Connection-pool failures and I/O errors cannot occur, and every other statement succeeds.
- The storage is modelled as maps and sequences, and ids are supplied by the caller. Left out:
  - DuckDB, the r2d2 connection pool, SQL text, schema creation and migrations;
  - row decoding (`row_to_task` and friends);
  - uuid generation.
- Rows whose status text does not parse are not modelled. The model stores statuses as values, so the branch of `are_dependencies_completed` / `are_phase_dependencies_completed` that returns false on an unparsable status cannot arise.
- Ties in `ORDER BY` are left unspecified. The selections state the order, distinctness and top-k property, not one fixed order among equal keys.
- Integer widths (u32 retries, i32 status codes, usize counts) are unbounded in the model. The exception is the `usize` range of the resources/list cursor, which is modelled.
- Each log write reads the clock once. The duplicate `Utc::now()` calls of `log_delivery` collapse into one reading.
- Workers, channels and concurrency are not modelled:
  - the worker pool, the command and result channels, the scheduler and webhook background loops, sleeps, shutdown, and `submit_task`;
  - `execute_task` / `simulate_task_execution`.
  The channel is modelled as the returned sequence of ids.
- The `RwLock`, the LRU eviction of the query cache, and the definition cache are not modelled. The cache is an unbounded map.
- JSON (de)serialisation with serde is not modelled. Malformed request parameters become parameters of the model.
- The `query_time_ms` and `confidence` floats, memory probes and uptime are not modelled.
- `get_task_logs` and `get_delivery_history` are read-only reports that no modelled operation consumes.
- `handle_initialize`, `health`, `cache/stats`, the agents/list, get, get_definition and discover handlers, and prompts/list and prompts/get are not modelled. They format results of calls into code this model does not include.
- McpServer.McpHandler.constructor: the handler is assumed to be built on a cache whose answers all say cache_hit false. The cache type lives in cache.rs, which is not part of this model, so a cache filled by other code is not modelled.
- McpServer.McpHandler.HandleAgentQuery: the error of `db.query_agents(...)?` (mcp.rs:307) is not modelled. The agent query is a total function parameter, so the handler never fails.
- `resources/read` after the agent is found is not modelled: the file-path lookup, JIT loading and the definition cache are left out. The model returns the found agent.
- Console output of the rewriter script is not modelled.
- WorkflowRewriter.UpdateWorkflowFile: a document's text is what `open` in text mode yields, decoded as UTF-8 with universal newlines. So a lone CR starts a line for the `^` patterns. The model does not capture that a rewritten CRLF file is written back with LF line endings. An undecodable file counts as unreadable.
- Real file I/O is a map of documents with readable and writable flags. A failed read or write is the `except` branch that reports "not updated".
- api.rs, main.rs, lib.rs and the loader are not part of this model.
- RunScript: well-formedness is proved for the architecture.md row only, not for every row of the 65-row mapping table. PatternTwoNeverFires therefore holds for the table's rows only as far as they are well formed.
- Webhooks.RetryWebhook: the delay is returned as a sequence of seconds; the actual sleeping is not modelled.

## Findings

| source | as written | input that shows it | evidently intended | confidence | as-written member | corrected member |
|---|---|---|---|---|---|---|
| plugins/orchestr8/mcp-server/orchestr8-bin/src/mcp.rs:699 | `all_agents[cursor_offset..end_index]` slices with an unclamped cursor offset, so an offset past the total panics (`end_index` is clamped to the total, the start is not) | `resources/list` with cursor "1" and no agents (any cursor greater than the agent count) | an empty page for an offset at or past the end | not executed | McpServer.ResourcesListAsWritten | McpServer.ResourcesList |
| plugins/orchestr8/mcp-server/orchestr8-async/src/db.rs:316-317 | `task_logs` declares `id INTEGER PRIMARY KEY` with no default, and the INSERT of `add_task_log` (db.rs:753) leaves `id` out. The key is NULL, so the INSERT fails. `process_task_result` then returns that error after writing the result and before the workflow verdict. `cancel_task` and `retry_task` only report it, so their update stands without its log row. | a worker result with success and data for a task in a workflow | every log row is stored under a generated key, and the verdict is applied | not executed | TaskQueue.ProcessTaskResultAsWritten | TaskQueue.ProcessTaskResult |
| plugins/orchestr8/mcp-server/orchestr8-async/src/db.rs:329-330 | `webhook_deliveries` declares `id INTEGER PRIMARY KEY` with no default, and the INSERT of `log_delivery` (webhook.rs:200-212) leaves `id` out. The key is NULL, so the INSERT fails, and `deliver_webhook` returns that error after the first send without retrying or logging. | deliver_webhook for a completed task with a webhook URL | one delivery row per attempt, retries after a failure, and a delivered task leaving the pending query | not executed | Webhooks.DeliverWebhookAsWritten | Webhooks.DeliverWebhook |
