/**
  Webhook delivery for finished tasks: the payload, the configuration, the
  2xx success rule, the first attempt followed by up to `max_retries`
  retries with a linearly growing delay, one `webhook_deliveries` row per
  attempt, and the query that finds tasks still waiting for a delivery.
  The HTTP exchange of attempt k is `http(k)`, its time is `clock(k)`, and
  JSON parsing and encoding are parameters.
 */
module Webhooks {
  import opened Common
  import opened TaskStore

  /** `WebhookPayload` */
  datatype Payload = Payload(
    taskId: Uuid,
    taskName: string,
    status: string,
    result: Option<string>,
    error: Option<string>,
    completedAt: Option<Timestamp>,
    metadata: Option<Json>)

  /**
    `WebhookPayload::from_task`: a task's id, name, status name, result,
    error and completion time; its metadata text parsed as JSON, or None when
    there is none or it does not parse.
   */
  function FromTask(t: AsyncTask, parseJson: string -> Option<Json>): (p: Payload)
    ensures p.taskId == t.id && p.taskName == t.name
    ensures ParseStatus(p.status) == Some(t.status)
    ensures p.result == t.result && p.error == t.error && p.completedAt == t.completedAt
    ensures p.metadata.None? <==> t.metadata.None? || parseJson(t.metadata.value).None?
    ensures p.metadata.Some? ==> Some(p.metadata.value) == parseJson(t.metadata.value)
  {
    StatusNameRoundTrip(t.status);
    Payload(t.id, t.name, StatusName(t.status), t.result, t.error, t.completedAt,
            if t.metadata.Some? then parseJson(t.metadata.value) else None)
  }

  /** `WebhookConfig` */
  datatype WebhookConfig = WebhookConfig(maxRetries: nat, retryDelaySeconds: nat, timeoutSeconds: nat)

  /** `WebhookConfig::default` */
  const DefaultConfig := WebhookConfig(3, 5, 30)

  /** What one HTTP POST came back with: a response, or no response at all. */
  datatype HttpOutcome =
    | Response(status: nat, body: string)
    | TransportError

  predicate IsSuccessStatus(status: int)
  {
    200 <= status < 300
  }

  predicate Delivered(o: HttpOutcome)
  {
    o.Response? && IsSuccessStatus(o.status)
  }

  /**
    `send_webhook`: a 2xx response is a success carrying (status, body); any
    other response is an error naming the status and the body, and a failed
    request is an error whose text is its context message.
   */
  function SendWebhook(o: HttpOutcome): (r: Result<(nat, string), string>)
    ensures r.Ok? <==> Delivered(o)
    ensures r.Ok? ==> r.value == (o.status, o.body)
  {
    match o
    case Response(status, body) =>
      if IsSuccessStatus(status) then Ok((status, body))
      else Err("Webhook delivery failed with status " + NatToString(status) + ": " + body)
    case TransportError => Err("Failed to send webhook")
  }

  /**
    The row `log_delivery` writes for one attempt: a status code and a
    delivery time only for a successful send, and the response body or the
    error text as the response.
   */
  function LogRow(taskId: Uuid, url: string, payload: string, o: HttpOutcome, at: Timestamp): (row: WebhookDelivery)
    ensures row.deliveredAt.Some? <==> row.statusCode.Some?
    ensures row.statusCode.Some? <==> Delivered(o)
    ensures row.statusCode.Some? ==> IsSuccessStatus(row.statusCode.value)
    ensures Delivered(o) ==> row.statusCode == Some(o.status) && row.response == Some(o.body) && row.deliveredAt == Some(at)
    ensures !Delivered(o) ==> row.response == Some(SendWebhook(o).error)
    ensures row.taskId == taskId && row.webhookUrl == url && row.payload == payload && row.attemptedAt == at
  {
    var sent := SendWebhook(o);
    var statusCode := if sent.Ok? then Some(sent.value.0) else None;
    var response := if sent.Ok? then sent.value.1 else sent.error;
    WebhookDelivery(taskId, url, payload, statusCode, Some(response), at,
                    if statusCode.Some? then Some(at) else None)
  }

  /** The first attempt in `from..last` that delivers, or `last + 1` when none does. */
  function FirstDelivery(http: nat -> HttpOutcome, from: nat, last: nat): (k: nat)
    ensures from <= k <= last + 1 || (from > last && k == from)
    ensures k <= last ==> Delivered(http(k))
    ensures forall j :: from <= j < k && j <= last ==> !Delivered(http(j))
    decreases last + 1 - from
  {
    if from > last then from
    else if Delivered(http(from)) then from
    else FirstDelivery(http, from + 1, last)
  }

  /** `row(from), ..., row(upto - 1)`, in order. */
  function Rows<T>(row: nat -> T, from: nat, upto: nat): (rows: seq<T>)
    ensures |rows| == if from <= upto then upto - from else 0
    decreases upto
  {
    if upto <= from then [] else Rows(row, from, upto - 1) + [row(upto - 1)]
  }

  /** Element k of `Rows(row, from, upto)` is `row(from + k)`. */
  lemma {:induction false} RowsAt<T>(row: nat -> T, from: nat, upto: nat, k: nat)
    requires from + k < upto
    ensures Rows(row, from, upto)[k] == row(from + k)
    decreases upto
  {
    if from + k < upto - 1 {
      RowsAt(row, from, upto - 1, k);
    }
  }

  /** `Rows(row, 0, upto)` is `row(0)` followed by `Rows(row, 1, upto)`. */
  lemma {:induction false} RowsSplit<T>(row: nat -> T, upto: nat)
    requires 1 <= upto
    ensures Rows(row, 0, upto) == [row(0)] + Rows(row, 1, upto)
    decreases upto
  {
    if upto > 1 {
      RowsSplit(row, upto - 1);
    }
  }

  /** The log rows of attempts `from .. upto-1`, in order. */
  function AttemptRows(taskId: Uuid, url: string, payload: string, http: nat -> HttpOutcome, clock: nat -> Timestamp, from: nat, upto: nat): (rows: seq<WebhookDelivery>)
    ensures |rows| == if from <= upto then upto - from else 0
  {
    Rows(k => LogRow(taskId, url, payload, http(k), clock(k)), from, upto)
  }

  /** The log of attempts up to `upto` is the log up to `upto - 1` and the row of attempt `upto - 1`. */
  lemma AttemptRowsSnoc(taskId: Uuid, url: string, payload: string, http: nat -> HttpOutcome, clock: nat -> Timestamp, from: nat, upto: nat)
    requires from < upto
    ensures AttemptRows(taskId, url, payload, http, clock, from, upto)
         == AttemptRows(taskId, url, payload, http, clock, from, upto - 1) + [LogRow(taskId, url, payload, http(upto - 1), clock(upto - 1))]
  {
  }

  /** Row k of the log is the row of attempt `from + k`. */
  lemma AttemptRowsAt(taskId: Uuid, url: string, payload: string, http: nat -> HttpOutcome, clock: nat -> Timestamp, from: nat, upto: nat, k: nat)
    requires from + k < upto
    ensures AttemptRows(taskId, url, payload, http, clock, from, upto)[k] == LogRow(taskId, url, payload, http(from + k), clock(from + k))
  {
    RowsAt(k => LogRow(taskId, url, payload, http(k), clock(k)), from, upto, k);
  }

  /** Attempt 0's row followed by the retries' rows are the rows of all attempts. */
  lemma AttemptRowsSplit(taskId: Uuid, url: string, payload: string, http: nat -> HttpOutcome, clock: nat -> Timestamp, upto: nat)
    requires 1 <= upto
    ensures AttemptRows(taskId, url, payload, http, clock, 0, upto)
         == [LogRow(taskId, url, payload, http(0), clock(0))] + AttemptRows(taskId, url, payload, http, clock, 1, upto)
  {
    RowsSplit(k => LogRow(taskId, url, payload, http(k), clock(k)), upto);
  }

  /** How many attempts a delivery makes: up to the first success, at most `1 + max_retries`. */
  function AttemptCount(http: nat -> HttpOutcome, maxRetries: nat): nat
  {
    var k := FirstDelivery(http, 0, maxRetries);
    if k <= maxRetries then k + 1 else maxRetries + 1
  }

  /** Attempts `0 .. n-1` all failed. */
  predicate FailedBefore(http: nat -> HttpOutcome, n: nat)
  {
    forall j :: 0 <= j < n ==> !Delivered(http(j))
  }

  /** The attempt count is one past the first attempt that delivers, or all attempts when none does. */
  lemma AttemptCountIs(http: nat -> HttpOutcome, maxRetries: nat, k: nat)
    requires k <= maxRetries + 1
    requires FailedBefore(http, k)
    requires k <= maxRetries ==> Delivered(http(k))
    ensures AttemptCount(http, maxRetries) == if k <= maxRetries then k + 1 else maxRetries + 1
  {
  }

  /** The error `retry_webhook` returns once every retry failed. */
  function ExhaustedMessage(maxRetries: nat): string
  {
    "Webhook delivery failed after " + NatToString(maxRetries) + " retries"
  }

  /** `log_delivery`: appends one row to `webhook_deliveries`. */
  method LogDelivery(db: Database, row: WebhookDelivery)
    requires db.Valid()
    modifies db
    ensures db.Valid()
    ensures db.deliveries == old(db.deliveries) + [row]
    ensures db.tasks == old(db.tasks) && db.workflows == old(db.workflows)
    ensures db.phases == old(db.phases) && db.taskLogs == old(db.taskLogs)
  {
    db.deliveries := db.deliveries + [row];
  }

  /**
    An INSERT into `webhook_deliveries` whose `id` column gets `key`: the row
    is added when the key is accepted; otherwise the INSERT fails and the
    table is unchanged.
   */
  method InsertDelivery(db: Database, row: WebhookDelivery, key: Option<int>) returns (r: Result<(), string>)
    requires db.Valid()
    modifies db
    ensures db.Valid()
    ensures r.Ok? <==> KeyAccepts(|old(db.deliveries)|, key)
    ensures db.deliveries == if r.Ok? then old(db.deliveries) + [row] else old(db.deliveries)
    ensures db.tasks == old(db.tasks) && db.workflows == old(db.workflows)
    ensures db.phases == old(db.phases) && db.taskLogs == old(db.taskLogs)
  {
    if KeyAccepts(|db.deliveries|, key) {
      db.deliveries := db.deliveries + [row];
      r := Ok(());
    } else {
      r := Err("constraint violated: webhook_deliveries.id");
    }
  }

  /** `log_delivery` as written: its INSERT gives the key `LogInsertKey`, so it fails and adds no row. */
  method LogDeliveryAsWritten(db: Database, row: WebhookDelivery) returns (r: Result<(), string>)
    requires db.Valid()
    modifies db
    ensures db.Valid()
    ensures r.Err? && db.deliveries == old(db.deliveries)
    ensures db.tasks == old(db.tasks) && db.workflows == old(db.workflows)
    ensures db.phases == old(db.phases) && db.taskLogs == old(db.taskLogs)
  {
    LogInsertKeyRejected(|db.deliveries|);
    r := InsertDelivery(db, row, LogInsertKey);
  }

  /** One attempt: send, log the row, and report whether the webhook was delivered. */
  method Attempt(db: Database, taskId: Uuid, url: string, payload: string, o: HttpOutcome, at: Timestamp) returns (delivered: bool)
    requires db.Valid()
    modifies db
    ensures db.Valid()
    ensures delivered == Delivered(o)
    ensures db.deliveries == old(db.deliveries) + [LogRow(taskId, url, payload, o, at)]
    ensures db.tasks == old(db.tasks) && db.workflows == old(db.workflows)
    ensures db.phases == old(db.phases) && db.taskLogs == old(db.taskLogs)
  {
    var sent := SendWebhook(o);
    LogDelivery(db, LogRow(taskId, url, payload, o, at));
    delivered := sent.Ok?;
  }

  /** The wait before retry k. */
  function Delay(config: WebhookConfig, retry: nat): nat
  {
    config.retryDelaySeconds * retry
  }

  /** With the default configuration, three retries wait 5, 10 and 15 seconds, each sent with a 30-second timeout. */
  lemma DefaultConfigDelays()
    ensures DefaultConfig.maxRetries == 3 && DefaultConfig.timeoutSeconds == 30
    ensures Delay(DefaultConfig, 1) == 5 && Delay(DefaultConfig, 2) == 10 && Delay(DefaultConfig, 3) == 15
  {
  }

  /** The waits before retries 1 .. n, in order. */
  function RetryDelays(config: WebhookConfig, n: nat): (delays: seq<nat>)
    ensures |delays| == n
  {
    if n == 0 then [] else RetryDelays(config, n - 1) + [Delay(config, n)]
  }

  /**
    The waits grow linearly: retry k waits `retry_delay_seconds * k`, each
    wait `retry_delay_seconds` longer than the one before.
   */
  lemma {:induction false} RetryDelaysGrowLinearly(config: WebhookConfig, n: nat, k: nat)
    requires k < n
    ensures RetryDelays(config, n)[k] == config.retryDelaySeconds * (k + 1)
    ensures k > 0 ==> RetryDelays(config, n)[k] == RetryDelays(config, n)[k - 1] + config.retryDelaySeconds
  {
    if k < n - 1 {
      RetryDelaysGrowLinearly(config, n - 1, k);
    } else if k > 0 {
      RetryDelaysGrowLinearly(config, n - 1, k - 1);
    }
  }

  /**
    `retry_webhook`: retries 1 ..= max_retries, retry k after a delay of
    `retry_delay_seconds * k`, each logged, stopping at the first success.
   */
  method RetryWebhook(db: Database, taskId: Uuid, url: string, payload: string, config: WebhookConfig,
                      http: nat -> HttpOutcome, clock: nat -> Timestamp)
    returns (r: Result<(), string>, delays: seq<nat>)
    requires db.Valid()
    requires !Delivered(http(0))
    modifies db
    ensures db.Valid()
    ensures db.deliveries == old(db.deliveries) + AttemptRows(taskId, url, payload, http, clock, 1, AttemptCount(http, config.maxRetries))
    ensures r.Ok? <==> Delivered(http(AttemptCount(http, config.maxRetries) - 1))
    ensures r.Err? ==> r.error == ExhaustedMessage(config.maxRetries)
    ensures delays == RetryDelays(config, AttemptCount(http, config.maxRetries) - 1)
    ensures db.tasks == old(db.tasks) && db.workflows == old(db.workflows)
    ensures db.phases == old(db.phases) && db.taskLogs == old(db.taskLogs)
  {
    ghost var start := db.deliveries;
    delays := [];
    var retry := 1;
    while retry <= config.maxRetries
      invariant 1 <= retry <= config.maxRetries + 1
      invariant FailedBefore(http, retry)
      invariant db.Valid()
      invariant db.deliveries == start + AttemptRows(taskId, url, payload, http, clock, 1, retry)
      invariant delays == RetryDelays(config, retry - 1)
      invariant db.tasks == old(db.tasks) && db.workflows == old(db.workflows)
      invariant db.phases == old(db.phases) && db.taskLogs == old(db.taskLogs)
    {
      delays := delays + [Delay(config, retry)];
      var delivered := Attempt(db, taskId, url, payload, http(retry), clock(retry));
      AttemptRowsSnoc(taskId, url, payload, http, clock, 1, retry + 1);
      AppendAssociates(start, AttemptRows(taskId, url, payload, http, clock, 1, retry), [LogRow(taskId, url, payload, http(retry), clock(retry))]);
      if delivered {
        AttemptCountIs(http, config.maxRetries, retry);
        return Ok(()), delays;
      }
      retry := retry + 1;
    }
    AttemptCountIs(http, config.maxRetries, config.maxRetries + 1);
    return Err(ExhaustedMessage(config.maxRetries)), delays;
  }

  /**
    The delivery proper, for a task that has a URL and is complete: the first
    attempt, and the retries when it fails.
   */
  method SendWithRetries(db: Database, taskId: Uuid, url: string, payload: string, config: WebhookConfig,
                         http: nat -> HttpOutcome, clock: nat -> Timestamp)
    returns (r: Result<(), string>, delays: seq<nat>)
    requires db.Valid()
    modifies db
    ensures db.Valid()
    ensures db.deliveries == old(db.deliveries) + AttemptRows(taskId, url, payload, http, clock, 0, AttemptCount(http, config.maxRetries))
    ensures r.Ok? <==> Delivered(http(AttemptCount(http, config.maxRetries) - 1))
    ensures r.Err? ==> r.error == ExhaustedMessage(config.maxRetries)
    ensures delays == RetryDelays(config, AttemptCount(http, config.maxRetries) - 1)
    ensures db.tasks == old(db.tasks) && db.workflows == old(db.workflows)
    ensures db.phases == old(db.phases) && db.taskLogs == old(db.taskLogs)
  {
    ghost var n := AttemptCount(http, config.maxRetries);
    var delivered := Attempt(db, taskId, url, payload, http(0), clock(0));
    if delivered {
      assert n == 1;
      assert AttemptRows(taskId, url, payload, http, clock, 0, 1) == [LogRow(taskId, url, payload, http(0), clock(0))];
      return Ok(()), [];
    }
    ghost var mid := db.deliveries;
    r, delays := RetryWebhook(db, taskId, url, payload, config, http, clock);
    FirstThenRetries(old(db.deliveries), mid, db.deliveries, taskId, url, payload, http, clock, n);
  }

  /** The first attempt's row followed by the retries' rows are the rows of all attempts. */
  lemma FirstThenRetries(before: seq<WebhookDelivery>, mid: seq<WebhookDelivery>, after: seq<WebhookDelivery>,
                         taskId: Uuid, url: string, payload: string, http: nat -> HttpOutcome, clock: nat -> Timestamp, n: nat)
    requires 1 <= n
    requires mid == before + [LogRow(taskId, url, payload, http(0), clock(0))]
    requires after == mid + AttemptRows(taskId, url, payload, http, clock, 1, n)
    ensures after == before + AttemptRows(taskId, url, payload, http, clock, 0, n)
  {
    AttemptRowsSplit(taskId, url, payload, http, clock, n);
    AppendAssociates(before, [LogRow(taskId, url, payload, http(0), clock(0))], AttemptRows(taskId, url, payload, http, clock, 1, n));
  }

  /**
    `deliver_webhook`: "Task not found" for an unknown task; nothing for a
    task without a webhook URL or not yet complete; otherwise the delivery
    with its retries.
   */
  method DeliverWebhook(db: Database, taskId: Uuid, config: WebhookConfig,
                        parseJson: string -> Option<Json>, encode: Payload -> string,
                        http: nat -> HttpOutcome, clock: nat -> Timestamp)
    returns (r: Result<(), string>, delays: seq<nat>)
    requires db.Valid()
    modifies db
    ensures db.Valid()
    ensures taskId !in old(db.tasks) ==> r == Err("Task not found") && db.deliveries == old(db.deliveries)
    ensures taskId in old(db.tasks) && (old(db.tasks)[taskId].webhookUrl.None? || !IsComplete(old(db.tasks)[taskId])) ==>
              r == Ok(()) && db.deliveries == old(db.deliveries) && delays == []
    ensures taskId in old(db.tasks) && old(db.tasks)[taskId].webhookUrl.Some? && IsComplete(old(db.tasks)[taskId]) ==>
              var t := old(db.tasks)[taskId];
              var n := AttemptCount(http, config.maxRetries);
              && db.deliveries == old(db.deliveries) + AttemptRows(taskId, t.webhookUrl.value, encode(FromTask(t, parseJson)), http, clock, 0, n)
              && (r.Ok? <==> Delivered(http(n - 1)))
              && (r.Err? ==> r.error == ExhaustedMessage(config.maxRetries))
              && delays == RetryDelays(config, n - 1)
    ensures db.tasks == old(db.tasks) && db.workflows == old(db.workflows)
    ensures db.phases == old(db.phases) && db.taskLogs == old(db.taskLogs)
  {
    var task := db.GetTask(taskId);
    if task.None? {
      return Err("Task not found"), [];
    }
    var t := task.value;
    if t.webhookUrl.None? || !IsComplete(t) {
      return Ok(()), [];
    }
    r, delays := SendWithRetries(db, taskId, t.webhookUrl.value, encode(FromTask(t, parseJson)), config, http, clock);
  }

  /**
    `deliver_webhook` as written: the first attempt is sent, but logging it
    fails, and the `?` returns that error before any retry. No delivery row
    is ever written, whatever the reply was, so a task owed a webhook stays
    owed one and the pending query keeps returning it.
   */
  method DeliverWebhookAsWritten(db: Database, taskId: Uuid,
                                 parseJson: string -> Option<Json>, encode: Payload -> string,
                                 http: nat -> HttpOutcome, clock: nat -> Timestamp)
    returns (r: Result<(), string>, delays: seq<nat>)
    requires db.Valid()
    modifies db
    ensures db.Valid()
    ensures taskId !in old(db.tasks) ==> r == Err("Task not found")
    ensures taskId in old(db.tasks) && (old(db.tasks)[taskId].webhookUrl.None? || !IsComplete(old(db.tasks)[taskId])) ==>
              r == Ok(())
    ensures taskId in old(db.tasks) && old(db.tasks)[taskId].webhookUrl.Some? && IsComplete(old(db.tasks)[taskId]) ==>
              r.Err?
    ensures db.deliveries == old(db.deliveries) && delays == []
    ensures AwaitingWebhook(db.tasks, db.deliveries) == AwaitingWebhook(old(db.tasks), old(db.deliveries))
    ensures db.tasks == old(db.tasks) && db.workflows == old(db.workflows)
    ensures db.phases == old(db.phases) && db.taskLogs == old(db.taskLogs)
  {
    delays := [];
    var task := db.GetTask(taskId);
    if task.None? {
      return Err("Task not found"), [];
    }
    var t := task.value;
    if t.webhookUrl.None? || !IsComplete(t) {
      return Ok(()), [];
    }
    var url := t.webhookUrl.value;
    r := LogDeliveryAsWritten(db, LogRow(taskId, url, encode(FromTask(t, parseJson)), http(0), clock(0)));
  }

  /**
    A delivery logs at most `1 + max_retries` rows; every row but the last is
    a failure, and the last carries a status exactly when the delivery
    succeeded.
   */
  lemma DeliveryLogShape(taskId: Uuid, url: string, payload: string, http: nat -> HttpOutcome, clock: nat -> Timestamp, maxRetries: nat)
    ensures var n := AttemptCount(http, maxRetries);
            var rows := AttemptRows(taskId, url, payload, http, clock, 0, n);
            && 1 <= |rows| <= maxRetries + 1
            && (forall k :: 0 <= k < |rows| - 1 ==> rows[k].statusCode.None? && rows[k].deliveredAt.None?)
            && (rows[|rows| - 1].statusCode.Some? <==> Delivered(http(n - 1)))
            && (!Delivered(http(n - 1)) ==> |rows| == maxRetries + 1)
  {
    var n := AttemptCount(http, maxRetries);
    AttemptCountBounds(http, maxRetries);
    var rows := AttemptRows(taskId, url, payload, http, clock, 0, n);
    forall k | 0 <= k < n - 1
      ensures rows[k].statusCode.None? && rows[k].deliveredAt.None?
    {
      AttemptRowsAt(taskId, url, payload, http, clock, 0, n, k);
    }
    AttemptRowsAt(taskId, url, payload, http, clock, 0, n, n - 1);
  }

  /** A delivery makes between 1 and `1 + max_retries` attempts; all but the last fail, and a failing last one used them all. */
  lemma AttemptCountBounds(http: nat -> HttpOutcome, maxRetries: nat)
    ensures var n := AttemptCount(http, maxRetries);
            && 1 <= n <= maxRetries + 1
            && (forall k :: 0 <= k < n - 1 ==> !Delivered(http(k)))
            && (!Delivered(http(n - 1)) ==> n == maxRetries + 1)
  {
  }

  // ---------------------------------------------------------------------
  // Finding tasks that still wait for a webhook
  // ---------------------------------------------------------------------

  /** Some logged attempt for that task got a 2xx status. */
  predicate HasSuccessfulDelivery(deliveries: seq<WebhookDelivery>, taskId: Uuid)
  {
    exists i :: 0 <= i < |deliveries| && deliveries[i].taskId == taskId
      && deliveries[i].statusCode.Some? && IsSuccessStatus(deliveries[i].statusCode.value)
  }

  /** Tasks with a webhook URL, status completed or failed, and no successful delivery logged. */
  function AwaitingWebhook(tasks: map<Uuid, AsyncTask>, deliveries: seq<WebhookDelivery>): set<AsyncTask>
  {
    set id | id in tasks && tasks[id].webhookUrl.Some?
      && (tasks[id].status == Completed || tasks[id].status == Failed)
      && !HasSuccessfulDelivery(deliveries, id) :: tasks[id]
  }

  /** `ORDER BY completed_at ASC`, where DuckDB puts NULL last. */
  function CompletionKey(t: AsyncTask): (int, int)
  {
    if t.completedAt.Some? then (0, t.completedAt.value) else (1, 0)
  }

  /** `find_pending_webhooks`: the ids of at most 100 awaiting tasks, earliest completion first. */
  method FindPendingWebhooks(db: Database) returns (ids: seq<Uuid>, ghost rows: seq<AsyncTask>)
    requires db.Valid()
    ensures IsOrderedSelection(AwaitingWebhook(db.tasks, db.deliveries), CompletionKey, Some(100), rows)
    ensures |ids| == |rows| && forall i :: 0 <= i < |ids| ==> ids[i] == rows[i].id
  {
    var found := SelectOrdered(AwaitingWebhook(db.tasks, db.deliveries), CompletionKey, Some(100));
    rows := found;
    ids := [];
    for i := 0 to |found|
      invariant |ids| == i && forall j :: 0 <= j < i ==> ids[j] == found[j].id
    {
      ids := ids + [found[i].id];
    }
  }

  /**
    The pending query never returns a cancelled task, although
    `deliver_webhook` itself would deliver for one.
   */
  lemma CancelledTasksAreNeverPicked(tasks: map<Uuid, AsyncTask>, deliveries: seq<WebhookDelivery>, t: AsyncTask)
    requires t.status == Cancelled
    ensures t !in AwaitingWebhook(tasks, deliveries)
    ensures IsComplete(t)
  {
  }

  /** Once a successful attempt is logged for a task, the pending query no longer returns it. */
  lemma DeliveredTaskLeavesQueue(tasks: map<Uuid, AsyncTask>, deliveries: seq<WebhookDelivery>, taskId: Uuid, http: nat -> HttpOutcome, clock: nat -> Timestamp, url: string, payload: string, maxRetries: nat)
    requires Delivered(http(AttemptCount(http, maxRetries) - 1))
    requires TasksKeyedById(tasks)
    ensures var after := deliveries + AttemptRows(taskId, url, payload, http, clock, 0, AttemptCount(http, maxRetries));
            forall t :: t in AwaitingWebhook(tasks, after) ==> t.id != taskId
  {
    var n := AttemptCount(http, maxRetries);
    var after := deliveries + AttemptRows(taskId, url, payload, http, clock, 0, n);
    AttemptRowsAt(taskId, url, payload, http, clock, 0, n, n - 1);
    assert after[|deliveries| + n - 1] == LogRow(taskId, url, payload, http(n - 1), clock(n - 1));
    assert HasSuccessfulDelivery(after, taskId);
  }
}
