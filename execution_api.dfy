/**
 * The execution routes (backend/src/api/routes/execution.js): starting a
 * run with `POST /` and formatting the entries of a run's log stream.
 *
 * Redis is a map from key to stored text; the fresh execution id and the
 * start time are parameters. A queued job is returned as a value instead
 * of being handed to the queue.
 */
module ExecutionApi {
  import opened Wrappers
  import opened JsValue
  import opened Graph
  import opened Engine

  /** The job the route puts on the execution queue. */
  datatype Job = Job(executionId: string, workflowId: Value, workflow: Workflow, inputs: Value)

  /**
   * What the route does: the HTTP status and JSON body it sends, the
   * execution record it stores (if it gets that far) and the job it queues.
   */
  datatype Reply = Reply(status: int, body: Value, recorded: Option<Value>, queued: Option<Job>)

  function ErrorBody(message: string): Value {
    Obj(map["error" := Str(message)])
  }

  /** `inputs = {}` in the destructuring of the request body. */
  function RequestInputs(body: Value): Value {
    var v := Get(body, "inputs");
    if v.Undef? then Obj(map[]) else v
  }

  /** `mode = 'async'` in the destructuring of the request body. */
  function RequestMode(body: Value): Value {
    var v := Get(body, "mode");
    if v.Undef? then Str("async") else v
  }

  function WorkflowKey(workflowId: Value): string {
    "workflow:" + ToStr(workflowId)
  }

  /** The stored workflow text, when the key holds a non-empty string. */
  function StoredWorkflow(workflows: map<string, string>, key: string): Option<string> {
    if key in workflows && workflows[key] != "" then Some(workflows[key]) else None
  }

  /** The execution record written before the run starts. */
  function PendingRecord(executionId: string, body: Value, startedAt: string, userHeader: Value): Value {
    Obj(map["id" := Str(executionId), "workflowId" := Get(body, "workflowId"), "status" := Str("pending"),
            "inputs" := RequestInputs(body), "startedAt" := Str(startedAt),
            "userId" := Or(userHeader, Str("anonymous"))])
  }

  /**
   * `POST /`. `parse` is `JSON.parse` of a stored workflow (None when it
   * throws); `exec` runs the node executors of a synchronous run, whose
   * execution order is returned as `order`.
   */
  method StartExecution(body: Value, userHeader: Value, workflows: map<string, string>, executionId: string,
                        startedAt: string, parse: string -> Option<Workflow>, exec: (Node, Value) -> ExecResult)
    returns (reply: Reply, order: seq<string>)
    ensures (body.Null? || body.Undef?) ==> reply == Reply(500, ErrorBody("Failed to execute workflow"), None, None)
    ensures reply.status == 400 <==> !body.Null? && !body.Undef? && !Truthy(Get(body, "workflowId"))
    ensures reply.status == 400 ==> reply.body == ErrorBody("Workflow ID is required")
    ensures reply.status == 404 <==> !body.Null? && !body.Undef? && Truthy(Get(body, "workflowId"))
                                      && StoredWorkflow(workflows, WorkflowKey(Get(body, "workflowId"))).None?
    ensures reply.status == 404 ==> reply.body == ErrorBody("Workflow not found")
    ensures reply.status == 400 || reply.status == 404 ==> reply.recorded.None? && reply.queued.None?
    ensures reply.recorded.Some? <==> reply.status != 400 && reply.status != 404 && !body.Null? && !body.Undef?
    ensures reply.recorded.Some? ==> reply.recorded.value == PendingRecord(executionId, body, startedAt, userHeader)
    ensures reply.queued.Some? <==>
      reply.recorded.Some? && RequestMode(body) == Str("async")
      && parse(StoredWorkflow(workflows, WorkflowKey(Get(body, "workflowId"))).value).Some?
    ensures reply.queued.Some? ==>
      reply.status == 200
      && reply.queued.value == Job(executionId, Get(body, "workflowId"),
           parse(StoredWorkflow(workflows, WorkflowKey(Get(body, "workflowId"))).value).value, RequestInputs(body))
    ensures reply.recorded.Some? && RequestMode(body) != Str("async") && reply.status == 200 ==>
      parse(StoredWorkflow(workflows, WorkflowKey(Get(body, "workflowId"))).value).Some? &&
      var wf := parse(StoredWorkflow(workflows, WorkflowKey(Get(body, "workflowId"))).value).value;
      var run := SyncRun(wf, RequestInputs(body), exec, order);
      run.Completed?
      && reply.body == Obj(map["executionId" := Str(executionId), "status" := Str("completed"), "result" := Obj(run.outputs)])
    ensures reply.recorded.Some? && RequestMode(body) != Str("async")
            && parse(StoredWorkflow(workflows, WorkflowKey(Get(body, "workflowId"))).value).Some? ==>
      var wf := parse(StoredWorkflow(workflows, WorkflowKey(Get(body, "workflowId"))).value).value;
      (reply.status == 500 <==> SyncRun(wf, RequestInputs(body), exec, order).Failed?)
    ensures reply.status in {200, 400, 404, 500}
  {
    order := [];
    if body.Null? || body.Undef? {
      // destructuring `req.body` throws
      return Reply(500, ErrorBody("Failed to execute workflow"), None, None), order;
    }
    var workflowId := Get(body, "workflowId");
    var inputs := RequestInputs(body);
    var mode := RequestMode(body);
    if !Truthy(workflowId) {
      return Reply(400, ErrorBody("Workflow ID is required"), None, None), order;
    }
    var stored := StoredWorkflow(workflows, WorkflowKey(workflowId));
    if stored.None? {
      return Reply(404, ErrorBody("Workflow not found"), None, None), order;
    }
    var record := PendingRecord(executionId, body, startedAt, userHeader);
    var parsed := parse(stored.value);
    if parsed.None? {
      return Reply(500, ErrorBody("Failed to execute workflow"), Some(record), None), order;
    }
    if mode == Str("async") {
      var job := Job(executionId, workflowId, parsed.value, inputs);
      var answer := Obj(map["executionId" := Str(executionId), "status" := Str("queued"),
                            "message" := Str("Workflow execution queued")]);
      return Reply(200, answer, Some(record), Some(job)), order;
    }
    var run;
    run, order := RunSync(parsed.value, inputs, exec);
    if run.Failed? {
      return Reply(500, ErrorBody("Failed to execute workflow"), Some(record), None), order;
    }
    var answer := Obj(map["executionId" := Str(executionId), "status" := Str("completed"),
                          "result" := Obj(run.outputs)]);
    reply := Reply(200, answer, Some(record), None);
  }

  // ---------------------------------------------------------------------------
  // Log entries

  /** `fields[j]` as the paired value: undefined past the end. */
  function FieldAt(fields: seq<string>, j: int): Value {
    if 0 <= j < |fields| then Str(fields[j]) else Undef
  }

  /** i is an even position holding a key. */
  predicate KeyAt(fields: seq<string>, i: int) {
    0 <= i < |fields| && i % 2 == 0
  }

  /** No even position after i repeats the key at i. */
  predicate LastKeyAt(fields: seq<string>, i: int)
    requires KeyAt(fields, i)
  {
    forall j :: i < j < |fields| && KeyAt(fields, j) ==> fields[j] != fields[i]
  }

  /**
   * The `for (i = 0; i < fields.length; i += 2)` loop: each key at an even
   * position gets the string after it (undefined after a trailing key),
   * and a later repetition of a key wins.
   */
  method PairFields(fields: seq<string>) returns (log: map<string, Value>)
    ensures forall k :: k in log <==> exists i :: KeyAt(fields, i) && fields[i] == k
    ensures forall i :: KeyAt(fields, i) && LastKeyAt(fields, i) ==> log[fields[i]] == FieldAt(fields, i + 1)
  {
    log := map[];
    var i := 0;
    while i < |fields|
      invariant 0 <= i <= |fields| + 1 && i % 2 == 0
      invariant forall k :: k in log <==> exists j :: KeyAt(fields, j) && j < i && fields[j] == k
      invariant forall j ::
                  (KeyAt(fields, j) && j < i && forall l :: j < l < i && KeyAt(fields, l) ==> fields[l] != fields[j])
                  ==> log[fields[j]] == FieldAt(fields, j + 1)
    {
      log := log[fields[i] := FieldAt(fields, i + 1)];
      i := i + 2;
    }
  }

  /** `{id: entryId, ...log, timestamp: parseInt(log.timestamp)}`; NaN is sent as null. */
  function LogEntry(entryId: string, log: map<string, Value>): (v: Value)
    ensures v.Obj? && "id" in v.fields && "timestamp" in v.fields
    ensures v.fields["id"] == if "id" in log then log["id"] else Str(entryId)
    ensures forall k :: k in log && k != "timestamp" ==> k in v.fields && v.fields[k] == log[k]
    ensures forall k :: k in v.fields ==> k in log || k == "id" || k == "timestamp"
    ensures var ts := ParseInt(ToStr(if "timestamp" in log then log["timestamp"] else Undef));
      v.fields["timestamp"] == if ts.Some? then Int(ts.value) else Null
  {
    var ts := ParseInt(ToStr(if "timestamp" in log then log["timestamp"] else Undef));
    Obj(map["id" := Str(entryId)] + log + map["timestamp" := if ts.Some? then Int(ts.value) else Null])
  }

  /**
   * One formatted log entry of `GET /:id`: the entry's fields paired into
   * `log`, then `{id: entryId, ...log, timestamp: parseInt(log.timestamp)}`.
   */
  method FormatLogEntry(entryId: string, fields: seq<string>) returns (v: Value, log: map<string, Value>)
    ensures forall k :: k in log <==> exists i :: KeyAt(fields, i) && fields[i] == k
    ensures forall i :: KeyAt(fields, i) && LastKeyAt(fields, i) ==> log[fields[i]] == FieldAt(fields, i + 1)
    ensures v == LogEntry(entryId, log)
    ensures v.Obj? && "id" in v.fields && "timestamp" in v.fields
    ensures v.fields["id"] == if "id" in log then log["id"] else Str(entryId)
    ensures var ts := ParseInt(ToStr(if "timestamp" in log then log["timestamp"] else Undef));
      v.fields["timestamp"] == if ts.Some? then Int(ts.value) else Null
    ensures forall i :: KeyAt(fields, i) && LastKeyAt(fields, i) && fields[i] != "timestamp" ==>
      fields[i] in v.fields && v.fields[fields[i]] == FieldAt(fields, i + 1)
    ensures forall k :: k in v.fields ==> k == "id" || k == "timestamp" || exists i :: KeyAt(fields, i) && fields[i] == k
  {
    log := PairFields(fields);
    v := LogEntry(entryId, log);
  }

  /** A stored numeric timestamp comes back as the number itself. */
  lemma TimestampRoundTrip(entryId: string, log: map<string, Value>, t: int)
    requires "timestamp" in log && log["timestamp"] == Str(IntToStr(t))
    ensures LogEntry(entryId, log).fields["timestamp"] == Int(t)
  {
    ParseIntOfIntToStr(t);
  }
}
