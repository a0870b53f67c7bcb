/**
 * The per-job body of the execution worker (backend/src/workflow/engine.js)
 * and its synchronous copy `executeWorkflowSync`
 * (backend/src/api/routes/execution.js), over one graph model.
 *
 * A run walks the execution order once, keeping `outputs` (node id to
 * output) and an append-only event log. Node executors are an oracle
 * `exec(node, inputs)` that returns a value or throws; the node carries its
 * configuration. The two paths are specified by `AsyncVisit` / `SyncVisit`
 * (one node) folded over the order, and the loop methods are proved equal
 * to those folds.
 */
module Engine {
  import opened Wrappers
  import opened JsValue
  import opened Graph

  datatype EventKind = NodeStart | NodeComplete | NodeError | NodeSkipped | ExecutionComplete | ExecutionFailed

  /** One appended log entry (`nodeId` is "" for run-level events). */
  datatype Event = Event(kind: EventKind, nodeId: string, message: string)

  datatype ExecResult = Returned(value: Value) | Threw(message: string)

  /** A stored workflow document; `connections` may be absent. */
  datatype Workflow = Workflow(nodes: seq<Node>, connections: Option<seq<Connection>>)

  datatype State = State(outputs: map<string, Value>, events: seq<Event>)

  /** After a node: carry on, or end the run with an uncaught error. */
  datatype Outcome = Continue(state: State) | Abort(state: State, error: string)

  datatype RunResult = Completed(outputs: map<string, Value>, events: seq<Event>) | Failed(error: string, events: seq<Event>)

  /** What every step of one run shares. */
  datatype Ctx = Ctx(nodes: seq<Node>, conns: seq<Connection>, inputs: Value, exec: (Node, Value) -> ExecResult)

  /** Node types with a loaded executor. */
  const Registry: set<string> := {"httpRequest", "transform", "redisGet", "redisSet", "condition", "delay", "logger"}

  const SkipReason := "Upstream condition evaluated to false"

  // ---------------------------------------------------------------------------
  // Shapes of outputs

  /** `context.outputs[id]` (undefined when absent). */
  function Lookup(outputs: map<string, Value>, id: string): Value {
    if id in outputs then outputs[id] else Undef
  }

  /** `v?.skipped` is truthy. */
  predicate Skipped(v: Value) {
    Truthy(Get(v, "skipped"))
  }

  /** `v.success === false && v.passed === false` */
  predicate FailedShaped(v: Value) {
    Get(v, "success") == Bool(false) && Get(v, "passed") == Bool(false)
  }

  function SkipMark(skippedBy: string): (v: Value)
    ensures Skipped(v) && !FailedShaped(v)
  {
    Obj(map["skipped" := Bool(true), "reason" := Str(SkipReason), "skippedBy" := Str(skippedBy)])
  }

  function ErrorOutput(message: string): (v: Value)
    ensures !Skipped(v) && !FailedShaped(v)
  {
    Obj(map["error" := Str(message)])
  }

  /** `fallbackExecutor.execute`: the output for a node type without an executor. */
  function Fallback(kind: string, inputs: Value): (v: Value)
    ensures v.Obj? && Get(v, "warning") == Str("No executor implemented")
    ensures Get(v, "nodeType") == Str(kind) && Get(v, "inputs") == inputs
    ensures !FailedShaped(v)
  {
    Obj(map["warning" := Str("No executor implemented"), "nodeType" := Str(kind), "inputs" := inputs])
  }

  /** The TypeError message of reading `key` from null or undefined. */
  function ReadError(v: Value, key: string): string {
    "Cannot read properties of " + (if v.Null? then "null" else "undefined") + " (reading '" + key + "')"
  }

  // ---------------------------------------------------------------------------
  // Input resolution

  /** The truthy outputs of the listed predecessors, keyed by predecessor id. */
  function TruthyOutputs(outputs: map<string, Value>, preds: seq<string>): map<string, Value> {
    map p | p in preds && p in outputs && Truthy(outputs[p]) :: outputs[p]
  }

  /**
   * The inputs a node receives: the run's inputs when it has no
   * predecessor, the single predecessor's output (or `{}`) when it has one,
   * and otherwise an object from predecessor id to truthy output.
   */
  function ResolveInputs(outputs: map<string, Value>, preds: seq<string>, runInputs: Value): Value {
    if |preds| == 0 then runInputs
    else if |preds| == 1 then Or(Lookup(outputs, preds[0]), Obj(map[]))
    else Obj(TruthyOutputs(outputs, preds))
  }

  /** The input-combining code of the loop body. */
  method CombineInputs(outputs: map<string, Value>, preds: seq<string>, runInputs: Value) returns (r: Value)
    ensures r == ResolveInputs(outputs, preds, runInputs)
  {
    if |preds| == 0 {
      return runInputs;
    }
    if |preds| == 1 {
      return Or(Lookup(outputs, preds[0]), Obj(map[]));
    }
    var combined: map<string, Value> := map[];
    var i := 0;
    while i < |preds|
      invariant 0 <= i <= |preds|
      invariant combined == TruthyOutputs(outputs, preds[..i])
    {
      var prev := Lookup(outputs, preds[i]);
      assert preds[..i + 1] == preds[..i] + [preds[i]];
      if Truthy(prev) {
        combined := combined[preds[i] := prev];
      }
      i := i + 1;
    }
    assert preds[..|preds|] == preds;
    return Obj(combined);
  }

  // ---------------------------------------------------------------------------
  // The upstream-condition guard

  /** p names a `condition` node whose output is truthy and failed. */
  predicate FailedCondition(nodeMap: map<string, Node>, outputs: map<string, Value>, p: string) {
    p in nodeMap && nodeMap[p].kind == "condition" && Truthy(Lookup(outputs, p)) && FailedShaped(Lookup(outputs, p))
  }

  /** The first predecessor that is a failed condition node, if any. */
  function FirstFailedCondition(nodeMap: map<string, Node>, outputs: map<string, Value>, preds: seq<string>): (r: Option<string>)
    ensures r.None? <==> forall p :: p in preds ==> !FailedCondition(nodeMap, outputs, p)
    ensures r.Some? ==> r.value in preds && FailedCondition(nodeMap, outputs, r.value)
  {
    if preds == [] then None
    else if FailedCondition(nodeMap, outputs, preds[0]) then Some(preds[0])
    else FirstFailedCondition(nodeMap, outputs, preds[1..])
  }

  lemma FirstFailedStep(nodeMap: map<string, Node>, outputs: map<string, Value>, preds: seq<string>, i: nat)
    requires i < |preds|
    ensures FirstFailedCondition(nodeMap, outputs, preds[i..])
         == if FailedCondition(nodeMap, outputs, preds[i]) then Some(preds[i])
            else FirstFailedCondition(nodeMap, outputs, preds[i + 1..])
  {
    assert preds[i..][0] == preds[i] && preds[i..][1..] == preds[i + 1..];
  }

  /** The `for ... break` loop that looks for a failed upstream condition. */
  method UpstreamGuard(nodeMap: map<string, Node>, outputs: map<string, Value>, preds: seq<string>) returns (r: Option<string>)
    ensures r == FirstFailedCondition(nodeMap, outputs, preds)
  {
    var i := 0;
    while i < |preds|
      invariant 0 <= i <= |preds|
      invariant FirstFailedCondition(nodeMap, outputs, preds) == FirstFailedCondition(nodeMap, outputs, preds[i..])
    {
      FirstFailedStep(nodeMap, outputs, preds, i);
      if FailedCondition(nodeMap, outputs, preds[i]) {
        return Some(preds[i]);
      }
      i := i + 1;
    }
    assert preds[i..] == [];
    return None;
  }

  // ---------------------------------------------------------------------------
  // Skip marks

  /** Every id of D gets the skip mark naming `by`; other entries are kept. */
  function MarkDownstream(outputs: map<string, Value>, D: set<string>, skippedBy: string): map<string, Value> {
    map k | k in outputs.Keys + D :: if k in D then SkipMark(skippedBy) else outputs[k]
  }

  lemma MarkOneMore(outputs: map<string, Value>, D: set<string>, x: string, skippedBy: string)
    ensures MarkDownstream(outputs, D + {x}, skippedBy) == MarkDownstream(outputs, D, skippedBy)[x := SkipMark(skippedBy)]
  {
  }

  /** The loop that writes the skip mark to each downstream id. */
  method MarkSkipped(outputs: map<string, Value>, downstream: seq<string>, skippedBy: string) returns (r: map<string, Value>)
    ensures r == MarkDownstream(outputs, Elems(downstream), skippedBy)
  {
    r := outputs;
    var i := 0;
    while i < |downstream|
      invariant 0 <= i <= |downstream|
      invariant r == MarkDownstream(outputs, Elems(downstream[..i]), skippedBy)
    {
      assert Elems(downstream[..i + 1]) == Elems(downstream[..i]) + {downstream[i]} by {
        assert downstream[..i + 1] == downstream[..i] + [downstream[i]];
        ElemsSnoc(downstream[..i], downstream[i]);
      }
      MarkOneMore(outputs, Elems(downstream[..i]), downstream[i], skippedBy);
      r := r[downstream[i] := SkipMark(skippedBy)];
      i := i + 1;
    }
    assert downstream[..|downstream|] == downstream;
  }

  // ---------------------------------------------------------------------------
  // One node

  /** The catch block: log `node_error`, then continue with `{error}` or rethrow. */
  function NodeFailure(node: Node, outputs: map<string, Value>, events: seq<Event>, message: string): (o: Outcome)
    ensures o.state.events == events + [Event(NodeError, node.id, "Error in node: " + message)]
    ensures node.continueOnError ==> o == Continue(State(outputs[node.id := ErrorOutput(message)], o.state.events))
    ensures !node.continueOnError ==> o == Abort(State(outputs, o.state.events), message)
  {
    var evs := events + [Event(NodeError, node.id, "Error in node: " + message)];
    if node.continueOnError then Continue(State(outputs[node.id := ErrorOutput(message)], evs))
    else Abort(State(outputs, evs), message)
  }

  /** `nodeExecutors[node.type] || fallbackExecutor` */
  function AsyncInvoke(ctx: Ctx, node: Node, inputs: Value): ExecResult {
    if node.kind in Registry then ctx.exec(node, inputs) else Returned(Fallback(node.kind, inputs))
  }

  /** `nodeExecutors[node.type]`, throwing when there is none. */
  function SyncInvoke(ctx: Ctx, node: Node, inputs: Value): ExecResult {
    if node.kind in Registry then ctx.exec(node, inputs)
    else Threw("No executor found for node type: " + node.kind)
  }

  /** Running a node that is neither skipped nor guarded: start, execute, store, complete. */
  ghost function AsyncRunNode(ctx: Ctx, st: State, node: Node, inputs: Value): Outcome {
    var id := node.id;
    var started := st.events + [Event(NodeStart, id, "Starting node: " + node.DisplayName())];
    match AsyncInvoke(ctx, node, inputs)
    case Threw(m) => NodeFailure(node, st.outputs, started, m)
    case Returned(v) => AsyncRecord(ctx, st.outputs, started, node, v)
  }

  /** What the worker does with the value an executor returned. */
  ghost function AsyncRecord(ctx: Ctx, outputs: map<string, Value>, started: seq<Event>, node: Node, v: Value): Outcome {
    var id := node.id;
    var outs := outputs[id := v];
    if node.kind == "condition" && (v.Null? || v.Undef?) then
      NodeFailure(node, outs, started, ReadError(v, "success"))
    else if node.kind == "condition" && FailedShaped(v) then
      Continue(State(MarkDownstream(outs, Downstream(ctx.conns, id), id), started + [Event(NodeComplete, id,
        "Condition node evaluated to false, stopping downstream execution")]))
    else
      Continue(State(outs, started + [Event(NodeComplete, id, "Completed node: " + node.DisplayName())]))
  }

  /** One iteration of the worker's loop for the id `id`. */
  ghost function AsyncVisit(ctx: Ctx, st: State, id: string): Outcome {
    var nodeMap := NodeMap(ctx.nodes);
    if id !in nodeMap then Continue(st)
    else
      var node := nodeMap[id];
      var here := Lookup(st.outputs, id);
      if Skipped(here) then
        Continue(st.(events := st.events + [Event(NodeSkipped, id,
          "Skipping node: " + node.DisplayName() + " - " + ToStr(Get(here, "reason")))]))
      else
        var preds := Preds(ctx.conns, id);
        match FirstFailedCondition(nodeMap, st.outputs, preds)
        case Some(p) =>
          Continue(State(st.outputs[id := SkipMark(p)], st.events + [Event(NodeSkipped, id,
            "Skipping node: " + node.DisplayName() + " - Upstream condition failed")]))
        case None =>
          AsyncRunNode(ctx, st, node, ResolveInputs(st.outputs, preds, ctx.inputs))
  }

  /** One iteration of `executeWorkflowSync`'s loop for the id `id`. */
  function SyncVisit(ctx: Ctx, st: State, id: string): Outcome {
    var nodeMap := NodeMap(ctx.nodes);
    if id !in nodeMap then Continue(st)
    else
      var node := nodeMap[id];
      var inputs := ResolveInputs(st.outputs, Preds(ctx.conns, id), ctx.inputs);
      var started := st.events + [Event(NodeStart, id, "Starting node: " + node.DisplayName())];
      match SyncInvoke(ctx, node, inputs)
      case Threw(m) => NodeFailure(node, st.outputs, started, m)
      case Returned(v) =>
        Continue(State(st.outputs[id := v], started + [Event(NodeComplete, id, "Completed node: " + node.DisplayName())]))
  }

  const Initial := State(map[], [])

  /** The worker's loop over a prefix of the order; an uncaught error ends it. */
  ghost function AsyncFold(ctx: Ctx, order: seq<string>): Outcome {
    if order == [] then Continue(Initial)
    else
      var o := AsyncFold(ctx, order[..|order| - 1]);
      if o.Abort? then o else AsyncVisit(ctx, o.state, order[|order| - 1])
  }

  function SyncFold(ctx: Ctx, order: seq<string>): Outcome {
    if order == [] then Continue(Initial)
    else
      var o := SyncFold(ctx, order[..|order| - 1]);
      if o.Abort? then o else SyncVisit(ctx, o.state, order[|order| - 1])
  }

  /** The completion or failure logging after the loop. */
  function Finish(o: Outcome): RunResult {
    match o
    case Continue(st) =>
      Completed(st.outputs, st.events + [Event(ExecutionComplete, "", "Workflow execution completed successfully")])
    case Abort(st, m) =>
      Failed(m, st.events + [Event(ExecutionFailed, "", "Workflow execution failed: " + m)])
  }

  /** The worker's job for a workflow whose execution order is `order`. */
  ghost function AsyncRun(wf: Workflow, inputs: Value, exec: (Node, Value) -> ExecResult, order: seq<string>): RunResult {
    if wf.connections.None? && |wf.nodes| > 0 then
      // `connections.some` on undefined while looking for start nodes
      Finish(Abort(Initial, ReadError(Undef, "some")))
    else
      Finish(AsyncFold(Ctx(wf.nodes, wf.connections.GetOr([]), inputs, exec), order))
  }

  /** `executeWorkflowSync` for a workflow whose execution order is `order`. */
  function SyncRun(wf: Workflow, inputs: Value, exec: (Node, Value) -> ExecResult, order: seq<string>): RunResult {
    Finish(SyncFold(Ctx(wf.nodes, wf.connections.GetOr([]), inputs, exec), order))
  }

  // ---------------------------------------------------------------------------
  // The loops

  /** The body of the worker's `for` loop for one id. */
  method ExecuteNodeAsync(ctx: Ctx, outputs: map<string, Value>, events: seq<Event>, id: string) returns (o: Outcome)
    ensures o == AsyncVisit(ctx, State(outputs, events), id)
  {
    var nodeMap := NodeMap(ctx.nodes);
    if id !in nodeMap {
      return Continue(State(outputs, events));
    }
    var node := nodeMap[id];
    var here := Lookup(outputs, id);
    if Skipped(here) {
      return Continue(State(outputs, events + [Event(NodeSkipped, id,
        "Skipping node: " + node.DisplayName() + " - " + ToStr(Get(here, "reason")))]));
    }
    var preds := Preds(ctx.conns, id);
    var inputs := CombineInputs(outputs, preds, ctx.inputs);
    var failedBy := UpstreamGuard(nodeMap, outputs, preds);
    if failedBy.Some? {
      return Continue(State(outputs[id := SkipMark(failedBy.value)], events + [Event(NodeSkipped, id,
        "Skipping node: " + node.DisplayName() + " - Upstream condition failed")]));
    }
    o := RunNodeAsync(ctx, outputs, events, node, inputs);
  }

  /** A condition that failed: every node downstream of it is marked as skipped. */
  method SkipDownstream(conns: seq<Connection>, outputs: map<string, Value>, id: string) returns (r: map<string, Value>)
    ensures r == MarkDownstream(outputs, Downstream(conns, id), id)
  {
    var downstream := FindDownstreamNodes(conns, id);
    r := MarkSkipped(outputs, downstream, id);
  }

  /** The `try` block of the worker's loop: run the executor and record its result. */
  method RunNodeAsync(ctx: Ctx, outputs: map<string, Value>, events: seq<Event>, node: Node, inputs: Value)
    returns (o: Outcome)
    ensures o == AsyncRunNode(ctx, State(outputs, events), node, inputs)
  {
    var id := node.id;
    var started := events + [Event(NodeStart, id, "Starting node: " + node.DisplayName())];
    match AsyncInvoke(ctx, node, inputs)
    case Threw(m) =>
      o := NodeFailure(node, outputs, started, m);
    case Returned(v) =>
      o := RecordAsync(ctx, outputs, started, node, v);
  }

  /** The rest of the `try` block, once the executor has returned `v`. */
  method RecordAsync(ctx: Ctx, outputs: map<string, Value>, started: seq<Event>, node: Node, v: Value) returns (o: Outcome)
    ensures o == AsyncRecord(ctx, outputs, started, node, v)
  {
    var id := node.id;
    var outs := outputs[id := v];
    if node.kind == "condition" && (v.Null? || v.Undef?) {
      return NodeFailure(node, outs, started, ReadError(v, "success"));
    }
    if node.kind == "condition" && FailedShaped(v) {
      outs := SkipDownstream(ctx.conns, outs, id);
      return Continue(State(outs, started + [Event(NodeComplete, id,
        "Condition node evaluated to false, stopping downstream execution")]));
    }
    return Continue(State(outs, started + [Event(NodeComplete, id, "Completed node: " + node.DisplayName())]));
  }

  /** The body of `executeWorkflowSync`'s loop for one id. */
  method ExecuteNodeSync(ctx: Ctx, outputs: map<string, Value>, events: seq<Event>, id: string) returns (o: Outcome)
    ensures o == SyncVisit(ctx, State(outputs, events), id)
  {
    var nodeMap := NodeMap(ctx.nodes);
    if id !in nodeMap {
      return Continue(State(outputs, events));
    }
    var node := nodeMap[id];
    var inputs := CombineInputs(outputs, Preds(ctx.conns, id), ctx.inputs);
    var started := events + [Event(NodeStart, id, "Starting node: " + node.DisplayName())];
    var result := SyncInvoke(ctx, node, inputs);
    if result.Threw? {
      return NodeFailure(node, outputs, started, result.message);
    }
    return Continue(State(outputs[id := result.value], started + [Event(NodeComplete, id,
      "Completed node: " + node.DisplayName())]));
  }

  lemma AsyncFoldStep(ctx: Ctx, order: seq<string>, i: nat)
    requires i < |order|
    ensures AsyncFold(ctx, order[..i + 1]) ==
      var o := AsyncFold(ctx, order[..i]);
      if o.Abort? then o else AsyncVisit(ctx, o.state, order[i])
  {
    assert order[..i + 1][..i] == order[..i];
  }

  lemma SyncFoldStep(ctx: Ctx, order: seq<string>, i: nat)
    requires i < |order|
    ensures SyncFold(ctx, order[..i + 1]) ==
      var o := SyncFold(ctx, order[..i]);
      if o.Abort? then o else SyncVisit(ctx, o.state, order[i])
  {
    assert order[..i + 1][..i] == order[..i];
  }

  /** An uncaught error ends the fold: later ids change nothing. */
  lemma {:induction false} AbortStops(ctx: Ctx, order: seq<string>, more: seq<string>)
    requires AsyncFold(ctx, order).Abort?
    ensures AsyncFold(ctx, order + more) == AsyncFold(ctx, order)
    decreases |more|
  {
    if more == [] {
      assert order + more == order;
    } else {
      var init := more[..|more| - 1];
      AbortStops(ctx, order, init);
      assert (order + more)[..|order + more| - 1] == order + init;
      assert AsyncFold(ctx, order + more) == AsyncFold(ctx, order + init);
    }
  }

  lemma {:induction false} SyncAbortStops(ctx: Ctx, order: seq<string>, more: seq<string>)
    requires SyncFold(ctx, order).Abort?
    ensures SyncFold(ctx, order + more) == SyncFold(ctx, order)
    decreases |more|
  {
    if more == [] {
      assert order + more == order;
    } else {
      var init := more[..|more| - 1];
      SyncAbortStops(ctx, order, init);
      assert (order + more)[..|order + more| - 1] == order + init;
      assert SyncFold(ctx, order + more) == SyncFold(ctx, order + init);
    }
  }

  /** The worker's `for` loop over the execution order. */
  method LoopAsync(ctx: Ctx, ord: seq<string>) returns (o: Outcome)
    ensures o == AsyncFold(ctx, ord)
  {
    var outputs: map<string, Value> := map[];
    var events: seq<Event> := [];
    var i := 0;
    assert ord[..0] == [];
    while i < |ord|
      invariant 0 <= i <= |ord|
      invariant AsyncFold(ctx, ord[..i]) == Continue(State(outputs, events))
    {
      var step := ExecuteNodeAsync(ctx, outputs, events, ord[i]);
      AsyncFoldAdvance(ctx, ord, i, State(outputs, events), step);
      if step.Abort? {
        return step;
      }
      outputs, events := step.state.outputs, step.state.events;
      i := i + 1;
    }
    assert ord[..|ord|] == ord;
    return Continue(State(outputs, events));
  }

  /** One more visit of the loop: the fold over one more id, and an abort that ends it. */
  lemma AsyncFoldAdvance(ctx: Ctx, ord: seq<string>, i: nat, st: State, step: Outcome)
    requires i < |ord| && AsyncFold(ctx, ord[..i]) == Continue(st)
    requires step == AsyncVisit(ctx, st, ord[i])
    ensures step.Continue? ==> AsyncFold(ctx, ord[..i + 1]) == Continue(State(step.state.outputs, step.state.events))
    ensures step.Abort? ==> AsyncFold(ctx, ord) == step
  {
    AsyncFoldStep(ctx, ord, i);
    if step.Abort? {
      AsyncFoldEnds(ctx, ord, i);
    }
  }

  /** Once the fold over the first i + 1 ids aborts, the fold over all of them is that abort. */
  lemma AsyncFoldEnds(ctx: Ctx, ord: seq<string>, i: nat)
    requires i < |ord| && AsyncFold(ctx, ord[..i + 1]).Abort?
    ensures AsyncFold(ctx, ord) == AsyncFold(ctx, ord[..i + 1])
  {
    AbortStops(ctx, ord[..i + 1], ord[i + 1..]);
    assert ord[..i + 1] + ord[i + 1..] == ord;
  }

  /** `executeWorkflowSync`'s `for` loop over the execution order. */
  method LoopSync(ctx: Ctx, ord: seq<string>) returns (o: Outcome)
    ensures o == SyncFold(ctx, ord)
  {
    var outputs: map<string, Value> := map[];
    var events: seq<Event> := [];
    var i := 0;
    assert ord[..0] == [];
    while i < |ord|
      invariant 0 <= i <= |ord|
      invariant SyncFold(ctx, ord[..i]) == Continue(State(outputs, events))
    {
      var step := ExecuteNodeSync(ctx, outputs, events, ord[i]);
      SyncFoldAdvance(ctx, ord, i, State(outputs, events), step);
      if step.Abort? {
        return step;
      }
      outputs, events := step.state.outputs, step.state.events;
      i := i + 1;
    }
    assert ord[..|ord|] == ord;
    return Continue(State(outputs, events));
  }

  /** One more visit of the loop: the fold over one more id, and an abort that ends it. */
  lemma SyncFoldAdvance(ctx: Ctx, ord: seq<string>, i: nat, st: State, step: Outcome)
    requires i < |ord| && SyncFold(ctx, ord[..i]) == Continue(st)
    requires step == SyncVisit(ctx, st, ord[i])
    ensures step.Continue? ==> SyncFold(ctx, ord[..i + 1]) == Continue(State(step.state.outputs, step.state.events))
    ensures step.Abort? ==> SyncFold(ctx, ord) == step
  {
    SyncFoldStep(ctx, ord, i);
    if step.Abort? {
      SyncFoldEnds(ctx, ord, i);
    }
  }

  /** Once the fold over the first i + 1 ids aborts, the fold over all of them is that abort. */
  lemma SyncFoldEnds(ctx: Ctx, ord: seq<string>, i: nat)
    requires i < |ord| && SyncFold(ctx, ord[..i + 1]).Abort?
    ensures SyncFold(ctx, ord) == SyncFold(ctx, ord[..i + 1])
  {
    SyncAbortStops(ctx, ord[..i + 1], ord[i + 1..]);
    assert ord[..i + 1] + ord[i + 1..] == ord;
  }

  /**
   * The worker's job: build the order, run the loop, log completion or
   * failure. `order` is the execution order the job used.
   */
  method RunAsync(wf: Workflow, inputs: Value, exec: (Node, Value) -> ExecResult) returns (r: RunResult, order: seq<string>)
    ensures r == AsyncRun(wf, inputs, exec, order)
    ensures wf.connections.Some? || wf.nodes == [] ==> order == DepthFirstOrder(wf.nodes, wf.connections.GetOr([]))
    ensures wf.connections.Some? || wf.nodes == [] ==> ExecutionOrder(wf.nodes, wf.connections.GetOr([]), order)
    ensures forall x :: x in order ==> x in Universe(wf.nodes, wf.connections.GetOr([]))
    ensures NoDup(Ids(wf.nodes)) ==> NoDup(order)
  {
    if wf.connections.None? && |wf.nodes| > 0 {
      order := [];
      return Finish(Abort(Initial, ReadError(Undef, "some"))), order;
    }
    var ctx := Ctx(wf.nodes, wf.connections.GetOr([]), inputs, exec);
    var ord := BuildExecutionOrder(wf.nodes, ctx.conns);
    order := ord;
    var o := LoopAsync(ctx, ord);
    r := Finish(o);
  }

  /** `executeWorkflowSync`: `connections || []` for both the order and the predecessors. */
  method RunSync(wf: Workflow, inputs: Value, exec: (Node, Value) -> ExecResult) returns (r: RunResult, order: seq<string>)
    ensures r == SyncRun(wf, inputs, exec, order)
    ensures order == DepthFirstOrder(wf.nodes, wf.connections.GetOr([]))
    ensures ExecutionOrder(wf.nodes, wf.connections.GetOr([]), order)
    ensures forall x :: x in order ==> x in Universe(wf.nodes, wf.connections.GetOr([]))
    ensures NoDup(Ids(wf.nodes)) ==> NoDup(order)
  {
    var ctx := Ctx(wf.nodes, wf.connections.GetOr([]), inputs, exec);
    var ord := BuildExecutionOrder(wf.nodes, ctx.conns);
    order := ord;
    var o := LoopSync(ctx, ord);
    r := Finish(o);
  }
}
