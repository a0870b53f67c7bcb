/**
 * What the coordinator promises, proved about the one-node steps
 * `AsyncVisit` / `SyncVisit` and their folds over the execution order.
 */
module EngineProps {
  import opened Wrappers
  import opened JsValue
  import opened Graph
  import opened Engine

  // ---------------------------------------------------------------------------
  // One node of the worker

  /**
   * A node whose output already carries a truthy `skipped` gets exactly one
   * `node_skipped` event, its output is left as it is, and the executor is
   * not consulted: any other executor gives the same step.
   */
  lemma SkippedNodeNotRun(ctx: Ctx, st: State, id: string, other: (Node, Value) -> ExecResult)
    requires id in NodeMap(ctx.nodes) && Skipped(Lookup(st.outputs, id))
    ensures var o := AsyncVisit(ctx, st, id);
      o.Continue? && o.state.outputs == st.outputs
      && |o.state.events| == |st.events| + 1 && o.state.events[..|st.events|] == st.events
      && o.state.events[|st.events|].kind == NodeSkipped && o.state.events[|st.events|].nodeId == id
    ensures AsyncVisit(ctx.(exec := other), st, id) == AsyncVisit(ctx, st, id)
  {
  }

  /** The node runs: it is not skipped and no predecessor is a failed condition. */
  ghost predicate Runs(ctx: Ctx, st: State, id: string) {
    id in NodeMap(ctx.nodes) && !Skipped(Lookup(st.outputs, id))
    && FirstFailedCondition(NodeMap(ctx.nodes), st.outputs, Preds(ctx.conns, id)).None?
  }

  /** The inputs the executor of `id` receives. */
  function InputsOf(ctx: Ctx, st: State, id: string): Value {
    ResolveInputs(st.outputs, Preds(ctx.conns, id), ctx.inputs)
  }

  function StartEvent(node: Node): Event {
    Event(NodeStart, node.id, "Starting node: " + node.DisplayName())
  }

  /**
   * A `condition` node whose result has `success === false` and
   * `passed === false` stores the result, logs `node_start` and
   * `node_complete`, and then every id downstream of it gets the skip mark
   * naming it, whatever it held before.
   */
  lemma ConditionFalseMarksDownstream(ctx: Ctx, st: State, id: string)
    requires Runs(ctx, st, id)
    requires NodeMap(ctx.nodes)[id].kind == "condition"
    requires ctx.exec(NodeMap(ctx.nodes)[id], InputsOf(ctx, st, id)).Returned?
    requires FailedShaped(ctx.exec(NodeMap(ctx.nodes)[id], InputsOf(ctx, st, id)).value)
    ensures var o := AsyncVisit(ctx, st, id);
      var v := ctx.exec(NodeMap(ctx.nodes)[id], InputsOf(ctx, st, id)).value;
      o.Continue?
      && o.state.outputs == MarkDownstream(st.outputs[id := v], Downstream(ctx.conns, id), id)
      && (forall d :: d in Downstream(ctx.conns, id) ==> o.state.outputs[d] == SkipMark(id))
      && (forall d :: d in st.outputs && d !in Downstream(ctx.conns, id) && d != id ==> o.state.outputs[d] == st.outputs[d])
      && o.state.events == st.events + [StartEvent(NodeMap(ctx.nodes)[id]),
           Event(NodeComplete, id, "Condition node evaluated to false, stopping downstream execution")]
  {
    var node := NodeMap(ctx.nodes)[id];
    var v := ctx.exec(node, InputsOf(ctx, st, id)).value;
    assert v.Obj? by {
      assert Get(v, "success") == Bool(false);
    }
  }

  /**
   * When the executor throws, `node_error` follows `node_start`; with
   * `continueOnError` the output becomes `{error: message}` and the run goes
   * on, otherwise the run ends with that error.
   */
  lemma ExecutorThrows(ctx: Ctx, st: State, id: string)
    requires Runs(ctx, st, id)
    requires AsyncInvoke(ctx, NodeMap(ctx.nodes)[id], InputsOf(ctx, st, id)).Threw?
    ensures var node := NodeMap(ctx.nodes)[id];
      var m := AsyncInvoke(ctx, node, InputsOf(ctx, st, id)).message;
      var o := AsyncVisit(ctx, st, id);
      o.state.events == st.events + [StartEvent(node), Event(NodeError, id, "Error in node: " + m)]
      && (node.continueOnError ==> o == Continue(State(st.outputs[id := ErrorOutput(m)], o.state.events)))
      && (!node.continueOnError ==> o == Abort(State(st.outputs, o.state.events), m))
  {
  }

  /** A node type without an executor completes with the fallback warning payload. */
  lemma UnknownTypeFallback(ctx: Ctx, st: State, id: string)
    requires Runs(ctx, st, id) && NodeMap(ctx.nodes)[id].kind !in Registry
    ensures var node := NodeMap(ctx.nodes)[id];
      AsyncVisit(ctx, st, id) == Continue(State(st.outputs[id := Fallback(node.kind, InputsOf(ctx, st, id))],
        st.events + [StartEvent(node), Event(NodeComplete, id, "Completed node: " + node.DisplayName())]))
  {
  }

  // ---------------------------------------------------------------------------
  // node_start comes right before node_complete / node_error

  predicate IsOutcome(e: Event) {
    e.kind == NodeComplete || e.kind == NodeError
  }

  /** Every `node_complete` or `node_error` directly follows the `node_start` of the same node. */
  predicate StartBeforeOutcome(events: seq<Event>) {
    forall i :: 0 <= i < |events| && IsOutcome(events[i]) ==>
      i > 0 && events[i - 1].kind == NodeStart && events[i - 1].nodeId == events[i].nodeId
  }

  /** What one node appends to the log. */
  predicate StepTail(tail: seq<Event>) {
    tail == []
    || (|tail| == 1 && tail[0].kind == NodeSkipped)
    || (|tail| == 2 && tail[0].kind == NodeStart && IsOutcome(tail[1]) && tail[1].nodeId == tail[0].nodeId)
  }

  lemma AppendStepTail(events: seq<Event>, tail: seq<Event>)
    requires StartBeforeOutcome(events) && StepTail(tail)
    ensures StartBeforeOutcome(events + tail)
  {
    var all := events + tail;
    forall i | 0 <= i < |all| && IsOutcome(all[i])
      ensures i > 0 && all[i - 1].kind == NodeStart && all[i - 1].nodeId == all[i].nodeId
    {
      if i < |events| {
        assert all[i] == events[i] && all[i - 1] == events[i - 1];
      } else {
        assert all[i] == tail[i - |events|];
      }
    }
  }

  lemma RunNodeTail(ctx: Ctx, st: State, node: Node, inputs: Value)
    ensures var o := AsyncRunNode(ctx, st, node, inputs);
      |o.state.events| == |st.events| + 2 && o.state.events[..|st.events|] == st.events
      && StepTail(o.state.events[|st.events|..])
  {
    var start := Event(NodeStart, node.id, "Starting node: " + node.DisplayName());
    var last := match AsyncInvoke(ctx, node, inputs)
      case Threw(m) => Event(NodeError, node.id, "Error in node: " + m)
      case Returned(v) =>
        if node.kind == "condition" && (v.Null? || v.Undef?) then
          Event(NodeError, node.id, "Error in node: " + ReadError(v, "success"))
        else if node.kind == "condition" && FailedShaped(v) then
          Event(NodeComplete, node.id, "Condition node evaluated to false, stopping downstream execution")
        else Event(NodeComplete, node.id, "Completed node: " + node.DisplayName());
    PairTail(st.events, start, last, AsyncRunNode(ctx, st, node, inputs).state.events);
  }

  lemma AsyncVisitTail(ctx: Ctx, st: State, id: string)
    ensures var o := AsyncVisit(ctx, st, id);
      |o.state.events| >= |st.events| && o.state.events[..|st.events|] == st.events
      && StepTail(o.state.events[|st.events|..])
  {
    var nodeMap := NodeMap(ctx.nodes);
    if id in nodeMap && !Skipped(Lookup(st.outputs, id))
      && FirstFailedCondition(nodeMap, st.outputs, Preds(ctx.conns, id)).None? {
      RunNodeTail(ctx, st, nodeMap[id], InputsOf(ctx, st, id));
    } else {
      var o := AsyncVisit(ctx, st, id);
      var tail := o.state.events[|st.events|..];
      assert o.state.events == st.events + tail;
    }
  }

  lemma SyncVisitTail(ctx: Ctx, st: State, id: string)
    ensures var o := SyncVisit(ctx, st, id);
      |o.state.events| >= |st.events| && o.state.events[..|st.events|] == st.events
      && StepTail(o.state.events[|st.events|..])
      && forall e :: e in o.state.events[|st.events|..] ==> e.kind != NodeSkipped
  {
    var nodeMap := NodeMap(ctx.nodes);
    if id in nodeMap {
      var node := nodeMap[id];
      var start := Event(NodeStart, id, "Starting node: " + node.DisplayName());
      var inputs := ResolveInputs(st.outputs, Preds(ctx.conns, id), ctx.inputs);
      var last := match SyncInvoke(ctx, node, inputs)
        case Threw(m) => Event(NodeError, node.id, "Error in node: " + m)
        case Returned(_) => Event(NodeComplete, id, "Completed node: " + node.DisplayName());
      PairTail(st.events, start, last, SyncVisit(ctx, st, id).state.events);
    }
  }

  lemma PrefixSplit(all: seq<Event>, pre: seq<Event>)
    requires |all| >= |pre| && all[..|pre|] == pre
    ensures all == pre + all[|pre|..]
  {
  }

  lemma PairTail(events: seq<Event>, a: Event, b: Event, all: seq<Event>)
    requires all == events + [a, b]
    ensures |all| == |events| + 2 && all[..|events|] == events && all[|events|..] == [a, b]
  {
  }

  /** In the worker's log, each `node_complete` / `node_error` directly follows its `node_start`. */
  lemma {:induction false} AsyncStartPrecedes(ctx: Ctx, order: seq<string>)
    ensures StartBeforeOutcome(AsyncFold(ctx, order).state.events)
  {
    if order != [] {
      var init := order[..|order| - 1];
      AsyncStartPrecedes(ctx, init);
      var o := AsyncFold(ctx, init);
      if o.Continue? {
        AsyncVisitTail(ctx, o.state, order[|order| - 1]);
        var evs := AsyncVisit(ctx, o.state, order[|order| - 1]).state.events;
        PrefixSplit(evs, o.state.events);
        AppendStepTail(o.state.events, evs[|o.state.events|..]);
      }
    }
  }

  /** The same holds for the synchronous path, which moreover never logs `node_skipped`. */
  lemma {:induction false} SyncStartPrecedesNoSkip(ctx: Ctx, order: seq<string>)
    ensures StartBeforeOutcome(SyncFold(ctx, order).state.events)
    ensures forall e :: e in SyncFold(ctx, order).state.events ==> e.kind != NodeSkipped
  {
    if order != [] {
      var init := order[..|order| - 1];
      SyncStartPrecedesNoSkip(ctx, init);
      var o := SyncFold(ctx, init);
      if o.Continue? {
        SyncVisitTail(ctx, o.state, order[|order| - 1]);
        var evs := SyncVisit(ctx, o.state, order[|order| - 1]).state.events;
        PrefixSplit(evs, o.state.events);
        AppendStepTail(o.state.events, evs[|o.state.events|..]);
      }
    }
  }

  // ---------------------------------------------------------------------------
  // The upstream-condition guard never fires

  /** Every id downstream of a failed condition node already carries a skip mark. */
  ghost predicate GuardInv(ctx: Ctx, outputs: map<string, Value>) {
    forall p, d :: FailedCondition(NodeMap(ctx.nodes), outputs, p) && d in Downstream(ctx.conns, p) ==>
      Skipped(Lookup(outputs, d))
  }

  lemma GuardSilent(ctx: Ctx, outputs: map<string, Value>, id: string)
    requires GuardInv(ctx, outputs) && !Skipped(Lookup(outputs, id))
    ensures FirstFailedCondition(NodeMap(ctx.nodes), outputs, Preds(ctx.conns, id)).None?
  {
    forall p | p in Preds(ctx.conns, id) ensures !FailedCondition(NodeMap(ctx.nodes), outputs, p) {
      ReachStep(ctx.conns, p, p, id);
      ReachTarget(ctx.conns, p, id);
      assert id in Downstream(ctx.conns, p);
    }
  }

  /** Writing a non-failing output for a node that was not skipped keeps the invariant. */
  lemma WriteKeepsGuardInv(ctx: Ctx, outputs: map<string, Value>, id: string, w: Value)
    requires GuardInv(ctx, outputs) && !Skipped(Lookup(outputs, id))
    requires !FailedCondition(NodeMap(ctx.nodes), outputs[id := w], id)
    ensures GuardInv(ctx, outputs[id := w])
  {
    var outs := outputs[id := w];
    forall p, d | FailedCondition(NodeMap(ctx.nodes), outs, p) && d in Downstream(ctx.conns, p)
      ensures Skipped(Lookup(outs, d))
    {
      assert p != id;
      assert Lookup(outs, p) == Lookup(outputs, p);
      assert FailedCondition(NodeMap(ctx.nodes), outputs, p);
      assert Skipped(Lookup(outputs, d));
      assert d != id;
      assert Lookup(outs, d) == Lookup(outputs, d);
    }
  }

  lemma LookupMark(outputs: map<string, Value>, D: set<string>, skippedBy: string, k: string)
    ensures Lookup(MarkDownstream(outputs, D, skippedBy), k) == if k in D then SkipMark(skippedBy) else Lookup(outputs, k)
  {
  }

  /** Marking the downstream set of a failed condition node keeps the invariant. */
  lemma MarkKeepsGuardInv(ctx: Ctx, outputs: map<string, Value>, id: string, v: Value)
    requires GuardInv(ctx, outputs) && !Skipped(Lookup(outputs, id))
    ensures GuardInv(ctx, MarkDownstream(outputs[id := v], Downstream(ctx.conns, id), id))
  {
    var D := Downstream(ctx.conns, id);
    var written := outputs[id := v];
    var outs := MarkDownstream(written, D, id);
    forall p, d | FailedCondition(NodeMap(ctx.nodes), outs, p) && d in Downstream(ctx.conns, p)
      ensures Skipped(Lookup(outs, d))
    {
      LookupMark(written, D, id, p);
      LookupMark(written, D, id, d);
      assert !FailedShaped(SkipMark(id));
      assert p !in D;
      if d !in D && p != id {
        assert Lookup(written, p) == Lookup(outputs, p);
        assert FailedCondition(NodeMap(ctx.nodes), outputs, p);
        assert Skipped(Lookup(outputs, d));
        assert d != id;
        assert Lookup(written, d) == Lookup(outputs, d);
      }
    }
  }

  lemma VisitKeepsGuardInv(ctx: Ctx, st: State, id: string)
    requires GuardInv(ctx, st.outputs)
    requires AsyncVisit(ctx, st, id).Continue?
    ensures GuardInv(ctx, AsyncVisit(ctx, st, id).state.outputs)
  {
    var nodeMap := NodeMap(ctx.nodes);
    if id in nodeMap && !Skipped(Lookup(st.outputs, id)) {
      GuardSilent(ctx, st.outputs, id);
      RunNodeKeepsGuardInv(ctx, st, nodeMap[id], InputsOf(ctx, st, id));
    }
  }

  /** Running a node that was not skipped keeps the invariant, whatever its executor does. */
  lemma RunNodeKeepsGuardInv(ctx: Ctx, st: State, node: Node, inputs: Value)
    requires node.id in NodeMap(ctx.nodes) && NodeMap(ctx.nodes)[node.id] == node
    requires GuardInv(ctx, st.outputs) && !Skipped(Lookup(st.outputs, node.id))
    requires AsyncRunNode(ctx, st, node, inputs).Continue?
    ensures GuardInv(ctx, AsyncRunNode(ctx, st, node, inputs).state.outputs)
  {
    var id := node.id;
    match AsyncInvoke(ctx, node, inputs)
    case Threw(m) =>
      WriteKeepsGuardInv(ctx, st.outputs, id, ErrorOutput(m));
    case Returned(v) =>
      var started := st.events + [Event(NodeStart, id, "Starting node: " + node.DisplayName())];
      RecordKeepsGuardInv(ctx, st.outputs, started, node, v);
  }

  lemma RecordKeepsGuardInv(ctx: Ctx, outputs: map<string, Value>, started: seq<Event>, node: Node, v: Value)
    requires node.id in NodeMap(ctx.nodes) && NodeMap(ctx.nodes)[node.id] == node
    requires GuardInv(ctx, outputs) && !Skipped(Lookup(outputs, node.id))
    requires AsyncRecord(ctx, outputs, started, node, v).Continue?
    ensures GuardInv(ctx, AsyncRecord(ctx, outputs, started, node, v).state.outputs)
  {
    if node.kind == "condition" && (v.Null? || v.Undef?) {
      NullResultKeepsGuardInv(ctx, outputs, started, node, v);
    } else if node.kind == "condition" && FailedShaped(v) {
      MarkKeepsGuardInv(ctx, outputs, node.id, v);
    } else {
      PlainResultKeepsGuardInv(ctx, outputs, started, node, v);
    }
  }

  /** A condition that returned null or undefined leaves the error output, which is no failed condition. */
  lemma NullResultKeepsGuardInv(ctx: Ctx, outputs: map<string, Value>, started: seq<Event>, node: Node, v: Value)
    requires node.id in NodeMap(ctx.nodes) && NodeMap(ctx.nodes)[node.id] == node
    requires GuardInv(ctx, outputs) && !Skipped(Lookup(outputs, node.id))
    requires AsyncRecord(ctx, outputs, started, node, v).Continue?
    requires node.kind == "condition" && (v.Null? || v.Undef?)
    ensures GuardInv(ctx, AsyncRecord(ctx, outputs, started, node, v).state.outputs)
  {
    var id := node.id;
    var e := ErrorOutput(ReadError(v, "success"));
    assert Lookup(outputs[id := e], id) == e;
    WriteKeepsGuardInv(ctx, outputs, id, e);
    assert AsyncRecord(ctx, outputs, started, node, v).state.outputs == outputs[id := v][id := e] == outputs[id := e];
  }

  /** Any other returned value is stored as it is and is no failed condition. */
  lemma PlainResultKeepsGuardInv(ctx: Ctx, outputs: map<string, Value>, started: seq<Event>, node: Node, v: Value)
    requires node.id in NodeMap(ctx.nodes) && NodeMap(ctx.nodes)[node.id] == node
    requires GuardInv(ctx, outputs) && !Skipped(Lookup(outputs, node.id))
    requires AsyncRecord(ctx, outputs, started, node, v).Continue?
    requires !(node.kind == "condition" && (v.Null? || v.Undef? || FailedShaped(v)))
    ensures GuardInv(ctx, AsyncRecord(ctx, outputs, started, node, v).state.outputs)
  {
    var id := node.id;
    assert Lookup(outputs[id := v], id) == v;
    WriteKeepsGuardInv(ctx, outputs, id, v);
    assert AsyncRecord(ctx, outputs, started, node, v).state.outputs == outputs[id := v];
  }

  lemma {:induction false} FoldKeepsGuardInv(ctx: Ctx, order: seq<string>)
    requires AsyncFold(ctx, order).Continue?
    ensures GuardInv(ctx, AsyncFold(ctx, order).state.outputs)
  {
    if order != [] {
      var init := order[..|order| - 1];
      FoldKeepsGuardInv(ctx, init);
      VisitKeepsGuardInv(ctx, AsyncFold(ctx, init).state, order[|order| - 1]);
    }
  }

  /**
   * The per-visit check for a failed upstream condition never finds one:
   * whenever the worker reaches a node that is not already skipped, no
   * predecessor is a `condition` node with a failed result, because the
   * condition node marked all its downstream ids when it ran.
   */
  lemma GuardNeverFires(ctx: Ctx, order: seq<string>, id: string)
    requires AsyncFold(ctx, order).Continue?
    requires !Skipped(Lookup(AsyncFold(ctx, order).state.outputs, id))
    ensures FirstFailedCondition(NodeMap(ctx.nodes), AsyncFold(ctx, order).state.outputs, Preds(ctx.conns, id)).None?
  {
    FoldKeepsGuardInv(ctx, order);
    GuardSilent(ctx, AsyncFold(ctx, order).state.outputs, id);
  }

  // ---------------------------------------------------------------------------
  // The synchronous path

  /** Without an executor the synchronous path throws, and the catch block handles it. */
  lemma SyncUnknownTypeThrows(ctx: Ctx, st: State, id: string)
    requires id in NodeMap(ctx.nodes) && NodeMap(ctx.nodes)[id].kind !in Registry
    ensures var node := NodeMap(ctx.nodes)[id];
      var m := "No executor found for node type: " + node.kind;
      SyncVisit(ctx, st, id) == NodeFailure(node, st.outputs, st.events + [StartEvent(node)], m)
  {
  }

  /** Until an uncaught error, the synchronous path starts every node of the order. */
  lemma {:induction false} SyncStartsEveryNode(ctx: Ctx, order: seq<string>)
    requires SyncFold(ctx, order).Continue?
    ensures forall k :: 0 <= k < |order| && order[k] in NodeMap(ctx.nodes) ==>
      StartEvent(NodeMap(ctx.nodes)[order[k]]) in SyncFold(ctx, order).state.events
  {
    if order != [] {
      var init := order[..|order| - 1];
      var last := order[|order| - 1];
      assert SyncFold(ctx, init).Continue?;
      SyncStartsEveryNode(ctx, init);
      var st := SyncFold(ctx, init).state;
      SyncVisitTail(ctx, st, last);
      var evs := SyncFold(ctx, order).state.events;
      forall k | 0 <= k < |order| && order[k] in NodeMap(ctx.nodes)
        ensures StartEvent(NodeMap(ctx.nodes)[order[k]]) in evs
      {
        if k < |order| - 1 {
          assert order[k] == init[k];
          var j :| 0 <= j < |st.events| && st.events[j] == StartEvent(NodeMap(ctx.nodes)[order[k]]);
          assert evs[j] == st.events[j];
        } else {
          assert evs[|st.events|] == StartEvent(NodeMap(ctx.nodes)[last]);
        }
      }
    }
  }

  /** A missing `connections` is read as the empty list by the synchronous path. */
  lemma SyncMissingConnections(nodes: seq<Node>, inputs: Value, exec: (Node, Value) -> ExecResult, order: seq<string>)
    ensures SyncRun(Workflow(nodes, None), inputs, exec, order) == SyncRun(Workflow(nodes, Some([])), inputs, exec, order)
    ensures |nodes| > 0 ==>
      AsyncRun(Workflow(nodes, None), inputs, exec, order) == Failed(ReadError(Undef, "some"), [Event(ExecutionFailed, "", "Workflow execution failed: " + ReadError(Undef, "some"))])
  {
  }

  // ---------------------------------------------------------------------------
  // Both paths agree when no skip logic and no fallback can come into play

  /** A condition executor's result that the worker's extra checks let through unchanged. */
  predicate PlainCondition(r: ExecResult) {
    r.Threw? || (!r.value.Null? && !r.value.Undef? && !FailedShaped(r.value))
  }

  /** Only visited ids have outputs, and no condition node's output looks failed. */
  ghost predicate AgreeInv(ctx: Ctx, prefix: seq<string>, outputs: map<string, Value>) {
    (forall k :: k in outputs ==> k in prefix)
    && forall p :: p in outputs && p in NodeMap(ctx.nodes) && NodeMap(ctx.nodes)[p].kind == "condition" ==>
         !FailedShaped(outputs[p])
  }

  /** One visit under the agreement invariant: both loops do the same, and the invariant carries over. */
  lemma AgreeStep(ctx: Ctx, st: State, init: seq<string>, id: string)
    requires id !in init && AgreeInv(ctx, init, st.outputs)
    requires forall n :: n in ctx.nodes ==> n.kind in Registry
    requires forall n, v :: n in ctx.nodes && n.kind == "condition" ==> PlainCondition(ctx.exec(n, v))
    ensures AsyncVisit(ctx, st, id) == SyncVisit(ctx, st, id)
    ensures AsyncVisit(ctx, st, id).Continue? ==> AgreeInv(ctx, init + [id], AsyncVisit(ctx, st, id).state.outputs)
  {
    var nodeMap := NodeMap(ctx.nodes);
    assert id !in st.outputs;
    if id in nodeMap {
      var node := nodeMap[id];
      assert node in ctx.nodes;
      NoGuardUnderAgreement(ctx, st, init, id);
      AgreeRun(ctx, st, node, InputsOf(ctx, st, id));
    }
    var next := AsyncVisit(ctx, st, id);
    if next.Continue? {
      forall k | k in next.state.outputs ensures k in init + [id] {
        if k != id {
          assert k in st.outputs;
        }
      }
    }
  }

  /** Under the agreement invariant no predecessor is a failed condition. */
  lemma NoGuardUnderAgreement(ctx: Ctx, st: State, init: seq<string>, id: string)
    requires AgreeInv(ctx, init, st.outputs)
    ensures FirstFailedCondition(NodeMap(ctx.nodes), st.outputs, Preds(ctx.conns, id)).None?
  {
    var nodeMap := NodeMap(ctx.nodes);
    forall p | p in Preds(ctx.conns, id) ensures !FailedCondition(nodeMap, st.outputs, p) {
      if p !in st.outputs {
        assert Lookup(st.outputs, p) == Undef;
      }
    }
  }

  /** A node with an executor and a plain result is run alike by both loops. */
  lemma AgreeRun(ctx: Ctx, st: State, node: Node, inputs: Value)
    requires node.kind in Registry
    requires node.kind == "condition" ==> PlainCondition(ctx.exec(node, inputs))
    ensures AsyncRunNode(ctx, st, node, inputs) ==
      var started := st.events + [Event(NodeStart, node.id, "Starting node: " + node.DisplayName())];
      match SyncInvoke(ctx, node, inputs)
      case Threw(m) => NodeFailure(node, st.outputs, started, m)
      case Returned(v) =>
        Continue(State(st.outputs[node.id := v], started + [Event(NodeComplete, node.id, "Completed node: " + node.DisplayName())]))
  {
  }

  /**
   * Over an order without repeated ids, with an executor for every node type
   * and no condition node returning null, undefined or a failed result, the
   * worker and `executeWorkflowSync` produce the same outputs, the same log
   * and the same outcome.
   */
  lemma {:induction false} AsyncAgreesWithSync(ctx: Ctx, order: seq<string>)
    requires NoDup(order)
    requires forall n :: n in ctx.nodes ==> n.kind in Registry
    requires forall n, v :: n in ctx.nodes && n.kind == "condition" ==> PlainCondition(ctx.exec(n, v))
    ensures AsyncFold(ctx, order) == SyncFold(ctx, order)
    ensures AsyncFold(ctx, order).Continue? ==> AgreeInv(ctx, order, AsyncFold(ctx, order).state.outputs)
  {
    if order != [] {
      var init := order[..|order| - 1];
      var id := order[|order| - 1];
      assert NoDup(init);
      AsyncAgreesWithSync(ctx, init);
      var o := AsyncFold(ctx, init);
      if o.Continue? {
        assert id !in init;
        AgreeStep(ctx, o.state, init, id);
        assert order == init + [id];
      }
    }
  }
}
