/**
 * The editor's workflow store (frontend/src/stores/workflow.js): the list
 * of workflows, the workflow open in the editor, and the users present on
 * it. Collaborators' changes arrive as change records and are applied to
 * the open workflow's `nodes` and `connections`.
 *
 * Server answers are parameters: `Ok(data)` is the response body, `Err(m)`
 * the message of the failed request.
 */
module EditorStore {
  import opened Wrappers
  import opened JsValue

  // ---------------------------------------------------------------------------
  // Lookups by id

  /** `s.findIndex(x => x[key] === id)` */
  function FirstIndex(s: seq<Value>, key: string, id: Value): (r: int)
    ensures -1 <= r < |s|
    ensures r >= 0 ==> Get(s[r], key) == id && forall k :: 0 <= k < r ==> Get(s[k], key) != id
    ensures r == -1 <==> forall k :: 0 <= k < |s| ==> Get(s[k], key) != id
    decreases |s|
  {
    if s == [] then -1
    else if Get(s[0], key) == id then 0
    else
      var r := FirstIndex(s[1..], key, id);
      assert forall k :: 1 <= k < |s| ==> s[k] == s[1..][k - 1];
      if r == -1 then -1 else r + 1
  }

  /** The scan `findIndex` performs. */
  method FindIndex(s: seq<Value>, key: string, id: Value) returns (idx: int)
    ensures idx == FirstIndex(s, key, id)
  {
    var i := 0;
    while i < |s|
      invariant 0 <= i <= |s|
      invariant forall k :: 0 <= k < i ==> Get(s[k], key) != id
    {
      if Get(s[i], key) == id {
        return i;
      }
      i := i + 1;
    }
    return -1;
  }

  /** `s.filter(x => x[key] !== id)` */
  function WithoutId(s: seq<Value>, key: string, id: Value): (r: seq<Value>)
    ensures |r| <= |s|
    ensures forall x :: x in r <==> x in s && Get(x, key) != id
    ensures (forall k :: 0 <= k < |s| ==> Get(s[k], key) != id) ==> r == s
    decreases |s|
  {
    if s == [] then []
    else if Get(s[0], key) != id then [s[0]] + WithoutId(s[1..], key, id)
    else WithoutId(s[1..], key, id)
  }

  /** The filter keeps the order of what it keeps: it distributes over concatenation. */
  lemma {:induction false} WithoutIdAppend(a: seq<Value>, b: seq<Value>, key: string, id: Value)
    ensures WithoutId(a + b, key, id) == WithoutId(a, key, id) + WithoutId(b, key, id)
    decreases |a|
  {
    if a != [] {
      assert (a + b)[0] == a[0] && (a + b)[1..] == a[1..] + b;
      WithoutIdAppend(a[1..], b, key, id);
    } else {
      assert a + b == b;
    }
  }

  /** An entry the filter keeps lands after the entries kept before it. */
  lemma WithoutIdIndex(s: seq<Value>, key: string, id: Value, k: nat)
    requires k < |s| && Get(s[k], key) != id
    ensures |WithoutId(s[..k], key, id)| < |WithoutId(s, key, id)|
    ensures WithoutId(s, key, id)[|WithoutId(s[..k], key, id)|] == s[k]
  {
    assert s == s[..k] + ([s[k]] + s[k + 1..]);
    WithoutIdAppend(s[..k], [s[k]] + s[k + 1..], key, id);
    WithoutIdAppend([s[k]], s[k + 1..], key, id);
    assert [s[k]][1..] == [];
  }

  /** No two entries share a value under `key`. */
  predicate UniqueIds(s: seq<Value>, key: string) {
    forall i, j :: 0 <= i < j < |s| ==> Get(s[i], key) != Get(s[j], key)
  }

  /** Removing entries keeps ids unique. */
  lemma {:induction false} WithoutIdUnique(s: seq<Value>, key: string, id: Value)
    requires UniqueIds(s, key)
    ensures UniqueIds(WithoutId(s, key, id), key)
    decreases |s|
  {
    if s != [] {
      UniqueTail(s, key);
      WithoutIdUnique(s[1..], key, id);
      if Get(s[0], key) != id {
        UniqueCons(s[0], WithoutId(s[1..], key, id), key);
      }
    }
  }

  lemma UniqueTail(s: seq<Value>, key: string)
    requires UniqueIds(s, key) && s != []
    ensures UniqueIds(s[1..], key)
    ensures forall x :: x in s[1..] ==> Get(x, key) != Get(s[0], key)
  {
    forall i, j | 0 <= i < j < |s[1..]| ensures Get(s[1..][i], key) != Get(s[1..][j], key) {
      assert s[1..][i] == s[i + 1] && s[1..][j] == s[j + 1];
    }
    forall x | x in s[1..] ensures Get(x, key) != Get(s[0], key) {
      var k :| 0 <= k < |s[1..]| && s[1..][k] == x;
      assert s[k + 1] == x;
    }
  }

  lemma UniqueCons(x: Value, rest: seq<Value>, key: string)
    requires UniqueIds(rest, key) && forall y :: y in rest ==> Get(y, key) != Get(x, key)
    ensures UniqueIds([x] + rest, key)
  {
    var r := [x] + rest;
    forall i, j | 0 <= i < j < |r| ensures Get(r[i], key) != Get(r[j], key) {
      assert r[j] == rest[j - 1];
      if i > 0 {
        assert r[i] == rest[i - 1];
      }
    }
  }

  // ---------------------------------------------------------------------------
  // The open workflow's lists

  /** `workflow[key]` is an array the store can push to and filter. */
  predicate HasList(w: Value, key: string) {
    w.Obj? && key in w.fields && w.fields[key].Arr?
  }

  /** The workflow with its array under `key` replaced. */
  function WithList(w: Value, key: string, items: seq<Value>): (r: Value)
    requires w.Obj?
    ensures r.Obj? && r.fields.Keys == w.fields.Keys + {key}
    ensures r.fields[key] == Arr(items) && forall k :: k in w.fields && k != key ==> r.fields[k] == w.fields[k]
  {
    Obj(w.fields[key := Arr(items)])
  }

  /** `node.position = position` on a node object. */
  function Moved(node: Value, position: Value): (r: Value)
    requires node.Obj?
    ensures r.Obj? && Get(r, "position") == position && r.fields.Keys == node.fields.Keys + {"position"}
    ensures forall k :: k in node.fields && k != "position" ==> r.fields[k] == node.fields[k]
  {
    Obj(node.fields["position" := position])
  }

  /** The change types `applyWorkflowChange` understands. */
  const NodeChanges := {"node-add", "node-update", "node-delete", "node-move"}
  const ConnectionChanges := {"edge-add", "edge-delete", "connection-add", "connection-delete"}

  predicate KnownChange(t: Value) {
    t.Str? && (t.s in NodeChanges || t.s in ConnectionChanges)
  }

  /** The node cases of the switch: the next workflow and whether it threw. */
  function NodeApplied(w: Value, t: string, change: Value): (Value, bool)
    requires t in NodeChanges
  {
    if !HasList(w, "nodes") then (w, true)
    else
      var nodes := w.fields["nodes"].items;
      var i := FirstIndex(nodes, "id", Get(change, "nodeId"));
      if t == "node-add" then (WithList(w, "nodes", nodes + [Get(change, "node")]), false)
      else if t == "node-delete" then (WithList(w, "nodes", WithoutId(nodes, "id", Get(change, "nodeId"))), false)
      else if i == -1 then (w, false)
      else if t == "node-update" then
        (WithList(w, "nodes", nodes[i := Obj(Spread(nodes[i]) + Spread(Get(change, "updates")))]), false)
      else if nodes[i].Obj? then (WithList(w, "nodes", nodes[i := Moved(nodes[i], Get(change, "position"))]), false)
      else (w, !nodes[i].Arr?)
  }

  /** The connection cases of the switch. */
  function ConnectionApplied(w: Value, t: string, change: Value): (Value, bool)
    requires t in ConnectionChanges
  {
    if !HasList(w, "connections") then (w, true)
    else
      var connections := w.fields["connections"].items;
      if t == "edge-add" then (WithList(w, "connections", connections + [Get(change, "edge")]), false)
      else if t == "connection-add" then (WithList(w, "connections", connections + [Get(change, "connection")]), false)
      else if t == "edge-delete" then
        (WithList(w, "connections", WithoutId(connections, "id", Get(change, "edgeId"))), false)
      else (WithList(w, "connections", WithoutId(connections, "id", Get(change, "connectionId"))), false)
  }

  /**
   * The switch of `applyWorkflowChange` on an open workflow `w`: the next
   * workflow, and whether it threw. A throw leaves `w` as it was; an
   * unknown type changes nothing.
   */
  function Applied(w: Value, change: Value): (r: (Value, bool))
    ensures r.1 ==> r.0 == w
    ensures change.Null? || change.Undef? ==> r.1
    ensures !change.Null? && !change.Undef? && !KnownChange(Get(change, "type")) ==> r == (w, false)
    ensures KnownChange(Get(change, "type")) && Get(change, "type").s in NodeChanges ==> (r.1 <== !HasList(w, "nodes"))
    ensures KnownChange(Get(change, "type")) && Get(change, "type").s in ConnectionChanges ==>
      (r.1 <==> !HasList(w, "connections"))
    // a change edits only the list its type names
    ensures KnownChange(Get(change, "type")) && Get(change, "type").s in NodeChanges && !r.1 ==>
      HasList(w, "nodes") && HasList(r.0, "nodes") && r.0 == WithList(w, "nodes", r.0.fields["nodes"].items)
    ensures KnownChange(Get(change, "type")) && Get(change, "type").s in ConnectionChanges && !r.1 ==>
      HasList(w, "connections") && HasList(r.0, "connections")
      && r.0 == WithList(w, "connections", r.0.fields["connections"].items)
  {
    if change.Null? || change.Undef? then (w, true)
    else if !KnownChange(Get(change, "type")) then (w, false)
    else if Get(change, "type").s in NodeChanges then NodeApplied(w, Get(change, "type").s, change)
    else ConnectionApplied(w, Get(change, "type").s, change)
  }

  /** The eight change types are eight different strings. */
  lemma ChangeTypesDistinct()
    ensures forall a, b :: a in NodeChanges && b in ConnectionChanges ==> a != b
    ensures "node-add" != "node-update" && "node-add" != "node-delete" && "node-add" != "node-move"
    ensures "node-update" != "node-delete" && "node-update" != "node-move" && "node-delete" != "node-move"
    ensures "edge-add" != "edge-delete" && "edge-add" != "connection-add" && "edge-add" != "connection-delete"
    ensures "edge-delete" != "connection-add" && "edge-delete" != "connection-delete"
    ensures "connection-add" != "connection-delete"
  {
  }

  /** The node cases of `applyWorkflowChange` on the open workflow `w`; `threw` leaves it as it was. */
  method NodeChange(w: Value, t: string, change: Value) returns (next: Value, threw: bool)
    requires t in NodeChanges
    ensures (next, threw) == NodeApplied(w, t, change)
    ensures threw ==> next == w
    ensures !HasList(w, "nodes") ==> threw
    ensures HasList(w, "nodes") ==>
      var nodes := w.fields["nodes"].items;
      var i := FirstIndex(nodes, "id", Get(change, "nodeId"));
      && (t == "node-add" ==> !threw && next == WithList(w, "nodes", nodes + [Get(change, "node")]))
      && (t == "node-delete" ==> !threw && next == WithList(w, "nodes", WithoutId(nodes, "id", Get(change, "nodeId"))))
      && (t in {"node-update", "node-move"} && i == -1 ==> !threw && next == w)
      && (t == "node-update" && i >= 0 ==>
            !threw && next == WithList(w, "nodes", nodes[i := Obj(Spread(nodes[i]) + Spread(Get(change, "updates")))]))
      && (t == "node-move" && i >= 0 && nodes[i].Obj? ==>
            !threw && next == WithList(w, "nodes", nodes[i := Moved(nodes[i], Get(change, "position"))]))
      && (t == "node-move" && i >= 0 && nodes[i].Arr? ==> !threw && next == w)
      && (t == "node-move" && i >= 0 && !nodes[i].Obj? && !nodes[i].Arr? ==> threw)
  {
    next, threw := w, false;
    if !HasList(w, "nodes") {
      return w, true;
    }
    var nodes := w.fields["nodes"].items;
    if t == "node-add" {
      next := WithList(w, "nodes", nodes + [Get(change, "node")]);
    } else if t == "node-update" {
      var i := FindIndex(nodes, "id", Get(change, "nodeId"));
      if i != -1 {
        next := WithList(w, "nodes", nodes[i := Obj(Spread(nodes[i]) + Spread(Get(change, "updates")))]);
      }
    } else if t == "node-delete" {
      next := WithList(w, "nodes", WithoutId(nodes, "id", Get(change, "nodeId")));
    } else {
      var i := FindIndex(nodes, "id", Get(change, "nodeId"));
      if i != -1 {
        if nodes[i].Obj? {
          next := WithList(w, "nodes", nodes[i := Moved(nodes[i], Get(change, "position"))]);
        } else if !nodes[i].Arr? {
          threw := true;
        }
      }
    }
  }

  /** The connection cases of `applyWorkflowChange` on the open workflow `w`. */
  method ConnectionChange(w: Value, t: string, change: Value) returns (next: Value, threw: bool)
    requires t in ConnectionChanges
    ensures (next, threw) == ConnectionApplied(w, t, change)
    ensures threw <==> !HasList(w, "connections")
    ensures threw ==> next == w
    ensures HasList(w, "connections") ==>
      var connections := w.fields["connections"].items;
      && (t == "edge-add" ==> next == WithList(w, "connections", connections + [Get(change, "edge")]))
      && (t == "connection-add" ==> next == WithList(w, "connections", connections + [Get(change, "connection")]))
      && (t == "edge-delete" ==> next == WithList(w, "connections", WithoutId(connections, "id", Get(change, "edgeId"))))
      && (t == "connection-delete" ==>
            next == WithList(w, "connections", WithoutId(connections, "id", Get(change, "connectionId"))))
  {
    if !HasList(w, "connections") {
      return w, true;
    }
    threw := false;
    var connections := w.fields["connections"].items;
    if t == "edge-add" {
      next := WithList(w, "connections", connections + [Get(change, "edge")]);
    } else if t == "connection-add" {
      next := WithList(w, "connections", connections + [Get(change, "connection")]);
    } else if t == "edge-delete" {
      next := WithList(w, "connections", WithoutId(connections, "id", Get(change, "edgeId")));
    } else {
      next := WithList(w, "connections", WithoutId(connections, "id", Get(change, "connectionId")));
    }
  }

  class WorkflowStore {
    var workflows: seq<Value>
    var current: Value // null when no workflow is open
    /**
     * The index of the listed workflow that is the same object as the open
     * one, or -1. `updateWorkflow` puts one server answer in both places;
     * from then on a change applied to the open workflow shows in the list.
     */
    var shared: int
    var activeUsers: seq<Value>
    var error: Value
    const userId: Value

    /** The shared entry, when there is one, is the open workflow. */
    predicate Valid()
      reads this
    {
      -1 <= shared < |workflows| && (shared >= 0 ==> workflows[shared] == current)
    }

    constructor(userId: Value)
      ensures Valid()
      ensures workflows == [] && current == Null && shared == -1 && activeUsers == [] && error == Null
      ensures this.userId == userId
    {
      workflows := [];
      current := Null;
      shared := -1;
      activeUsers := [];
      error := Null;
      this.userId := userId;
    }

    /**
     * `applyWorkflowChange(change)`. `threw` is a TypeError: a change that
     * is null or undefined, a list that is not an array, or a position set
     * on a node that is a primitive; the workflow is then unchanged. The
     * listed workflow that is the same object changes with it.
     */
    method ApplyWorkflowChange(change: Value) returns (threw: bool)
      requires Valid()
      modifies this
      ensures Valid() && shared == old(shared)
      ensures workflows == if shared >= 0 then old(workflows)[shared := current] else old(workflows)
      ensures activeUsers == old(activeUsers) && error == old(error)
      ensures threw ==> current == old(current)
      ensures Truthy(old(current)) ==> (current, threw) == Applied(old(current), change)
      ensures !Truthy(old(current)) ==> !threw && current == old(current)
      ensures Truthy(old(current)) && (change.Null? || change.Undef?) ==> threw
      ensures Truthy(old(current)) && !change.Null? && !change.Undef? && !KnownChange(Get(change, "type")) ==>
        !threw && current == old(current)
      // node-add and the two connection adds append
      ensures Truthy(old(current)) && Get(change, "type") == Str("node-add") ==>
        if HasList(old(current), "nodes")
        then !threw && current == WithList(old(current), "nodes", old(current).fields["nodes"].items + [Get(change, "node")])
        else threw
      ensures Truthy(old(current)) && Get(change, "type") in {Str("edge-add"), Str("connection-add")} ==>
        var item := if Get(change, "type") == Str("edge-add") then Get(change, "edge") else Get(change, "connection");
        if HasList(old(current), "connections")
        then !threw && current == WithList(old(current), "connections", old(current).fields["connections"].items + [item])
        else threw
      // the deletes remove every entry with the id
      ensures Truthy(old(current)) && Get(change, "type") == Str("node-delete") ==>
        if HasList(old(current), "nodes")
        then !threw && current == WithList(old(current), "nodes",
                                           WithoutId(old(current).fields["nodes"].items, "id", Get(change, "nodeId")))
        else threw
      ensures Truthy(old(current)) && Get(change, "type") in {Str("edge-delete"), Str("connection-delete")} ==>
        var id := if Get(change, "type") == Str("edge-delete") then Get(change, "edgeId") else Get(change, "connectionId");
        if HasList(old(current), "connections")
        then !threw && current == WithList(old(current), "connections",
                                           WithoutId(old(current).fields["connections"].items, "id", id))
        else threw
      // node-update merges into the first node with the id
      ensures Truthy(old(current)) && Get(change, "type") == Str("node-update") ==>
        if HasList(old(current), "nodes")
        then
          var nodes := old(current).fields["nodes"].items;
          var i := FirstIndex(nodes, "id", Get(change, "nodeId"));
          && !threw
          && (i == -1 ==> current == old(current))
          && (i >= 0 ==> current == WithList(old(current), "nodes",
                                             nodes[i := Obj(Spread(nodes[i]) + Spread(Get(change, "updates")))]))
        else threw
      // node-move sets the position of the first node with the id
      ensures Truthy(old(current)) && Get(change, "type") == Str("node-move") ==>
        if HasList(old(current), "nodes")
        then
          var nodes := old(current).fields["nodes"].items;
          var i := FirstIndex(nodes, "id", Get(change, "nodeId"));
          && (i == -1 ==> !threw && current == old(current))
          && (i >= 0 && nodes[i].Obj? ==>
                !threw && current == WithList(old(current), "nodes", nodes[i := Moved(nodes[i], Get(change, "position"))]))
          && (i >= 0 && nodes[i].Arr? ==> !threw && current == old(current))
          && (i >= 0 && !nodes[i].Obj? && !nodes[i].Arr? ==> threw)
        else threw
    {
      threw := false;
      if Truthy(current) {
        ChangeTypesDistinct();
        if change.Null? || change.Undef? {
          threw := true;
        } else if KnownChange(Get(change, "type")) {
          var t := Get(change, "type").s;
          if t in NodeChanges {
            current, threw := NodeChange(current, t, change);
          } else {
            current, threw := ConnectionChange(current, t, change);
          }
        }
      }
      if shared >= 0 {
        workflows := workflows[shared := current];
      }
    }

    /**
     * The `user-joined` handler: a user is added unless one with the same
     * `userId` is present. `threw` is the TypeError of reading `userId` off
     * a null or undefined payload, which happens only when the search visits
     * an entry; the list is then unchanged.
     */
    method UserJoined(data: Value) returns (threw: bool)
      modifies this
      ensures workflows == old(workflows) && current == old(current) && shared == old(shared) && error == old(error)
      ensures threw <==> (data.Null? || data.Undef?) && old(activeUsers) != []
      ensures threw ==> activeUsers == old(activeUsers)
      ensures !threw && FirstIndex(old(activeUsers), "userId", Get(data, "userId")) == -1 ==>
        activeUsers == old(activeUsers) + [data]
      ensures FirstIndex(old(activeUsers), "userId", Get(data, "userId")) != -1 ==> activeUsers == old(activeUsers)
      ensures UniqueIds(old(activeUsers), "userId") ==> UniqueIds(activeUsers, "userId")
    {
      if (data.Null? || data.Undef?) && activeUsers != [] {
        return true;
      }
      threw := false;
      var i := FindIndex(activeUsers, "userId", Get(data, "userId"));
      if i == -1 {
        activeUsers := activeUsers + [data];
      }
    }

    /** The `user-left` handler: every entry with the `userId` is removed; a null or undefined payload throws as above. */
    method UserLeft(data: Value) returns (threw: bool)
      modifies this
      ensures workflows == old(workflows) && current == old(current) && shared == old(shared) && error == old(error)
      ensures threw <==> (data.Null? || data.Undef?) && old(activeUsers) != []
      ensures threw ==> activeUsers == old(activeUsers)
      ensures !threw ==> activeUsers == WithoutId(old(activeUsers), "userId", Get(data, "userId"))
      ensures UniqueIds(old(activeUsers), "userId") ==> UniqueIds(activeUsers, "userId")
    {
      if (data.Null? || data.Undef?) && activeUsers != [] {
        return true;
      }
      threw := false;
      if UniqueIds(activeUsers, "userId") {
        WithoutIdUnique(activeUsers, "userId", Get(data, "userId"));
      }
      activeUsers := WithoutId(activeUsers, "userId", Get(data, "userId"));
    }

    /**
     * The `workflow-update` handler: a null or undefined payload throws;
     * changes sent by this user, or with no workflow open, are ignored; any
     * other change is applied to the open workflow.
     */
    method WorkflowUpdate(data: Value) returns (threw: bool)
      requires Valid()
      modifies this
      ensures Valid() && shared == old(shared)
      ensures activeUsers == old(activeUsers) && error == old(error)
      ensures data.Null? || data.Undef? ==> threw && current == old(current) && workflows == old(workflows)
      ensures !data.Null? && !data.Undef? && (Get(data, "userId") == userId || !Truthy(old(current))) ==>
        !threw && current == old(current) && workflows == old(workflows)
      ensures !data.Null? && !data.Undef? && Get(data, "userId") != userId && Truthy(old(current)) ==>
        && (current, threw) == Applied(old(current), Get(data, "change"))
        && workflows == if shared >= 0 then old(workflows)[shared := current] else old(workflows)
    {
      threw := false;
      if data.Null? || data.Undef? {
        threw := true;
      } else if Get(data, "userId") != userId && Truthy(current) {
        threw := ApplyWorkflowChange(Get(data, "change"));
      }
    }

    /**
     * `createWorkflow(workflowData)`: the name is checked before any
     * request; `response` is the server's answer. Err is the thrown message.
     */
    method CreateWorkflow(workflowData: Value, response: Result<Value, string>) returns (r: Result<Value, string>)
      requires Valid()
      modifies this
      ensures Valid()
      ensures current == old(current) && activeUsers == old(activeUsers)
      ensures CreateRefusal(workflowData).Some? ==>
        r == Err(CreateRefusal(workflowData).value) && workflows == old(workflows) && error == old(error)
        && shared == old(shared)
      ensures CreateRefusal(workflowData).None? && response.Ok? ==>
        r == response && workflows == [response.value] + old(workflows) && error == Null
        && shared == (if old(shared) >= 0 then old(shared) + 1 else -1)
      ensures CreateRefusal(workflowData).None? && response.Err? ==>
        r == response && workflows == old(workflows) && error == Str(response.error) && shared == old(shared)
    {
      var refusal := CreateRefusal(workflowData);
      if refusal.Some? {
        return Err(refusal.value);
      }
      r := Post(response);
    }

    /** The request of `createWorkflow`: the server's copy goes to the front of the list. */
    method Post(response: Result<Value, string>) returns (r: Result<Value, string>)
      requires Valid()
      modifies this
      ensures Valid() && r == response
      ensures current == old(current) && activeUsers == old(activeUsers)
      ensures response.Ok? ==>
        workflows == [response.value] + old(workflows) && error == Null
        && shared == (if old(shared) >= 0 then old(shared) + 1 else -1)
      ensures response.Err? ==> workflows == old(workflows) && error == Str(response.error) && shared == old(shared)
    {
      if response.Err? {
        error := Str(response.error);
      } else {
        error := Null;
        Unshift(response.value);
      }
      r := response;
    }

    /** `workflows.value.unshift(w)`: the shared entry, if any, moves up one place. */
    method Unshift(w: Value)
      requires Valid()
      modifies this
      ensures Valid()
      ensures workflows == [w] + old(workflows) && shared == (if old(shared) >= 0 then old(shared) + 1 else -1)
      ensures current == old(current) && activeUsers == old(activeUsers) && error == old(error)
    {
      ghost var before := workflows;
      workflows := [w] + workflows;
      if shared >= 0 {
        assert workflows[shared + 1] == before[shared];
        shared := shared + 1;
      }
    }

    /**
     * `updateWorkflow(id, updates)`: the server's copy replaces the first
     * listed workflow with the id, and the open workflow when it has the id;
     * when it does both, the two are one object from then on.
     */
    method UpdateWorkflow(id: Value, response: Result<Value, string>) returns (r: Result<Value, string>)
      requires Valid()
      modifies this
      ensures Valid()
      ensures activeUsers == old(activeUsers) && r == response
      ensures response.Err? ==>
        workflows == old(workflows) && current == old(current) && shared == old(shared) && error == Str(response.error)
      ensures response.Ok? ==>
        var i := FirstIndex(old(workflows), "id", id);
        && error == Null
        && (i == -1 ==> workflows == old(workflows))
        && (i >= 0 ==> workflows == old(workflows)[i := response.value])
        && (Get(old(current), "id") == id ==> current == response.value && shared == i)
        && (Get(old(current), "id") != id ==> current == old(current) && shared == old(shared))
    {
      error := Null;
      if response.Err? {
        error := Str(response.error);
        return response;
      }
      var i := FindIndex(workflows, "id", id);
      if i != -1 {
        workflows := workflows[i := response.value];
      }
      if Get(current, "id") == id {
        current := response.value;
        shared := i;
      }
      r := response;
    }

    /**
     * `deleteWorkflow(id)`: `failure` is the message of a failed request.
     * Every listed workflow with the id goes, and the open one is closed
     * when it has the id.
     */
    method DeleteWorkflow(id: Value, failure: Option<string>) returns (r: Result<(), string>)
      requires Valid()
      modifies this
      ensures Valid()
      ensures activeUsers == old(activeUsers)
      ensures failure.Some? ==> r == Err(failure.value) && workflows == old(workflows) && current == old(current)
                                && shared == old(shared) && error == Str(failure.value)
      ensures failure.None? ==>
        && r == Ok(()) && error == Null
        && workflows == WithoutId(old(workflows), "id", id)
        && (Get(old(current), "id") == id ==> current == Null && shared == -1)
        && (Get(old(current), "id") != id ==> current == old(current))
        && (Get(old(current), "id") != id && old(shared) >= 0 ==>
              shared == |WithoutId(old(workflows)[..old(shared)], "id", id)|)
        && (old(shared) == -1 ==> shared == -1)
    {
      error := Null;
      if failure.Some? {
        error := Str(failure.value);
        return Err(failure.value);
      }
      if Get(current, "id") == id {
        current := Null;
        shared := -1;
      } else if shared >= 0 {
        WithoutIdIndex(workflows, "id", id, shared);
        shared := |WithoutId(workflows[..shared], "id", id)|;
      }
      workflows := WithoutId(workflows, "id", id);
      r := Ok(());
    }
  }

  /**
   * The checks `createWorkflow` makes before any request, in order: a
   * missing or blank name, then the default name without nodes. Reading
   * `name` of null or undefined data is a TypeError, and a truthy name that
   * is not a string has no `trim`.
   */
  function CreateRefusal(workflowData: Value): (r: Option<string>)
    ensures workflowData.Null? || workflowData.Undef? ==>
      r == Some("Cannot read properties of " + ToStr(workflowData) + " (reading 'name')")
    ensures var name := Get(workflowData, "name");
      && (!workflowData.Null? && !workflowData.Undef? && !Truthy(name) ==> r == Some("Workflow name is required"))
      && (Truthy(name) && !name.Str? ==> r == Some("workflowData.name.trim is not a function"))
      && (name.Str? && Trim(name.s) == "" ==> r == Some("Workflow name is required"))
    ensures r.None? <==> ValidName(workflowData)
  {
    var name := Get(workflowData, "name");
    var nodes := Get(workflowData, "nodes");
    if workflowData.Null? || workflowData.Undef? then
      Some("Cannot read properties of " + ToStr(workflowData) + " (reading 'name')")
    else if !Truthy(name) then Some("Workflow name is required")
    else if !name.Str? then Some("workflowData.name.trim is not a function")
    else if Trim(name.s) == "" then Some("Workflow name is required")
    else if name == Str("Workflow") && (!Truthy(nodes) || Get(nodes, "length") == Int(0)) then
      Some("Cannot create empty workflow with default name")
    else None
  }

  /** The request goes out only for a non-blank name that is not the default name of an empty workflow. */
  predicate ValidName(workflowData: Value) {
    var name := Get(workflowData, "name");
    var nodes := Get(workflowData, "nodes");
    name.Str? && Trim(name.s) != "" && !(name == Str("Workflow") && (!Truthy(nodes) || Get(nodes, "length") == Int(0)))
  }

  /** A name of spaces only is blank. */
  lemma BlankNameRefused()
    ensures CreateRefusal(Obj(map["name" := Str("   ")])) == Some("Workflow name is required")
  {
    var data := Obj(map["name" := Str("   ")]);
    assert Get(data, "name") == Str("   ");
    assert "   "[1..] == "  " && "  "[1..] == " " && " "[1..] == "";
    assert TrimStart("   ") == "";
    assert Trim("   ") == "";
  }

  lemma TrimWorkflow()
    ensures Trim("Workflow") == "Workflow"
  {
    assert !IsSpace("Workflow"[0]) && !IsSpace("Workflow"[7]);
    assert TrimStart("Workflow") == "Workflow";
    assert TrimEnd("Workflow") == "Workflow";
  }

  /** The default name needs at least one node. */
  lemma DefaultNameNeedsNodes(node: Value)
    ensures CreateRefusal(Obj(map["name" := Str("Workflow"), "nodes" := Arr([])]))
         == Some("Cannot create empty workflow with default name")
    ensures CreateRefusal(Obj(map["name" := Str("Workflow"), "nodes" := Arr([node])])).None?
  {
    TrimWorkflow();
    var empty := Obj(map["name" := Str("Workflow"), "nodes" := Arr([])]);
    assert Get(empty, "name") == Str("Workflow") && Get(empty, "nodes") == Arr([]);
    assert Get(Arr([]), "length") == Int(0);
    var one := Obj(map["name" := Str("Workflow"), "nodes" := Arr([node])]);
    assert Get(one, "name") == Str("Workflow") && Get(one, "nodes") == Arr([node]);
    assert Get(Arr([node]), "length") == Int(1);
  }
}
