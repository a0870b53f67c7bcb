/**
 * The workflow REST routes (backend/src/api/routes/workflow.js): the list
 * with its key filter, search, newest-first sort and page; the defaults of
 * a created workflow; the merge of an update; and the rules of a clone.
 *
 * Redis reads and writes are left to the caller: the list receives the
 * stored keys and a `load` function giving the parsed document of a key,
 * and the other routes receive the parsed document (None when the key is
 * missing). Fresh ids, the ISO time and the parsing of dates are parameters.
 */
module WorkflowRoutes {
  import opened Wrappers
  import opened JsValue

  /** An HTTP answer: the status and the JSON body. */
  datatype Response = Response(status: int, body: Value)

  function ErrorBody(message: string): Value {
    Obj(map["error" := Str(message)])
  }

  /** `arr.filter(p)` */
  function Filter<T(!new)>(s: seq<T>, p: T -> bool): (r: seq<T>)
    ensures |r| <= |s|
    ensures forall x :: x in r <==> x in s && p(x)
    decreases |s|
  {
    if s == [] then []
    else if p(s[0]) then [s[0]] + Filter(s[1..], p)
    else Filter(s[1..], p)
  }

  // ---------------------------------------------------------------------------
  // The key filter

  const HexDash := "0123456789abcdef-"

  /** `key.match(/^workflow:[a-f0-9-]+$/)` */
  predicate IsWorkflowKey(k: string) {
    |k| > 9 && k[..9] == "workflow:" && forall i :: 9 <= i < |k| ==> k[i] in HexDash
  }

  /** The documents are under `workflow:<uuid>`; the executions list and other keys are dropped. */
  lemma KeyFilterExamples()
    ensures IsWorkflowKey("workflow:3f2a-01")
    ensures !IsWorkflowKey("workflow:executions")
    ensures !IsWorkflowKey("workflow:")
    ensures !IsWorkflowKey("workflow:AB12")
  {
    assert "workflow:3f2a-01"[..9] == "workflow:";
    assert "workflow:executions"[9] == 'e' && "workflow:executions"[10] == 'x';
    assert "workflow:AB12"[9] == 'A';
  }

  // ---------------------------------------------------------------------------
  // Search

  /**
   * The search predicate for one workflow and a non-empty term: the
   * lower-cased name contains the lower-cased term, or else the description
   * does. Err is the TypeError of a name that is not a string, or of a
   * description that is neither a string nor null/undefined.
   */
  function SearchHit(w: Value, search: string): (r: Result<bool, string>)
    ensures r == Ok(true) ==>
      && Get(w, "name").Str?
      && (|| Includes(ToLower(Get(w, "name").s), ToLower(search))
          || (Get(w, "description").Str? && Includes(ToLower(Get(w, "description").s), ToLower(search))))
    ensures !Get(w, "name").Str? ==> r.Err?
    // the converse: the name is tried first, then a string description
    ensures Get(w, "name").Str? && Includes(ToLower(Get(w, "name").s), ToLower(search)) ==> r == Ok(true)
    ensures Get(w, "name").Str? && !Includes(ToLower(Get(w, "name").s), ToLower(search)) ==>
      var description := Get(w, "description");
      && (description.Str? ==> r == Ok(Includes(ToLower(description.s), ToLower(search))))
      && (description.Null? || description.Undef? ==> r == Ok(false))
      && (!description.Str? && !description.Null? && !description.Undef? ==> r.Err?)
  {
    var name := Get(w, "name");
    if !name.Str? then Err("w.name.toLowerCase is not a function")
    else if Includes(ToLower(name.s), ToLower(search)) then Ok(true)
    else
      var description := Get(w, "description");
      if description.Null? || description.Undef? then Ok(false)
      else if !description.Str? then Err("w.description?.toLowerCase is not a function")
      else Ok(Includes(ToLower(description.s), ToLower(search)))
  }

  /** `workflows.filter(w => !search || …)`: the first TypeError aborts the list. */
  function Search(ws: seq<Value>, search: string): (r: Result<seq<Value>, string>)
    ensures search == "" ==> r == Ok(ws)
    ensures r.Ok? ==> |r.value| <= |ws| && forall w :: w in r.value ==> w in ws
    ensures r.Ok? && search != "" ==> forall w :: w in r.value ==> SearchHit(w, search) == Ok(true)
    ensures r.Ok? && search != "" ==> forall w :: w in ws && SearchHit(w, search) == Ok(true) ==> w in r.value
    // the filter throws exactly when some workflow's test throws, with that test's error
    ensures search != "" ==> (r.Err? <==> exists w :: w in ws && SearchHit(w, search).Err?)
    ensures r.Err? ==> exists w :: w in ws && SearchHit(w, search) == Err(r.error)
    decreases |ws|
  {
    if search == "" || ws == [] then Ok(ws)
    else
      var hit := SearchHit(ws[0], search);
      if hit.Err? then Err(hit.error)
      else
        var rest := Search(ws[1..], search);
        if rest.Err? then rest
        else if hit.value then Ok([ws[0]] + rest.value)
        else Ok(rest.value)
  }

  /** A workflow whose name holds the term in another case is found. */
  lemma SearchIgnoresCase(ws: seq<Value>, w: Value, search: string)
    requires search != "" && Search(ws, search).Ok? && w in ws
    requires Get(w, "name").Str? && Includes(ToLower(Get(w, "name").s), ToLower(search))
    ensures w in Search(ws, search).value
  {
  }

  // ---------------------------------------------------------------------------
  // Sort

  /** `new Date(w.updated)` in milliseconds, through the supplied date parser. */
  function Updated(w: Value, dateOf: Value -> int): int {
    dateOf(Get(w, "updated"))
  }

  /** Newest first: `(a, b) => new Date(b.updated) - new Date(a.updated)`. */
  predicate NewestFirst(s: seq<Value>, dateOf: Value -> int) {
    forall i, j :: 0 <= i < j < |s| ==> Updated(s[i], dateOf) >= Updated(s[j], dateOf)
  }

  /**
   * `filtered.sort(...)`: an insertion sort that places each workflow after
   * every one at least as recent, so equally recent workflows keep their order.
   */
  method SortByUpdated(ws: seq<Value>, dateOf: Value -> int) returns (r: seq<Value>)
    ensures NewestFirst(r, dateOf)
    ensures multiset(r) == multiset(ws)
  {
    r := [];
    for i := 0 to |ws|
      invariant NewestFirst(r, dateOf)
      invariant multiset(r) == multiset(ws[..i])
    {
      var x := ws[i];
      var t := Updated(x, dateOf);
      var j := 0;
      while j < |r| && Updated(r[j], dateOf) >= t
        invariant 0 <= j <= |r|
        invariant forall k :: 0 <= k < j ==> Updated(r[k], dateOf) >= t
      {
        j := j + 1;
      }
      InsertKeepsOrder(r, j, x, dateOf);
      assert r == r[..j] + r[j..];
      r := r[..j] + [x] + r[j..];
      assert ws[..i + 1] == ws[..i] + [x];
    }
    assert ws[..|ws|] == ws;
  }

  /** Inserting x where the scan stopped keeps the sequence newest first. */
  lemma InsertKeepsOrder(r: seq<Value>, j: nat, x: Value, dateOf: Value -> int)
    requires NewestFirst(r, dateOf) && j <= |r|
    requires forall k :: 0 <= k < j ==> Updated(r[k], dateOf) >= Updated(x, dateOf)
    requires j < |r| ==> Updated(r[j], dateOf) < Updated(x, dateOf)
    ensures NewestFirst(r[..j] + [x] + r[j..], dateOf)
  {
    var s := r[..j] + [x] + r[j..];
    forall a, b | 0 <= a < b < |s| ensures Updated(s[a], dateOf) >= Updated(s[b], dateOf) {
      OrderedPair(r, j, x, dateOf, s, a, b);
    }
  }

  /** One pair of positions of the inserted sequence, by where they fall around x. */
  lemma OrderedPair(r: seq<Value>, j: nat, x: Value, dateOf: Value -> int, s: seq<Value>, a: nat, b: nat)
    requires NewestFirst(r, dateOf) && j <= |r|
    requires forall k :: 0 <= k < j ==> Updated(r[k], dateOf) >= Updated(x, dateOf)
    requires j < |r| ==> Updated(r[j], dateOf) < Updated(x, dateOf)
    requires s == r[..j] + [x] + r[j..]
    requires a < b < |s|
    ensures Updated(s[a], dateOf) >= Updated(s[b], dateOf)
  {
    if b < j {
      assert s[a] == r[a] && s[b] == r[b];
    } else if b == j {
      assert s[a] == r[a] && s[b] == x;
    } else if a == j {
      assert s[b] == r[b - 1] && s[a] == x;
      if b - 1 > j {
        assert Updated(r[j], dateOf) >= Updated(r[b - 1], dateOf);
      }
    } else if a < j {
      assert s[a] == r[a] && s[b] == r[b - 1];
    } else {
      assert s[a] == r[a - 1] && s[b] == r[b - 1];
    }
  }

  // ---------------------------------------------------------------------------
  // The page

  /** A `slice` bound: negative counts from the end, and both ends are clamped. */
  function SliceBound(i: int, len: nat): (b: nat)
    ensures b <= len
  {
    if i < 0 then (if len + i < 0 then 0 else len + i) else if i > len then len else i
  }

  /** `s.slice(start, end)` */
  function Slice<T>(s: seq<T>, start: int, end: int): (r: seq<T>)
    ensures 0 <= start <= end ==> |r| <= end - start
    ensures 0 <= start <= |s| && start <= end ==> r == s[start..SliceBound(end, |s|)]
  {
    var a := SliceBound(start, |s|);
    var b := SliceBound(end, |s|);
    if a < b then s[a..b] else []
  }

  /** `parseInt(v) || 0` for the execution counter read from Redis (null when absent). */
  function CounterValue(v: Value): int {
    var n := ParseInt(ToStr(v));
    if n.None? then 0 else n.value
  }

  /** A missing counter (GET answers null) counts 0, and a stored count reads back as itself. */
  lemma CounterValues(n: int)
    ensures CounterValue(Null) == 0
    ensures CounterValue(Str(IntToStr(n))) == n
  {
    ParseIntNaN("null");
    ParseIntOfIntToStr(n);
  }

  /** `{ ...workflow, metrics: { executions, activeUsers } }` */
  function WithMetrics(w: Value, executions: Value, activeUsers: int): (r: Value)
    ensures r.Obj? && r.fields.Keys == Spread(w).Keys + {"metrics"}
    ensures forall k :: k in Spread(w) && k != "metrics" ==> r.fields[k] == Spread(w)[k]
    ensures r.fields["metrics"] == Obj(map["executions" := Int(CounterValue(executions)), "activeUsers" := Int(activeUsers)])
  {
    Obj(Spread(w)["metrics" := Obj(map["executions" := Int(CounterValue(executions)), "activeUsers" := Int(activeUsers)])])
  }

  /** `Promise.all(keys.map(key => JSON.parse(get(key))))` */
  function Loaded(keys: seq<string>, load: string -> Value): (ws: seq<Value>)
    ensures |ws| == |keys| && forall i :: 0 <= i < |keys| ==> ws[i] == load(keys[i])
  {
    seq(|keys|, i requires 0 <= i < |keys| => load(keys[i]))
  }

  /** The list query after its defaults: `page = 1`, `limit = 20`, `search = ''`. */
  datatype ListQuery = ListQuery(page: Option<int>, limit: Option<int>, search: string)

  datatype ListPage = ListPage(workflows: seq<Value>, total: int, page: int, limit: int)

  /**
   * The comparator of `filtered.sort` reads `.updated` of both documents,
   * and every document is compared once there are two: a null document
   * then throws.
   */
  predicate SortThrows(ws: seq<Value>) {
    |ws| >= 2 && Null in ws
  }

  /** `filtered.slice(offset, offset + limit)` with the query's defaults. */
  function PageCut(ordered: seq<Value>, q: ListQuery): seq<Value> {
    var page := q.page.GetOr(1);
    var limit := q.limit.GetOr(20);
    var offset := (page - 1) * limit;
    Slice(ordered, offset, offset + limit)
  }

  /**
   * `GET /`: keep the workflow keys, load them, search, sort newest first,
   * and answer one page with metrics. `ordered` is the sorted list the page
   * is cut from; Err is the 500 answer, given for a TypeError of the
   * search, of the sort, or of `workflow.id` on a null document of the page.
   * `JSON.parse` never yields undefined, so no loaded document is.
   */
  method ListWorkflows(keys: seq<string>, load: string -> Value, q: ListQuery, dateOf: Value -> int,
                       executionsOf: Value -> Value, activeUsersOf: Value -> int)
    returns (r: Result<ListPage, string>, ordered: seq<Value>)
    requires forall i :: 0 <= i < |keys| ==> load(keys[i]) != Undef
    ensures r.Err? ==> r.error == "Failed to fetch workflows"
    ensures var found := Search(Loaded(Filter(keys, IsWorkflowKey), load), q.search);
      && (found.Err? || SortThrows(found.value) ==> r.Err?)
      && (found.Ok? && !SortThrows(found.value) ==>
            && multiset(ordered) == multiset(found.value)
            && NewestFirst(ordered, dateOf)
            && (r.Err? <==> Null in PageCut(ordered, q)))
    ensures r.Ok? ==>
      var cut := PageCut(ordered, q);
      && NewestFirst(ordered, dateOf)
      && r.value.total == |ordered|
      && r.value.page == q.page.GetOr(1) && r.value.limit == q.limit.GetOr(20)
      && |r.value.workflows| == |cut|
      && forall i :: 0 <= i < |cut| ==>
           r.value.workflows[i] == WithMetrics(cut[i], executionsOf(Get(cut[i], "id")), activeUsersOf(Get(cut[i], "id")))
  {
    var workflowKeys := Filter(keys, IsWorkflowKey);
    var ws := Loaded(workflowKeys, load);
    var filtered := Search(ws, q.search);
    if filtered.Err? || SortThrows(filtered.value) {
      return Err("Failed to fetch workflows"), [];
    }
    ordered := SortByUpdated(filtered.value, dateOf);
    var cut := PageCut(ordered, q);
    if Null in cut {
      return Err("Failed to fetch workflows"), ordered;
    }
    var out := AllWithMetrics(cut, executionsOf, activeUsersOf);
    SameLength(ordered, filtered.value);
    r := Ok(ListPage(out, |ordered|, q.page.GetOr(1), q.limit.GetOr(20)));
  }

  /** The `map` over the page adding each workflow's metrics. */
  function AllWithMetrics(cut: seq<Value>, executionsOf: Value -> Value, activeUsersOf: Value -> int): (out: seq<Value>)
    ensures |out| == |cut|
    ensures forall i :: 0 <= i < |cut| ==>
      out[i] == WithMetrics(cut[i], executionsOf(Get(cut[i], "id")), activeUsersOf(Get(cut[i], "id")))
  {
    seq(|cut|, i requires 0 <= i < |cut| =>
      WithMetrics(cut[i], executionsOf(Get(cut[i], "id")), activeUsersOf(Get(cut[i], "id"))))
  }

  lemma SameLength(a: seq<Value>, b: seq<Value>)
    requires multiset(a) == multiset(b)
    ensures |a| == |b|
  {
    assert |multiset(a)| == |multiset(b)|;
  }

  /** Page p of size n holds the workflows at positions (p-1)·n up to p·n of the sorted list. */
  lemma PageWindow(ordered: seq<Value>, page: int, limit: int)
    requires page >= 1 && limit >= 0
    ensures var offset := (page - 1) * limit;
      offset <= |ordered| ==>
        Slice(ordered, offset, offset + limit) == ordered[offset..if offset + limit <= |ordered| then offset + limit else |ordered|]
    ensures (page - 1) * limit >= |ordered| ==> Slice(ordered, (page - 1) * limit, (page - 1) * limit + limit) == []
  {
    var offset := (page - 1) * limit;
    assert offset >= 0 by {
      assert page - 1 >= 0;
    }
  }

  /** Page 0 asks for a negative start, which counts from the end: it is always empty. */
  lemma PageZeroEmpty(ordered: seq<Value>, limit: int)
    requires limit >= 0
    ensures Slice(ordered, (0 - 1) * limit, (0 - 1) * limit + limit) == []
  {
  }

  // ---------------------------------------------------------------------------
  // Create, update, clone

  /** The settings every created workflow starts with. */
  const DefaultSettings := Obj(map["gridSize" := Int(20), "snapToGrid" := Bool(true), "theme" := Str("light")])

  /**
   * `POST /` after the middleware: a workflow with a fresh id, the name,
   * the description or '', the nodes and connections or [], the default
   * settings, both dates now and version 1.
   */
  function CreateWorkflow(body: Value, id: string, now: string): (r: Response)
    ensures (body.Null? || body.Undef?) ==> r == Response(500, ErrorBody("Failed to create workflow"))
    ensures !body.Null? && !body.Undef? && !Truthy(Get(body, "name")) ==>
      r == Response(400, ErrorBody("Workflow name is required"))
    ensures r.status == 201 <==> !body.Null? && !body.Undef? && Truthy(Get(body, "name"))
    ensures r.status == 201 ==>
      && r.body.Obj?
      && r.body.fields.Keys == {"id", "name", "description", "nodes", "connections", "settings", "created", "updated", "version"}
      && r.body.fields["id"] == Str(id) && r.body.fields["name"] == Get(body, "name")
      && r.body.fields["description"] == Or(Get(body, "description"), Str(""))
      && r.body.fields["nodes"] == Default(Get(body, "nodes"), Arr([]))
      && r.body.fields["connections"] == Default(Get(body, "connections"), Arr([]))
      && r.body.fields["settings"] == DefaultSettings
      && r.body.fields["created"] == Str(now) && r.body.fields["updated"] == Str(now)
      && r.body.fields["version"] == Int(1)
  {
    if body.Null? || body.Undef? then Response(500, ErrorBody("Failed to create workflow"))
    else if !Truthy(Get(body, "name")) then Response(400, ErrorBody("Workflow name is required"))
    else
      Response(201, Obj(map["id" := Str(id), "name" := Get(body, "name"),
                            "description" := Or(Get(body, "description"), Str("")),
                            "nodes" := Default(Get(body, "nodes"), Arr([])),
                            "connections" := Default(Get(body, "connections"), Arr([])),
                            "settings" := DefaultSettings, "created" := Str(now), "updated" := Str(now),
                            "version" := Int(1)]))
  }

  /** A name and nothing else makes an empty workflow with an empty description. */
  lemma CreateDefaults(name: string, id: string, now: string)
    requires name != ""
    ensures var r := CreateWorkflow(Obj(map["name" := Str(name)]), id, now);
      r.status == 201 && r.body.fields["description"] == Str("") && r.body.fields["nodes"] == Arr([])
      && r.body.fields["connections"] == Arr([])
  {
  }

  /**
   * `workflow.version + 1`. A number increments; a string gets "1"
   * appended; null and false count as 0, true as 1; an object or array is
   * converted to text; undefined gives NaN, which JSON writes as null.
   */
  function NextVersion(v: Value): (r: Value)
    ensures v.Int? ==> r == Int(v.i + 1)
    ensures v.Str? ==> r == Str(v.s + "1")
    ensures v.Undef? ==> r == Null
  {
    match v
    case Int(i) => Int(i + 1)
    case Null => Int(1)
    case Bool(b) => Int(if b then 2 else 1)
    case Str(s) => Str(s + "1")
    case Undef => Null
    case _ => Str(ToStr(v) + "1")
  }

  /** `{ ...workflow, ...updates, id, created, updated: now, version: version + 1 }` */
  function Merged(workflow: Value, updates: Value, now: string): (r: Value)
    ensures r.Obj?
    ensures r.fields.Keys == Spread(workflow).Keys + Spread(updates).Keys + {"id", "created", "updated", "version"}
    ensures r.fields["id"] == Get(workflow, "id") && r.fields["created"] == Get(workflow, "created")
    ensures r.fields["updated"] == Str(now) && r.fields["version"] == NextVersion(Get(workflow, "version"))
    ensures forall k :: k in Spread(updates) && k !in {"id", "created", "updated", "version"} ==>
      r.fields[k] == Spread(updates)[k]
    ensures forall k :: k in Spread(workflow) && k !in Spread(updates) && k !in {"id", "created", "updated", "version"} ==>
      r.fields[k] == Spread(workflow)[k]
  {
    Obj((Spread(workflow) + Spread(updates))["id" := Get(workflow, "id")]["created" := Get(workflow, "created")]
        ["updated" := Str(now)]["version" := NextVersion(Get(workflow, "version"))])
  }

  /**
   * `PUT /:id`. `stored` is the document written back. Listing the changed
   * keys for the event fails on a null or undefined body after the write,
   * so that request is stored and still answered 500.
   */
  function UpdateWorkflow(existing: Option<Value>, updates: Value, now: string): (r: (Response, Option<Value>))
    ensures existing.None? ==> r == (Response(404, ErrorBody("Workflow not found")), None)
    ensures existing.Some? && (existing.value.Null? || existing.value.Undef?) ==>
      r == (Response(500, ErrorBody("Failed to update workflow")), None)
    ensures r.1.Some? <==> existing.Some? && !existing.value.Null? && !existing.value.Undef?
    ensures r.1.Some? ==> r.1.value == Merged(existing.value, updates, now)
    ensures r.1.Some? ==> (r.0.status == 200 <==> !updates.Null? && !updates.Undef?)
    ensures r.0.status == 200 ==> r.0.body == r.1.value
  {
    if existing.None? then (Response(404, ErrorBody("Workflow not found")), None)
    else if existing.value.Null? || existing.value.Undef? then (Response(500, ErrorBody("Failed to update workflow")), None)
    else
      var updated := Merged(existing.value, updates, now);
      if updates.Null? || updates.Undef? then (Response(500, ErrorBody("Failed to update workflow")), Some(updated))
      else (Response(200, updated), Some(updated))
  }

  /** An update cannot move a workflow to another id or change when it was created. */
  lemma UpdateKeepsIdentity(workflow: Value, updates: Value, now: string)
    requires workflow.Obj? && "id" in workflow.fields && "created" in workflow.fields
    ensures var r := UpdateWorkflow(Some(workflow), updates, now);
      r.1.Some? && r.1.value.fields["id"] == workflow.fields["id"]
      && r.1.value.fields["created"] == workflow.fields["created"]
  {
  }

  /** Successive updates of a numbered workflow count up by one each. */
  lemma UpdateCountsVersions(workflow: Value, u1: Value, u2: Value, t1: string, t2: string)
    requires workflow.Obj? && Get(workflow, "version").Int?
    ensures Get(Merged(Merged(workflow, u1, t1), u2, t2), "version") == Int(Get(workflow, "version").i + 2)
  {
  }

  /**
   * `POST /:id/clone`: every field copied, a fresh id, the given name or
   * "<name> (Copy)", both dates now and version 1.
   */
  function CloneWorkflow(original: Option<Value>, body: Value, id: string, now: string): (r: Response)
    ensures body.Null? || body.Undef? ==> r == Response(500, ErrorBody("Failed to clone workflow"))
    ensures !body.Null? && !body.Undef? && original.None? ==> r == Response(404, ErrorBody("Workflow not found"))
    // a stored null (or undefined) has no `name` to copy from, so only a given name saves it
    ensures !body.Null? && !body.Undef? && original.Some? ==>
      && (r.status == 201 <==> Truthy(Get(body, "name")) || !(original.value.Null? || original.value.Undef?))
      && (r.status != 201 ==> r == Response(500, ErrorBody("Failed to clone workflow")))
    ensures r.status == 201 ==>
      var w := original.value;
      && r.body.Obj?
      && r.body.fields.Keys == Spread(w).Keys + {"id", "name", "created", "updated", "version"}
      && r.body.fields["id"] == Str(id) && r.body.fields["version"] == Int(1)
      && r.body.fields["created"] == Str(now) && r.body.fields["updated"] == Str(now)
      && r.body.fields["name"] == Or(Get(body, "name"), Str(ToStr(Get(w, "name")) + " (Copy)"))
      && forall k :: k in Spread(w) && k !in {"id", "name", "created", "updated", "version"} ==>
           r.body.fields[k] == Spread(w)[k]
  {
    if body.Null? || body.Undef? then Response(500, ErrorBody("Failed to clone workflow"))
    else if original.None? then Response(404, ErrorBody("Workflow not found"))
    else
      var w := original.value;
      var name := Get(body, "name");
      if !Truthy(name) && (w.Null? || w.Undef?) then Response(500, ErrorBody("Failed to clone workflow"))
      else
        var newName := Or(name, Str(ToStr(Get(w, "name")) + " (Copy)"));
        Response(201, Obj(Spread(w)["id" := Str(id)]["name" := newName]["created" := Str(now)]
                             ["updated" := Str(now)]["version" := Int(1)]))
  }

  /** Without a name in the body the clone is called "<name> (Copy)". */
  lemma CloneDefaultName(name: string, id: string, now: string)
    ensures var r := CloneWorkflow(Some(Obj(map["name" := Str(name)])), Obj(map[]), id, now);
      r.status == 201 && r.body.fields["name"] == Str(name + " (Copy)")
  {
  }
}
