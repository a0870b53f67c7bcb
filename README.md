# redisflow core, modelled in Dafny

redisflow is a workflow editor and runner. A workflow is a list of nodes
(condition, redisSet, redisGet, logger, transform, delay, httpRequest) and a
list of connections between node ids. This project models four parts of it.

**The execution coordinator.**
- `buildExecutionOrder` linearises the graph. Both copies of it
  (backend/src/workflow/engine.js and backend/src/api/routes/execution.js)
  have the same text and share one model.
- `findDownstreamNodes` computes the nodes a failed condition skips.
- Two per-node loops are modelled over one graph model and one event log:
  - the worker's loop, with skip marks and a fallback executor;
  - `executeWorkflowSync`, with neither.

  Each loop is an imperative method proved equal to a fold of a one-node
  step function. The properties of the coordinator are lemmas about those
  folds.

**The node executors.**
- the condition operator table and its `{{path}}` resolution;
- the three template resolvers;
- the delay conversion and its cap;
- the redisSet value choice and encodings, and the redisGet decoding rules,
  both run against an in-memory Redis store;
- the logger's entry, summary and message;
- the transform helpers `get` and `set`;
- the HTTP request building and the classification of answers.

**The document operations.**
- the editor store's `applyWorkflowChange` and its presence handlers;
- the store's create, update and delete bookkeeping;
- the request middleware;
- the list, create, update and clone routes.

JavaScript values are the datatype `JsValue.Value`: undefined, null,
booleans, integers, strings, arrays and objects. Objects are maps. The
module also holds the JavaScript operations the code relies on:
- truthiness, `||` and defaulting;
- `String(...)` and `parseInt`;
- property reads and object spread;
- `trim`, `split`, `join`, `includes` and ASCII case mapping.

Calls into code that is not visible are function parameters:
- `JSON.parse` and `JSON.stringify`;
- the sandboxed scripts;
- axios;
- clocks and ISO/locale time strings.

Where the code and its documentation disagree, the model follows the code:
- **Null in the logger.** The logger's `processTemplatePath` writes a path that
  resolves to null as `JSON.stringify(null)`. Only undefined keeps the
  placeholder verbatim (`Logger.NullAndUndefined`).
- **Missing connections in the worker.** The worker reads `workflow.connections`
  without a default. A stored workflow without `connections` therefore fails
  with a TypeError as soon as it has a node (`Engine.AsyncRun`). The
  synchronous path reads it as `[]` (`EngineProps.SyncMissingConnections`).
- **Unknown node types in the synchronous path.** The "No executor found"
  error is thrown inside the per-node `try`. It is therefore handled like any
  executor failure: `node_error` is logged, then `continueOnError` applies
  (`EngineProps.SyncUnknownTypeThrows`).
- **A condition that returns null or undefined.** In the worker,
  `result.success` then throws, and the node goes through the
  `node_error` path (`Engine.ExecuteNodeAsync`).
- **The upstream-condition guard.** The worker's per-node check for a failed
  upstream condition (engine.js:118-152) never fires. Any node below a
  failed condition has already been given a skip mark
  (`EngineProps.GuardNeverFires`).
- **The walk order.** It is pre-order, not the post-order its comment
  names: `Graph.BuildExecutionOrder` is exactly the depth-first order
  `Graph.DepthFirstOrder`, which records each id before visiting its
  successors in connection order.

## Model

| member | source | states |
|---|---|---|
| Graph.Ids | backend/src/workflow/engine.js:71 | the id list has one entry per node, in node order |
| Graph.StartIds | backend/src/workflow/engine.js:336-338 | an id is a start id exactly when it is a node id that no connection targets |
| Graph.Succs | backend/src/workflow/engine.js:350-352 | the successors listed are exactly the targets of connections leaving the node |
| Graph.Preds | backend/src/workflow/engine.js:94-96 | the predecessors listed are exactly the sources of connections entering the node |
| Graph.NodeMap | backend/src/workflow/engine.js:71 | the map's keys are the node ids, and each id maps to a node of the list carrying that id |
| Graph.NodeMapUnique | backend/src/workflow/engine.js:71 | with duplicate-free ids, every node is what the map returns for its id |
| Graph.Unvisited | backend/src/workflow/engine.js:364-368 | the appended ids are exactly the node ids not visited by the walk |
| Graph.SuccsInTargets | backend/src/workflow/engine.js:350-352 | every successor ends some connection, so the walk stays among known ids |
| Graph.Dfs | backend/src/workflow/engine.js:346-358 | the depth-first visit only adds marks, and only ids of the universe |
| Graph.DfsAll | backend/src/workflow/engine.js:358 | visiting a list of ids in turn only adds marks, and only ids of the universe |
| Graph.DfsShape | backend/src/workflow/engine.js:346-358 | one visit keeps the old order as a prefix, appends only newly marked ids with the visited id first and each later one behind an id that connects to it, keeps the order duplicate-free, and marks every successor of a newly marked id |
| Graph.DfsAllShape | backend/src/workflow/engine.js:358 | visiting the successors of an id in turn marks them all and keeps every appended id behind an id that connects to it |
| Graph.WalkShape | backend/src/workflow/engine.js:361 | the walk over the start ids is a duplicate-free pre-order whose ids are exactly the marks, closed under successors, and begins with the first unmarked start id |
| Graph.Visit | backend/src/workflow/engine.js:346-358 | `visit` returns exactly the marks and order of the depth-first function `Dfs`: nothing for a marked id, otherwise the id, then its successors visited in connection order |
| Graph.WalkFromStarts | backend/src/workflow/engine.js:361 | the loop over the start nodes returns exactly `DfsAll` over the start ids in node order, from no marks and an empty order |
| Graph.WalkCoversReached | backend/src/workflow/engine.js:346-361 | the walk visits exactly the ids reachable from a start node |
| Graph.AppendUnvisited | backend/src/workflow/engine.js:364-368 | the unreached node ids are appended in node order |
| Graph.StartsInUniverse | backend/src/workflow/engine.js:336-338 | the start ids are ids of the universe the walk is bounded by |
| Graph.DepthFirstOrderShape | backend/src/workflow/engine.js:330-371 | the depth-first order is a pre-order from the first start id over exactly the ids reachable from a start node, then the unreached node ids in node order; it names every node id, only known ids, and no id twice when the node ids are distinct |
| Graph.BuildExecutionOrder | backend/src/workflow/engine.js:330-371 | the order is exactly `DepthFirstOrder`: the node ids as given with no start node, otherwise the depth-first walk from the start ids followed by the unvisited node ids in node order; hence it has the shape `ExecutionOrder` describes, names every node id and only known ids, and is duplicate-free when the node ids are |
| Graph.FindDownstreamNodes | backend/src/workflow/engine.js:374-395 | the result is duplicate-free, its elements are exactly the ids reachable by one or more connections, and it holds the start node exactly when that node lies on a cycle |
| Engine.SkipMark | backend/src/workflow/engine.js:210-214 | a skip mark reads as skipped and never as a failed condition |
| Engine.ErrorOutput | backend/src/workflow/engine.js:246 | the `{error}` output of a continued failure is neither skipped nor failed-shaped |
| Engine.Fallback | backend/src/workflow/engine.js:37-46 | the fallback output carries the "No executor implemented" warning, the node type and the inputs, and never reads as a failed condition |
| Engine.CombineInputs | backend/src/workflow/engine.js:99-116 | a node's inputs are the run inputs with no predecessor, the single predecessor's output or `{}` with one, and otherwise an object from each predecessor with a truthy output to that output |
| Engine.FirstFailedCondition | backend/src/workflow/engine.js:119-149 | None exactly when no predecessor is a condition node with a failed result; otherwise it names such a predecessor |
| Engine.UpstreamGuard | backend/src/workflow/engine.js:119-149 | the guard loop stops at the first failed condition predecessor |
| Engine.MarkSkipped | backend/src/workflow/engine.js:208-215 | every downstream id gets the skip mark naming the condition node, and other entries are kept |
| Engine.NodeFailure | backend/src/workflow/engine.js:234-250 | `node_error` is appended; with `continueOnError` the output becomes `{error: message}` and the run goes on, otherwise the run ends with that error and the outputs unchanged |
| Engine.ExecuteNodeAsync | backend/src/workflow/engine.js:78-250 | one iteration of the worker's loop: a skipped node logs `node_skipped`; otherwise the executor runs and its output is stored and logged, a failed condition marks its downstream ids, and a throw goes to the catch block |
| Engine.RunNodeAsync | backend/src/workflow/engine.js:174-250 | the `try`/`catch` around one executor call gives the step the loop specifies: `node_start` is logged, a throw becomes `node_error` (an error output or the end of the run), and a returned value is recorded |
| Engine.RecordAsync | backend/src/workflow/engine.js:193-223 | a returned value is stored under the node's id; a condition returning null or undefined fails on reading `success`; a condition that failed marks its downstream ids and logs the stop message; any other value logs `Completed node` |
| Engine.SkipDownstream | backend/src/workflow/engine.js:207-215 | afterwards every id downstream of the condition carries the skip mark naming it, and every other entry is unchanged |
| Engine.ExecuteNodeSync | backend/src/api/routes/execution.js:277-376 | one iteration of the synchronous loop: the node is started, its executor runs, or "No executor found" is thrown, and the catch block applies |
| Engine.AbortStops | backend/src/workflow/engine.js:248 | after an uncaught error the worker visits no later node |
| Engine.SyncAbortStops | backend/src/api/routes/execution.js:374 | after an uncaught error the synchronous loop visits no later node |
| Engine.LoopAsync | backend/src/workflow/engine.js:78-251 | the worker's loop computes the fold of the one-node step over the order |
| Engine.LoopSync | backend/src/api/routes/execution.js:277-377 | the synchronous loop computes the fold of its one-node step over the order |
| Engine.RunAsync | backend/src/workflow/engine.js:49-287 | the worker's job folds its one-node step over the order that `buildExecutionOrder` returns (exactly `DepthFirstOrder`), then appends `execution_complete` or `execution_failed`; a workflow without `connections` but with nodes fails before any node runs; the order names only known ids and is duplicate-free when the node ids are |
| Engine.RunSync | backend/src/api/routes/execution.js:255-411 | `executeWorkflowSync` folds its one-node step over the order that `buildExecutionOrder` returns for `connections \|\| []` (exactly `DepthFirstOrder`); the order names only known ids and is duplicate-free when the node ids are |
| EngineProps.SkippedNodeNotRun | backend/src/workflow/engine.js:83-91 | a node already marked skipped gets exactly one `node_skipped` event, keeps its output, and the executor is never consulted |
| EngineProps.ConditionFalseMarksDownstream | backend/src/workflow/engine.js:196-215 | a condition node whose result has `success` and `passed` false logs `node_start` and `node_complete`, then every downstream id gets the skip mark naming it, whatever it held before |
| EngineProps.ExecutorThrows | backend/src/workflow/engine.js:234-250 | when the executor throws, `node_error` directly follows `node_start`; `continueOnError` decides between `{error}` and ending the run |
| EngineProps.UnknownTypeFallback | backend/src/workflow/engine.js:184 | a node type without an executor completes with the fallback warning payload |
| EngineProps.AsyncStartPrecedes | backend/src/workflow/engine.js:176-242 | in the worker's log every `node_complete` or `node_error` directly follows the `node_start` of the same node |
| EngineProps.SyncStartPrecedesNoSkip | backend/src/api/routes/execution.js:326-376 | the same holds for the synchronous log, which never contains `node_skipped` |
| EngineProps.GuardSilent | backend/src/workflow/engine.js:119-152 | while every id below a failed condition carries a skip mark, the guard finds nothing for an unskipped node |
| EngineProps.VisitKeepsGuardInv | backend/src/workflow/engine.js:194-215 | one worker step keeps "every id below a failed condition carries a skip mark" |
| EngineProps.FoldKeepsGuardInv | backend/src/workflow/engine.js:78-251 | the whole loop keeps that invariant |
| EngineProps.GuardNeverFires | backend/src/workflow/engine.js:118-152 | whenever the worker reaches an unskipped node, no predecessor is a failed condition, so the guard's skip branch is dead code |
| EngineProps.SyncUnknownTypeThrows | backend/src/api/routes/execution.js:336-339 | without an executor the synchronous path throws "No executor found for node type: …", and the per-node catch block handles it |
| EngineProps.SyncStartsEveryNode | backend/src/api/routes/execution.js:277-377 | until an uncaught error, the synchronous path logs `node_start` for every known id of the order, whatever the condition results |
| EngineProps.SyncMissingConnections | backend/src/api/routes/execution.js:274-284 | a missing `connections` behaves as `[]` for the synchronous path; for the worker it is a TypeError once there is a node |
| EngineProps.AsyncAgreesWithSync | backend/src/workflow/engine.js:78-251 | over a duplicate-free order, with an executor for every type and no condition returning null or a failed result, the worker and `executeWorkflowSync` give the same outputs, log and outcome |
| ExecutionApi.StartExecution | backend/src/api/routes/execution.js:19-101 | POST `/`: 400 without a workflow id and 404 for an unknown one, both before any record is written; a pending record otherwise; the mode defaults to async, and async queues the job with the parsed workflow; sync answers 200 with the outputs of a completed run and 500 for a failed one |
| ExecutionApi.PairFields | backend/src/api/routes/execution.js:121-125 | each key at an even position gets the string after it (undefined after a trailing key), the keys are exactly those at even positions, and a later repetition wins |
| ExecutionApi.LogEntry | backend/src/api/routes/execution.js:126-130 | the entry holds `id`, the paired fields and `timestamp`; a paired `id` overrides the entry id; `timestamp` is `parseInt` of the stored text |
| ExecutionApi.FormatLogEntry | backend/src/api/routes/execution.js:121-131 | one formatted log entry is exactly `LogEntry` of the entry id and the paired fields: `id` is the entry id unless a field `id` is paired, every last occurrence of another key keeps its paired value, `timestamp` is `parseInt` of the paired text or null, and no other keys appear |
| ExecutionApi.TimestampRoundTrip | backend/src/api/routes/execution.js:129 | a timestamp stored as the decimal text of a number comes back as that number |
| JsValue.ParseIntOfIntToStr | backend/src/api/routes/execution.js:129 | `parseInt(String(n))` is n for every integer n |
| JsValue.Utf16Length | backend/src/middleware/security.js:85 | `length` counts UTF-16 code units: at least one and at most two per character |
| JsValue.Utf16Append | backend/src/middleware/security.js:85 | the code-unit length of a concatenation is the sum of the lengths |
| JsValue.Utf16Bmp | backend/src/middleware/security.js:85 | without characters above U+FFFF the code-unit length is the character count |
| JsValue.Utf16Astral | backend/src/middleware/security.js:85 | k characters above U+FFFF are 2k code units |
| Paths.Segments | backend/src/workflow/nodes/conditionExecutor.js:223 | `split('.')` always yields at least one segment |
| Paths.WalkAppend | backend/src/workflow/nodes/conditionExecutor.js:226-232 | walking a concatenated path is walking the first part, then the second; a failed prefix fails the whole path |
| Paths.WalkOwnKey | backend/src/workflow/nodes/conditionExecutor.js:227-228 | an object's own key is found by a one-segment walk |
| Paths.Follow | backend/src/workflow/nodes/transformExecutor.js:45-56 | the path loop returns the value at the end of the path, or the fallback as soon as a step is impossible |
| Paths.GetValueByPath | backend/src/workflow/nodes/conditionExecutor.js:222-235 | `getValueByPath` is undefined as soon as a segment is missing or an intermediate value is not an object |
| Template.ReplaceKeepsUnresolved | backend/src/workflow/nodes/redisSetExecutor.js:151-168 | when the callback resolves nothing, every placeholder stays verbatim |
| Template.ReplaceWithoutOpen | backend/src/workflow/nodes/redisSetExecutor.js:151 | text without an opening pair is returned unchanged |
| Template.WholePlaceholder | backend/src/workflow/nodes/redisSetExecutor.js:151-168 | text that is exactly one placeholder becomes the callback's answer, or stays verbatim when it has none |
| Template.Inner | backend/src/workflow/nodes/redisSetExecutor.js:151 | a text recognised as one placeholder is the opening pair, a non-empty path without `}`, and the closing braces |
| Template.WholeText | backend/src/workflow/nodes/redisSetExecutor.js:151-168 | such a text is replaced by the callback's answer for its path, or stays verbatim |
| Template.ReplaceTemplateVariables | backend/src/workflow/nodes/redisSetExecutor.js:148-169 | non-strings and the empty string are returned unchanged; a string stays a string; a text that is one `{{path}}` becomes `String(value)` of the value at the path in `{...inputs, ...variables}`, and stays verbatim when the path cannot be walked |
| Template.TemplateKeepsUnresolved | backend/src/workflow/nodes/delayExecutor.js:79-100 | placeholders whose path cannot be walked in `{...inputs, ...variables}` survive verbatim |
| Template.ResolversDiffer | backend/src/workflow/nodes/conditionExecutor.js:212-215 | the node resolver and the condition resolver agree except on a path that ends at an undefined value, which the first writes as "undefined" and the second keeps verbatim |
| Template.ResolversDifferExample | backend/src/workflow/nodes/httpRequestExecutor.js:81-99 | `{x: undefined}` gives "undefined" in the node resolver and the placeholder in the condition resolver |
| Condition.ErrorResult | backend/src/workflow/nodes/conditionExecutor.js:187-198 | the error result has `error: true` and never looks like a failed condition |
| Condition.Evaluate | backend/src/workflow/nodes/conditionExecutor.js:3-200 | there is no result exactly for a comparison outside the model; otherwise the result is an object that reads as a failed condition exactly when the inputs are present and the judgement is false; `success`, `passed` and `result` all equal the judgement; `data` is `inputs.data \|\| inputs` |
| Condition.PassResult | backend/src/workflow/nodes/conditionExecutor.js:161-184 | `success`, `passed` and `result` all equal the outcome, `data` is the passed-through data, and the object reads as a failed condition exactly when the outcome is false |
| Condition.NotContainsNegates | backend/src/workflow/nodes/conditionExecutor.js:99-104 | `notContains` is the exact negation of `contains` |
| Condition.NotExistsNegates | backend/src/workflow/nodes/conditionExecutor.js:136-141 | `notExists` is the exact negation of `exists` |
| Condition.NotEmptyNegates | backend/src/workflow/nodes/conditionExecutor.js:142-151 | `notEmpty` is the exact negation of `empty` |
| Condition.NegatedEqualities | backend/src/workflow/nodes/conditionExecutor.js:67-82 | `notEquals`, `!==` and `notIn` are the negations of `equals`, `===` and `in` |
| Condition.MembershipNeedsArray | backend/src/workflow/nodes/conditionExecutor.js:120-135 | with a right operand that is not an array, `in` is false and `notIn` is true |
| Condition.PrefixAndSuffix | backend/src/workflow/nodes/conditionExecutor.js:105-110 | on strings `startsWith` is true exactly when the left side is the right side followed by something, `endsWith` exactly when it is something followed by the right side, and both are false otherwise |
| Condition.StartsWithSplit | backend/src/workflow/nodes/conditionExecutor.js:105-107 | `s.startsWith(p)` holds exactly when s is p followed by some string |
| Condition.EndsWithSplit | backend/src/workflow/nodes/conditionExecutor.js:108-110 | `s.endsWith(p)` holds exactly when s is some string followed by p |
| Condition.StrLessAsymmetric | backend/src/workflow/nodes/conditionExecutor.js:91-94 | string order is irreflexive and asymmetric |
| Condition.OrderOperators | backend/src/workflow/nodes/conditionExecutor.js:67-98 | on two numbers or two strings `>` and `<=` are complementary, `>` excludes `<`, and `==` agrees with `===` |
| Condition.UnknownOperatorNeverSkips | backend/src/workflow/nodes/conditionExecutor.js:152-198 | an unknown operator, including `custom` without an expression, gives the error result, which never triggers a skip |
| Condition.CustomIsNotAComparison | backend/src/workflow/nodes/conditionExecutor.js:152-153 | `custom` is not in the operator table |
| Condition.WholePlaceholderValue | backend/src/workflow/nodes/conditionExecutor.js:206-209 | a value that is wholly `{{path}}` resolves to the raw value at the trimmed path |
| Condition.VariablesWin | backend/src/workflow/nodes/conditionExecutor.js:208 | in `{...inputs, ...variables}` a variable shadows an input of the same name |
| Delay.Requested | backend/src/workflow/nodes/delayExecutor.js:10 | `parseInt(delay) \|\| 1000` is never zero |
| Delay.UnitFactor | backend/src/workflow/nodes/delayExecutor.js:12-26 | every unit factor is positive |
| Delay.ComputeDelay | backend/src/workflow/nodes/delayExecutor.js:10-33 | the delay never exceeds 300000 ms and is never zero; the warning is logged exactly when capping happens; below the cap the scaled value passes unchanged |
| Delay.RequestedNumber | backend/src/workflow/nodes/delayExecutor.js:10 | a non-zero number is taken as it is |
| Delay.RequestedFallback | backend/src/workflow/nodes/delayExecutor.js:2-10 | zero, text that does not start with a number, and a missing delay all mean 1000 ms |
| Delay.CapBoundary | backend/src/workflow/nodes/delayExecutor.js:16-33 | five minutes is not capped; six minutes and 300001 ms are |
| Delay.PassThrough | backend/src/workflow/nodes/delayExecutor.js:52-62 | the result has the input keys plus `delay`, which replaces any input `delay`; other input keys are kept |
| Delay.Execute | backend/src/workflow/nodes/delayExecutor.js:1-63 | the result is the inputs plus a `delay` record holding the capped wait, unit, clock readings and templated message; the warning flag is the capping condition |
| Delay.ResultShape | backend/src/workflow/nodes/delayExecutor.js:52-62 | every result keeps each input key but `delay`, and its requested wait is non-zero and at most the cap |
| HttpRequest.BuildRequest | backend/src/workflow/nodes/httpRequestExecutor.js:4-27 | the method defaults to GET and the timeout to 30000; the headers are the default content type overlaid by the user's; `data` is present exactly under the body rule; a string body is decoded, and a decode failure is the error |
| HttpRequest.FailureResult | backend/src/workflow/nodes/httpRequestExecutor.js:49-73 | a rejection with a response gives `{error, status, statusText, data, message}`; one with only a request gives "No response received from server"; anything else gives "Request setup failed" |
| HttpRequest.ResponseResult | backend/src/workflow/nodes/httpRequestExecutor.js:37-42 | `success` is true exactly when 200 <= status < 300; the data is the response's |
| HttpRequest.Execute | backend/src/workflow/nodes/httpRequestExecutor.js:3-75 | a request that is built is sent once, with the defaulted method and timeout, the templated URL, the merged headers and the body under the body rule; the result is the response result or the failure result of what came back |
| HttpRequest.ContentTypeDefault | backend/src/workflow/nodes/httpRequestExecutor.js:17-20 | a user `Content-Type` wins; without one, JSON is announced; every user header is kept |
| HttpRequest.BodyRule | backend/src/workflow/nodes/httpRequestExecutor.js:25 | a truthy body is attached for post, Patch and PUT in any case, and never for GET, delete or head |
| HttpRequest.FalsyBodyNotSent | backend/src/workflow/nodes/httpRequestExecutor.js:25 | a falsy body is never attached |
| Transform.HelperGet | backend/src/workflow/nodes/transformExecutor.js:45-56 | `get` returns the value at the path, or the default (null unless given) when a segment is missing or an intermediate is not an object |
| Transform.SetPath | backend/src/workflow/nodes/transformExecutor.js:59-73 | on an object, `set` steps into each entry of object type on the path and replaces any other (or a missing one) with `{}`; it succeeds exactly when every container met is an object (`Blocker`), then the value is at the path (`Transform.WalkAfterSet`), top-level keys other than the first segment are unchanged, and deeper paths off the path are unchanged (`Transform.WalkOffPath`); the first null met throws, the first array met is not modelled, and a null or undefined start throws |
| Transform.Child | backend/src/workflow/nodes/transformExecutor.js:65-68 | the container stepped into is always of object type |
| Transform.Blocker | backend/src/workflow/nodes/transformExecutor.js:64-71 | from an object type the deciding container is of object type |
| Transform.WalkAfterSet | backend/src/workflow/nodes/transformExecutor.js:64-71 | after the set loop, walking the same keys finds the assigned value |
| Transform.GetAfterSet | backend/src/workflow/nodes/transformExecutor.js:45-73 | `get(set(o, p, v), p)` is v for an object o |
| Transform.WalkOffPath | backend/src/workflow/nodes/transformExecutor.js:64-71 | after a successful set on an object, a walk along any path that parts from the set path before either ends finds what it found before: the set touches nothing off its path |
| Transform.SetThroughNull | backend/src/workflow/nodes/transformExecutor.js:65 | a set through a null intermediate throws; one through a number intermediate replaces it with `{}` |
| Transform.TransformResult | backend/src/workflow/nodes/transformExecutor.js:104-118 | the script's value is the output; undefined passes the inputs through; a throw gives the error record with `code` and `inputs` |
| RedisStore.AddMembers | backend/src/workflow/nodes/redisSetExecutor.js:95 | SADD keeps the existing members first, adds the members that are new, and keeps the set duplicate-free |
| RedisStore.Store.constructor | backend/src/workflow/nodes/redisSetExecutor.js:1 | the store starts empty |
| RedisStore.Store.Set | backend/src/workflow/nodes/redisSetExecutor.js:54 | SET stores the text and drops the key's TTL |
| RedisStore.Store.SetEx | backend/src/workflow/nodes/redisSetExecutor.js:52 | SETEX stores the text with the TTL |
| RedisStore.Store.Expire | backend/src/workflow/nodes/redisSetExecutor.js:69 | EXPIRE sets the TTL of an existing key and does nothing otherwise |
| RedisStore.Store.HSet | backend/src/workflow/nodes/redisSetExecutor.js:66 | HSET merges the fields into a hash, refuses a key of another type, and needs at least one field |
| RedisStore.Store.RPush | backend/src/workflow/nodes/redisSetExecutor.js:82 | RPUSH appends in order and answers the new length; it refuses another type and an empty argument list |
| RedisStore.Store.SAdd | backend/src/workflow/nodes/redisSetExecutor.js:95 | SADD adds the new members and answers how many; it refuses another type and an empty argument list |
| RedisStore.Store.Get | backend/src/workflow/nodes/redisGetExecutor.js:19 | GET answers the text, nothing for a missing key, and WRONGTYPE for an aggregate |
| RedisStore.Store.HGetAll | backend/src/workflow/nodes/redisGetExecutor.js:32 | HGETALL answers the fields, or an empty hash for a missing key |
| RedisStore.Store.LRange | backend/src/workflow/nodes/redisGetExecutor.js:55 | LRANGE 0 -1 answers the whole list, or an empty one for a missing key |
| RedisStore.Store.SMembers | backend/src/workflow/nodes/redisGetExecutor.js:79 | SMEMBERS answers the members, or none for a missing key |
| RedisStore.AddAll | backend/src/workflow/nodes/redisSetExecutor.js:95 | SADD's loop over its arguments computes the member sequence |
| RedisStore.AddMembersPresent | backend/src/workflow/nodes/redisSetExecutor.js:95 | adding members that are all present changes nothing |
| RedisSet.Chosen | backend/src/workflow/nodes/redisSetExecutor.js:14-27 | the inputs are stored when the configured value is undefined, null, `''`, `'${JSON.stringify(data)}'` or `'[object Object]'`, and the configured value otherwise |
| RedisSet.Elements | backend/src/workflow/nodes/redisSetExecutor.js:78-91 | an array's elements are pushed; a non-array value is wrapped alone |
| RedisSet.EncodeAll | backend/src/workflow/nodes/redisSetExecutor.js:79-81 | each element is JSON text if it is an object and its `String` form otherwise, in order |
| RedisSet.TtlSeconds | backend/src/workflow/nodes/redisSetExecutor.js:51 | a TTL applies exactly when it is a positive number |
| RedisSet.HashOf | backend/src/workflow/nodes/redisSetExecutor.js:62-65 | the hash has the object's keys, each value encoded |
| RedisSet.SuccessResult | backend/src/workflow/nodes/redisSetExecutor.js:120-130 | the success record has its own fields and the input keys; the inputs are spread last, so they override `success`, `value` and `ttl`; `ttl` is `ttl \|\| null` |
| RedisSet.ErrorResult | backend/src/workflow/nodes/redisSetExecutor.js:137-143 | the error record carries the raw configured key and value |
| RedisSet.FlattenHash | backend/src/workflow/nodes/redisSetExecutor.js:62-65 | the field loop computes the encoded hash |
| RedisSet.Perform | backend/src/workflow/nodes/redisSetExecutor.js:38-110 | the store changes as the planned command says: SET or SETEX for text, and HSET, RPUSH or SADD followed by EXPIRE when the TTL applies |
| RedisSet.Execute | backend/src/workflow/nodes/redisSetExecutor.js:3-145 | a refused plan writes nothing and answers the error record; otherwise the store changes by the planned command and the answer reports its reply |
| RedisSet.Decide | backend/src/workflow/nodes/redisSetExecutor.js:13-114 | the value choice, templating and encoding give the plan |
| RedisSet.ChooseValue | backend/src/workflow/nodes/redisSetExecutor.js:13-32 | the step-by-step assignment of `valueToStore` gives the chosen value, templated when it is a string |
| RedisSet.Encoded | backend/src/workflow/nodes/redisSetExecutor.js:38-114 | the `switch (dataType)` encodes the value for its type or refuses it |
| RedisSet.FallbackValues | backend/src/workflow/nodes/redisSetExecutor.js:15-26 | the five fallback values store the inputs, and `"hello"` and `0` are stored as they are |
| RedisSet.ListElements | backend/src/workflow/nodes/redisSetExecutor.js:76-87 | a list pushes the encoded elements of an array in order, or the encoded value alone |
| RedisSet.HashNeedsObject | backend/src/workflow/nodes/redisSetExecutor.js:58-74 | only a non-array, non-null object can be stored as a hash; anything else is refused |
| RedisSet.UnknownTypeRefused | backend/src/workflow/nodes/redisSetExecutor.js:112-113 | an unsupported data type writes nothing and is refused with its name |
| RedisGet.DecodeElem | backend/src/workflow/nodes/redisGetExecutor.js:60-67 | JSON-looking text that parses is decoded; anything else stays the raw string |
| RedisGet.DecodeAll | backend/src/workflow/nodes/redisGetExecutor.js:58-69 | list and set elements are decoded one by one, in order |
| RedisGet.DecodeFields | backend/src/workflow/nodes/redisGetExecutor.js:35-45 | each hash field is decoded by the same rule, and the fields are kept |
| RedisGet.Strings | backend/src/workflow/nodes/redisGetExecutor.js:55 | without `parseJson` the elements stay strings, in order |
| RedisGet.Respond | backend/src/workflow/nodes/redisGetExecutor.js:117-154 | a read error gives the error record; null or undefined gives "Key not found"; otherwise the found record; `key` is the templated key |
| RedisGet.DecodeHash | backend/src/workflow/nodes/redisGetExecutor.js:36-44 | the in-place loop over the hash computes the decoded fields |
| RedisGet.Execute | backend/src/workflow/nodes/redisGetExecutor.js:3-155 | the answer is the response to what is read under the templated key |
| RedisGet.Read | backend/src/workflow/nodes/redisGetExecutor.js:17-115 | the `switch (dataType)` reads as specified, with empty aggregates read as null |
| RedisGet.MissingIsNotFound | backend/src/workflow/nodes/redisGetExecutor.js:47-98 | a missing key reads as null under every supported data type |
| RedisGet.BrokenJson | backend/src/workflow/nodes/redisGetExecutor.js:22-110 | JSON-looking text that does not parse stays a string under `string` and is an error under `json` |
| RedisGet.JsonNullNotFound | backend/src/workflow/nodes/redisGetExecutor.js:101-118 | the JSON text `null` under `json` reads as not found |
| RedisGet.StringRoundTrip | backend/src/workflow/nodes/redisGetExecutor.js:18-29 | an object written with the `string` type reads back as the same object when its JSON parses back |
| RedisGet.ListRoundTrip | backend/src/workflow/nodes/redisGetExecutor.js:53-75 | a list written from an array of round-tripping elements reads back element by element, in order |
| Logger.LoggerResolve | backend/src/workflow/nodes/loggerExecutor.js:163-205 | null or undefined inputs resolve nothing; otherwise a path resolves exactly when it can be walked in the data context to a value other than undefined, and gives JSON text for an object type (null included) and `String(value)` otherwise |
| Logger.LoggerTemplate | backend/src/workflow/nodes/loggerExecutor.js:149-160 | non-strings and the empty string are returned unchanged; a string stays a string; a text that is one `{{path}}` (holding no `${`) becomes the resolved text of its path, and stays verbatim when the path resolves nothing |
| Logger.LookupPrecedence | backend/src/workflow/nodes/loggerExecutor.js:172-182 | lookup precedence follows the spreads: `inputs.inputs.data`, then `inputs.value`, then `inputs.data` fields, then `data`, variables and inputs |
| Logger.NullAndUndefined | backend/src/workflow/nodes/loggerExecutor.js:155-200 | a path at null gives the JSON text of null; one at undefined keeps the placeholder |
| Logger.LoggerKeepsUnresolved | backend/src/workflow/nodes/loggerExecutor.js:153-159 | when nothing resolves, both passes leave the text unchanged |
| Logger.SummarizeObject | backend/src/workflow/nodes/loggerExecutor.js:121-146 | for `keys` equal to `Object.keys(obj)`: null and undefined give their string form; a non-object is cut to 100 characters; JSON of at most 100 UTF-16 code units is returned whole; a longer object with keys gives `{` the first three key names (all, when fewer) joined by `, `, then `, ...` exactly when there are more than three, `}`, then ` (<count> keys)`; a longer object without keys gives its JSON cut to 97 characters followed by `...` |
| Logger.AstralJsonIsLong | backend/src/workflow/nodes/loggerExecutor.js:131-139 | JSON of 68 characters, 60 of them above U+FFFF, is over the limit in code units, so `{"a": …}` is summarised as `{a} (1 keys)` |
| Logger.KeySummary | backend/src/workflow/nodes/loggerExecutor.js:136-139 | the summary of a long object with keys ends with ` (<count> keys)` |
| Logger.FormatLogMessage | backend/src/workflow/nodes/loggerExecutor.js:90-118 | the parts are time, upper-cased level, node name if present, message and the input summary if present, joined by spaces |
| Logger.LogEntry | backend/src/workflow/nodes/loggerExecutor.js:14-43 | the entry has level, timestamp, ids, node name and message; `inputs` only with `includeInputs`; `node` only with `includeNodeInfo` |
| Logger.EntryNodeName | backend/src/workflow/nodes/loggerExecutor.js:19 | the node name defaults to "Logger" |
| Logger.Execute | backend/src/workflow/nodes/loggerExecutor.js:3-87 | a string level gives the logged result and the console message; the workflow stream is written exactly when the workflow id is truthy; a non-string level gives the error record and nothing is written |
| Logger.DefaultMessage | backend/src/workflow/nodes/loggerExecutor.js:23-29 | an empty or missing message becomes "Workflow execution log"; another is templated |
| Security.ValidateWorkflowCreation | backend/src/middleware/security.js:66-106 | the checks run in order, the first failure answers 400 with its message, a request passing all five goes on, and a null body throws; the name limit counts UTF-16 code units |
| Security.NameLengthBoundary | backend/src/middleware/security.js:85-89 | a name of 100 UTF-16 code units passes and one of 101 is too long |
| Security.LengthDecides | backend/src/middleware/security.js:85-89 | once the name is a non-empty string that is not the empty default and the lists are arrays or absent, the length alone decides between 400 and going on |
| Security.NameLengthInCodeUnits | backend/src/middleware/security.js:85-89 | characters above U+FFFF count twice: 50 of them pass and 51 are too long |
| Security.DefaultNameNeedsNodes | backend/src/middleware/security.js:77-82 | "Workflow" needs at least one node; another name needs none |
| Security.SomeMatch | backend/src/middleware/security.js:126 | true exactly when some pattern occurs in the lower-cased agent |
| Security.BlockBots | backend/src/middleware/security.js:109-136 | a request is refused with 403 exactly when the agent matches a bot pattern and it is POST /api/workflows |
| Security.NoUserAgentPasses | backend/src/middleware/security.js:110 | a request without a user agent is never blocked |
| Security.CaseInsensitive | backend/src/middleware/security.js:111-124 | an upper-cased agent is a bot exactly when the original is |
| Security.CurlBlocked | backend/src/middleware/security.js:116-133 | "CURL" creating a workflow is blocked |
| Security.ValidateOrigin | backend/src/middleware/security.js:139-159 | the request always goes on; the warning is logged exactly for a creation without origin and referer |
| Security.LogRequest | backend/src/middleware/security.js:29-63 | the request always goes on; the log is written exactly when Redis answers; a creation also bumps the per-IP counter |
| WorkflowRoutes.Filter | backend/src/api/routes/workflow.js:17 | the kept elements are exactly those satisfying the predicate |
| WorkflowRoutes.KeyFilterExamples | backend/src/api/routes/workflow.js:17 | a hex-and-dash id passes; `executions`, an empty id and upper-case hex do not |
| WorkflowRoutes.SearchHit | backend/src/api/routes/workflow.js:29-31 | for a non-empty term: a non-string name is a TypeError; a name containing the term (ignoring case) is a hit; otherwise a string description decides, a null or undefined one is no hit, and any other description is a TypeError; a hit always means the name or the description contains the term |
| WorkflowRoutes.Search | backend/src/api/routes/workflow.js:28-32 | an empty term keeps everything; otherwise exactly the hits are kept, and the filter throws exactly when the test of some workflow throws, with that test's error |
| WorkflowRoutes.SearchIgnoresCase | backend/src/api/routes/workflow.js:30 | a name containing the term in any case is kept |
| WorkflowRoutes.SortByUpdated | backend/src/api/routes/workflow.js:35 | the result is newest first and a permutation of the input |
| WorkflowRoutes.Slice | backend/src/api/routes/workflow.js:38 | JavaScript `slice` on in-range bounds is the subsequence, clamped at the end |
| WorkflowRoutes.WithMetrics | backend/src/api/routes/workflow.js:48-54 | the workflow's keys are kept and `metrics` is `{executions: parseInt(count) \|\| 0, activeUsers}` |
| WorkflowRoutes.CounterValues | backend/src/api/routes/workflow.js:51 | a missing counter (null) counts 0, and a stored count reads back as itself |
| WorkflowRoutes.Loaded | backend/src/api/routes/workflow.js:20-25 | one loaded workflow per key, in order |
| WorkflowRoutes.ListWorkflows | backend/src/api/routes/workflow.js:8-68 | a search TypeError, a null document among two or more matches (the sort comparator reads `.updated`), or a null document on the page (`workflow.id`) answers 500 "Failed to fetch workflows"; otherwise the matches are sorted newest first, `total` is their count whatever the page, and the page is the slice with metrics |
| WorkflowRoutes.PageWindow | backend/src/api/routes/workflow.js:11-38 | page p holds the items from (p-1)*limit, at most limit of them, and is empty past the end |
| WorkflowRoutes.PageZeroEmpty | backend/src/api/routes/workflow.js:11-38 | page 0 is empty |
| WorkflowRoutes.CreateWorkflow | backend/src/api/routes/workflow.js:104-159 | a null body answers 500; a missing name 400; otherwise 201 with the id, name, description defaulting to '', the nodes and connections, the fixed settings, both dates and version 1 |
| WorkflowRoutes.CreateDefaults | backend/src/api/routes/workflow.js:106-126 | a body with only a name gets empty nodes, connections and description and version 1 |
| WorkflowRoutes.NextVersion | backend/src/api/routes/workflow.js:182 | `version + 1` adds for a number, concatenates for a string, and gives NaN (null) for undefined |
| WorkflowRoutes.Merged | backend/src/api/routes/workflow.js:176-183 | updates overlay the workflow, but `id` and `created` are kept, `updated` is now and the version advances |
| WorkflowRoutes.UpdateWorkflow | backend/src/api/routes/workflow.js:162-214 | an unknown workflow answers 404; a stored one is replaced by the merge and answered with it |
| WorkflowRoutes.UpdateKeepsIdentity | backend/src/api/routes/workflow.js:179-180 | an update never changes `id` or `created` |
| WorkflowRoutes.UpdateCountsVersions | backend/src/api/routes/workflow.js:182 | two updates advance a numeric version by two |
| WorkflowRoutes.CloneWorkflow | backend/src/api/routes/workflow.js:254-298 | a null body answers 500 and a missing original 404; otherwise the clone succeeds exactly when a name is given or the stored original is not null, and fails with 500 when neither; a clone copies every field with a fresh id, both dates now and version 1, and the name defaults to "<name> (Copy)" |
| WorkflowRoutes.CloneDefaultName | backend/src/api/routes/workflow.js:271 | without a name the clone is "<name> (Copy)" |
| EditorStore.FirstIndex | frontend/src/stores/workflow.js:249 | `findIndex`: the first matching index, or -1 exactly when none matches |
| EditorStore.FindIndex | frontend/src/stores/workflow.js:92 | the search loop finds the first matching index |
| EditorStore.WithoutId | frontend/src/stores/workflow.js:114 | the filter keeps exactly the entries with another id and changes nothing when none matches |
| EditorStore.WithoutIdAppend | frontend/src/stores/workflow.js:255 | filtering distributes over concatenation, so the order of the rest is kept |
| EditorStore.WithoutIdUnique | frontend/src/stores/workflow.js:185 | filtering keeps the user ids unique |
| EditorStore.WithList | frontend/src/stores/workflow.js:246 | replacing one list field keeps every other field |
| EditorStore.Moved | frontend/src/stores/workflow.js:260 | a move replaces only `position` |
| EditorStore.WorkflowStore.constructor | frontend/src/stores/workflow.js:10-19 | the store starts with no workflows, no current workflow shared with the list, no users and no error |
| EditorStore.WorkflowStore.ApplyWorkflowChange | frontend/src/stores/workflow.js:240-280 | with a current workflow, the new workflow and the throw are those of `EditorStore.Applied`; no current workflow or an unknown type changes nothing; adds append; deletes remove every entry with the id; `node-update` merges into the first match; `node-move` sets only its position; an unknown id changes nothing; a listed workflow that is the same object as the current one changes with it, and no other entry does |
| EditorStore.Applied | frontend/src/stores/workflow.js:244-279 | the switch on an open workflow: a null or undefined change throws, an unknown type changes nothing, a throw leaves the workflow as it was, a node change throws when `nodes` is not an array and a connection change exactly when `connections` is not one, and a change that goes through edits only the list its type names |
| EditorStore.NodeChange | frontend/src/stores/workflow.js:245-262 | the node cases of `EditorStore.Applied`: add appends, delete removes every node with the id, update merges into and move repositions the first node with the id, an unknown id changes nothing, a missing list or a primitive node throws |
| EditorStore.ConnectionChange | frontend/src/stores/workflow.js:263-278 | the connection cases of `EditorStore.Applied`: the adds append, the deletes remove every connection with the id, a missing list throws |
| EditorStore.WithoutIdIndex | frontend/src/stores/workflow.js:114 | an entry the filter keeps moves to the index counting the kept entries before it |
| EditorStore.WorkflowStore.UserJoined | frontend/src/stores/workflow.js:176-181 | a user is appended only if no active user has the same id, which keeps the ids unique; a null or undefined payload throws, and leaves the list as it was, exactly when the list is not empty |
| EditorStore.WorkflowStore.UserLeft | frontend/src/stores/workflow.js:183-186 | every entry with the id is removed; a null or undefined payload throws, and leaves the list as it was, exactly when the list is not empty |
| EditorStore.WorkflowStore.WorkflowUpdate | frontend/src/stores/workflow.js:188-194 | a null or undefined payload throws and changes nothing; one's own updates, and updates with no current workflow, are ignored; any other update applies its `change` as `EditorStore.Applied` says, and the shared list entry follows |
| EditorStore.WorkflowStore.CreateWorkflow | frontend/src/stores/workflow.js:57-85 | a refused name changes nothing and sends nothing; otherwise the created workflow is put first, or the error is recorded |
| EditorStore.WorkflowStore.Post | frontend/src/stores/workflow.js:68-84 | the server's copy goes first in the list, or the error is recorded |
| EditorStore.WorkflowStore.Unshift | frontend/src/stores/workflow.js:72 | `unshift` puts the workflow first and the shared entry moves up one place |
| EditorStore.WorkflowStore.UpdateWorkflow | frontend/src/stores/workflow.js:87-107 | the first entry with the id, and the current workflow if it has that id, are replaced; when both are, they are one object from then on; a failure records the error |
| EditorStore.WorkflowStore.DeleteWorkflow | frontend/src/stores/workflow.js:109-125 | every entry with the id is removed and a matching current workflow is cleared; an entry shared with a current workflow that stays keeps its place among the kept entries; a failure records the error |
| EditorStore.CreateRefusal | frontend/src/stores/workflow.js:59-66 | null or undefined data throws reading `name`; a missing or blank name, then "Workflow" with no nodes, is refused before any request, and a truthy non-string name has no `trim`; the request goes out exactly for a valid name |
| EditorStore.BlankNameRefused | frontend/src/stores/workflow.js:59-61 | a name of spaces is refused |
| EditorStore.DefaultNameNeedsNodes | frontend/src/stores/workflow.js:64-66 | "Workflow" with no nodes is refused and with one node is accepted |

## Left out

- The BullMQ queue and worker: concurrency, attempts, backoff and `job.updateProgress`. These are a foreign job system; the model is the per-job body.
- The Redis transport of `logExecution`, the execution hashes, the metric counters and the streams. They are an appended event list; the events keep their kind, node id and message but not the `result`, `error` stack or `outputs` JSON fields.
- The `node_log` events that executors write through `context.log`, including the logger's own `context.log` call and its error-path log. The model's log holds only the coordinator's events.
- Server-sent log streaming, pub/sub, `backend/src/realtime/collaboration.js` and the socket wiring of the editor store (connect, disconnect, emit, `current-users`, `cursor-update`). These are network plumbing.
- The sandboxed `vm` scripts of the condition and transform nodes. They are oracles; the transform sandbox's `formatDate` needs clocks and locales.
- axios, the real `setTimeout`, `Date.now` and ISO or locale time formatting. These are parameters.
- `JSON.parse` and `JSON.stringify`. These are function parameters with no properties assumed beyond those stated in a lemma's requires.
- Loose coercion in `==`, `<`, `>` across types, object identity, and `RegExp` for `matches`. These give `Unmodelled` in the condition table.
- Numbers are integers. Floating point, NaN (except `parseInt`'s failure) and `Date` parsing are not modelled; the list route's sort key is a parameter.
- Object key order is not kept. Where it matters (the logger's summary keys), the key enumeration is a parameter.
- Inherited properties (`in` and property reads see own keys only), Unicode trimming and case mapping (ASCII and the no-break space only).
- `express-rate-limit` and the other files of the server, configuration, statistics and maintenance scripts.
- Redis expiry timing. The store records the last TTL per key but never expires anything.
- The list, create, update and clone routes' Redis calls (`keys`, `zadd`, `xadd`, metric `set`s). The get-single, delete and history routes are not part of this model.
- The list route's `page` and `limit` are integers or absent. Non-numeric query strings (NaN) are not modelled, and a stored document that fails to parse is not modelled.
- The editor store's `fetchWorkflows`, `fetchWorkflow` and `executeWorkflow` actions and the `loading` flag. These are HTTP round trips with no state rule beyond those modelled.
- EditorStore.NodeChange: a null or undefined entry of `nodes` is read as having an undefined `id`, where the source's `n.id` throws a TypeError; such an entry matches a change whose `nodeId` is undefined (a `node-delete` without `nodeId` removes it) and is passed over otherwise.
- EditorStore.ConnectionChange: a null or undefined entry of `connections` is read as having an undefined `id`, where `c.id` throws; it is removed by a delete without an id and passed over otherwise.
- EditorStore.WorkflowStore.UserJoined: a null or undefined entry of the user list is read as having an undefined `userId`, where `u.userId` throws; it matches a join without `userId`.
- EditorStore.WorkflowStore.UserLeft: a null or undefined entry of the user list is read as having an undefined `userId`, where `u.userId` throws; a leave without `userId` removes it.
- EditorStore.WorkflowStore.WorkflowUpdate: a null or undefined payload is a throw, since `data.userId` is read first; "ignored without a throw" is promised only for other payloads.
- EditorStore.WorkflowStore.ApplyWorkflowChange: null or undefined list entries are handled as `EditorStore.NodeChange` and `EditorStore.ConnectionChange` say, and `nodes`/`connections` that are not arrays are reported as a throw.
- WorkflowRoutes.SortByUpdated: sort stability is not stated; only the order and the permutation are.
- RedisSet.TtlSeconds: a TTL given as a numeric string or `true` is treated as no TTL, whereas the source's `ttl > 0` coerces it.
- RedisSet.Execute: a key that is not a string is stored under its `String(...)` form; Redis's own coercion of non-string arguments is not modelled beyond that.
- Logger.Execute: a failing `xadd` (the catch path) is not modelled; the stream write is returned as a value.
- Delay.Execute: the catch path is not modelled, since nothing in the modelled body can throw.
- Transform.SetPath: `set` works in place and returns the same object; the model returns the updated value, so aliasing between the object and other references is not captured. A write whose path meets an array (as an intermediate or as the last container) yields `IntoArray` and is not modelled further; the source would index into the array.
- JsValue.Get: string index keys (`s[i]`) and the character spreads count Unicode scalar values, not UTF-16 code units; `length` does count code units (`JsValue.Utf16Length`). Lone surrogates cannot be represented.
- Logger.Prefix: the substring cut counts Unicode scalar values, not UTF-16 code units, so it never splits a surrogate pair as `substring` can; `Logger.SummarizeObject` inherits this for its cuts (its length test does count code units).
- Logger.SummarizeObject: since the cut of a long object without keys counts scalar values, the result is 100 characters long only when the JSON has at least 97 characters.
- WorkflowRoutes.ListWorkflows: a loaded document is never undefined, as `JSON.parse` cannot produce it; the source's `sort` would move undefined entries to the end without calling the comparator.
- Condition.Compare: string `<` and `>` compare Unicode scalar values rather than UTF-16 code units; the two orders differ only between characters above U+FFFF and those from U+E000 to U+FFFF.
- RedisStore.Store.SMembers: the reply lists the members in insertion order; Redis leaves the order unspecified.
- WorkflowRoutes.CreateWorkflow: one `now` parameter gives both `created` and `updated`, whereas the source reads the clock twice, so the two may differ by a millisecond.
- WorkflowRoutes.CloneWorkflow: one `now` parameter gives both `created` and `updated`, whereas the source reads the clock twice.
- EditorStore.WorkflowStore.ApplyWorkflowChange: the sharing of one workflow object between the list and the current workflow is tracked by the `shared` index; node and connection objects shared between several lists are not tracked.
- Engine.RunAsync: the worker's extra status writes and console output are left out; the result is the outputs or the error with the event log.
