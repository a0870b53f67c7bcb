/**
 * The request middleware of backend/src/middleware/security.js: the
 * workflow-creation validator, the bot filter, the origin check and the
 * request logger. Each either passes the request on (`next()`) or answers
 * it with a status and an error message.
 */
module Security {
  import opened Wrappers
  import opened JsValue

  /** The parts of an Express request the middleware reads; header names are lower case. */
  datatype Request = Request(verb: string, path: string, headers: map<string, string>, ip: Value,
                             remoteAddress: Value, body: Value)

  /** What a middleware does with a request. */
  datatype Gate =
    | Next                             // `next()` is called, once
    | Reject(status: int, error: string) // `res.status(status).json({ error })`
    | Throws(message: string)          // a TypeError before any answer

  /** `req.get(name)`: undefined when the header is absent. */
  function Header(req: Request, name: string): Value {
    if name in req.headers then Str(req.headers[name]) else Undef
  }

  /** POST /api/workflows, the request all the checks single out. */
  predicate IsCreation(req: Request) {
    req.verb == "POST" && req.path == "/api/workflows"
  }

  // ---------------------------------------------------------------------------
  // validateWorkflowCreation

  const NameRequired := "Workflow name is required and must be a string"
  const EmptyDefault := "Cannot create empty workflow with default name. Please add nodes or provide a custom name."
  const NameTooLong := "Workflow name too long"
  const NodesNotArray := "Nodes must be an array"
  const ConnectionsNotArray := "Connections must be an array"
  const MaxNameLength := 100

  predicate BadName(name: Value) {
    !Truthy(name) || !name.Str?
  }

  predicate EmptyDefaultName(name: Value, nodes: Value) {
    name == Str("Workflow") && (!Truthy(nodes) || Get(nodes, "length") == Int(0))
  }

  /** `name.length > 100`, counted in UTF-16 code units. */
  predicate LongName(name: Value) {
    name.Str? && Utf16Length(name.s) > MaxNameLength
  }

  predicate NotArray(v: Value) {
    Truthy(v) && !v.Arr?
  }

  /**
   * `validateWorkflowCreation(req, res, next)`: the checks run in order
   * and the first that fails answers 400; a request that passes them all
   * goes on. A body that is null or undefined cannot be destructured.
   */
  function ValidateWorkflowCreation(body: Value): (r: Gate)
    ensures (body.Null? || body.Undef?) <==> r.Throws?
    ensures r.Reject? ==> r.status == 400
    ensures !body.Null? && !body.Undef? ==>
      var name := Get(body, "name");
      var nodes := Get(body, "nodes");
      var connections := Get(body, "connections");
      && (r == Reject(400, NameRequired) <==> BadName(name))
      && (r == Reject(400, EmptyDefault) <==> !BadName(name) && EmptyDefaultName(name, nodes))
      && (r == Reject(400, NameTooLong) <==> !BadName(name) && !EmptyDefaultName(name, nodes) && LongName(name))
      && (r == Reject(400, NodesNotArray) <==>
            !BadName(name) && !EmptyDefaultName(name, nodes) && !LongName(name) && NotArray(nodes))
      && (r == Reject(400, ConnectionsNotArray) <==>
            !BadName(name) && !EmptyDefaultName(name, nodes) && !LongName(name) && !NotArray(nodes)
            && NotArray(connections))
      && (r == Next <==>
            !BadName(name) && !EmptyDefaultName(name, nodes) && !LongName(name) && !NotArray(nodes)
            && !NotArray(connections))
  {
    if body.Null? || body.Undef? then
      Throws("Cannot destructure property 'name' of 'req.body' as it is " + ToStr(body) + ".")
    else
      var name := Get(body, "name");
      var nodes := Get(body, "nodes");
      var connections := Get(body, "connections");
      if BadName(name) then Reject(400, NameRequired)
      else if EmptyDefaultName(name, nodes) then Reject(400, EmptyDefault)
      else if LongName(name) then Reject(400, NameTooLong)
      else if NotArray(nodes) then Reject(400, NodesNotArray)
      else if NotArray(connections) then Reject(400, ConnectionsNotArray)
      else Next
  }

  /** Past the name checks before it, the length alone decides a well-typed body. */
  lemma LengthDecides(body: Value, name: string)
    requires body.Obj? && Get(body, "name") == Str(name) && name != []
    requires !EmptyDefaultName(Str(name), Get(body, "nodes"))
    requires !NotArray(Get(body, "nodes")) && !NotArray(Get(body, "connections"))
    ensures ValidateWorkflowCreation(body) == if Utf16Length(name) > MaxNameLength then Reject(400, NameTooLong) else Next
  {
  }

  /** A name of exactly 100 code units passes the length check, and one of 101 fails it. */
  lemma NameLengthBoundary(name: string, nodes: seq<Value>)
    requires Utf16Length(name) == MaxNameLength && name != "Workflow"
    ensures ValidateWorkflowCreation(Obj(map["name" := Str(name), "nodes" := Arr(nodes)])) == Next
    ensures ValidateWorkflowCreation(Obj(map["name" := Str(name + "x"), "nodes" := Arr(nodes)])) == Reject(400, NameTooLong)
  {
    assert name != [];
    LengthDecides(Obj(map["name" := Str(name), "nodes" := Arr(nodes)]), name);
    Utf16Append(name, "x");
    assert Utf16Length("x") == 1;
    assert name + "x" != "Workflow" by {
      assert |name + "x"| != |"Workflow"|;
    }
    LengthDecides(Obj(map["name" := Str(name + "x"), "nodes" := Arr(nodes)]), name + "x");
  }

  /**
   * A character above U+FFFF counts twice: 50 of them (100 code units)
   * pass the length check and 51 (102 code units) fail it.
   */
  lemma NameLengthInCodeUnits(c: char)
    requires c as int >= 0x1_0000
    ensures ValidateWorkflowCreation(Obj(map["name" := Str(seq(50, _ => c))])) == Next
    ensures ValidateWorkflowCreation(Obj(map["name" := Str(seq(51, _ => c))])) == Reject(400, NameTooLong)
  {
    var fifty, fiftyOne := seq(50, _ => c), seq(51, _ => c);
    Utf16Astral(c, 50);
    Utf16Astral(c, 51);
    assert |fifty| != |"Workflow"| && |fiftyOne| != |"Workflow"|;
    LengthDecides(Obj(map["name" := Str(fifty)]), fifty);
    LengthDecides(Obj(map["name" := Str(fiftyOne)]), fiftyOne);
  }

  /** The default name needs at least one node; any other name needs none. */
  lemma DefaultNameNeedsNodes(node: Value)
    ensures ValidateWorkflowCreation(Obj(map["name" := Str("Workflow")])) == Reject(400, EmptyDefault)
    ensures ValidateWorkflowCreation(Obj(map["name" := Str("Workflow"), "nodes" := Arr([])])) == Reject(400, EmptyDefault)
    ensures ValidateWorkflowCreation(Obj(map["name" := Str("Workflow"), "nodes" := Arr([node])])) == Next
    ensures ValidateWorkflowCreation(Obj(map["name" := Str("Pipeline")])) == Next
  {
    DefaultNameEmpty();
    DefaultNameWithNode(node);
    OtherName();
  }

  lemma DefaultNameEmpty()
    ensures ValidateWorkflowCreation(Obj(map["name" := Str("Workflow")])) == Reject(400, EmptyDefault)
    ensures ValidateWorkflowCreation(Obj(map["name" := Str("Workflow"), "nodes" := Arr([])])) == Reject(400, EmptyDefault)
  {
    var bare, empty := Obj(map["name" := Str("Workflow")]), Obj(map["name" := Str("Workflow"), "nodes" := Arr([])]);
    assert Get(bare, "name") == Str("Workflow") && Get(bare, "nodes") == Undef;
    assert Get(empty, "name") == Str("Workflow") && Get(empty, "nodes") == Arr([]);
  }

  lemma DefaultNameWithNode(node: Value)
    ensures ValidateWorkflowCreation(Obj(map["name" := Str("Workflow"), "nodes" := Arr([node])])) == Next
  {
    var body := Obj(map["name" := Str("Workflow"), "nodes" := Arr([node])]);
    assert Get(body, "nodes") == Arr([node]) && Get(Arr([node]), "length") == Int(1);
    LengthDecides(body, "Workflow");
  }

  lemma OtherName()
    ensures ValidateWorkflowCreation(Obj(map["name" := Str("Pipeline")])) == Next
  {
    assert Str("Pipeline") != Str("Workflow");
    LengthDecides(Obj(map["name" := Str("Pipeline")]), "Pipeline");
  }

  // ---------------------------------------------------------------------------
  // blockBots

  /** The bot patterns, each tested as a case-insensitive substring. */
  const BotPatterns: seq<string> :=
    ["bot", "crawler", "spider", "scraper", "curl", "wget", "python", "java", "ruby", "perl", "php", "go-http"]

  /** `/p/i.test(ua)` for a lower-case pattern p. */
  predicate Matches(ua: string, p: string) {
    Includes(ToLower(ua), p)
  }

  /** `patterns.some(pattern => pattern.test(ua))` */
  function SomeMatch(ua: string, patterns: seq<string>): (r: bool)
    ensures r <==> exists i :: 0 <= i < |patterns| && Matches(ua, patterns[i])
    decreases |patterns|
  {
    if patterns == [] then false
    else if Matches(ua, patterns[0]) then true
    else
      var rest := SomeMatch(ua, patterns[1..]);
      assert forall i :: 1 <= i < |patterns| ==> patterns[i] == patterns[1..][i - 1];
      rest
  }

  function IsBot(ua: string): bool {
    SomeMatch(ua, BotPatterns)
  }

  /** `req.get('user-agent') || ''` */
  function UserAgent(req: Request): string {
    var h := Header(req, "user-agent");
    if Truthy(h) && h.Str? then h.s else ""
  }

  /** `blockBots(req, res, next)` */
  function BlockBots(req: Request): (r: Gate)
    ensures r != Next <==> IsBot(UserAgent(req)) && IsCreation(req)
    ensures r != Next ==> r == Reject(403, "Automated workflow creation is not allowed")
  {
    if IsBot(UserAgent(req)) && IsCreation(req) then Reject(403, "Automated workflow creation is not allowed")
    else Next
  }

  /** An empty user agent contains no pattern, so a request without one is never blocked. */
  lemma NoUserAgentPasses(req: Request)
    requires "user-agent" !in req.headers
    ensures BlockBots(req) == Next
  {
    assert UserAgent(req) == "";
    forall i | 0 <= i < |BotPatterns| ensures !Matches("", BotPatterns[i]) {
      assert |BotPatterns[i]| > 0;
    }
  }

  lemma LowerUpper(s: string)
    ensures ToLower(ToUpper(s)) == ToLower(s)
  {
  }

  /** The patterns ignore case: an upper-cased agent is a bot exactly when the original is. */
  lemma CaseInsensitive(ua: string)
    ensures IsBot(ToUpper(ua)) == IsBot(ua)
  {
    LowerUpper(ua);
  }

  /** A command-line client is blocked, whatever the case of its name. */
  lemma CurlBlocked(req: Request)
    requires IsCreation(req) && req.headers == map["user-agent" := "CURL"]
    ensures BlockBots(req) == Reject(403, "Automated workflow creation is not allowed")
  {
    assert UserAgent(req) == "CURL";
    LowerCurl();
    assert OccursAt("curl", "curl", 0);
    assert BotPatterns[4] == "curl";
    assert Matches("CURL", BotPatterns[4]);
  }

  lemma LowerCurl()
    ensures ToLower("CURL") == "curl"
  {
    var lower := ToLower("CURL");
    assert LowerChar('C') == 'c' && LowerChar('U') == 'u' && LowerChar('R') == 'r' && LowerChar('L') == 'l';
    assert lower[0] == 'c' && lower[1] == 'u' && lower[2] == 'r' && lower[3] == 'l';
  }

  // ---------------------------------------------------------------------------
  // validateOrigin and logRequest

  /**
   * `validateOrigin(req, res, next)`: always goes on; `warned` is the
   * console warning for a creation request with neither origin nor referer.
   */
  function ValidateOrigin(req: Request): (r: (Gate, bool))
    ensures r.0 == Next
    ensures r.1 <==> req.verb != "GET" && IsCreation(req)
                     && !Truthy(Header(req, "origin")) && !Truthy(Header(req, "referer"))
  {
    if req.verb == "GET" then (Next, false)
    else (Next, IsCreation(req) && !Truthy(Header(req, "origin")) && !Truthy(Header(req, "referer")))
  }

  /** What `logRequest` writes to Redis when it is reachable. */
  datatype RequestLog = RequestLog(streamData: string, ipCounter: Option<string>)

  /** The record written to the `api:requests` stream. */
  function LogRecord(req: Request, timestamp: string): Value {
    Obj(map["timestamp" := Str(timestamp), "method" := Str(req.verb), "path" := Str(req.path),
            "ip" := Or(req.ip, req.remoteAddress), "userAgent" := Header(req, "user-agent"),
            "origin" := Header(req, "origin"), "referer" := Header(req, "referer")])
  }

  /**
   * `logRequest(req, res, next)`: logs the request (and, for a creation,
   * counts it per IP in `workflow:creation:ip:<ip>`) when Redis answers,
   * swallows the error when it does not, and always goes on.
   */
  function LogRequest(req: Request, timestamp: string, stringify: Value -> string, redisUp: bool)
    : (r: (Gate, Option<RequestLog>))
    ensures r.0 == Next
    ensures r.1.Some? <==> redisUp
    ensures r.1.Some? ==> r.1.value.streamData == stringify(LogRecord(req, timestamp))
    ensures r.1.Some? ==> (r.1.value.ipCounter.Some? <==> IsCreation(req))
    ensures r.1.Some? && IsCreation(req) ==>
      r.1.value.ipCounter == Some("workflow:creation:ip:" + ToStr(Or(req.ip, req.remoteAddress)))
  {
    if !redisUp then (Next, None)
    else
      var record := LogRecord(req, timestamp);
      var counter := if IsCreation(req) then Some("workflow:creation:ip:" + ToStr(Or(req.ip, req.remoteAddress))) else None;
      (Next, Some(RequestLog(stringify(record), counter)))
  }
}
