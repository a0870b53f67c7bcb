/**
 * The HTTP request executor (backend/src/workflow/nodes/httpRequestExecutor.js):
 * the request configuration is built from the node configuration, the
 * request is sent, and the answer or the failure is shaped into the node's
 * output.
 *
 * `JSON.parse` is the parameter `parse` (Err carries the SyntaxError
 * message) and axios is the parameter `send`, which reports what came back.
 */
module HttpRequest {
  import opened Wrappers
  import opened JsValue
  import opened Template

  /** The `requestConfig` handed to axios. */
  datatype Request = Request(verb: Value, url: Value, headers: map<string, Value>, timeout: Value, data: Option<Value>)

  /**
   * What axios does with a request: resolve with a response, or reject with
   * an error that carries a response, only a request, or neither.
   */
  datatype Outcome =
    | Response(status: int, statusText: Value, data: Value)
    | ErrorResponse(status: int, statusText: Value, data: Value, message: string)
    | NoResponse(message: string)
    | SetupFailure(message: string)

  const BodyMethods := ["POST", "PUT", "PATCH"]

  /** `['POST', 'PUT', 'PATCH'].includes(method.toUpperCase()) && body` */
  predicate AttachesBody(verb: string, body: Value) {
    ToUpper(verb) in BodyMethods && Truthy(body)
  }

  /** The TypeError of `method.toUpperCase()` on a value that is not a string. */
  function UpperCaseError(verb: Value): string {
    if verb.Null? || verb.Undef? then "Cannot read properties of " + ToStr(verb) + " (reading 'toUpperCase')"
    else "method.toUpperCase is not a function"
  }

  /** `{'Content-Type': 'application/json', ...headers}` */
  function RequestHeaders(headers: Value): map<string, Value> {
    map["Content-Type" := Str("application/json")] + Spread(headers)
  }

  /**
   * Building `requestConfig`: the base configuration, then `data` when the
   * body rule holds, a string body being decoded first. Err is the message
   * of an exception raised while doing so.
   */
  method BuildRequest(config: Value, inputs: Value, variables: Value, parse: string -> Result<Value, string>)
    returns (req: Result<Request, string>)
    ensures var verb := Default(Get(config, "method"), Str("GET"));
      var body := Get(config, "body");
      && (!verb.Str? ==> req == Err(UpperCaseError(verb)))
      && (verb.Str? && AttachesBody(verb.s, body) && body.Str? && parse(body.s).Err? ==> req == Err(parse(body.s).error))
      && (req.Ok? <==> verb.Str? && !(AttachesBody(verb.s, body) && body.Str? && parse(body.s).Err?))
    ensures req.Ok? ==>
      && req.value.verb == Default(Get(config, "method"), Str("GET"))
      && req.value.url == ReplaceTemplateVariables(Get(config, "url"), inputs, variables)
      && req.value.headers == RequestHeaders(Default(Get(config, "headers"), Obj(map[])))
      && req.value.timeout == Default(Get(config, "timeout"), Int(30000))
      && (req.value.data.Some? <==> AttachesBody(req.value.verb.s, Get(config, "body")))
    ensures req.Ok? && req.value.data.Some? ==>
      var body := Get(config, "body");
      req.value.data.value == if body.Str? then parse(body.s).value else body
  {
    var verb := Default(Get(config, "method"), Str("GET"));
    var headers := Default(Get(config, "headers"), Obj(map[]));
    var body := Get(config, "body");
    var timeout := Default(Get(config, "timeout"), Int(30000));
    var url := ReplaceTemplateVariables(Get(config, "url"), inputs, variables);
    var request := Request(verb, url, RequestHeaders(headers), timeout, None);
    if !verb.Str? {
      return Err(UpperCaseError(verb));
    }
    if AttachesBody(verb.s, body) {
      if body.Str? {
        var decoded := parse(body.s);
        if decoded.Err? {
          return Err(decoded.error);
        }
        request := request.(data := Some(decoded.value));
      } else {
        request := request.(data := Some(body));
      }
    }
    req := Ok(request);
  }

  /** The error result of the `catch`, by what the error carries. */
  function FailureResult(outcome: Outcome): (r: Value)
    requires !outcome.Response?
    ensures r.Obj? && Get(r, "error") == Bool(true) && "success" !in r.fields
    ensures outcome.ErrorResponse? ==> r.fields.Keys == {"error", "status", "statusText", "data", "message"}
    ensures outcome.NoResponse? ==> Get(r, "message") == Str("No response received from server")
    ensures outcome.SetupFailure? ==> Get(r, "message") == Str("Request setup failed")
    ensures !outcome.ErrorResponse? ==> Get(r, "details") == Str(outcome.message)
  {
    match outcome
    case ErrorResponse(status, statusText, data, message) =>
      Obj(map["error" := Bool(true), "status" := Int(status), "statusText" := statusText,
              "data" := data, "message" := Str(message)])
    case NoResponse(message) =>
      Obj(map["error" := Bool(true), "message" := Str("No response received from server"), "details" := Str(message)])
    case SetupFailure(message) =>
      Obj(map["error" := Bool(true), "message" := Str("Request setup failed"), "details" := Str(message)])
  }

  /** The result for a response axios resolved with. */
  function ResponseResult(status: int, statusText: Value, data: Value): (r: Value)
    ensures r.Obj? && r.fields.Keys == {"status", "statusText", "data", "success"}
    ensures r.fields["success"] == Bool(200 <= status < 300)
    ensures r.fields["data"] == data
  {
    Obj(map["status" := Int(status), "statusText" := statusText, "data" := data,
            "success" := Bool(status >= 200 && status < 300)])
  }

  /** `execute(nodeConfig, inputs, context)` for a configuration object. */
  method Execute(config: Value, inputs: Value, variables: Value, parse: string -> Result<Value, string>,
                 send: Request -> Outcome)
    returns (r: Value, sent: Option<Request>)
    requires !config.Null? && !config.Undef?
    ensures var m := Default(Get(config, "method"), Str("GET"));
      var body := Get(config, "body");
      && (sent.None? <==> !m.Str? || (AttachesBody(m.s, body) && body.Str? && parse(body.s).Err?))
      && (sent.None? ==> r == FailureResult(SetupFailure(if !m.Str? then UpperCaseError(m) else parse(body.s).error)))
      && (sent.Some? ==> m.Str? && (sent.value.data.Some? <==> AttachesBody(m.s, body)))
    // the request sent is the configuration built from the node's settings
    ensures sent.Some? ==>
      && sent.value.verb == Default(Get(config, "method"), Str("GET"))
      && sent.value.url == ReplaceTemplateVariables(Get(config, "url"), inputs, variables)
      && sent.value.headers == RequestHeaders(Default(Get(config, "headers"), Obj(map[])))
      && sent.value.timeout == Default(Get(config, "timeout"), Int(30000))
      && (sent.value.data.Some? ==>
            var body := Get(config, "body");
            sent.value.data.value == if body.Str? then parse(body.s).value else body)
    ensures sent.Some? && send(sent.value).Response? ==>
      var o := send(sent.value);
      r == ResponseResult(o.status, o.statusText, o.data)
    ensures sent.Some? && !send(sent.value).Response? ==> r == FailureResult(send(sent.value))
  {
    var req := BuildRequest(config, inputs, variables, parse);
    if req.Err? {
      return FailureResult(SetupFailure(req.error)), None;
    }
    sent := Some(req.value);
    var outcome := send(req.value);
    if outcome.Response? {
      r := ResponseResult(outcome.status, outcome.statusText, outcome.data);
    } else {
      r := FailureResult(outcome);
    }
  }

  /** User headers win over the default content type; without one, JSON is announced. */
  lemma ContentTypeDefault(headers: Value)
    ensures "Content-Type" in Spread(headers) ==> RequestHeaders(headers)["Content-Type"] == Spread(headers)["Content-Type"]
    ensures "Content-Type" !in Spread(headers) ==> RequestHeaders(headers)["Content-Type"] == Str("application/json")
    ensures forall k :: k in Spread(headers) ==> RequestHeaders(headers)[k] == Spread(headers)[k]
  {
  }

  /** The method test ignores case; GET, DELETE and HEAD never carry a body. */
  lemma BodyRule(body: Value)
    requires Truthy(body)
    ensures AttachesBody("post", body) && AttachesBody("Patch", body) && AttachesBody("PUT", body)
    ensures !AttachesBody("GET", body) && !AttachesBody("delete", body) && !AttachesBody("head", body)
  {
    assert ToUpper("post") == "POST";
    assert ToUpper("Patch") == "PATCH";
    assert ToUpper("PUT") == "PUT";
    assert ToUpper("GET") == "GET";
    assert ToUpper("delete") == "DELETE";
    assert ToUpper("head") == "HEAD";
  }

  /** A falsy body is never attached, whatever the method. */
  lemma FalsyBodyNotSent(verb: string, body: Value)
    requires !Truthy(body)
    ensures !AttachesBody(verb, body)
  {
  }
}
