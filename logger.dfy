/**
 * The logger executor (backend/src/workflow/nodes/loggerExecutor.js): build
 * a log entry, template its message against a layered data context, format
 * a one-line console message, append the entry to the workflow's log
 * stream, and answer with the entry.
 *
 * `JSON.stringify` is the parameter `stringify`; the ISO timestamp, the
 * locale time, `Date.now()` and the key order of the inputs are parameters.
 */
module Logger {
  import opened Wrappers
  import opened JsValue
  import opened Paths
  import opened Template

  /** What the executor sees of its node context. */
  datatype NodeCtx = NodeCtx(executionId: Value, workflowId: Value, nodeId: Value, nodeName: Value, variables: Value)

  /** The stream record appended with XADD: the stream key and its field/value list. */
  datatype StreamEntry = StreamEntry(key: string, fields: seq<Value>)

  // ---------------------------------------------------------------------------
  // processTemplatePath

  /** `...(v && typeof v === 'object' ? v : {})` */
  function Layer(v: Value): map<string, Value> {
    if Truthy(v) && IsObjectType(v) then Spread(v) else map[]
  }

  /**
   * The data context paths are looked up in: the inputs, the variables,
   * `data` (the inputs themselves), then the fields of `inputs.data`,
   * `inputs.value` and `inputs.inputs.data`, later layers winning.
   */
  function DataContext(inputs: Value, variables: Value): map<string, Value> {
    Spread(inputs) + Spread(variables) + map["data" := inputs]
    + Layer(Get(inputs, "data")) + Layer(Get(inputs, "value")) + Layer(Get(Get(inputs, "inputs"), "data"))
  }

  /**
   * `processTemplatePath(path, inputs, context)`: None (undefined) for
   * null or undefined inputs, a path that cannot be followed, or an
   * undefined value; an object-type value (null included) is JSON text.
   */
  function LoggerResolve(inputs: Value, variables: Value, stringify: Value -> string, path: string): (r: Option<string>)
    ensures inputs.Null? || inputs.Undef? ==> r.None?
    ensures r.Some? ==> Walk(Obj(DataContext(inputs, variables)), PathKeys(path)).Some?
    // the converse, and the text: JSON for an object type, `String(value)` otherwise
    ensures !inputs.Null? && !inputs.Undef? ==>
      var w := Walk(Obj(DataContext(inputs, variables)), PathKeys(path));
      && (r.Some? <==> w.Some? && !w.value.Undef?)
      && (r.Some? && IsObjectType(w.value) ==> r.value == stringify(w.value))
      && (r.Some? && !IsObjectType(w.value) ==> r.value == ToStr(w.value))
  {
    if inputs.Null? || inputs.Undef? then None
    else
      var w := Walk(Obj(DataContext(inputs, variables)), PathKeys(path));
      if w.None? || w.value.Undef? then None
      else if IsObjectType(w.value) then Some(stringify(w.value))
      else Some(ToStr(w.value))
  }

  /** `replaceTemplateVariables` of the logger: `${...}` first, then `{{...}}` on the result. */
  function LoggerTemplate(str: Value, inputs: Value, variables: Value, stringify: Value -> string): (r: Value)
    ensures !str.Str? || str.s == [] ==> r == str
    ensures str.Str? ==> r.Str?
    // a text that is one `{{path}}` placeholder (and holds no "${") becomes the resolved text, or stays
    ensures str.Str? && Whole(str.s, Braces) && !Includes(str.s, Dollar.open) ==>
      r == Str(LoggerResolve(inputs, variables, stringify, Inner(str.s, Braces)).GetOr(str.s))
  {
    if !Truthy(str) || !str.Str? then str
    else
      var fn := p => LoggerResolve(inputs, variables, stringify, p);
      if !Includes(str.s, Dollar.open) then
        ReplaceWithoutOpen(str.s, Dollar, fn);
        WholeText(str.s, Braces, fn);
        Str(Replace(Replace(str.s, Dollar, fn), Braces, fn))
      else Str(Replace(Replace(str.s, Dollar, fn), Braces, fn))
  }

  /** Lookup precedence follows the spreads: the later layer wins. */
  lemma LookupPrecedence(inputs: Value, variables: Value, k: string)
    ensures var c := DataContext(inputs, variables);
      var d3 := Layer(Get(Get(inputs, "inputs"), "data"));
      var d2 := Layer(Get(inputs, "value"));
      var d1 := Layer(Get(inputs, "data"));
      && (k in d3 ==> c[k] == d3[k])
      && (k !in d3 && k in d2 ==> c[k] == d2[k])
      && (k !in d3 && k !in d2 && k in d1 ==> c[k] == d1[k])
      && (k !in d3 && k !in d2 && k !in d1 && k == "data" ==> c[k] == inputs)
      && (k !in d3 && k !in d2 && k !in d1 && k != "data" && k in Spread(variables) ==> c[k] == Spread(variables)[k])
      && (k !in d3 && k !in d2 && k !in d1 && k != "data" && k !in Spread(variables) && k in Spread(inputs) ==>
            c[k] == Spread(inputs)[k])
      && (k in c <==> k in d3 || k in d2 || k in d1 || k == "data" || k in Spread(variables) || k in Spread(inputs))
  {
    var base := Spread(inputs) + Spread(variables) + map["data" := inputs];
    var withData := base + Layer(Get(inputs, "data"));
    var withValue := withData + Layer(Get(inputs, "value"));
    assert DataContext(inputs, variables) == withValue + Layer(Get(Get(inputs, "inputs"), "data"));
  }

  /** A path to null writes "null" as JSON text, and a path to undefined keeps the placeholder. */
  lemma NullAndUndefined(stringify: Value -> string)
    ensures LoggerResolve(Obj(map["x" := Null]), Obj(map[]), stringify, "x") == Some(stringify(Null))
    ensures LoggerResolve(Obj(map["x" := Undef]), Obj(map[]), stringify, "x") == None
  {
    ResolveX(Null, stringify);
    ResolveX(Undef, stringify);
  }

  lemma ResolveX(v: Value, stringify: Value -> string)
    requires v.Null? || v.Undef?
    ensures LoggerResolve(Obj(map["x" := v]), Obj(map[]), stringify, "x") == if v.Null? then Some(stringify(Null)) else None
  {
    SingleKeyPath();
    XContext(v);
    var c := DataContext(Obj(map["x" := v]), Obj(map[]));
    assert Walk(Obj(c), ["x"]) == Walk(v, []);
  }

  /** The data context of `{x: v}` with no variables holds `x`, whatever else it holds. */
  lemma XContext(v: Value)
    requires v.Null? || v.Undef?
    ensures var c := DataContext(Obj(map["x" := v]), Obj(map[]));
      "x" in c && c["x"] == v
  {
    assert Get(Obj(map["x" := v]), "data") == Undef && Get(Obj(map["x" := v]), "value") == Undef;
    assert Get(Get(Obj(map["x" := v]), "inputs"), "data") == Undef;
  }

  /** Placeholders of either syntax that resolve to nothing stay verbatim. */
  lemma LoggerKeepsUnresolved(s: string, inputs: Value, variables: Value, stringify: Value -> string)
    requires forall p :: LoggerResolve(inputs, variables, stringify, p).None?
    ensures LoggerTemplate(Str(s), inputs, variables, stringify) == Str(s)
  {
    var fn := p => LoggerResolve(inputs, variables, stringify, p);
    ReplaceKeepsUnresolved(s, Dollar, fn);
    ReplaceKeepsUnresolved(s, Braces, fn);
  }

  // ---------------------------------------------------------------------------
  // summarizeObject

  const MaxLength := 100

  /** `str.substring(0, n)` */
  function Prefix(s: string, n: nat): (r: string)
    ensures |r| <= n && |r| <= |s|
  {
    if |s| <= n then s else s[..n]
  }

  /**
   * `keys` is what `Object.keys(v)` gives: each own key of an object once,
   * or the indices of an array in order.
   */
  predicate ObjectKeys(v: Value, keys: seq<string>) {
    && (v.Obj? ==> |keys| == |v.fields| && (forall k :: k in keys ==> k in v.fields) && (forall k :: k in v.fields ==> k in keys))
    && (v.Arr? ==> |keys| == |v.items| && forall i :: 0 <= i < |keys| ==> keys[i] == IntToStr(i))
  }

  /**
   * `summarizeObject(obj)`; `keys` is `Object.keys(obj)`, supplied because
   * values do not record the order of their keys. The length test counts
   * UTF-16 code units, as `json.length` does.
   */
  function SummarizeObject(obj: Value, keys: seq<string>, stringify: Value -> string): (r: string)
    requires ObjectKeys(obj, keys)
    ensures obj.Null? || obj.Undef? ==> r == ToStr(obj)
    ensures !IsObjectType(obj) && !obj.Undef? ==> |r| <= MaxLength && r == Prefix(ToStr(obj), MaxLength)
    ensures IsObjectType(obj) && !obj.Null? && Utf16Length(stringify(obj)) <= MaxLength ==> r == stringify(obj)
    // a long object with keys: at most three key names, ", ..." exactly when some are left out, and the count
    ensures IsObjectType(obj) && !obj.Null? && Utf16Length(stringify(obj)) > MaxLength && keys != [] ==>
      && r == "{" + Join(keys[..if |keys| < 3 then |keys| else 3], ", ") + (if |keys| > 3 then ", ..." else "") + "}"
              + " (" + IntToStr(|keys|) + " keys)"
      && EndsWith(r, " (" + IntToStr(|keys|) + " keys)")
    // a long object without keys: its text cut to 97 characters, then "..."
    ensures IsObjectType(obj) && !obj.Null? && Utf16Length(stringify(obj)) > MaxLength && keys == [] ==>
      && r == Prefix(stringify(obj), MaxLength - 3) + "..." && EndsWith(r, "...")
      && (|stringify(obj)| >= MaxLength - 3 ==> |r| == MaxLength)
  {
    if obj.Null? || obj.Undef? then ToStr(obj)
    else if !IsObjectType(obj) then Prefix(ToStr(obj), MaxLength)
    else
      var json := stringify(obj);
      if Utf16Length(json) <= MaxLength then json
      else if |keys| > 0 then KeySummary(keys)
      else
        var cut := Prefix(json, MaxLength - 3);
        EndsWithAppend(cut, "...");
        cut + "..."
  }

  /**
   * JSON of 68 characters, 60 of them above U+FFFF, is 128 code units:
   * too long, so the object is summarised by its key.
   */
  lemma AstralJsonIsLong(c: char, stringify: Value -> string)
    requires c as int >= 0x1_0000
    requires var text := seq(60, _ => c);
      stringify(Obj(map["a" := Str(text)])) == "{\"a\":\"" + text + "\"}"
    ensures SummarizeObject(Obj(map["a" := Str(seq(60, _ => c))]), ["a"], stringify) == "{a} (1 keys)"
  {
    var text := seq(60, _ => c);
    var obj := Obj(map["a" := Str(text)]);
    Utf16Astral(c, 60);
    Utf16Append("{\"a\":\"", text);
    Utf16Append("{\"a\":\"" + text, "\"}");
    assert Utf16Length(stringify(obj)) > MaxLength;
    assert ObjectKeys(obj, ["a"]) by {
      assert obj.fields.Keys == {"a"};
    }
    assert ["a"][..1] == ["a"];
  }

  /** The summary of a long object: its first three keys and how many it has. */
  function KeySummary(keys: seq<string>): (r: string)
    ensures EndsWith(r, " (" + IntToStr(|keys|) + " keys)")
  {
    var shown := Join(keys[..if |keys| < 3 then |keys| else 3], ", ");
    var head := "{" + shown + (if |keys| > 3 then ", ..." else "") + "}";
    var tail := " (" + IntToStr(|keys|) + " keys)";
    EndsWithAppend(head, tail);
    head + tail
  }

  // ---------------------------------------------------------------------------
  // The entry and its console line

  /** The TypeError of `logEntry.level.toUpperCase()` for a level that is not a string. */
  function LevelError(level: Value): string {
    if level.Null? || level.Undef? then "Cannot read properties of " + ToStr(level) + " (reading 'toUpperCase')"
    else "logEntry.level.toUpperCase is not a function"
  }

  /** The message of the entry. */
  function EntryMessage(message: Value, inputs: Value, variables: Value, stringify: Value -> string): Value {
    if Truthy(message) then LoggerTemplate(message, inputs, variables, stringify) else Str("Workflow execution log")
  }

  /** `parts.join(' ')` writes each part as a string. */
  function PartText(v: Value): string {
    if v.Null? || v.Undef? then "" else ToStr(v)
  }

  /**
   * `formatLogMessage(logEntry)` for a string level: the time, the level in
   * capitals, the node name when present, the message, and a summary of the
   * inputs when there is one, separated by spaces.
   */
  method FormatLogMessage(localeTime: string, level: string, nodeName: Value, message: Value, inputs: Option<Value>,
                          inputKeys: seq<string>, stringify: Value -> string)
    returns (line: string)
    requires inputs.Some? ==> ObjectKeys(inputs.value, inputKeys)
    ensures var summary := if inputs.Some? && Truthy(inputs.value) then SummarizeObject(inputs.value, inputKeys, stringify) else "";
      line == Join(["[" + localeTime + "]", "[" + ToUpper(level) + "]"]
                   + (if Truthy(nodeName) then ["[" + ToStr(nodeName) + "]"] else [])
                   + [PartText(message)]
                   + (if summary != "" then ["| Data: " + summary] else []), " ")
  {
    var parts: seq<string> := [];
    parts := parts + ["[" + localeTime + "]"];
    parts := parts + ["[" + ToUpper(level) + "]"];
    if Truthy(nodeName) {
      parts := parts + ["[" + ToStr(nodeName) + "]"];
    }
    parts := parts + [PartText(message)];
    if inputs.Some? && Truthy(inputs.value) {
      var inputSummary := SummarizeObject(inputs.value, inputKeys, stringify);
      if inputSummary != "" {
        parts := parts + ["| Data: " + inputSummary];
      }
    }
    assert parts == ["[" + localeTime + "]", "[" + ToUpper(level) + "]"]
                   + (if Truthy(nodeName) then ["[" + ToStr(nodeName) + "]"] else [])
                   + [PartText(message)]
                   + (if inputs.Some? && Truthy(inputs.value) && SummarizeObject(inputs.value, inputKeys, stringify) != ""
                      then ["| Data: " + SummarizeObject(inputs.value, inputKeys, stringify)] else []);
    line := Join(parts, " ");
  }

  /** The success answer around an entry. */
  function LoggedResult(entry: map<string, Value>, level: Value, timestamp: string): Value {
    Obj(map["success" := Bool(true), "logged" := Bool(true), "entry" := Obj(entry),
            "message" := if "message" in entry then entry["message"] else Undef,
            "level" := level, "timestamp" := Str(timestamp)])
  }

  function LoggerError(details: string, message: Value): Value {
    Obj(map["error" := Bool(true), "message" := Str("Logger execution failed"), "details" := Str(details),
            "originalMessage" := message])
  }

  /**
   * The log entry `execute` builds: level, timestamp, execution and node
   * ids, the node's name or 'Logger', the templated message or the fixed
   * text, and the inputs and node description when the flags ask for them.
   */
  function LogEntry(config: Value, inputs: Value, ctx: NodeCtx, stringify: Value -> string, timestamp: string)
    : (entry: map<string, Value>)
    ensures entry.Keys == {"level", "timestamp", "executionId", "nodeId", "nodeName", "message"}
      + (if Truthy(Default(Get(config, "includeInputs"), Bool(false))) then {"inputs"} else {})
      + (if Truthy(Default(Get(config, "includeNodeInfo"), Bool(false))) then {"node"} else {})
    ensures entry["level"] == Default(Get(config, "level"), Str("info"))
    ensures entry["timestamp"] == Str(timestamp) && entry["executionId"] == ctx.executionId
    ensures entry["nodeId"] == ctx.nodeId && Truthy(entry["nodeName"])
    ensures entry["message"] == EntryMessage(Default(Get(config, "message"), Str("")), inputs, ctx.variables, stringify)
    ensures "inputs" in entry ==> entry["inputs"] == inputs
    ensures "node" in entry ==> entry["node"] == Obj(map["id" := ctx.nodeId, "name" := ctx.nodeName, "type" := Str("logger")])
  {
    var message := Default(Get(config, "message"), Str(""));
    var base := map["level" := Default(Get(config, "level"), Str("info")), "timestamp" := Str(timestamp),
                    "executionId" := ctx.executionId, "nodeId" := ctx.nodeId,
                    "nodeName" := Or(ctx.nodeName, Str("Logger")),
                    "message" := EntryMessage(message, inputs, ctx.variables, stringify)];
    var withInputs := if Truthy(Default(Get(config, "includeInputs"), Bool(false))) then base["inputs" := inputs] else base;
    if Truthy(Default(Get(config, "includeNodeInfo"), Bool(false))) then
      withInputs["node" := Obj(map["id" := ctx.nodeId, "name" := ctx.nodeName, "type" := Str("logger")])]
    else withInputs
  }

  /** The node's own name is used when it is truthy, 'Logger' otherwise. */
  lemma EntryNodeName(config: Value, inputs: Value, ctx: NodeCtx, stringify: Value -> string, timestamp: string)
    ensures LogEntry(config, inputs, ctx, stringify, timestamp)["nodeName"] == Or(ctx.nodeName, Str("Logger"))
  {
  }

  /** The XADD arguments: the stream of the workflow and the entry's fields. */
  function StreamRecord(entry: map<string, Value>, ctx: NodeCtx, now: int, stringify: Value -> string): StreamEntry
    requires "level" in entry && "message" in entry
  {
    StreamEntry("workflow:" + ToStr(ctx.workflowId) + ":logs",
                [Str("level"), entry["level"], Str("message"), entry["message"],
                 Str("executionId"), ctx.executionId, Str("nodeId"), ctx.nodeId,
                 Str("timestamp"), Int(now), Str("data"), Str(stringify(Obj(entry)))])
  }

  /**
   * `execute(nodeConfig, inputs, context)` for a configuration object.
   * `consoleMessage` is the line handed to `context.log`, and `stream` the
   * record appended to the workflow's log stream.
   */
  method Execute(config: Value, inputs: Value, ctx: NodeCtx, stringify: Value -> string, timestamp: string,
                 localeTime: string, now: int, inputKeys: seq<string>)
    returns (r: Value, entry: map<string, Value>, consoleMessage: Option<string>, stream: Option<StreamEntry>)
    requires !config.Null? && !config.Undef?
    requires ObjectKeys(inputs, inputKeys)
    ensures entry == LogEntry(config, inputs, ctx, stringify, timestamp)
    ensures var level := entry["level"];
      && (!level.Str? ==> r == LoggerError(LevelError(level), Default(Get(config, "message"), Str("")))
                          && consoleMessage.None? && stream.None?)
      && (level.Str? ==> r == LoggedResult(entry, level, timestamp) && consoleMessage.Some?)
      && (stream.Some? <==> level.Str? && Truthy(ctx.workflowId))
      && (stream.Some? ==> stream.value == StreamRecord(entry, ctx, now, stringify))
  {
    entry := LogEntry(config, inputs, ctx, stringify, timestamp);
    var level := entry["level"];
    if !level.Str? {
      return LoggerError(LevelError(level), Default(Get(config, "message"), Str(""))), entry, None, None;
    }
    var line := FormatLogMessage(localeTime, level.s, entry["nodeName"], entry["message"],
                                 if "inputs" in entry then Some(entry["inputs"]) else None, inputKeys, stringify);
    consoleMessage := Some(line);
    stream := None;
    if Truthy(ctx.workflowId) {
      stream := Some(StreamRecord(entry, ctx, now, stringify));
    }
    r := LoggedResult(entry, level, timestamp);
  }

  /** An empty message logs the fixed text; a plain message without placeholders is kept. */
  lemma DefaultMessage(inputs: Value, variables: Value, stringify: Value -> string)
    ensures EntryMessage(Str(""), inputs, variables, stringify) == Str("Workflow execution log")
    ensures EntryMessage(Undef, inputs, variables, stringify) == Str("Workflow execution log")
    ensures EntryMessage(Str("ok"), inputs, variables, stringify) == Str("ok")
  {
    var fn := p => LoggerResolve(inputs, variables, stringify, p);
    assert "ok"[0..2] == "ok";
    assert !Includes("ok", "${");
    assert !Includes("ok", "{{");
    ReplaceWithoutOpen("ok", Dollar, fn);
    ReplaceWithoutOpen("ok", Braces, fn);
  }
}
