/**
 * The redisGet executor (backend/src/workflow/nodes/redisGetExecutor.js):
 * read a key as the configured data type, decode JSON-looking text, treat
 * an empty aggregate as missing, and answer with the found, not-found or
 * error record.
 *
 * `JSON.parse` is the parameter `parse` (Err carries the SyntaxError
 * message); the ISO timestamp is the parameter `timestamp`.
 */
module RedisGet {
  import opened Wrappers
  import opened JsValue
  import opened Template
  import opened RedisStore
  import opened RedisSet

  /** `v && (v.startsWith('{') || v.startsWith('['))` */
  predicate LooksLikeJson(s: string) {
    s != "" && (s[0] == '{' || s[0] == '[')
  }

  /** One stored string, decoded when it looks like JSON and parses; the raw text otherwise. */
  function DecodeElem(s: string, parse: string -> Result<Value, string>): (r: Value)
    ensures !LooksLikeJson(s) || parse(s).Err? ==> r == Str(s)
    ensures LooksLikeJson(s) && parse(s).Ok? ==> r == parse(s).value
  {
    if LooksLikeJson(s) && parse(s).Ok? then parse(s).value else Str(s)
  }

  /** `value.map(...)` over a list or the members of a set. */
  function DecodeAll(items: seq<string>, parse: string -> Result<Value, string>): (r: seq<Value>)
    ensures |r| == |items| && forall i :: 0 <= i < |items| ==> r[i] == DecodeElem(items[i], parse)
  {
    seq(|items|, i requires 0 <= i < |items| => DecodeElem(items[i], parse))
  }

  /** The hash after its JSON-looking fields are decoded. */
  function DecodeFields(f: map<string, string>, parse: string -> Result<Value, string>): (r: map<string, Value>)
    ensures r.Keys == f.Keys && forall k :: k in f ==> r[k] == DecodeElem(f[k], parse)
  {
    map k | k in f :: DecodeElem(f[k], parse)
  }

  function Strings(items: seq<string>): (r: seq<Value>)
    ensures |r| == |items| && forall i :: 0 <= i < |items| ==> r[i] == Str(items[i])
  {
    seq(|items|, i requires 0 <= i < |items| => Str(items[i]))
  }

  function StringFields(f: map<string, string>): map<string, Value> {
    map k | k in f :: Str(f[k])
  }

  function GetDataType(config: Value): Value {
    Default(Get(config, "dataType"), Str("string"))
  }

  function ParseJsonFlag(config: Value): bool {
    Truthy(Default(Get(config, "parseJson"), Bool(true)))
  }

  /**
   * What the `switch (dataType)` reads from the store: the value (null for
   * a missing key or an empty aggregate), or the message of what it throws.
   */
  function Fetched(entries: map<string, Entry>, k: string, dt: Value, parseJson: bool,
                   parse: string -> Result<Value, string>): Result<Value, string>
  {
    var e := if k in entries then Some(entries[k]) else None;
    if dt == Str("string") then
      if e.None? then Ok(Null)
      else if !e.value.StrVal? then Err(WrongType)
      else Ok(if parseJson then DecodeElem(e.value.s, parse) else Str(e.value.s))
    else if dt == Str("hash") then
      if e.None? then Ok(Null)
      else if !e.value.Hash? then Err(WrongType)
      else if e.value.fields == map[] then Ok(Null)
      else Ok(Obj(if parseJson then DecodeFields(e.value.fields, parse) else StringFields(e.value.fields)))
    else if dt == Str("list") || dt == Str("set") then
      var want := if dt == Str("list") then e.Some? && e.value.List? else e.Some? && e.value.SetVal?;
      if e.Some? && !want then Err(WrongType)
      else
        var items := if e.None? then [] else if e.value.List? then e.value.items else e.value.members;
        if items == [] then Ok(Null)
        else Ok(Arr(if parseJson then DecodeAll(items, parse) else Strings(items)))
    else if dt == Str("json") then
      if e.None? then Ok(Null)
      else if !e.value.StrVal? then Err(WrongType)
      else if e.value.s == "" then Ok(Str(""))
      else if parse(e.value.s).Err? then Err("Failed to parse JSON value: " + parse(e.value.s).error)
      else Ok(parse(e.value.s).value)
    else Err("Unsupported data type: " + ToStr(dt))
  }

  function NotFound(key: Value): Value {
    Obj(map["success" := Bool(false), "found" := Bool(false), "key" := key, "value" := Null,
            "message" := Str("Key not found")])
  }

  function Found(key: Value, value: Value, dataType: Value, timestamp: string): Value {
    Obj(map["success" := Bool(true), "found" := Bool(true), "key" := key, "value" := value,
            "dataType" := dataType, "timestamp" := Str(timestamp)])
  }

  /** The error record carries the raw configured key. */
  function GetError(details: string, config: Value): Value {
    Obj(map["error" := Bool(true), "message" := Str("Redis GET operation failed"), "details" := Str(details),
            "key" := Get(config, "key")])
  }

  /** The node's answer for what was read. */
  function Respond(fetched: Result<Value, string>, config: Value, inputs: Value, variables: Value,
                   timestamp: string): (r: Value)
    ensures fetched.Err? ==> Get(r, "error") == Bool(true) && Get(r, "details") == Str(fetched.error)
    ensures fetched.Ok? && (fetched.value.Null? || fetched.value.Undef?) ==>
      Get(r, "found") == Bool(false) && Get(r, "value") == Null && Get(r, "message") == Str("Key not found")
    ensures fetched.Ok? && !fetched.value.Null? && !fetched.value.Undef? ==>
      Get(r, "found") == Bool(true) && Get(r, "success") == Bool(true) && Get(r, "value") == fetched.value
    ensures !fetched.Err? ==> Get(r, "key") == ReplaceTemplateVariables(Get(config, "key"), inputs, variables)
  {
    var processedKey := ReplaceTemplateVariables(Get(config, "key"), inputs, variables);
    match fetched
    case Err(m) => GetError(m, config)
    case Ok(v) =>
      if v.Null? || v.Undef? then NotFound(processedKey)
      else Found(processedKey, v, GetDataType(config), timestamp)
  }

  /** The hash branch: each JSON-looking field is overwritten in place by its decoding. */
  method DecodeHash(f: map<string, string>, parse: string -> Result<Value, string>) returns (value: map<string, Value>)
    ensures value == DecodeFields(f, parse)
  {
    value := StringFields(f);
    var rest := f.Keys;
    while rest != {}
      invariant rest <= f.Keys && value.Keys == f.Keys
      invariant forall k :: k in f && k !in rest ==> value[k] == DecodeElem(f[k], parse)
      invariant forall k :: k in rest ==> value[k] == Str(f[k])
      decreases |rest|
    {
      var k :| k in rest;
      var v := f[k];
      if LooksLikeJson(v) {
        var parsed := parse(v);
        if parsed.Ok? {
          value := value[k := parsed.value];
        }
      }
      assert value[k] == DecodeElem(f[k], parse);
      rest := rest - {k};
    }
    SameFields(value, f, parse);
  }

  lemma SameFields(value: map<string, Value>, f: map<string, string>, parse: string -> Result<Value, string>)
    requires value.Keys == f.Keys && forall k :: k in f ==> value[k] == DecodeElem(f[k], parse)
    ensures value == DecodeFields(f, parse)
  {
  }

  /** `execute(nodeConfig, inputs, context)` for a configuration object, reading `store`. */
  method Execute(store: Store, config: Value, inputs: Value, variables: Value, parse: string -> Result<Value, string>,
                 timestamp: string)
    returns (r: Value)
    requires !config.Null? && !config.Undef?
    ensures r == Respond(Fetched(store.entries, ToStr(ReplaceTemplateVariables(Get(config, "key"), inputs, variables)),
                                 GetDataType(config), ParseJsonFlag(config), parse),
                         config, inputs, variables, timestamp)
  {
    var processedKey := ReplaceTemplateVariables(Get(config, "key"), inputs, variables);
    var fetched := Read(store, ToStr(processedKey), GetDataType(config), ParseJsonFlag(config), parse);
    r := Respond(fetched, config, inputs, variables, timestamp);
  }

  /** The `switch (dataType)` with its reads. */
  method Read(store: Store, k: string, dataType: Value, parseJson: bool, parse: string -> Result<Value, string>)
    returns (fetched: Result<Value, string>)
    ensures fetched == Fetched(store.entries, k, dataType, parseJson, parse)
  {
    if dataType == Str("string") {
      var reply := store.Get(k);
      if reply.Err? {
        return Err(reply.error);
      }
      if reply.value.None? {
        return Ok(Null);
      }
      var value := Str(reply.value.value);
      if parseJson {
        value := DecodeElem(reply.value.value, parse);
      }
      fetched := Ok(value);
    } else if dataType == Str("hash") {
      var reply := store.HGetAll(k);
      if reply.Err? {
        return Err(reply.error);
      }
      var value := StringFields(reply.value);
      if parseJson {
        value := DecodeHash(reply.value, parse);
      }
      if reply.value == map[] {
        return Ok(Null);
      }
      fetched := Ok(Obj(value));
    } else if dataType == Str("list") || dataType == Str("set") {
      var reply;
      if dataType == Str("list") {
        reply := store.LRange(k);
      } else {
        reply := store.SMembers(k);
      }
      if reply.Err? {
        return Err(reply.error);
      }
      var value := Strings(reply.value);
      if parseJson {
        value := DecodeAll(reply.value, parse);
      }
      if |value| == 0 {
        return Ok(Null);
      }
      fetched := Ok(Arr(value));
    } else if dataType == Str("json") {
      var reply := store.Get(k);
      if reply.Err? {
        return Err(reply.error);
      }
      if reply.value.None? {
        return Ok(Null);
      }
      var text := reply.value.value;
      if text == "" {
        return Ok(Str(""));
      }
      var parsed := parse(text);
      if parsed.Err? {
        return Err("Failed to parse JSON value: " + parsed.error);
      }
      fetched := Ok(parsed.value);
    } else {
      fetched := Err("Unsupported data type: " + ToStr(dataType));
    }
  }

  // ---------------------------------------------------------------------------
  // Properties

  /** A missing key, or a key that holds no hash, list or set members, is not found. */
  lemma MissingIsNotFound(entries: map<string, Entry>, k: string, dt: Value, parseJson: bool,
                          parse: string -> Result<Value, string>)
    requires k !in entries
    requires dt in {Str("string"), Str("hash"), Str("list"), Str("set"), Str("json")}
    ensures Fetched(entries, k, dt, parseJson, parse) == Ok(Null)
  {
  }

  /** Text that looks like JSON but does not parse: kept as a string, but an error for `json`. */
  lemma BrokenJson(entries: map<string, Entry>, k: string, parse: string -> Result<Value, string>)
    requires k in entries && entries[k].StrVal? && LooksLikeJson(entries[k].s) && parse(entries[k].s).Err?
    ensures Fetched(entries, k, Str("string"), true, parse) == Ok(Str(entries[k].s))
    ensures Fetched(entries, k, Str("json"), true, parse) == Err("Failed to parse JSON value: " + parse(entries[k].s).error)
  {
  }

  /** JSON text `null` under `json` reads as not found. */
  lemma JsonNullNotFound(entries: map<string, Entry>, k: string, parse: string -> Result<Value, string>)
    requires k in entries && entries[k] == StrVal("null") && parse("null") == Ok(Null)
    ensures Fetched(entries, k, Str("json"), true, parse) == Ok(Null)
  {
  }

  /**
   * An object written with the `string` data type reads back as the same
   * object, when its JSON text starts with '{' and parses back to it.
   */
  lemma StringRoundTrip(entries: map<string, Entry>, ttls: map<string, int>, k: string, v: Value,
                        stringify: Value -> string, parse: string -> Result<Value, string>, ttl: Option<int>)
    requires v.Obj? && StartsWith(stringify(v), "{") && parse(stringify(v)) == Ok(v)
    ensures var e := EffectOf(entries, ttls, k, PlanOf(Str("string"), v, stringify).cmd, ttl);
      Fetched(e.entries, k, Str("string"), true, parse) == Ok(v)
  {
  }

  /**
   * A list written from an array of elements that each round-trip reads
   * back element by element, in order.
   */
  lemma ListRoundTrip(entries: map<string, Entry>, ttls: map<string, int>, k: string, items: seq<Value>,
                      stringify: Value -> string, parse: string -> Result<Value, string>, ttl: Option<int>)
    requires k !in entries && items != []
    requires forall i :: 0 <= i < |items| ==> DecodeElem(Encode(items[i], stringify), parse) == items[i]
    ensures var e := EffectOf(entries, ttls, k, PlanOf(Str("list"), Arr(items), stringify).cmd, ttl);
      Fetched(e.entries, k, Str("list"), true, parse) == Ok(Arr(items))
  {
    var values := EncodeAll(items, stringify);
    assert PlanOf(Str("list"), Arr(items), stringify).cmd == Push(values);
    var e := EffectOf(entries, ttls, k, Push(values), ttl);
    assert e.entries[k] == List([] + values);
    assert [] + values == values;
    assert DecodeAll(values, parse) == items;
  }
}
