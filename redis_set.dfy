/**
 * The redisSet executor (backend/src/workflow/nodes/redisSetExecutor.js):
 * choose the value to store, encode it for the data type, write it to the
 * store, and answer with a success record that the inputs are spread over,
 * or with the error record.
 *
 * `JSON.stringify` is the parameter `stringify`; the ISO timestamp is the
 * parameter `timestamp`. A key that is not a string is stored under its
 * `String(...)` form.
 */
module RedisSet {
  import opened Wrappers
  import opened JsValue
  import opened Template
  import opened RedisStore

  /** The configured values that mean "store the inputs instead". */
  predicate FallsBack(value: Value) {
    value.Undef? || value.Null? || value == Str("")
    || value == Str("${JSON.stringify(data)}") || value == Str("[object Object]")
  }

  /** The choice of `valueToStore`, before templating. */
  function Chosen(value: Value, inputs: Value): (r: Value)
    ensures FallsBack(value) ==> r == inputs
    ensures !FallsBack(value) ==> r == value
  {
    if FallsBack(value) then inputs else value
  }

  /** `valueToStore` after templating a string. */
  function ToStore(value: Value, inputs: Value, variables: Value): Value {
    var c := Chosen(value, inputs);
    if c.Str? then ReplaceTemplateVariables(c, inputs, variables) else c
  }

  /** `typeof v === 'object' ? JSON.stringify(v) : String(v)` */
  function Encode(v: Value, stringify: Value -> string): string {
    if IsObjectType(v) then stringify(v) else ToStr(v)
  }

  /** The elements pushed for a list or set: the array's, or the value alone. */
  function Elements(v: Value): (r: seq<Value>)
    ensures v.Arr? ==> r == v.items
    ensures !v.Arr? ==> r == [v]
  {
    if v.Arr? then v.items else [v]
  }

  function EncodeAll(vs: seq<Value>, stringify: Value -> string): (r: seq<string>)
    ensures |r| == |vs| && forall i :: 0 <= i < |vs| ==> r[i] == Encode(vs[i], stringify)
  {
    seq(|vs|, i requires 0 <= i < |vs| => Encode(vs[i], stringify))
  }

  /** `ttl && ttl > 0`, for a numeric TTL. */
  function TtlSeconds(ttl: Value): (r: Option<int>)
    ensures r.Some? <==> ttl.Int? && ttl.i > 0
    ensures r.Some? ==> r.value == ttl.i
  {
    if ttl.Int? && ttl.i > 0 then Some(ttl.i) else None
  }

  /** The hash fields of an object: each value JSON-encoded or `String(...)`-ed. */
  function HashOf(f: map<string, Value>, stringify: Value -> string): (h: map<string, string>)
    ensures h.Keys == f.Keys
    ensures forall k :: k in f ==> h[k] == Encode(f[k], stringify)
  {
    map k | k in f :: Encode(f[k], stringify)
  }

  /** The write a data type asks for. */
  datatype Command =
    | SetText(text: string)
    | HashFields(fields: map<string, string>)
    | Push(values: seq<string>)
    | Add(members: seq<string>)

  /** What the `switch (dataType)` decides: a write and the value reported as stored, or an error. */
  datatype Plan = Write(cmd: Command, stored: Value) | Refuse(details: string)

  function DataType(config: Value): Value {
    Default(Get(config, "dataType"), Str("string"))
  }

  function PlanFor(config: Value, inputs: Value, variables: Value, stringify: Value -> string): Plan {
    PlanOf(DataType(config), ToStore(Get(config, "value"), inputs, variables), stringify)
  }

  /** The plan for storing `v` under the data type `dt`. */
  function PlanOf(dt: Value, v: Value, stringify: Value -> string): Plan {
    if dt == Str("string") then Write(SetText(Encode(v, stringify)), Str(Encode(v, stringify)))
    else if dt == Str("hash") then
      if v.Obj? then Write(HashFields(HashOf(v.fields, stringify)), v)
      else if v.Null? then Refuse("Cannot convert undefined or null to object")
      else Refuse("Hash data type requires an object value")
    else if dt == Str("list") then Write(Push(EncodeAll(Elements(v), stringify)), v)
    else if dt == Str("set") then Write(Add(EncodeAll(Elements(v), stringify)), v)
    else if dt == Str("json") then Write(SetText(stringify(v)), v)
    else Refuse("Unsupported data type: " + ToStr(dt))
  }

  /** The key after templating. */
  function ProcessedKey(config: Value, inputs: Value, variables: Value): Value {
    ReplaceTemplateVariables(Get(config, "key"), inputs, variables)
  }

  /** The success record; the inputs are spread last and win over its own fields. */
  function SuccessResult(key: Value, stored: Value, dataType: Value, ttl: Value, reply: Value,
                         inputs: Value, timestamp: string): (r: Value)
    ensures r.Obj? && r.fields.Keys == {"success", "key", "value", "dataType", "ttl", "result", "timestamp"} + Spread(inputs).Keys
    ensures forall k :: k in Spread(inputs) ==> r.fields[k] == Spread(inputs)[k]
    ensures "success" !in Spread(inputs) ==> r.fields["success"] == Bool(true)
    ensures "value" !in Spread(inputs) ==> r.fields["value"] == stored
    ensures "ttl" !in Spread(inputs) ==> r.fields["ttl"] == Or(ttl, Null)
  {
    Obj(map["success" := Bool(true), "key" := key, "value" := stored, "dataType" := dataType,
            "ttl" := Or(ttl, Null), "result" := reply, "timestamp" := Str(timestamp)] + Spread(inputs))
  }

  /** The error record: the raw configured key and value, not the processed ones. */
  function ErrorResult(details: string, config: Value): (r: Value)
    ensures r.Obj? && r.fields.Keys == {"error", "message", "details", "key", "value"}
    ensures r.fields["error"] == Bool(true) && r.fields["message"] == Str("Redis SET operation failed")
    ensures r.fields["details"] == Str(details)
    ensures r.fields["key"] == Get(config, "key") && r.fields["value"] == Get(config, "value")
  {
    Obj(map["error" := Bool(true), "message" := Str("Redis SET operation failed"), "details" := Str(details),
            "key" := Get(config, "key"), "value" := Get(config, "value")])
  }

  /** The `for (const [k, v] of Object.entries(valueToStore))` loop filling `hashData`. */
  method FlattenHash(f: map<string, Value>, stringify: Value -> string) returns (hashData: map<string, string>)
    ensures hashData == HashOf(f, stringify)
  {
    hashData := map[];
    var rest := f.Keys;
    while rest != {}
      invariant rest <= f.Keys
      invariant hashData.Keys == f.Keys - rest
      invariant forall k :: k in hashData ==> hashData[k] == Encode(f[k], stringify)
      decreases |rest|
    {
      var k :| k in rest;
      hashData := hashData[k := Encode(f[k], stringify)];
      rest := rest - {k};
    }
  }

  /** A store state and the reply of the command that produced it. */
  datatype Effect = Effect(entries: map<string, Entry>, ttls: map<string, int>, reply: Result<Value, string>)

  /** `EXPIRE` after a successful write, when the TTL applies. */
  function Expiring(ttls: map<string, int>, k: string, ttl: Option<int>): map<string, int> {
    if ttl.Some? then ttls[k := ttl.value] else ttls
  }

  /**
   * What the write of a command does to the store: SET or SETEX for text;
   * HSET, RPUSH or SADD followed by EXPIRE when they succeed and a TTL applies.
   */
  function EffectOf(entries: map<string, Entry>, ttls: map<string, int>, k: string, cmd: Command, ttl: Option<int>): Effect {
    match cmd
    case SetText(t) =>
      Effect(entries[k := StrVal(t)], if ttl.Some? then ttls[k := ttl.value] else ttls - {k}, Ok(Str("OK")))
    case HashFields(f) =>
      if f == map[] then Effect(entries, ttls, Err(ArityError("hset")))
      else if k in entries && !entries[k].Hash? then Effect(entries, ttls, Err(WrongType))
      else
        var had := if k in entries then entries[k].fields else map[];
        Effect(entries[k := Hash(had + f)], Expiring(ttls, k, ttl), Ok(Int(|f.Keys - had.Keys|)))
    case Push(values) =>
      if values == [] then Effect(entries, ttls, Err(ArityError("rpush")))
      else if k in entries && !entries[k].List? then Effect(entries, ttls, Err(WrongType))
      else
        var had := if k in entries then entries[k].items else [];
        Effect(entries[k := List(had + values)], Expiring(ttls, k, ttl), Ok(Int(|had| + |values|)))
    case Add(members) =>
      if members == [] then Effect(entries, ttls, Err(ArityError("sadd")))
      else if k in entries && !entries[k].SetVal? then Effect(entries, ttls, Err(WrongType))
      else
        var had := if k in entries then entries[k].members else [];
        var after := AddMembers(had, members);
        Effect(entries[k := SetVal(after)], Expiring(ttls, k, ttl), Ok(Int(|after| - |had|)))
  }

  /** The `switch (dataType)` writes for a planned command. */
  method Perform(store: Store, k: string, cmd: Command, ttl: Option<int>) returns (reply: Result<Value, string>)
    requires store.Valid() && (ttl.Some? ==> ttl.value > 0)
    modifies store
    ensures store.Valid()
    ensures Effect(store.entries, store.ttls, reply) == EffectOf(old(store.entries), old(store.ttls), k, cmd, ttl)
  {
    match cmd
    case SetText(t) =>
      var ok;
      if ttl.Some? {
        ok := store.SetEx(k, ttl.value, t);
      } else {
        ok := store.Set(k, t);
      }
      reply := Ok(ok);
    case HashFields(f) =>
      reply := WriteHash(store, k, f, ttl);
    case Push(values) =>
      reply := WriteList(store, k, values, ttl);
    case Add(members) =>
      reply := WriteSet(store, k, members, ttl);
  }

  /** `hset`, then `expire` when it succeeded and a TTL applies. */
  method WriteHash(store: Store, k: string, f: map<string, string>, ttl: Option<int>) returns (reply: Result<Value, string>)
    requires store.Valid() && (ttl.Some? ==> ttl.value > 0)
    modifies store
    ensures store.Valid()
    ensures Effect(store.entries, store.ttls, reply) == EffectOf(old(store.entries), old(store.ttls), k, HashFields(f), ttl)
  {
    reply := store.HSet(k, f);
    if reply.Ok? && ttl.Some? {
      var _ := store.Expire(k, ttl.value);
    }
  }

  /** `rpush`, then `expire` when it succeeded and a TTL applies. */
  method WriteList(store: Store, k: string, values: seq<string>, ttl: Option<int>) returns (reply: Result<Value, string>)
    requires store.Valid() && (ttl.Some? ==> ttl.value > 0)
    modifies store
    ensures store.Valid()
    ensures Effect(store.entries, store.ttls, reply) == EffectOf(old(store.entries), old(store.ttls), k, Push(values), ttl)
  {
    reply := store.RPush(k, values);
    if reply.Ok? && ttl.Some? {
      var _ := store.Expire(k, ttl.value);
    }
  }

  /** `sadd`, then `expire` when it succeeded and a TTL applies. */
  method WriteSet(store: Store, k: string, members: seq<string>, ttl: Option<int>) returns (reply: Result<Value, string>)
    requires store.Valid() && (ttl.Some? ==> ttl.value > 0)
    modifies store
    ensures store.Valid()
    ensures Effect(store.entries, store.ttls, reply) == EffectOf(old(store.entries), old(store.ttls), k, Add(members), ttl)
  {
    reply := store.SAdd(k, members);
    if reply.Ok? && ttl.Some? {
      var _ := store.Expire(k, ttl.value);
    }
  }

  /** The node's answer for a plan and the reply of its write. */
  function Answer(plan: Plan, reply: Result<Value, string>, config: Value, inputs: Value, variables: Value,
                  timestamp: string): Value
  {
    if plan.Refuse? then ErrorResult(plan.details, config)
    else if reply.Err? then ErrorResult(reply.error, config)
    else SuccessResult(ProcessedKey(config, inputs, variables), plan.stored, DataType(config), Get(config, "ttl"),
                       reply.value, inputs, timestamp)
  }

  /**
   * `execute(nodeConfig, inputs, context)` for a configuration object,
   * writing to `store`: a refused plan writes nothing; otherwise the store
   * changes as the planned command says, and the answer reports its reply.
   */
  method Execute(store: Store, config: Value, inputs: Value, variables: Value, stringify: Value -> string,
                 timestamp: string)
    returns (r: Value)
    requires store.Valid() && !config.Null? && !config.Undef?
    modifies store
    ensures store.Valid()
    ensures var plan := PlanFor(config, inputs, variables, stringify);
      && (plan.Refuse? ==>
            r == ErrorResult(plan.details, config)
            && store.entries == old(store.entries) && store.ttls == old(store.ttls))
      && (plan.Write? ==>
            var e := EffectOf(old(store.entries), old(store.ttls), ToStr(ProcessedKey(config, inputs, variables)),
                              plan.cmd, TtlSeconds(Get(config, "ttl")));
            store.entries == e.entries && store.ttls == e.ttls
            && r == Answer(plan, e.reply, config, inputs, variables, timestamp))
  {
    var plan := Decide(config, inputs, variables, stringify);
    if plan.Refuse? {
      return ErrorResult(plan.details, config);
    }
    var processedKey := ReplaceTemplateVariables(Get(config, "key"), inputs, variables);
    var reply := Perform(store, ToStr(processedKey), plan.cmd, TtlSeconds(Get(config, "ttl")));
    r := Answer(plan, reply, config, inputs, variables, timestamp);
  }

  /**
   * The choice of `valueToStore`, reassigned step by step, and the
   * `switch (dataType)` that encodes it (or throws) before writing.
   */
  method Decide(config: Value, inputs: Value, variables: Value, stringify: Value -> string) returns (plan: Plan)
    ensures plan == PlanFor(config, inputs, variables, stringify)
  {
    var valueToStore := ChooseValue(Get(config, "value"), inputs, variables);
    plan := Encoded(DataType(config), valueToStore, stringify);
  }

  method ChooseValue(value: Value, inputs: Value, variables: Value) returns (valueToStore: Value)
    ensures valueToStore == ToStore(value, inputs, variables)
  {
    if !value.Undef? && !value.Null? && value != Str("") {
      if value == Str("${JSON.stringify(data)}") || value == Str("[object Object]") {
        valueToStore := inputs;
      } else {
        valueToStore := value;
      }
    } else {
      valueToStore := inputs;
    }
    if valueToStore.Str? {
      valueToStore := ReplaceTemplateVariables(valueToStore, inputs, variables);
    }
  }

  method Encoded(dataType: Value, valueToStore: Value, stringify: Value -> string) returns (plan: Plan)
    ensures plan == PlanOf(dataType, valueToStore, stringify)
  {
    var actualStoredValue := valueToStore;
    if dataType == Str("string") {
      var stringValue := Encode(valueToStore, stringify);
      actualStoredValue := Str(stringValue);
      plan := Write(SetText(stringValue), actualStoredValue);
    } else if dataType == Str("hash") {
      plan := HashPlan(valueToStore, stringify);
    } else if dataType == Str("list") {
      plan := Write(Push(EncodeAll(Elements(valueToStore), stringify)), actualStoredValue);
    } else if dataType == Str("set") {
      plan := Write(Add(EncodeAll(Elements(valueToStore), stringify)), actualStoredValue);
    } else if dataType == Str("json") {
      plan := Write(SetText(stringify(valueToStore)), actualStoredValue);
    } else {
      plan := Refuse("Unsupported data type: " + ToStr(dataType));
    }
  }

  /** The `hash` case: `Object.entries(valueToStore)` with each value encoded. */
  method HashPlan(valueToStore: Value, stringify: Value -> string) returns (plan: Plan)
    ensures plan == PlanOf(Str("hash"), valueToStore, stringify)
  {
    if !valueToStore.Obj? {
      if valueToStore.Null? {
        return Refuse("Cannot convert undefined or null to object");
      }
      return Refuse("Hash data type requires an object value");
    }
    var hashData := FlattenHash(valueToStore.fields, stringify);
    plan := Write(HashFields(hashData), valueToStore);
  }

  /** The five configured values that make the node store its inputs. */
  lemma FallbackValues(inputs: Value)
    ensures Chosen(Undef, inputs) == inputs && Chosen(Null, inputs) == inputs && Chosen(Str(""), inputs) == inputs
    ensures Chosen(Str("${JSON.stringify(data)}"), inputs) == inputs
    ensures Chosen(Str("[object Object]"), inputs) == inputs
    ensures Chosen(Str("hello"), inputs) == Str("hello") && Chosen(Int(0), inputs) == Int(0)
  {
  }

  /** An array stored as a list pushes its encoded elements in order; a scalar is pushed alone. */
  lemma ListElements(config: Value, inputs: Value, variables: Value, stringify: Value -> string)
    requires DataType(config) == Str("list")
    ensures var v := ToStore(Get(config, "value"), inputs, variables);
      var plan := PlanFor(config, inputs, variables, stringify);
      && plan.Write? && plan.cmd.Push?
      && (v.Arr? ==> |plan.cmd.values| == |v.items|
                     && forall i :: 0 <= i < |v.items| ==> plan.cmd.values[i] == Encode(v.items[i], stringify))
      && (!v.Arr? ==> plan.cmd.values == [Encode(v, stringify)])
  {
  }

  /** Only an object (not an array, not null) can be stored as a hash. */
  lemma HashNeedsObject(config: Value, inputs: Value, variables: Value, stringify: Value -> string)
    requires DataType(config) == Str("hash")
    ensures var v := ToStore(Get(config, "value"), inputs, variables);
      PlanFor(config, inputs, variables, stringify).Write? <==> v.Obj?
  {
  }

  /** An unknown data type writes nothing. */
  lemma UnknownTypeRefused(config: Value, inputs: Value, variables: Value, stringify: Value -> string)
    requires DataType(config) !in {Str("string"), Str("hash"), Str("list"), Str("set"), Str("json")}
    ensures PlanFor(config, inputs, variables, stringify) == Refuse("Unsupported data type: " + ToStr(DataType(config)))
  {
  }
}
