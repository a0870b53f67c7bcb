/**
 * The dotted-path walk that the executors repeat in several places
 * (`getValueByPath`, `helpers.get`, the template resolvers): split the path
 * on '.', and step into each key while the current value is a truthy
 * object that has the key.
 */
module Paths {
  import opened Wrappers
  import opened JsValue

  /** `v && typeof v === 'object' && key in v` */
  predicate CanStep(v: Value, key: string) {
    Truthy(v) && IsObjectType(v) && HasKey(v, key)
  }

  /** The value at the end of `keys`, or None as soon as a step is impossible. */
  function Walk(v: Value, keys: seq<string>): Option<Value>
    decreases |keys|
  {
    if keys == [] then Some(v)
    else if CanStep(v, keys[0]) then Walk(Get(v, keys[0]), keys[1..])
    else None
  }

  /** `path.split('.')` */
  function Segments(path: string): (keys: seq<string>)
    ensures |keys| >= 1
  {
    Split(path, '.')
  }

  /** Walking `a + b` is walking `a` and then `b`; a failed prefix fails the whole path. */
  lemma {:induction false} WalkAppend(v: Value, a: seq<string>, b: seq<string>)
    ensures Walk(v, a + b) == if Walk(v, a).None? then None else Walk(Walk(v, a).value, b)
    decreases |a|
  {
    if a == [] {
      assert a + b == b;
    } else {
      assert (a + b)[0] == a[0];
      assert (a + b)[1..] == a[1..] + b;
      if CanStep(v, a[0]) {
        WalkAppend(Get(v, a[0]), a[1..], b);
      }
    }
  }

  /** An object's own key is found by the one-segment walk. */
  lemma WalkOwnKey(fields: map<string, Value>, key: string)
    requires key in fields
    ensures Walk(Obj(fields), [key]) == Some(fields[key])
  {
  }

  /**
   * The loop both `getValueByPath` and `helpers.get` run: follow `keys`
   * from `obj`, and answer `missing` as soon as a step is impossible.
   */
  method Follow(obj: Value, keys: seq<string>, missing: Value) returns (r: Value)
    ensures r == Walk(obj, keys).GetOr(missing)
  {
    var result := obj;
    var i := 0;
    while i < |keys|
      invariant 0 <= i <= |keys|
      invariant Walk(obj, keys) == Walk(result, keys[i..])
    {
      if !CanStep(result, keys[i]) {
        return missing;
      }
      assert keys[i..][1..] == keys[i + 1..];
      result := Get(result, keys[i]);
      i := i + 1;
    }
    return result;
  }

  /**
   * `getValueByPath(obj, path)` of the condition executor: undefined as soon
   * as a segment cannot be followed.
   */
  method GetValueByPath(obj: Value, path: string) returns (r: Value)
    ensures r == Walk(obj, Segments(path)).GetOr(Undef)
  {
    r := Follow(obj, Segments(path), Undef);
  }
}
