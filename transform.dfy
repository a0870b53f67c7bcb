/**
 * The transform executor (backend/src/workflow/nodes/transformExecutor.js):
 * the user's script runs in a sandbox with the helpers `get` and `set`, and
 * its result becomes the node's output.
 *
 * The script is an oracle: its answer is an `ExecResult`. `helpers.set`
 * writes through the object it is given; here it returns the updated value.
 */
module Transform {
  import opened Wrappers
  import opened JsValue
  import opened Paths
  import opened Engine

  /** `helpers.get(obj, path, defaultValue = null)` */
  method HelperGet(obj: Value, path: string, defaultValue: Value) returns (r: Value)
    ensures var d := Default(defaultValue, Null);
      && (Walk(obj, Split(path, '.')).None? ==> r == d)
      && (Walk(obj, Split(path, '.')).Some? ==> r == Walk(obj, Split(path, '.')).value)
  {
    r := Follow(obj, Split(path, '.'), Default(defaultValue, Null));
  }

  /** What `helpers.set` comes to. */
  datatype Assignment =
    | Assigned(value: Value)      // the object, updated
    | AssignThrew(message: string) // a TypeError
    | IntoArray                   // a write into an array, not modelled

  /** The TypeError of `key in v` on a value that is not an object. */
  function InError(key: string, v: Value): string {
    "Cannot use 'in' operator to search for '" + key + "' in " + ToStr(v)
  }

  /** The container the loop steps into for `key`: the entry when it is of object type, a fresh `{}` otherwise. */
  function Child(f: map<string, Value>, key: string): (c: Value)
    ensures IsObjectType(c)
  {
    if key in f && IsObjectType(f[key]) then f[key] else Obj(map[])
  }

  /**
   * What decides a set along `keys`: the first container on the way that
   * is not an object (a null or an array the walk steps into), or `{}`
   * when every container is an object and the set goes through.
   */
  function Blocker(cur: Value, keys: seq<string>): (b: Value)
    ensures IsObjectType(cur) ==> IsObjectType(b)
    decreases |keys|
  {
    if !cur.Obj? then cur
    else if keys == [] then Obj(map[])
    else Blocker(Child(cur.fields, keys[0]), keys[1..])
  }

  /**
   * The loop of `helpers.set` from the object `cur` on: each key of `keys`
   * whose entry is missing or not of object type gets a fresh `{}`, then
   * `last` is assigned. Writing a property of a number, string or boolean
   * is silently ignored.
   */
  function SetPath(cur: Value, keys: seq<string>, last: string, value: Value): (r: Assignment)
    ensures cur.Obj? && r.Assigned? ==>
      var head := if keys == [] then last else keys[0];
      && r.value.Obj?
      && r.value.fields.Keys == cur.fields.Keys + {head}
      && (forall k :: k in cur.fields && k != head ==> r.value.fields[k] == cur.fields[k])
    ensures (cur.Null? || cur.Undef?) ==> r.AssignThrew?
    ensures cur.Arr? ==> r == IntoArray
    // on an object the first container met that is not an object decides: null throws, an array is not modelled
    ensures cur.Obj? ==> (r.Assigned? <==> Blocker(cur, keys).Obj?)
    ensures cur.Obj? ==> (r.AssignThrew? <==> Blocker(cur, keys).Null?)
    ensures cur.Obj? ==> (r == IntoArray <==> Blocker(cur, keys).Arr?)
    decreases |keys|
  {
    if keys == [] then
      match cur
      case Obj(f) => Assigned(Obj(f[last := value]))
      case Arr(_) => IntoArray
      case Null => AssignThrew("Cannot set properties of null (setting '" + last + "')")
      case Undef => AssignThrew("Cannot set properties of undefined (setting '" + last + "')")
      case _ => Assigned(cur)
    else
      match cur
      case Obj(f) =>
        var k := keys[0];
        var child := Child(f, k);
        var inner := SetPath(child, keys[1..], last, value);
        if inner.Assigned? then Assigned(Obj(f[k := inner.value])) else inner
      case Arr(_) => IntoArray
      case _ => AssignThrew(InError(keys[0], cur))
  }

  /** `helpers.set(obj, path, value)`: the last segment is assigned, the others are walked. */
  function HelperSet(obj: Value, path: string, value: Value): Assignment {
    var keys := Split(path, '.');
    SetPath(obj, keys[..|keys| - 1], keys[|keys| - 1], value)
  }

  /** After a set on an object, a walk along the same keys finds the value. */
  lemma {:induction false} WalkAfterSet(cur: Value, keys: seq<string>, last: string, value: Value)
    requires cur.Obj? && SetPath(cur, keys, last, value).Assigned?
    ensures Walk(SetPath(cur, keys, last, value).value, keys + [last]) == Some(value)
    decreases |keys|
  {
    var f := cur.fields;
    if keys == [] {
      assert SetPath(cur, keys, last, value).value == Obj(f[last := value]);
      assert keys + [last] == [last] && [last][1..] == [];
    } else {
      var k := keys[0];
      var child := Child(f, k);
      var inner := SetPath(child, keys[1..], last, value);
      assert SetPath(cur, keys, last, value) == Assigned(Obj(f[k := inner.value]));
      WalkAfterSet(child, keys[1..], last, value);
      assert (keys + [last])[0] == k && (keys + [last])[1..] == keys[1..] + [last];
    }
  }

  /** `get(set(o, p, v), p)` is v for an object o, whatever the default. */
  lemma GetAfterSet(obj: Value, path: string, value: Value)
    requires obj.Obj? && HelperSet(obj, path, value).Assigned?
    ensures Walk(HelperSet(obj, path, value).value, Split(path, '.')) == Some(value)
  {
    var keys := Split(path, '.');
    var init, last := keys[..|keys| - 1], keys[|keys| - 1];
    assert HelperSet(obj, path, value) == SetPath(obj, init, last, value);
    WalkAfterSet(obj, init, last, value);
    assert init + [last] == keys;
  }

  /** `a` is a prefix of `b`. */
  predicate Prefix(a: seq<string>, b: seq<string>) {
    |a| <= |b| && b[..|a|] == a
  }

  /** Paths with the same first key are prefixes of each other as their tails are. */
  lemma PrefixTail(q: seq<string>, p: seq<string>)
    requires q != [] && p != [] && q[0] == p[0]
    ensures Prefix(q[1..], p[1..]) ==> Prefix(q, p)
    ensures Prefix(p[1..], q[1..]) ==> Prefix(p, q)
  {
    if Prefix(q[1..], p[1..]) {
      assert p[..|q|] == [p[0]] + p[1..][..|q| - 1];
    }
    if Prefix(p[1..], q[1..]) {
      assert q[..|p|] == [q[0]] + q[1..][..|p| - 1];
    }
  }

  /** Replacing the entry under `k` does not change a walk whose first key is another one. */
  lemma WalkOtherKey(f: map<string, Value>, k: string, c: Value, q: seq<string>)
    requires q != [] && q[0] != k
    ensures Walk(Obj(f[k := c]), q) == Walk(Obj(f), q)
  {
    assert Get(Obj(f[k := c]), q[0]) == Get(Obj(f), q[0]);
  }

  /** A walk of at least two keys from an object goes on from the container `set` steps into, or fails in both. */
  lemma WalkIntoChild(f: map<string, Value>, q: seq<string>)
    requires |q| >= 2
    ensures Walk(Obj(f), q) == Walk(Child(f, q[0]), q[1..])
  {
    var k := q[0];
    if k in f && !IsObjectType(f[k]) {
      assert !CanStep(f[k], q[1]);
    }
  }

  /** A one-key path is a prefix of every path that starts with its key. */
  lemma PrefixOne(k: string, q: seq<string>)
    ensures q != [] && q[0] == k ==> Prefix([k], q)
  {
    if q != [] && q[0] == k {
      assert q[..1] == [k];
    }
  }

  /**
   * A set changes nothing off its path: a walk that parts from
   * `keys + [last]` before either ends finds what it found before.
   */
  lemma {:induction false} WalkOffPath(cur: Value, keys: seq<string>, last: string, value: Value, q: seq<string>)
    requires cur.Obj? && SetPath(cur, keys, last, value).Assigned?
    requires !Prefix(q, keys + [last]) && !Prefix(keys + [last], q)
    ensures Walk(SetPath(cur, keys, last, value).value, q) == Walk(cur, q)
    decreases |keys|
  {
    var p := keys + [last];
    var f := cur.fields;
    assert q != [] by {
      assert Prefix([], p);
    }
    if keys == [] {
      assert SetPath(cur, keys, last, value) == Assigned(Obj(f[last := value]));
      PrefixOne(last, q);
      WalkOtherKey(f, last, value, q);
    } else {
      var k := keys[0];
      var child := Child(f, k);
      var c := SetPath(child, keys[1..], last, value).value;
      assert SetPath(cur, keys, last, value) == Assigned(Obj(f[k := c]));
      if q[0] != k {
        WalkOtherKey(f, k, c, q);
      } else {
        assert p[0] == k && p[1..] == keys[1..] + [last];
        PrefixTail(q, p);
        assert q[1..] != [] by {
          assert Prefix([], p[1..]);
        }
        WalkOffPath(child, keys[1..], last, value, q[1..]);
        assert Walk(Obj(f[k := c]), q) == Walk(c, q[1..]);
        WalkIntoChild(f, q);
      }
    }
  }

  /** A set through `null` throws, and one through a fresh `{}` does not. */
  lemma SetThroughNull()
    ensures SetPath(Obj(map["a" := Null]), ["a"], "b", Int(1)).AssignThrew?
    ensures SetPath(Obj(map["a" := Int(7)]), ["a"], "b", Int(1))
         == Assigned(Obj(map["a" := Obj(map["b" := Int(1)])]))
  {
  }

  /**
   * The executor's result for a configuration object: the script's value,
   * the inputs when it returns undefined, and the error record when it throws.
   */
  function TransformResult(config: Value, inputs: Value, script: ExecResult): (r: Value)
    ensures script.Returned? && !script.value.Undef? ==> r == script.value
    ensures script == Returned(Undef) ==> r == inputs
    ensures script.Threw? ==>
      && r.Obj? && r.fields.Keys == {"error", "message", "details", "code", "inputs"}
      && r.fields["error"] == Bool(true)
      && r.fields["message"] == Str("Transform execution failed")
      && r.fields["details"] == Str(script.message)
      && r.fields["code"] == Get(config, "code")
      && r.fields["inputs"] == inputs
  {
    match script
    case Returned(v) => if v.Undef? then inputs else v
    case Threw(m) =>
      Obj(map["error" := Bool(true), "message" := Str("Transform execution failed"), "details" := Str(m),
              "code" := Get(config, "code"), "inputs" := inputs])
  }
}
