/**
 * The part of Redis the redisSet and redisGet executors use, as an
 * in-memory store: each key holds a string, a hash, a list or a set, and
 * may carry a time to live in seconds. Expiry itself needs a clock and is
 * not modelled; `ttls` records the last TTL given to each key.
 *
 * Replies follow Redis: writes of the wrong type and variadic commands
 * without arguments fail with Redis's error text.
 */
module RedisStore {
  import opened Wrappers
  import opened JsValue
  import opened Graph

  datatype Entry =
    | StrVal(s: string)
    | Hash(fields: map<string, string>)
    | List(items: seq<string>)
    | SetVal(members: seq<string>) // in insertion order

  const WrongType := "WRONGTYPE Operation against a key holding the wrong kind of value"

  function ArityError(command: string): string {
    "ERR wrong number of arguments for '" + command + "' command"
  }

  /** Redis deletes an aggregate once it is empty, and a set has no repeated member. */
  predicate WellFormed(e: Entry) {
    match e
    case StrVal(_) => true
    case Hash(f) => |f| > 0
    case List(items) => |items| > 0
    case SetVal(m) => |m| > 0 && NoDup(m)
  }

  /** `m` followed by the members of `xs` it does not hold yet, first occurrence first. */
  function AddMembers(m: seq<string>, xs: seq<string>): (r: seq<string>)
    ensures NoDup(m) ==> NoDup(r)
    ensures Elems(r) == Elems(m) + Elems(xs)
    ensures |r| >= |m| && r[..|m|] == m
    decreases |xs|
  {
    if xs == [] then m
    else if xs[0] in m then AddMembers(m, xs[1..])
    else
      var r := AddMembers(m + [xs[0]], xs[1..]);
      assert (m + [xs[0]])[..|m|] == m;
      r
  }

  class Store {
    var entries: map<string, Entry>
    var ttls: map<string, int>

    ghost predicate Valid()
      reads this
    {
      ttls.Keys <= entries.Keys && forall k :: k in entries ==> WellFormed(entries[k])
    }

    constructor()
      ensures Valid() && entries == map[] && ttls == map[]
    {
      entries := map[];
      ttls := map[];
    }

    /** `SET key value`: replaces whatever the key held and drops its TTL. */
    method Set(key: string, value: string) returns (reply: Value)
      requires Valid()
      modifies this
      ensures Valid()
      ensures entries == old(entries)[key := StrVal(value)] && ttls == old(ttls) - {key}
      ensures reply == Str("OK")
    {
      entries := entries[key := StrVal(value)];
      ttls := ttls - {key};
      reply := Str("OK");
    }

    /** `SETEX key seconds value` */
    method SetEx(key: string, seconds: int, value: string) returns (reply: Value)
      requires Valid() && seconds > 0
      modifies this
      ensures Valid()
      ensures entries == old(entries)[key := StrVal(value)] && ttls == old(ttls)[key := seconds]
      ensures reply == Str("OK")
    {
      entries := entries[key := StrVal(value)];
      ttls := ttls[key := seconds];
      reply := Str("OK");
    }

    /** `EXPIRE key seconds`: 1 when the key exists, 0 (and no change) otherwise. */
    method Expire(key: string, seconds: int) returns (reply: Value)
      requires Valid()
      modifies this
      ensures Valid() && entries == old(entries)
      ensures key in entries ==> ttls == old(ttls)[key := seconds] && reply == Int(1)
      ensures key !in entries ==> ttls == old(ttls) && reply == Int(0)
    {
      if key in entries {
        ttls := ttls[key := seconds];
        reply := Int(1);
      } else {
        reply := Int(0);
      }
    }

    /** `HSET key field value ...`: the reply counts the fields that are new. */
    method HSet(key: string, fields: map<string, string>) returns (reply: Result<Value, string>)
      requires Valid()
      modifies this
      ensures Valid() && ttls == old(ttls)
      ensures fields == map[] ==> reply == Err(ArityError("hset")) && entries == old(entries)
      ensures fields != map[] && key in old(entries) && !old(entries)[key].Hash? ==>
                reply == Err(WrongType) && entries == old(entries)
      ensures reply.Ok? <==> fields != map[] && (key in old(entries) ==> old(entries)[key].Hash?)
      ensures reply.Ok? ==>
        var before := if key in old(entries) then old(entries)[key].fields else map[];
        && entries == old(entries)[key := Hash(before + fields)]
        && reply.value == Int(|fields.Keys - before.Keys|)
    {
      if fields == map[] {
        return Err(ArityError("hset"));
      }
      if key in entries && !entries[key].Hash? {
        return Err(WrongType);
      }
      var before := if key in entries then entries[key].fields else map[];
      entries := entries[key := Hash(before + fields)];
      reply := Ok(Int(|fields.Keys - before.Keys|));
    }

    /** `RPUSH key value ...`: appends in order; the reply is the new length. */
    method RPush(key: string, values: seq<string>) returns (reply: Result<Value, string>)
      requires Valid()
      modifies this
      ensures Valid() && ttls == old(ttls)
      ensures values == [] ==> reply == Err(ArityError("rpush")) && entries == old(entries)
      ensures values != [] && key in old(entries) && !old(entries)[key].List? ==> reply == Err(WrongType)
      ensures reply.Ok? <==> values != [] && (key in old(entries) ==> old(entries)[key].List?)
      ensures !reply.Ok? ==> entries == old(entries)
      ensures reply.Ok? ==>
        var before := if key in old(entries) then old(entries)[key].items else [];
        && entries == old(entries)[key := List(before + values)]
        && reply.value == Int(|before| + |values|)
    {
      if values == [] {
        return Err(ArityError("rpush"));
      }
      if key in entries && !entries[key].List? {
        return Err(WrongType);
      }
      var before := if key in entries then entries[key].items else [];
      entries := entries[key := List(before + values)];
      reply := Ok(Int(|before| + |values|));
    }

    /** `SADD key member ...`: the reply counts the members that are new. */
    method SAdd(key: string, members: seq<string>) returns (reply: Result<Value, string>)
      requires Valid()
      modifies this
      ensures Valid() && ttls == old(ttls)
      ensures members == [] ==> reply == Err(ArityError("sadd")) && entries == old(entries)
      ensures members != [] && key in old(entries) && !old(entries)[key].SetVal? ==> reply == Err(WrongType)
      ensures reply.Ok? <==> members != [] && (key in old(entries) ==> old(entries)[key].SetVal?)
      ensures !reply.Ok? ==> entries == old(entries)
      ensures reply.Ok? ==>
        var before := if key in old(entries) then old(entries)[key].members else [];
        var after := AddMembers(before, members);
        && entries == old(entries)[key := SetVal(after)]
        && reply.value == Int(|after| - |before|)
    {
      if members == [] {
        return Err(ArityError("sadd"));
      }
      if key in entries && !entries[key].SetVal? {
        return Err(WrongType);
      }
      var before := if key in entries then entries[key].members else [];
      var after := AddAll(before, members);
      assert members[0] in Elems(members);
      assert NoDup(before) by {
        if key in entries {
          assert WellFormed(entries[key]);
        }
      }
      entries := entries[key := SetVal(after)];
      reply := Ok(Int(|after| - |before|));
    }

    /** `GET key`: None when the key is missing. */
    method Get(key: string) returns (reply: Result<Option<string>, string>)
      ensures key !in entries ==> reply == Ok(None)
      ensures key in entries && entries[key].StrVal? ==> reply == Ok(Some(entries[key].s))
      ensures key in entries && !entries[key].StrVal? ==> reply == Err(WrongType)
    {
      if key !in entries {
        return Ok(None);
      }
      match entries[key]
      case StrVal(s) => reply := Ok(Some(s));
      case _ => reply := Err(WrongType);
    }

    /** `HGETALL key`: an empty hash when the key is missing. */
    method HGetAll(key: string) returns (reply: Result<map<string, string>, string>)
      ensures key !in entries ==> reply == Ok(map[])
      ensures key in entries && entries[key].Hash? ==> reply == Ok(entries[key].fields)
      ensures key in entries && !entries[key].Hash? ==> reply == Err(WrongType)
    {
      if key !in entries {
        return Ok(map[]);
      }
      match entries[key]
      case Hash(f) => reply := Ok(f);
      case _ => reply := Err(WrongType);
    }

    /** `LRANGE key 0 -1`: the whole list, empty when the key is missing. */
    method LRange(key: string) returns (reply: Result<seq<string>, string>)
      ensures key !in entries ==> reply == Ok([])
      ensures key in entries && entries[key].List? ==> reply == Ok(entries[key].items)
      ensures key in entries && !entries[key].List? ==> reply == Err(WrongType)
    {
      if key !in entries {
        return Ok([]);
      }
      match entries[key]
      case List(items) => reply := Ok(items);
      case _ => reply := Err(WrongType);
    }

    /** `SMEMBERS key`: empty when the key is missing. */
    method SMembers(key: string) returns (reply: Result<seq<string>, string>)
      ensures key !in entries ==> reply == Ok([])
      ensures key in entries && entries[key].SetVal? ==> reply == Ok(entries[key].members)
      ensures key in entries && !entries[key].SetVal? ==> reply == Err(WrongType)
    {
      if key !in entries {
        return Ok([]);
      }
      match entries[key]
      case SetVal(m) => reply := Ok(m);
      case _ => reply := Err(WrongType);
    }
  }

  /** SADD's loop over its arguments. */
  method AddAll(before: seq<string>, members: seq<string>) returns (after: seq<string>)
    ensures after == AddMembers(before, members)
  {
    after := before;
    var i := 0;
    while i < |members|
      invariant 0 <= i <= |members|
      invariant after == AddMembers(before, members[..i])
    {
      AddOneMore(before, members, i);
      after := if members[i] in after then after else after + [members[i]];
      i := i + 1;
    }
    assert members[..|members|] == members;
  }

  lemma AddOneMore(before: seq<string>, members: seq<string>, i: nat)
    requires i < |members|
    ensures AddMembers(before, members[..i + 1]) ==
      var a := AddMembers(before, members[..i]); if members[i] in a then a else a + [members[i]]
  {
    AddMembersSnoc(before, members[..i], members[i]);
    assert members[..i + 1] == members[..i] + [members[i]];
  }

  /** Adding one more member is the step of SADD's loop. */
  lemma {:induction false} AddMembersSnoc(m: seq<string>, xs: seq<string>, x: string)
    ensures AddMembers(m, xs + [x]) ==
      var a := AddMembers(m, xs); if x in a then a else a + [x]
    decreases |xs|
  {
    if xs == [] {
      assert [x][1..] == [];
      if x !in m {
        assert AddMembers(m + [x], []) == m + [x];
      }
    } else {
      assert (xs + [x])[0] == xs[0] && (xs + [x])[1..] == xs[1..] + [x];
      if xs[0] in m {
        AddMembersSnoc(m, xs[1..], x);
      } else {
        AddMembersSnoc(m + [xs[0]], xs[1..], x);
      }
    }
  }

  /** Adding members that are all present already changes nothing. */
  lemma {:induction false} AddMembersPresent(m: seq<string>, xs: seq<string>)
    requires forall i :: 0 <= i < |xs| ==> xs[i] in m
    ensures AddMembers(m, xs) == m
    decreases |xs|
  {
    if xs != [] {
      AddMembersPresent(m, xs[1..]);
    }
  }
}
