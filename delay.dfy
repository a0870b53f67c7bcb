/**
 * The delay executor (backend/src/workflow/nodes/delayExecutor.js): the
 * requested wait is parsed, scaled by its unit and capped at five minutes;
 * the node passes its inputs through with a `delay` record added.
 *
 * The wait itself, the clock readings and the ISO time strings are
 * parameters.
 */
module Delay {
  import opened Wrappers
  import opened JsValue
  import opened Template

  /** `5 * 60 * 1000` */
  const MaxDelay := 300000

  /** `parseInt(delay) || 1000`: zero and NaN both fall back to a second. */
  function Requested(delay: Value): (n: int)
    ensures n != 0
  {
    match ParseInt(ToStr(delay))
    case Some(n) => if n == 0 then 1000 else n
    case None => 1000
  }

  /** The factor of the `switch (unit)`; any other unit is milliseconds. */
  function UnitFactor(unit: Value): (f: int)
    ensures f > 0
  {
    if unit == Str("seconds") then 1000
    else if unit == Str("minutes") then 60000
    else if unit == Str("hours") then 3600000
    else 1
  }

  /** The wait before the cap. */
  function Scaled(delay: Value, unit: Value): int {
    Requested(delay) * UnitFactor(unit)
  }

  /**
   * The computation of `delayMs`: parsed, scaled by the unit, then capped.
   * `warned` is whether the 'Delay capped at 5 minutes' warning is logged.
   */
  method ComputeDelay(delay: Value, unit: Value) returns (ms: int, warned: bool)
    ensures ms <= MaxDelay && ms != 0
    ensures warned <==> Scaled(delay, unit) > MaxDelay
    ensures warned ==> ms == MaxDelay
    ensures !warned ==> ms == Scaled(delay, unit)
  {
    var n := Requested(delay);
    ms := n;
    if unit == Str("seconds") {
      ms := ms * 1000;
      assert UnitFactor(unit) == 1000;
    } else if unit == Str("minutes") {
      ms := ms * 60000;
      assert UnitFactor(unit) == 60000;
    } else if unit == Str("hours") {
      ms := ms * 3600000;
      assert UnitFactor(unit) == 3600000;
    } else {
      assert UnitFactor(unit) == 1;
    }
    assert ms == Scaled(delay, unit) && ms != 0;
    warned := false;
    if ms > MaxDelay {
      warned := true;
      ms := MaxDelay;
    }
  }

  /** A number other than zero is taken as it is. */
  lemma RequestedNumber(n: int)
    requires n != 0
    ensures Requested(Int(n)) == n
  {
    ParseIntOfIntToStr(n);
  }

  /** Zero, and text that does not start with a number, mean one second. */
  lemma RequestedFallback()
    ensures Requested(Int(0)) == 1000
    ensures Requested(Str("soon")) == 1000
    ensures Requested(Undef) == 1000
  {
    ParseIntOfIntToStr(0);
    ParseIntNaN("soon");
    ParseIntNaN("undefined");
  }

  /** Five minutes is the largest wait that is not capped; six are capped. */
  lemma CapBoundary()
    ensures Scaled(Int(5), Str("minutes")) == MaxDelay
    ensures Scaled(Int(6), Str("minutes")) > MaxDelay
    ensures Scaled(Int(300001), Str("milliseconds")) > MaxDelay
  {
    RequestedNumber(5);
    RequestedNumber(6);
    RequestedNumber(300001);
  }

  /** The `delay` record of the result. */
  function DelayRecord(ms: int, actual: int, unit: Value, startTime: string, endTime: string, message: Value): Value {
    Obj(map["requested" := Int(ms), "actual" := Int(actual), "unit" := unit,
            "startTime" := Str(startTime), "endTime" := Str(endTime), "message" := message])
  }

  /** `{...inputs, delay: record}` */
  function PassThrough(inputs: Value, record: Value): (r: Value)
    ensures r.Obj? && r.fields.Keys == Spread(inputs).Keys + {"delay"}
    ensures r.fields["delay"] == record
    ensures forall k :: k in Spread(inputs) && k != "delay" ==> r.fields[k] == Spread(inputs)[k]
  {
    Obj(Spread(inputs)["delay" := record])
  }

  /**
   * `execute(nodeConfig, inputs, context)` for a configuration object (the
   * engine passes `node.config || {}`), with `actual`, `startTime` and
   * `endTime` the measured wait and its clock readings.
   */
  method Execute(config: Value, inputs: Value, variables: Value, actual: int, startTime: string, endTime: string)
    returns (r: Value, warned: bool)
    requires !config.Null? && !config.Undef?
    ensures var unit := Default(Get(config, "unit"), Str("milliseconds"));
      var scaled := Scaled(Default(Get(config, "delay"), Int(1000)), unit);
      var ms := if scaled > MaxDelay then MaxDelay else scaled;
      var message := ReplaceTemplateVariables(Default(Get(config, "message"), Str("Waiting...")), inputs, variables);
      warned == (scaled > MaxDelay)
      && r == PassThrough(inputs, DelayRecord(ms, actual, unit, startTime, endTime, message))
  {
    var delay := Default(Get(config, "delay"), Int(1000));
    var unit := Default(Get(config, "unit"), Str("milliseconds"));
    var message := Default(Get(config, "message"), Str("Waiting..."));
    var ms;
    ms, warned := ComputeDelay(delay, unit);
    var delayMessage := ReplaceTemplateVariables(message, inputs, variables);
    r := PassThrough(inputs, DelayRecord(ms, actual, unit, startTime, endTime, delayMessage));
  }

  /** The result keeps every input key but `delay`, and its wait never exceeds the cap. */
  lemma ResultShape(config: Value, inputs: Value, variables: Value, actual: int, startTime: string, endTime: string, r: Value)
    requires !config.Null? && !config.Undef?
    requires var unit := Default(Get(config, "unit"), Str("milliseconds"));
      var scaled := Scaled(Default(Get(config, "delay"), Int(1000)), unit);
      var ms := if scaled > MaxDelay then MaxDelay else scaled;
      var message := ReplaceTemplateVariables(Default(Get(config, "message"), Str("Waiting...")), inputs, variables);
      r == PassThrough(inputs, DelayRecord(ms, actual, unit, startTime, endTime, message))
    ensures r.Obj? && "delay" in r.fields
    ensures var req := Get(r.fields["delay"], "requested"); req.Int? && req.i <= MaxDelay && req.i != 0
    ensures forall k :: k in Spread(inputs) && k != "delay" ==> k in r.fields && r.fields[k] == Spread(inputs)[k]
  {
    ScaledNonZero(Default(Get(config, "delay"), Int(1000)), Default(Get(config, "unit"), Str("milliseconds")));
  }

  /** A non-zero request times a positive factor is never zero. */
  lemma ScaledNonZero(delay: Value, unit: Value)
    ensures Scaled(delay, unit) != 0
  {
    var n := Requested(delay);
    var f := UnitFactor(unit);
    assert f == 1 || f == 1000 || f == 60000 || f == 3600000;
    var m := if f == 1 then n else if f == 1000 then n * 1000 else if f == 60000 then n * 60000 else n * 3600000;
    assert m != 0;
    assert Scaled(delay, unit) == n * f;
  }
}
