/**
 * The `condition` node executor (backend/src/workflow/nodes/conditionExecutor.js):
 * resolve the two operands, apply the configured operator, and shape the
 * result so that a false outcome carries `success: false, passed: false`,
 * which is what makes the worker skip the nodes downstream.
 *
 * A custom JavaScript expression runs in a sandbox; here it is the oracle
 * `script(expression, inputs)`. Loose equality across types, ordering
 * across types, reference identity of objects and `RegExp` are not
 * modelled: an operator that would need them yields `Unmodelled`.
 */
module Condition {
  import opened Wrappers
  import opened JsValue
  import opened Paths
  import opened Template
  import opened Engine

  /** What an operator says about its operands. */
  datatype Verdict = Decided(holds: bool) | UnknownOperator | Unmodelled

  predicate Nullish(v: Value) {
    v.Null? || v.Undef?
  }

  /** `left == right`, where it needs no coercion. */
  function LooseEquals(a: Value, b: Value): Option<bool> {
    if Nullish(a) || Nullish(b) then Some(Nullish(a) && Nullish(b))
    else if (a.Bool? && b.Bool?) || (a.Int? && b.Int?) || (a.Str? && b.Str?) then Some(a == b)
    else None
  }

  /** `left === right`; two arrays or two objects compare by identity, which is not modelled. */
  function StrictEquals(a: Value, b: Value): Option<bool> {
    if (a.Arr? && b.Arr?) || (a.Obj? && b.Obj?) then None else Some(a == b)
  }

  /** String order by code unit: a proper prefix comes first. */
  predicate StrLess(s: string, t: string) {
    if s == [] then t != []
    else if t == [] then false
    else if s[0] != t[0] then s[0] < t[0]
    else StrLess(s[1..], t[1..])
  }

  /** `left < right` on two numbers or two strings. */
  function Less(a: Value, b: Value): Option<bool> {
    if a.Int? && b.Int? then Some(a.i < b.i)
    else if a.Str? && b.Str? then Some(StrLess(a.s, b.s))
    else None
  }

  function FromOption(o: Option<bool>): Verdict {
    if o.Some? then Decided(o.value) else Unmodelled
  }

  function Negate(v: Verdict): Verdict {
    if v.Decided? then Decided(!v.holds) else v
  }

  /** The `empty` test. */
  predicate Empty(v: Value) {
    !Truthy(v) || (v.Str? && Trim(v.s) == "") || (v.Arr? && |v.items| == 0) || (v.Obj? && |v.fields| == 0)
  }

  /** `right.includes(left)` for an array `right`; object operands compare by identity. */
  function Member(left: Value, items: seq<Value>): Option<bool> {
    if left.Arr? || left.Obj? then None else Some(left in items)
  }

  /** The cases of the operator `switch`; two spellings share a case where the source stacks labels. */
  datatype Op =
    | EqualsOp | NotEqualsOp | StrictEqualsOp | StrictNotEqualsOp
    | GreaterOp | GreaterOrEqualOp | LessOp | LessOrEqualOp
    | ContainsOp | NotContainsOp | StartsWithOp | EndsWithOp | MatchesOp
    | InOp | NotInOp | ExistsOp | NotExistsOp | EmptyOp | NotEmptyOp

  /** The case label an operator name selects; None is the `default` case. */
  function OperatorNamed(o: string): Option<Op> {
    if o == "equals" || o == "==" then Some(EqualsOp)
    else if o == "notEquals" || o == "!=" then Some(NotEqualsOp)
    else if o == "strictEquals" || o == "===" then Some(StrictEqualsOp)
    else if o == "strictNotEquals" || o == "!==" then Some(StrictNotEqualsOp)
    else if o == "greaterThan" || o == ">" then Some(GreaterOp)
    else if o == "greaterThanOrEqual" || o == ">=" then Some(GreaterOrEqualOp)
    else if o == "lessThan" || o == "<" then Some(LessOp)
    else if o == "lessThanOrEqual" || o == "<=" then Some(LessOrEqualOp)
    else if o == "contains" then Some(ContainsOp)
    else if o == "notContains" then Some(NotContainsOp)
    else if o == "startsWith" then Some(StartsWithOp)
    else if o == "endsWith" then Some(EndsWithOp)
    else if o == "matches" then Some(MatchesOp)
    else if o == "in" then Some(InOp)
    else if o == "notIn" then Some(NotInOp)
    else if o == "exists" then Some(ExistsOp)
    else if o == "notExists" then Some(NotExistsOp)
    else if o == "empty" then Some(EmptyOp)
    else if o == "notEmpty" then Some(NotEmptyOp)
    else None
  }

  /** The body of one case of the `switch`. */
  function Apply(op: Op, left: Value, right: Value): Verdict {
    match op
    case EqualsOp => FromOption(LooseEquals(left, right))
    case NotEqualsOp => Negate(FromOption(LooseEquals(left, right)))
    case StrictEqualsOp => FromOption(StrictEquals(left, right))
    case StrictNotEqualsOp => Negate(FromOption(StrictEquals(left, right)))
    case GreaterOp => FromOption(Less(right, left))
    case GreaterOrEqualOp => Negate(FromOption(Less(left, right)))
    case LessOp => FromOption(Less(left, right))
    case LessOrEqualOp => Negate(FromOption(Less(right, left)))
    case ContainsOp => Decided(Includes(ToStr(left), ToStr(right)))
    case NotContainsOp => Decided(!Includes(ToStr(left), ToStr(right)))
    case StartsWithOp => Decided(StartsWith(ToStr(left), ToStr(right)))
    case EndsWithOp => Decided(EndsWith(ToStr(left), ToStr(right)))
    case MatchesOp => Unmodelled
    case InOp => if right.Arr? then FromOption(Member(left, right.items)) else Decided(false)
    case NotInOp => if right.Arr? then Negate(FromOption(Member(left, right.items))) else Decided(true)
    case ExistsOp => Decided(!Nullish(left))
    case NotExistsOp => Decided(Nullish(left))
    case EmptyOp => Decided(Empty(left))
    case NotEmptyOp => Decided(!Empty(left))
  }

  /** The operator `switch`: a name outside the table is an unknown operator. */
  function Compare(op: Value, left: Value, right: Value): Verdict {
    if !op.Str? || OperatorNamed(op.s).None? then UnknownOperator
    else Apply(OperatorNamed(op.s).value, left, right)
  }

  /**
   * `processValue`: a string that is wholly `{{path}}` becomes the raw value
   * at the path (undefined if missing); other strings get their inline
   * placeholders substituted; other values are returned as they are.
   */
  function ProcessValue(value: Value, inputs: Value, variables: Value): Value {
    if value.Str? then
      var s := value.s;
      // the two tests imply |s| >= 4, so the slice is `value.slice(2, -2)`
      if |s| >= 4 && StartsWith(s, "{{") && EndsWith(s, "}}") then
        Walk(Scope(inputs, variables), PathKeys(s[2..|s| - 2])).GetOr(Undef)
      else
        Str(Replace(s, Braces, p => ConditionResolve(inputs, variables, p)))
    else value
  }

  // ---------------------------------------------------------------------------
  // The executor

  /** The outcome of the `try` block before the result is shaped. */
  datatype Judgement = Judged(passed: bool) | Raised(message: string) | Unknowable

  function ConditionExpression(config: Value): Value {
    Or(Get(config, "condition"), Get(config, "expression"))
  }

  function Operator(config: Value): Value {
    var v := Get(config, "operator");
    if v.Undef? then Str("custom") else v
  }

  /** Running the expression, or comparing the operands. */
  function Judge(config: Value, inputs: Value, variables: Value, script: (Value, Value) -> ExecResult): Judgement {
    var expr := ConditionExpression(config);
    var op := Operator(config);
    if op == Str("custom") && Truthy(expr) then
      if Nullish(inputs) then Raised(ReadError(inputs, "data"))
      else
        match script(expr, inputs)
        case Threw(m) => Raised(m)
        case Returned(v) => Judged(Truthy(v))
    else
      var left := ProcessValue(Get(config, "leftValue"), inputs, variables);
      var right := ProcessValue(Get(config, "rightValue"), inputs, variables);
      match Compare(op, left, right)
      case Decided(b) => Judged(b)
      case UnknownOperator => Raised("Unknown operator: " + ToStr(op))
      case Unmodelled => Unknowable
  }

  /** `condition` in the result: the expression, or "left operator right". */
  function ConditionText(config: Value): Value {
    var expr := ConditionExpression(config);
    if Truthy(expr) then expr
    else Str(ToStr(Get(config, "leftValue")) + " " + ToStr(Operator(config)) + " " + ToStr(Get(config, "rightValue")))
  }

  function ErrorResult(config: Value, details: string): (v: Value)
    ensures !FailedShaped(v) && Get(v, "error") == Bool(true)
  {
    Obj(map["error" := Bool(true), "message" := Str("Condition evaluation failed"), "details" := Str(details),
            "condition" := ConditionExpression(config), "operator" := Operator(config)])
  }

  function PassResult(config: Value, passed: bool, now: string, data: Value): (v: Value)
    ensures v.Obj? && Get(v, "data") == data
    ensures Get(v, "success") == Get(v, "passed") == Get(v, "result") == Bool(passed)
    ensures FailedShaped(v) <==> !passed
  {
    var common := map["success" := Bool(passed), "result" := Bool(passed), "passed" := Bool(passed),
                      "operator" := Operator(config), "condition" := ConditionText(config),
                      "timestamp" := Str(now), "data" := data];
    if passed then Obj(common) else Obj(common["message" := Str("Condition evaluated to false")])
  }

  /**
   * `execute(nodeConfig, inputs, context)`; None where the comparison is not
   * modelled. The caller passes `node.config || {}`, so the configuration
   * is never null or undefined.
   */
  function Evaluate(config: Value, inputs: Value, variables: Value, now: string,
                    script: (Value, Value) -> ExecResult): (r: Option<Value>)
    requires !Nullish(config)
    ensures r.None? <==> Judge(config, inputs, variables, script).Unknowable?
    ensures r.Some? ==> r.value.Obj?
    ensures r.Some? ==> (FailedShaped(r.value) <==> !Nullish(inputs) && Judge(config, inputs, variables, script) == Judged(false))
    ensures r.Some? && !Nullish(inputs) && Judge(config, inputs, variables, script).Judged? ==>
      Get(r.value, "data") == Or(Get(inputs, "data"), inputs)
      && Get(r.value, "success") == Get(r.value, "passed") == Get(r.value, "result")
           == Bool(Judge(config, inputs, variables, script).passed)
  {
    match Judge(config, inputs, variables, script)
    case Unknowable => None
    case Raised(m) => Some(ErrorResult(config, m))
    case Judged(b) =>
      // `inputs.data` in the result object
      if Nullish(inputs) then Some(ErrorResult(config, ReadError(inputs, "data")))
      else Some(PassResult(config, b, now, Or(Get(inputs, "data"), inputs)))
  }

  // ---------------------------------------------------------------------------
  // Properties of the operator table

  /** `notContains` is the exact negation of `contains`. */
  lemma NotContainsNegates(left: Value, right: Value)
    ensures Compare(Str("notContains"), left, right) == Negate(Compare(Str("contains"), left, right))
  {
    ContainsNames();
  }

  /** `notExists` is the exact negation of `exists`. */
  lemma NotExistsNegates(left: Value, right: Value)
    ensures Compare(Str("notExists"), left, right) == Negate(Compare(Str("exists"), left, right))
  {
    ExistsNames();
  }

  /** `notEmpty` is the exact negation of `empty`. */
  lemma NotEmptyNegates(left: Value, right: Value)
    ensures Compare(Str("notEmpty"), left, right) == Negate(Compare(Str("empty"), left, right))
  {
    EmptyNames();
  }

  /** So are `!=`, `!==` and `notIn` of `==`, `===` and `in`. */
  lemma NegatedEqualities(left: Value, right: Value)
    ensures Compare(Str("notEquals"), left, right) == Negate(Compare(Str("equals"), left, right))
    ensures Compare(Str("!=="), left, right) == Negate(Compare(Str("==="), left, right))
    ensures Compare(Str("notIn"), left, right) == Negate(Compare(Str("in"), left, right))
  {
    EqualsNames();
    StrictNames();
    InNames();
  }

  /** With a right operand that is not an array, `in` is false and `notIn` is true. */
  lemma MembershipNeedsArray(left: Value, right: Value)
    requires !right.Arr?
    ensures Compare(Str("in"), left, right) == Decided(false)
    ensures Compare(Str("notIn"), left, right) == Decided(true)
  {
    InNames();
  }

  /**
   * On strings, `startsWith` holds exactly when the left side is the right
   * side followed by something, and `endsWith` exactly when it is something
   * followed by the right side; otherwise both answer false.
   */
  lemma PrefixAndSuffix(s: string, p: string)
    ensures Compare(Str("startsWith"), Str(s), Str(p)).Decided?
    ensures Compare(Str("startsWith"), Str(s), Str(p)) == Decided(true) <==> exists t :: s == p + t
    ensures Compare(Str("endsWith"), Str(s), Str(p)).Decided?
    ensures Compare(Str("endsWith"), Str(s), Str(p)) == Decided(true) <==> exists t :: s == t + p
  {
    AffixNames();
    assert Compare(Str("startsWith"), Str(s), Str(p)) == Decided(StartsWith(s, p));
    assert Compare(Str("endsWith"), Str(s), Str(p)) == Decided(EndsWith(s, p));
    StartsWithSplit(s, p);
    EndsWithSplit(s, p);
  }

  lemma StartsWithSplit(s: string, p: string)
    ensures StartsWith(s, p) <==> exists t :: s == p + t
  {
    if StartsWith(s, p) {
      assert s == p + s[|p|..];
    }
    if exists t :: s == p + t {
      var t :| s == p + t;
      assert s[..|p|] == p;
    }
  }

  lemma EndsWithSplit(s: string, p: string)
    ensures EndsWith(s, p) <==> exists t :: s == t + p
  {
    if EndsWith(s, p) {
      assert s == s[..|s| - |p|] + p;
    }
    if exists t :: s == t + p {
      var t :| s == t + p;
      assert s[|t|..] == p;
    }
  }

  /** A string is never below itself, and string order is asymmetric. */
  lemma {:induction false} StrLessAsymmetric(s: string, t: string)
    ensures !(StrLess(s, t) && StrLess(t, s))
    ensures !StrLess(s, s)
    decreases |s|
  {
    if s != [] && t != [] && s[0] == t[0] {
      StrLessAsymmetric(s[1..], t[1..]);
    }
    if s != [] {
      StrLessAsymmetric(s[1..], s[1..]);
    }
  }

  /** On two numbers or two strings, `>` and `<=` are complementary, and `==` agrees with `===`. */
  lemma OrderOperators(left: Value, right: Value)
    requires (left.Int? && right.Int?) || (left.Str? && right.Str?)
    ensures Compare(Str(">"), left, right).Decided? && Compare(Str("<="), left, right).Decided?
    ensures Compare(Str(">"), left, right).holds != Compare(Str("<="), left, right).holds
    ensures Compare(Str("=="), left, right) == Compare(Str("==="), left, right)
    ensures Compare(Str(">"), left, right).holds ==> !Compare(Str("<"), left, right).holds
  {
    OrderNames();
    if left.Str? {
      StrLessAsymmetric(left.s, right.s);
    }
  }

  /**
   * An unknown operator, including `custom` without an expression, gives
   * the error result, which never reads as a failed condition.
   */
  lemma UnknownOperatorNeverSkips(config: Value, inputs: Value, variables: Value, now: string,
                                  script: (Value, Value) -> ExecResult)
    requires !Nullish(config)
    requires !(Operator(config) == Str("custom") && Truthy(ConditionExpression(config)))
    requires Compare(Operator(config), ProcessValue(Get(config, "leftValue"), inputs, variables),
                     ProcessValue(Get(config, "rightValue"), inputs, variables)).UnknownOperator?
    ensures Evaluate(config, inputs, variables, now, script)
      == Some(ErrorResult(config, "Unknown operator: " + ToStr(Operator(config))))
    ensures !FailedShaped(Evaluate(config, inputs, variables, now, script).value)
  {
  }

  /** `custom` is not an operator of the table. */
  lemma CustomIsNotAComparison(left: Value, right: Value)
    ensures Compare(Str("custom"), left, right) == UnknownOperator
  {
    assert OperatorNamed("custom") == None;
  }

  // The case labels the lemmas above use.

  lemma ContainsNames()
    ensures OperatorNamed("contains") == Some(ContainsOp) && OperatorNamed("notContains") == Some(NotContainsOp)
  {
  }

  lemma ExistsNames()
    ensures OperatorNamed("exists") == Some(ExistsOp) && OperatorNamed("notExists") == Some(NotExistsOp)
  {
  }

  lemma EmptyNames()
    ensures OperatorNamed("empty") == Some(EmptyOp) && OperatorNamed("notEmpty") == Some(NotEmptyOp)
  {
  }

  lemma EqualsNames()
    ensures OperatorNamed("equals") == Some(EqualsOp) && OperatorNamed("notEquals") == Some(NotEqualsOp)
  {
  }

  lemma StrictNames()
    ensures OperatorNamed("===") == Some(StrictEqualsOp) && OperatorNamed("!==") == Some(StrictNotEqualsOp)
  {
  }

  lemma InNames()
    ensures OperatorNamed("in") == Some(InOp) && OperatorNamed("notIn") == Some(NotInOp)
  {
  }

  lemma AffixNames()
    ensures OperatorNamed("startsWith") == Some(StartsWithOp) && OperatorNamed("endsWith") == Some(EndsWithOp)
  {
  }

  lemma OrderNames()
    ensures OperatorNamed(">") == Some(GreaterOp) && OperatorNamed("<=") == Some(LessOrEqualOp)
    ensures OperatorNamed("<") == Some(LessOp) && OperatorNamed("==") == Some(EqualsOp)
    ensures OperatorNamed("===") == Some(StrictEqualsOp)
  {
  }

  /** A value that is wholly `{{path}}` resolves to the raw value at the path. */
  lemma WholePlaceholderValue(path: string, inputs: Value, variables: Value)
    ensures ProcessValue(Str("{{" + path + "}}"), inputs, variables)
      == Walk(Scope(inputs, variables), PathKeys(path)).GetOr(Undef)
  {
    var s := "{{" + path + "}}";
    assert s[..2] == "{{";
    assert s[|s| - 2..] == "}}";
    assert s[2..|s| - 2] == path;
  }

  /** In the scope `{...inputs, ...variables}` a variable shadows an input of the same name. */
  lemma VariablesWin(inputs: Value, variables: Value, key: string)
    requires key in Spread(variables)
    ensures Scope(inputs, variables).fields[key] == Spread(variables)[key]
  {
  }
}
