/**
 * Placeholder substitution as the executors do it with
 * `str.replace(/\{\{([^}]+)\}\}/g, fn)` (and the logger's `/\$\{([^}]+)\}/g`):
 * scanning left to right, a placeholder is the opening pair, one or more
 * characters other than '}', and the closing braces; the callback's answer
 * replaces it, and scanning resumes after it.
 */
module Template {
  import opened Wrappers
  import opened JsValue
  import opened Paths

  /** An opening pair of characters and a closing run of '}'. */
  datatype Syntax = Syntax(open: string, close: string)

  const Braces := Syntax("{{", "}}")
  const Dollar := Syntax("${", "}")

  predicate WellFormed(syn: Syntax) {
    |syn.open| == 2 && (syn.close == "}" || syn.close == "}}")
  }

  /** The first '}' at or after i (|s| when there is none). */
  function CloseAt(s: string, i: nat): (j: nat)
    requires i <= |s|
    ensures i <= j <= |s| && (j < |s| ==> s[j] == '}')
    ensures forall k :: i <= k < j ==> s[k] != '}'
    decreases |s| - i
  {
    if i == |s| || s[i] == '}' then i else CloseAt(s, i + 1)
  }

  /**
   * When a placeholder starts at the beginning of s, the index where its
   * path ends: the path is s[2..j] and the match is s[..j + |close|].
   */
  function PlaceholderAt(s: string, syn: Syntax): (r: Option<nat>)
    requires WellFormed(syn)
    ensures r.Some? ==> 2 < r.value && r.value + |syn.close| <= |s| && s[..2] == syn.open
    ensures r.Some? ==> '}' !in s[2..r.value] && s[r.value..r.value + |syn.close|] == syn.close
  {
    if |s| >= 2 && s[..2] == syn.open then
      var j := CloseAt(s, 2);
      if j > 2 && j + |syn.close| <= |s| && s[j..j + |syn.close|] == syn.close then Some(j) else None
    else None
  }

  /**
   * `s.replace(regex, fn)` where `fn(path)` gives the replacement text, or
   * None to put the matched text back.
   */
  function Replace(s: string, syn: Syntax, fn: string -> Option<string>): string
    requires WellFormed(syn)
    decreases |s|
  {
    if s == [] then []
    else
      match PlaceholderAt(s, syn)
      case Some(j) =>
        var n := j + |syn.close|;
        fn(s[2..j]).GetOr(s[..n]) + Replace(s[n..], syn, fn)
      case None => [s[0]] + Replace(s[1..], syn, fn)
  }

  /** When the callback resolves nothing, every placeholder stays verbatim. */
  lemma {:induction false} ReplaceKeepsUnresolved(s: string, syn: Syntax, fn: string -> Option<string>)
    requires WellFormed(syn)
    requires forall p :: fn(p).None?
    ensures Replace(s, syn, fn) == s
    decreases |s|
  {
    if s != [] {
      match PlaceholderAt(s, syn)
      case Some(j) =>
        var n := j + |syn.close|;
        ReplaceKeepsUnresolved(s[n..], syn, fn);
        assert s[..n] + s[n..] == s;
      case None =>
        ReplaceKeepsUnresolved(s[1..], syn, fn);
        assert [s[0]] + s[1..] == s;
    }
  }

  /** Text without the opening pair is left as it is. */
  lemma {:induction false} ReplaceWithoutOpen(s: string, syn: Syntax, fn: string -> Option<string>)
    requires WellFormed(syn)
    requires !Includes(s, syn.open)
    ensures Replace(s, syn, fn) == s
    decreases |s|
  {
    if s != [] {
      assert !OccursAt(s, syn.open, 0);
      assert PlaceholderAt(s, syn).None?;
      assert !Includes(s[1..], syn.open) by {
        forall i | 0 <= i <= |s[1..]| ensures !OccursAt(s[1..], syn.open, i) {
          if OccursAt(s[1..], syn.open, i) {
            assert s[1..][i..i + |syn.open|] == s[i + 1..i + 1 + |syn.open|];
            assert OccursAt(s, syn.open, i + 1);
          }
        }
      }
      ReplaceWithoutOpen(s[1..], syn, fn);
      assert [s[0]] + s[1..] == s;
    }
  }

  /** A text that is exactly one placeholder is replaced by the callback's answer. */
  lemma WholePlaceholder(p: string, syn: Syntax, fn: string -> Option<string>)
    requires WellFormed(syn) && p != [] && '}' !in p
    ensures Replace(syn.open + p + syn.close, syn, fn) == fn(p).GetOr(syn.open + p + syn.close)
  {
    var s := syn.open + p + syn.close;
    var j := 2 + |p|;
    var n := j + |syn.close|;
    assert s[..2] == syn.open && s[2..j] == p && s[j..n] == syn.close;
    assert forall k :: 2 <= k < j ==> s[k] == p[k - 2];
    CloseAtFirst(s, 2, j);
    assert PlaceholderAt(s, syn) == Some(j);
    assert s[..n] == s && s[n..] == [];
  }

  /** s is one placeholder and nothing else: the opening pair, a path without '}', the closing braces. */
  predicate Whole(s: string, syn: Syntax)
    requires WellFormed(syn)
  {
    |s| > 2 + |syn.close| && s[..2] == syn.open && s[|s| - |syn.close|..] == syn.close
    && '}' !in s[2..|s| - |syn.close|]
  }

  /** The path of a whole placeholder. */
  function Inner(s: string, syn: Syntax): (p: string)
    requires WellFormed(syn) && Whole(s, syn)
    ensures s == syn.open + p + syn.close && p != [] && '}' !in p
  {
    var p := s[2..|s| - |syn.close|];
    assert s == s[..2] + p + s[|s| - |syn.close|..];
    p
  }

  /** `WholePlaceholder` for a text recognised as one placeholder. */
  lemma WholeText(s: string, syn: Syntax, fn: string -> Option<string>)
    requires WellFormed(syn)
    ensures Whole(s, syn) ==> Replace(s, syn, fn) == fn(Inner(s, syn)).GetOr(s)
  {
    if Whole(s, syn) {
      WholePlaceholder(Inner(s, syn), syn, fn);
    }
  }

  /** The scan for '}' stops at the first one. */
  lemma CloseAtFirst(s: string, i: nat, j: nat)
    requires i <= j < |s| && s[j] == '}'
    requires forall k :: i <= k < j ==> s[k] != '}'
    ensures CloseAt(s, i) == j
  {
  }

  // ---------------------------------------------------------------------------
  // The resolvers

  /** `{ ...inputs, ...context.variables }` */
  function Scope(inputs: Value, variables: Value): Value {
    Merge(inputs, variables)
  }

  /** `path.trim().split('.')` */
  function PathKeys(path: string): seq<string> {
    Segments(Trim(path))
  }

  /**
   * The resolver of `replaceTemplateVariables` in the redisSet, redisGet,
   * delay and httpRequest executors: the matched text when the walk fails,
   * otherwise `String(value)` (so a present key holding undefined gives
   * "undefined").
   */
  function NodeResolve(inputs: Value, variables: Value, path: string): Option<string> {
    var w := Walk(Scope(inputs, variables), PathKeys(path));
    if w.None? then None else Some(ToStr(w.value))
  }

  /**
   * The inline resolver of the condition executor's `processValue`: the
   * matched text unless the walk yields a value other than undefined.
   */
  function ConditionResolve(inputs: Value, variables: Value, path: string): Option<string> {
    var v := Walk(Scope(inputs, variables), PathKeys(path)).GetOr(Undef);
    if v.Undef? then None else Some(ToStr(v))
  }

  /**
   * `replaceTemplateVariables(str, inputs, context)` of the redisSet,
   * redisGet, delay and httpRequest executors.
   */
  function ReplaceTemplateVariables(str: Value, inputs: Value, variables: Value): (r: Value)
    ensures !str.Str? || str.s == [] ==> r == str
    ensures str.Str? ==> r.Str?
    // a text that is one placeholder becomes `String(value)` of its path, or stays when the walk fails
    ensures str.Str? && Whole(str.s, Braces) ==>
      var w := Walk(Scope(inputs, variables), PathKeys(Inner(str.s, Braces)));
      r == Str(if w.Some? then ToStr(w.value) else str.s)
  {
    if !Truthy(str) || !str.Str? then str
    else
      var fn := p => NodeResolve(inputs, variables, p);
      WholeText(str.s, Braces, fn);
      Str(Replace(str.s, Braces, fn))
  }

  /** Unresolvable placeholders survive `replaceTemplateVariables` verbatim. */
  lemma TemplateKeepsUnresolved(s: string, inputs: Value, variables: Value)
    requires forall p :: Walk(Scope(inputs, variables), PathKeys(p)).None?
    ensures ReplaceTemplateVariables(Str(s), inputs, variables) == Str(s)
  {
    ReplaceKeepsUnresolved(s, Braces, p => NodeResolve(inputs, variables, p));
  }

  /**
   * The two resolvers agree except where the path leads to a key whose value
   * is undefined: there the node resolver writes "undefined" and the
   * condition resolver keeps the placeholder.
   */
  lemma ResolversDiffer(inputs: Value, variables: Value, path: string)
    ensures Walk(Scope(inputs, variables), PathKeys(path)) != Some(Undef) ==>
      NodeResolve(inputs, variables, path) == ConditionResolve(inputs, variables, path)
    ensures Walk(Scope(inputs, variables), PathKeys(path)) == Some(Undef) ==>
      NodeResolve(inputs, variables, path) == Some("undefined") && ConditionResolve(inputs, variables, path).None?
  {
  }

  /** A concrete case where the two resolvers disagree. */
  lemma ResolversDifferExample()
    ensures NodeResolve(Obj(map["x" := Undef]), Obj(map[]), "x") == Some("undefined")
    ensures ConditionResolve(Obj(map["x" := Undef]), Obj(map[]), "x") == None
  {
    var inputs := Obj(map["x" := Undef]);
    SingleKeyPath();
    assert Scope(inputs, Obj(map[])).fields == map["x" := Undef];
    assert Walk(Scope(inputs, Obj(map[])), ["x"]) == Some(Undef);
    ResolversDiffer(inputs, Obj(map[]), "x");
  }

  lemma SingleKeyPath()
    ensures PathKeys("x") == ["x"]
  {
    var x := "x";
    assert !IsSpace(x[0]);
    assert TrimStart(x) == x;
    assert TrimEnd(x) == x;
    assert Trim(x) == x;
    assert '.' !in x;
    SplitNoSep(x, '.');
  }
}
