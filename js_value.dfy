/**
 * The JavaScript values the workflow engine passes between nodes, with the
 * handful of language operations the core relies on: truthiness, `String(v)`,
 * `parseInt`, property access, `key in obj`, object spread, and the string
 * methods `trim`, `split`, `join`, `toUpperCase`, `toLowerCase`,
 * `includes`, `startsWith` and `endsWith`.
 *
 * Numbers are unbounded integers (no fractions, NaN or Infinity); strings
 * are sequences of Unicode scalar values; an object is a map from keys to
 * values, so the insertion order of its keys is not recorded.
 */
module JsValue {
  import opened Wrappers

  datatype Value =
    | Undef
    | Null
    | Bool(b: bool)
    | Int(i: int)
    | Str(s: string)
    | Arr(items: seq<Value>)
    | Obj(fields: map<string, Value>)

  /** Boolean coercion: `!!v`. */
  predicate Truthy(v: Value) {
    match v
    case Undef => false
    case Null => false
    case Bool(b) => b
    case Int(i) => i != 0
    case Str(s) => s != ""
    case _ => true
  }

  /** `typeof v === 'object'`: arrays and null included. */
  predicate IsObjectType(v: Value) {
    v.Null? || v.Arr? || v.Obj?
  }

  /** A destructuring default: `{ k = d } = obj` gives d only when obj.k is undefined. */
  function Default(v: Value, d: Value): Value {
    if v.Undef? then d else v
  }

  /** `v || d` */
  function Or(v: Value, d: Value): Value {
    if Truthy(v) then v else d
  }

  // ---------------------------------------------------------------------------
  // Characters and digits

  predicate IsSpace(c: char) {
    c == ' ' || c == '\t' || c == '\n' || c == '\r' || c == '\U{000B}' || c == '\U{000C}'
    || c == '\U{00A0}' || c == '\U{FEFF}'
  }

  predicate IsDigit(c: char) {
    '0' <= c <= '9'
  }

  /** The value of `c` as a digit in the given radix (10 or 16). */
  function DigitOf(c: char, radix: nat): (d: Option<nat>)
    ensures d.Some? ==> d.value < radix || radix < 10
  {
    if '0' <= c <= '9' && (c as int) - ('0' as int) < radix then Some((c as int) - ('0' as int))
    else if radix == 16 && 'a' <= c <= 'f' then Some((c as int) - ('a' as int) + 10)
    else if radix == 16 && 'A' <= c <= 'F' then Some((c as int) - ('A' as int) + 10)
    else None
  }

  predicate AllDigits(s: string, radix: nat) {
    forall i :: 0 <= i < |s| ==> DigitOf(s[i], radix).Some?
  }

  /** Positional value of a digit string, most significant digit first. */
  function DigitsValue(s: string, radix: nat): nat
    requires AllDigits(s, radix)
  {
    if s == [] then 0
    else DigitsValue(s[..|s| - 1], radix) * radix + DigitOf(s[|s| - 1], radix).value
  }

  /** Length of the longest prefix of `s` made of digits of the radix. */
  function DigitPrefix(s: string, radix: nat): (k: nat)
    ensures k <= |s| && AllDigits(s[..k], radix)
    ensures k < |s| ==> DigitOf(s[k], radix).None?
  {
    if s != [] && DigitOf(s[0], radix).Some? then
      var k := 1 + DigitPrefix(s[1..], radix);
      assert s[..k] == [s[0]] + s[1..][..k - 1];
      k
    else 0
  }

  function DigitChar(d: nat): (c: char)
    requires d < 10
    ensures IsDigit(c) && DigitOf(c, 10) == Some(d)
  {
    ((d + '0' as int) as char)
  }

  /** Decimal digits of a natural number, without leading zeros. */
  function NatToStr(n: nat): (s: string)
    ensures |s| >= 1 && AllDigits(s, 10)
  {
    if n < 10 then [DigitChar(n)] else NatToStr(n / 10) + [DigitChar(n % 10)]
  }

  /** `String(i)` for an integer. */
  function IntToStr(i: int): (s: string)
    ensures |s| >= 1
  {
    if i < 0 then "-" + NatToStr(-i) else NatToStr(i)
  }

  /**
   * `parseInt(s)` without a radix: leading white space, an optional sign,
   * an optional `0x` prefix selecting hexadecimal, then the longest run of
   * digits. None stands for NaN (no digit at all).
   */
  function ParseInt(s: string): (r: Option<int>)
  {
    var t := TrimStart(s);
    if t != [] && t[0] == '-' then
      match ParseUnsigned(t[1..])
      case Some(n) => Some(-n)
      case None => None
    else if t != [] && t[0] == '+' then ParseUnsigned(t[1..])
    else ParseUnsigned(t)
  }

  /** The digits after the sign: hexadecimal behind `0x`/`0X`, decimal otherwise. */
  function ParseUnsigned(u: string): (r: Option<int>)
    ensures r.Some? ==> r.value >= 0
  {
    if |u| >= 2 && u[0] == '0' && (u[1] == 'x' || u[1] == 'X') then LeadingDigits(u[2..], 16)
    else LeadingDigits(u, 10)
  }

  function LeadingDigits(w: string, radix: nat): (r: Option<int>)
    ensures r.Some? ==> r.value >= 0
  {
    var k := DigitPrefix(w, radix);
    if k == 0 then None else Some(DigitsValue(w[..k], radix))
  }

  lemma {:induction false} NatToStrValue(n: nat)
    ensures DigitsValue(NatToStr(n), 10) == n
  {
    if n >= 10 {
      var s := NatToStr(n / 10);
      NatToStrValue(n / 10);
      assert (s + [DigitChar(n % 10)])[..|s|] == s;
    }
  }

  lemma {:induction false} DigitPrefixAll(s: string, radix: nat)
    requires AllDigits(s, radix)
    ensures DigitPrefix(s, radix) == |s|
  {
    if s != [] {
      DigitPrefixAll(s[1..], radix);
    }
  }

  /** A digit string with no space, sign or hex prefix in front reads back as its value. */
  lemma ParseDigits(d: string)
    requires |d| >= 1 && AllDigits(d, 10)
    ensures ParseUnsigned(d) == Some(DigitsValue(d, 10))
  {
    DigitPrefixAll(d, 10);
    assert d[..|d|] == d;
    assert |d| >= 2 ==> d[1] != 'x' && d[1] != 'X';
  }

  lemma NoSpaceBefore(t: string)
    requires t != [] && !IsSpace(t[0])
    ensures TrimStart(t) == t
  {
  }

  /** Text that starts with neither white space, a sign nor a digit is NaN. */
  lemma ParseIntNaN(s: string)
    requires s != [] && !IsSpace(s[0]) && s[0] != '-' && s[0] != '+' && !IsDigit(s[0])
    ensures ParseInt(s).None?
  {
    NoSpaceBefore(s);
    assert DigitOf(s[0], 10).None?;
    assert DigitPrefix(s, 10) == 0;
  }

  /** What `String` writes, `parseInt` reads back. */
  lemma ParseIntOfIntToStr(i: int)
    ensures ParseInt(IntToStr(i)) == Some(i)
  {
    var n: nat := if i < 0 then -i else i;
    var d := NatToStr(n);
    NatToStrValue(n);
    ParseDigits(d);
    assert DigitOf(d[0], 10).Some?;
    assert '0' <= d[0] <= '9';
    if i < 0 {
      var m := "-" + d;
      assert m[0] == '-' && m[1..] == d;
      NoSpaceBefore(m);
    } else {
      NoSpaceBefore(d);
    }
  }

  // ---------------------------------------------------------------------------
  // String methods

  function TrimStart(s: string): (r: string)
    ensures |r| <= |s| && r == s[|s| - |r|..]
    ensures r == [] || !IsSpace(r[0])
  {
    if s != [] && IsSpace(s[0]) then TrimStart(s[1..]) else s
  }

  function TrimEnd(s: string): (r: string)
    ensures |r| <= |s| && r == s[..|r|]
    ensures r == [] || !IsSpace(r[|r| - 1])
  {
    if s != [] && IsSpace(s[|s| - 1]) then TrimEnd(s[..|s| - 1]) else s
  }

  /** `s.trim()`: white space is recognised for ASCII, NBSP and BOM only. */
  function Trim(s: string): (r: string)
    ensures r == [] || (!IsSpace(r[0]) && !IsSpace(r[|r| - 1]))
  {
    var t := TrimStart(s);
    var r := TrimEnd(t);
    assert r != [] ==> r[0] == t[0];
    r
  }

  predicate StartsWith(s: string, p: string) {
    |p| <= |s| && s[..|p|] == p
  }

  predicate EndsWith(s: string, p: string) {
    |p| <= |s| && s[|s| - |p|..] == p
  }

  lemma EndsWithAppend(a: string, p: string)
    ensures EndsWith(a + p, p)
  {
    assert (a + p)[|a|..] == p;
  }

  /** `s.includes(p)` */
  predicate Includes(s: string, p: string) {
    exists i | 0 <= i <= |s| :: OccursAt(s, p, i)
  }

  predicate OccursAt(s: string, p: string, i: int) {
    0 <= i <= |s| - |p| && s[i..i + |p|] == p
  }

  /** `s.split(sep)` for a one-character separator. */
  function Split(s: string, sep: char): (parts: seq<string>)
    ensures |parts| >= 1
    ensures forall i :: 0 <= i < |parts| ==> sep !in parts[i]
  {
    if s == [] then [""]
    else if s[0] == sep then [""] + Split(s[1..], sep)
    else
      var rest := Split(s[1..], sep);
      [[s[0]] + rest[0]] + rest[1..]
  }

  /** A string without the separator splits into itself alone. */
  lemma {:induction false} SplitNoSep(s: string, sep: char)
    requires sep !in s
    ensures Split(s, sep) == [s]
  {
    if s != [] {
      assert forall c :: c in s[1..] ==> c in s;
      SplitNoSep(s[1..], sep);
      assert [s[0]] + s[1..] == s;
    }
  }

  /** `parts.join(sep)` */
  function Join(parts: seq<string>, sep: string): string {
    if |parts| == 0 then ""
    else if |parts| == 1 then parts[0]
    else parts[0] + sep + Join(parts[1..], sep)
  }

  /** Splitting at a separator and joining with it gives back the string. */
  lemma {:induction false} JoinSplit(s: string, sep: char)
    ensures Join(Split(s, sep), [sep]) == s
  {
    if s != [] {
      var rest := Split(s[1..], sep);
      JoinSplit(s[1..], sep);
      if s[0] != sep {
        var parts := [[s[0]] + rest[0]] + rest[1..];
        if |rest| > 1 {
          assert parts[1..] == rest[1..];
          assert Join(rest, [sep]) == rest[0] + [sep] + Join(rest[1..], [sep]);
        }
        assert Join(parts, [sep]) == [s[0]] + Join(rest, [sep]);
      } else {
        assert Join([""] + rest, [sep]) == [sep] + Join(rest, [sep]);
      }
    }
  }

  function UpperChar(c: char): char {
    if 'a' <= c <= 'z' then ((c as int) - 32) as char else c
  }

  function LowerChar(c: char): char {
    if 'A' <= c <= 'Z' then ((c as int) + 32) as char else c
  }

  /** `s.toUpperCase()` on ASCII letters. */
  function ToUpper(s: string): (r: string)
    ensures |r| == |s|
  {
    seq(|s|, i requires 0 <= i < |s| => UpperChar(s[i]))
  }

  /** `s.toLowerCase()` on ASCII letters. */
  function ToLower(s: string): (r: string)
    ensures |r| == |s|
  {
    seq(|s|, i requires 0 <= i < |s| => LowerChar(s[i]))
  }

  // ---------------------------------------------------------------------------
  // Conversions and property access

  /** `String(v)`; an array is joined with commas, null and undefined elements written as "". */
  function ToStr(v: Value): string
    decreases v
  {
    match v
    case Undef => "undefined"
    case Null => "null"
    case Bool(b) => if b then "true" else "false"
    case Int(i) => IntToStr(i)
    case Str(s) => s
    case Arr(items) =>
      Join(seq(|items|, k requires 0 <= k < |items| =>
             if items[k].Undef? || items[k].Null? then "" else ToStr(items[k])), ",")
    case Obj(_) => "[object Object]"
  }

  /** The number a canonical array-index key such as "0" or "17" names. */
  function IndexKey(k: string): Option<nat> {
    if k != [] && AllDigits(k, 10) && (k == "0" || k[0] != '0') then Some(DigitsValue(k, 10)) else None
  }

  /** `k in v` for an object or array (inherited properties are not modelled). */
  predicate HasKey(v: Value, k: string) {
    match v
    case Obj(f) => k in f
    case Arr(items) => k == "length" || (IndexKey(k).Some? && IndexKey(k).value < |items|)
    case _ => false
  }

  /**
   * `s.length`: the number of UTF-16 code units. A character above U+FFFF
   * is a surrogate pair and counts twice.
   */
  function Utf16Length(s: string): (n: nat)
    ensures |s| <= n <= 2 * |s|
  {
    if s == [] then 0
    else (if s[0] as int < 0x1_0000 then 1 else 2) + Utf16Length(s[1..])
  }

  lemma {:induction false} Utf16Append(a: string, b: string)
    ensures Utf16Length(a + b) == Utf16Length(a) + Utf16Length(b)
  {
    if a != [] {
      assert (a + b)[0] == a[0] && (a + b)[1..] == a[1..] + b;
      Utf16Append(a[1..], b);
    } else {
      assert a + b == b;
    }
  }

  /** Without characters above U+FFFF the code units are the characters. */
  lemma {:induction false} Utf16Bmp(s: string)
    requires forall i :: 0 <= i < |s| ==> s[i] as int < 0x1_0000
    ensures Utf16Length(s) == |s|
  {
    if s != [] {
      assert s[0] as int < 0x1_0000;
      Utf16Bmp(s[1..]);
    }
  }

  /** A string of `k` characters above U+FFFF is `2 * k` code units long. */
  lemma {:induction false} Utf16Astral(c: char, k: nat)
    requires c as int >= 0x1_0000
    ensures Utf16Length(seq(k, _ => c)) == 2 * k
  {
    var s := seq(k, _ => c);
    if k > 0 {
      assert s[0] == c && s[1..] == seq(k - 1, _ => c);
      Utf16Astral(c, k - 1);
    } else {
      assert s == [];
    }
  }

  /** `v[k]` for a value that is neither null nor undefined. */
  function Get(v: Value, k: string): Value {
    match v
    case Obj(f) => if k in f then f[k] else Undef
    case Arr(items) =>
      if k == "length" then Int(|items|)
      else if IndexKey(k).Some? && IndexKey(k).value < |items| then items[IndexKey(k).value]
      else Undef
    case Str(s) =>
      if k == "length" then Int(Utf16Length(s))
      else if IndexKey(k).Some? && IndexKey(k).value < |s| then Str([s[IndexKey(k).value]])
      else Undef
    case _ => Undef
  }

  /** `v.k`; None is the TypeError thrown when v is null or undefined. */
  function Prop(v: Value, k: string): (r: Option<Value>)
    ensures r.None? <==> (v.Null? || v.Undef?)
  {
    if v.Null? || v.Undef? then None else Some(Get(v, k))
  }

  function IndexedSpread(items: seq<Value>): map<string, Value> {
    if items == [] then map[]
    else IndexedSpread(items[..|items| - 1])[IntToStr(|items| - 1) := items[|items| - 1]]
  }

  function CharSpread(s: string): map<string, Value> {
    if s == [] then map[]
    else CharSpread(s[..|s| - 1])[IntToStr(|s| - 1) := Str([s[|s| - 1]])]
  }

  /** The own enumerable properties `{...v}` copies. */
  function Spread(v: Value): map<string, Value> {
    match v
    case Obj(f) => f
    case Arr(items) => IndexedSpread(items)
    case Str(s) => CharSpread(s)
    case _ => map[]
  }

  /** `{...a, ...b}` */
  function Merge(a: Value, b: Value): (r: Value)
    ensures r.Obj? && r.fields == Spread(a) + Spread(b)
  {
    Obj(Spread(a) + Spread(b))
  }
}
