/** The slice of JavaScript semantics the client relies on: dynamic values,
    truthiness, default parameters, property reads, `String(v)`, `trim()`,
    `join` and `includes`. Every other module states its behaviour in these
    terms. */
module Js {

  /** A JavaScript value as it reaches the client: decoded JSON, form data or
      a literal. Numbers are integers; functions and symbols never occur. */
  datatype Value =
    | Undefined
    | Null
    | Bool(b: bool)
    | Num(n: int)
    | Str(s: string)
    | Arr(elems: seq<Value>)
    | Obj(props: map<string, Value>)

  /** What a `throw` carries to the caller. */
  datatype Thrown =
    | Error(message: string)   // `new Error(message)`
    | TypeError                // reading a property of null/undefined, or calling a non-function
    | SyntaxError              // `response.json()` on a body that is not JSON
    | FetchFailed              // `fetch` rejected: the server could not be reached

  /** A computation that either returns a value or throws. */
  datatype Result<+T> = Ok(value: T) | Throw(error: Thrown) {
    predicate IsFailure() {
      Throw?
    }

    function PropagateFailure<U>(): Result<U>
      requires Throw?
    {
      Throw(error)
    }

    function Extract(): T
      requires Ok?
    {
      value
    }
  }

  /** A typed result that the source represents as an object or `null`. */
  datatype Option<+T> = None | Some(value: T)

  /** `!!v`. */
  predicate Truthy(v: Value) {
    match v
    case Undefined => false
    case Null => false
    case Bool(b) => b
    case Num(n) => n != 0
    case Str(s) => s != ""
    case Arr(_) => true
    case Obj(_) => true
  }

  /** `v == null`: the values whose properties cannot be read. */
  predicate Nullish(v: Value) {
    v.Undefined? || v.Null?
  }

  /** `a || b`. */
  function Or(a: Value, b: Value): Value {
    if Truthy(a) then a else b
  }

  /** A parameter declared with a default, `param = dflt`: only `undefined`
      is replaced; `null` and every other falsy value are kept. */
  function WithDefault(arg: Value, dflt: Value): Value {
    if arg.Undefined? then dflt else arg
  }

  /** The own property `key` of an object, `undefined` when absent. */
  function Field(props: map<string, Value>, key: string): Value {
    if key in props then props[key] else Undefined
  }

  /** `v.key`. Reading a property of null or undefined throws; primitives and
      arrays have none of the keys this client reads. */
  function Get(v: Value, key: string): (r: Result<Value>)
    ensures r.Throw? <==> Nullish(v)
    ensures r.Throw? ==> r.error == TypeError
    ensures v.Obj? ==> r == Ok(Field(v.props, key))
    ensures !v.Obj? && !Nullish(v) ==> r == Ok(Undefined)
  {
    match v
    case Undefined => Throw(TypeError)
    case Null => Throw(TypeError)
    case Obj(props) => Ok(Field(props, key))
    case _ => Ok(Undefined)
  }

  /** `v?.key`: optional chaining never throws. */
  function GetOptional(v: Value, key: string): (r: Value)
    ensures Nullish(v) ==> r == Undefined
    ensures !Nullish(v) ==> Get(v, key) == Ok(r)
  {
    if Nullish(v) then Undefined else Get(v, key).value
  }

  // ---------------------------------------------------------------------------
  // String conversion: `String(v)`, template literals, `localStorage.setItem`

  function DigitChar(d: nat): char
    requires d < 10
  {
    "0123456789"[d]
  }

  /** Decimal digits of a natural number, most significant first. */
  function NatToDecimal(n: nat): (r: string)
    ensures |r| > 0
    ensures forall i :: 0 <= i < |r| ==> '0' <= r[i] <= '9'
  {
    if n < 10 then [DigitChar(n)] else NatToDecimal(n / 10) + [DigitChar(n % 10)]
  }

  /** `String(v)`. Arrays join their elements with ',' and show null and
      undefined elements as the empty string, as `Array.prototype.toString`
      does. */
  function ToStr(v: Value): string
    decreases v
  {
    match v
    case Undefined => "undefined"
    case Null => "null"
    case Bool(b) => if b then "true" else "false"
    case Num(n) => if n < 0 then "-" + NatToDecimal(-n) else NatToDecimal(n)
    case Str(s) => s
    case Arr(es) =>
      Join(seq(|es|, i requires 0 <= i < |es| => if Nullish(es[i]) then "" else ToStr(es[i])), ",")
    case Obj(_) => "[object Object]"
  }

  /** `parts.join(sep)`. */
  function Join(parts: seq<string>, sep: string): string
  {
    if |parts| == 0 then ""
    else if |parts| == 1 then parts[0]
    else parts[0] + sep + Join(parts[1..], sep)
  }

  /** `hay.includes(needle)`. */
  predicate Includes(hay: string, needle: string) {
    exists i | 0 <= i <= |hay| - |needle| :: OccursAt(hay, needle, i)
  }

  predicate OccursAt(hay: string, needle: string, i: int) {
    0 <= i <= |hay| - |needle| && hay[i..i + |needle|] == needle
  }

  // ---------------------------------------------------------------------------
  // Whitespace and `trim()`

  /** The characters `trim()` removes and `\s` matches: WhiteSpace and
      LineTerminator of section 12.2 and 12.3 of ECMA-262. */
  predicate IsSpace(c: char) {
    || c == '\U{0009}' || c == '\U{000A}' || c == '\U{000B}' || c == '\U{000C}' || c == '\U{000D}'
    || c == '\U{0020}' || c == '\U{00A0}' || c == '\U{1680}'
    || ('\U{2000}' <= c <= '\U{200A}')
    || c == '\U{2028}' || c == '\U{2029}' || c == '\U{202F}' || c == '\U{205F}'
    || c == '\U{3000}' || c == '\U{FEFF}'
  }

  predicate AllSpace(s: string) {
    forall i :: 0 <= i < |s| ==> IsSpace(s[i])
  }

  /** `s.trimStart()`: the longest suffix of `s` not starting with whitespace. */
  function TrimStart(s: string): (r: string)
    ensures |r| <= |s| && r == s[|s| - |r|..]
    ensures AllSpace(s[..|s| - |r|])
    ensures r == [] || !IsSpace(r[0])
  {
    if |s| > 0 && IsSpace(s[0]) then
      var r := TrimStart(s[1..]);
      assert s[..|s| - |r|] == [s[0]] + s[1..][..|s| - 1 - |r|];
      AllSpaceSplit(s[..|s| - |r|], 1);
      r
    else s
  }

  /** `s.trimEnd()`: the longest prefix of `s` not ending with whitespace. */
  function TrimEnd(s: string): (r: string)
    ensures |r| <= |s| && r == s[..|r|]
    ensures AllSpace(s[|r|..])
    ensures r == [] || !IsSpace(r[|r| - 1])
  {
    if |s| > 0 && IsSpace(s[|s| - 1]) then
      var r := TrimEnd(s[..|s| - 1]);
      assert s[|r|..] == s[..|s| - 1][|r|..] + [s[|s| - 1]];
      r
    else s
  }

  /** `piece` is a contiguous piece of `s` with only whitespace before and
      after it. */
  predicate SpaceFramed(s: string, piece: string) {
    exists i, j :: 0 <= i <= j <= |s| && piece == s[i..j] && AllSpace(s[..i]) && AllSpace(s[j..])
  }

  /** `s.trim()`: a contiguous piece of `s` with no whitespace at either
      end; it is empty exactly when `s` is all whitespace. */
  function Trim(s: string): (r: string)
    ensures |r| <= |s|
    ensures SpaceFramed(s, r)
    ensures r == [] || (!IsSpace(r[0]) && !IsSpace(r[|r| - 1]))
    ensures r == "" <==> AllSpace(s)
  {
    var t := TrimStart(s);
    var r := TrimEnd(t);
    TrimEmptyIffAllSpace(s, t, r);
    TrimmedPiece(s, t, r);
    r
  }

  /** Cutting a run of spaces from the front and then one from the back
      leaves a piece of `s` that lies between the two runs and, when not
      empty, starts and ends with a non-space. */
  lemma TrimmedPiece(s: string, t: string, r: string)
    requires |t| <= |s| && t == s[|s| - |t|..] && AllSpace(s[..|s| - |t|])
    requires t == [] || !IsSpace(t[0])
    requires |r| <= |t| && r == t[..|r|] && AllSpace(t[|r|..])
    requires r == [] || !IsSpace(r[|r| - 1])
    ensures SpaceFramed(s, r)
    ensures r == [] || (!IsSpace(r[0]) && !IsSpace(r[|r| - 1]))
  {
    var i, j := |s| - |t|, |s| - |t| + |r|;
    assert s[i..j] == t[..|r|];
    assert s[j..] == t[|r|..];
    if r != [] {
      assert r[0] == t[0];
    }
  }

  lemma TrimEmptyIffAllSpace(s: string, t: string, r: string)
    requires t == TrimStart(s) && r == TrimEnd(t)
    ensures r == "" <==> AllSpace(s)
  {
    var k := |s| - |t|;
    if r == "" {
      assert t[|r|..] == t;
      assert s[k..] == t;
      AllSpaceSplit(s, k);
    } else {
      assert r[0] == t[0] == s[k];
    }
  }

  lemma AllSpaceSplit(s: string, k: int)
    requires 0 <= k <= |s| && AllSpace(s[..k]) && AllSpace(s[k..])
    ensures AllSpace(s)
  {
    forall i | 0 <= i < |s| ensures IsSpace(s[i]) {
      if i < k {
        assert s[i] == s[..k][i];
      } else {
        assert s[i] == s[k..][i - k];
      }
    }
  }

  /** A value on which the validators' `v.trim()` is reached and throws:
      truthy, but not a string. */
  predicate Untrimmable(v: Value) {
    Truthy(v) && !v.Str?
  }

  /** What "required" rejects: a falsy value or an all-whitespace string. */
  predicate Blank(v: Value) {
    !Truthy(v) || (v.Str? && AllSpace(v.s))
  }

  /** `!v || v.trim() === ''`, the "required" test of every validator. */
  function IsBlank(v: Value): (r: Result<bool>)
    ensures r.Throw? <==> Untrimmable(v)
    ensures r.Throw? ==> r.error == TypeError
    ensures r.Ok? ==> (r.value <==> Blank(v))
  {
    if !Truthy(v) then Ok(true)
    else if v.Str? then Ok(Trim(v.s) == "")
    else Throw(TypeError)
  }
}
