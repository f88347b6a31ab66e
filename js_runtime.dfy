/**
 * The pieces of the JavaScript runtime that the client and the relay depend on:
 * dynamically typed values as they arrive from `JSON.parse`, the coercions the code
 * applies to them (`String(v)`, template literals, `Number(v)`, truthiness, `||`,
 * `??`, property access), thrown errors, and what an awaited `fetch` hands back.
 * Numbers are integers throughout (prices are whole yen, timestamps whole units).
 */
module JsRuntime {

  /** A value produced by `JSON.parse` (plus `undefined`, for missing properties). */
  datatype Value =
    | Undefined
    | Null
    | Bool(b: bool)
    | Num(n: int)
    | Str(s: string)
    | Arr(elems: seq<Value>)
    | Obj(fields: map<string, Value>)

  datatype Option<T> = None | Some(value: T)

  /** A value, or a thrown Error reduced to its `message`. */
  datatype Result<T> = Ok(value: T) | Err(message: string) {
    predicate IsFailure() { Err? }

    function PropagateFailure<U>(): Result<U>
      requires Err?
    {
      Err(message)
    }

    function Extract(): T
      requires Ok?
    {
      value
    }
  }

  /** Message of a TypeError raised by the engine (its exact wording is engine-specific). */
  const TypeErrorMessage: string := "TypeError"

  /** The login profile `{ userId, displayName }`. */
  datatype User = User(userId: string, displayName: string)

  /** What `await fetch(...)` produces: a rejection, or a response whose status, text and
      `r.json()` outcome (the parsed body, or the SyntaxError message) are given. */
  datatype Reply = Reply(status: int, text: string, json: Result<Value>)
  datatype Fetched = NetworkError(message: string) | Received(reply: Reply)

  /** `r.ok` */
  predicate StatusOk(status: int) { 200 <= status <= 299 }

  /** The `{ ok: false, isAdmin: false }` object both client copies fall back to. */
  const NotAdminReply: Value := Obj(map["ok" := Bool(false), "isAdmin" := Bool(false)])

  predicate Nullish(v: Value) { v.Undefined? || v.Null? }

  /** ToBoolean; NaN cannot arise with integer numbers. */
  predicate Truthy(v: Value) {
    match v
    case Undefined => false
    case Null => false
    case Bool(b) => b
    case Num(n) => n != 0
    case Str(s) => s != ""
    case Arr(_) => true
    case Obj(_) => true
  }

  /** `a || b` */
  function Or(a: Value, b: Value): (r: Value)
    ensures Truthy(r) <==> Truthy(a) || Truthy(b)
    ensures Truthy(a) ==> r == a
  {
    if Truthy(a) then a else b
  }

  /** `a ?? b` */
  function Coalesce(a: Value, b: Value): (r: Value)
    ensures Nullish(r) <==> Nullish(a) && Nullish(b)
    ensures !Nullish(a) ==> r == a
  {
    if Nullish(a) then b else a
  }

  /** `x?.key`, and `x.key` on a value that is not null or undefined. Only own properties
      of plain objects are seen: none of the property names the modelled code reads
      exists on a number, string, boolean or array. */
  function Prop(x: Value, key: string): Value {
    if x.Obj? && key in x.fields then x.fields[key] else Undefined
  }

  /** `x.key`, which throws a TypeError when `x` is null or undefined. */
  function Get(x: Value, key: string): (r: Result<Value>)
    ensures r.Err? <==> Nullish(x)
    ensures r.Ok? ==> r.value == Prop(x, key)
  {
    if Nullish(x) then Err(TypeErrorMessage) else Ok(Prop(x, key))
  }

  // ---------------------------------------------------------------------------
  // Decimal numerals
  // ---------------------------------------------------------------------------

  predicate IsDigit(c: char) { '0' <= c <= '9' }

  predicate AllDigits(s: string) { forall i :: 0 <= i < |s| ==> IsDigit(s[i]) }

  function DigitChar(d: nat): (c: char)
    requires d < 10
    ensures IsDigit(c) && c as int - '0' as int == d
  {
    (d + '0' as int) as char
  }

  function DigitValue(c: char): nat
    requires IsDigit(c)
  {
    c as int - '0' as int
  }

  /** The shortest decimal numeral of `n`, as `String(n)` writes it. */
  function NatToString(n: nat): (r: string)
    ensures r != [] && AllDigits(r)
    ensures r[0] == '0' ==> n == 0
    decreases n
  {
    if n < 10 then [DigitChar(n)] else NatToString(n / 10) + [DigitChar(n % 10)]
  }

  /** The value of a decimal numeral. */
  function ParseNat(s: string): nat
    requires AllDigits(s)
    decreases |s|
  {
    if s == [] then 0 else 10 * ParseNat(s[..|s| - 1]) + DigitValue(s[|s| - 1])
  }

  lemma {:induction false} ParseNatToString(n: nat)
    ensures ParseNat(NatToString(n)) == n
    decreases n
  {
    var r := NatToString(n);
    if n >= 10 {
      ParseNatToString(n / 10);
      assert r[..|r| - 1] == NatToString(n / 10);
    }
  }

  /** Distinct numbers have distinct numerals. */
  lemma NatToStringInjective(m: nat, n: nat)
    requires NatToString(m) == NatToString(n)
    ensures m == n
  {
    ParseNatToString(m);
    ParseNatToString(n);
  }

  function Pow10(k: nat): (p: nat)
    ensures p >= 1
  {
    if k == 0 then 1 else 10 * Pow10(k - 1)
  }

  lemma {:induction false} NatToStringLength(n: nat, k: nat)
    requires k >= 1 && n < Pow10(k)
    ensures |NatToString(n)| <= k
    decreases n
  {
    if n >= 10 {
      assert Pow10(1) == 10;
      NatToStringLength(n / 10, k - 1);
    }
  }

  /** `String(n)` for an integer. */
  function IntToString(n: int): (r: string)
    ensures r != []
  {
    if n < 0 then "-" + NatToString(-n) else NatToString(n)
  }

  // ---------------------------------------------------------------------------
  // String(v) and Number(v)
  // ---------------------------------------------------------------------------

  /** The characters JavaScript's `\s` and `String.prototype.trim` treat as white space. */
  predicate IsJsSpace(c: char) {
    var n := c as int;
    (9 <= n <= 13) || n == 32 || n == 0xA0 || n == 0x1680 || (0x2000 <= n <= 0x200A)
    || n == 0x2028 || n == 0x2029 || n == 0x202F || n == 0x205F || n == 0x3000 || n == 0xFEFF
  }

  /** `parts.join(sep)` */
  function Join(parts: seq<string>, sep: string): string {
    if |parts| == 0 then ""
    else if |parts| == 1 then parts[0]
    else parts[0] + sep + Join(parts[1..], sep)
  }

  /** `String(v)`, which is also what a template literal `${v}` produces. */
  function ToStr(v: Value): string
    decreases v
  {
    match v
    case Undefined => "undefined"
    case Null => "null"
    case Bool(b) => if b then "true" else "false"
    case Num(n) => IntToString(n)
    case Str(s) => s
    case Arr(es) =>
      Join(seq(|es|, i requires 0 <= i < |es| => if Nullish(es[i]) then "" else ToStr(es[i])), ",")
    case Obj(_) => "[object Object]"
  }

  function TrimSpaces(s: string): (r: string)
    ensures |r| <= |s|
    decreases |s|
  {
    if s != [] && IsJsSpace(s[0]) then TrimSpaces(s[1..])
    else if s != [] && IsJsSpace(s[|s| - 1]) then TrimSpaces(s[..|s| - 1])
    else s
  }

  /** `Number(s)` for a string: white space around an optionally signed decimal integer
      is ignored, an empty string is 0; every other numeral (and NaN) reads as 0. */
  function StringToNumber(s: string): int {
    var t := TrimSpaces(s);
    if t == [] then 0
    else if AllDigits(t) then ParseNat(t)
    else if |t| > 1 && (t[0] == '-' || t[0] == '+') && AllDigits(t[1..]) then
      (if t[0] == '-' then -(ParseNat(t[1..]) as int) else ParseNat(t[1..]))
    else 0
  }

  /** `Number(v)` */
  function ToNumber(v: Value): int {
    match v
    case Undefined => 0
    case Null => 0
    case Bool(b) => if b then 1 else 0
    case Num(n) => n
    case Str(s) => StringToNumber(s)
    case Arr(_) => StringToNumber(ToStr(v))
    case Obj(_) => 0
  }

  /** A numeral has no white space to trim. */
  lemma TrimNumeral(n: nat)
    ensures TrimSpaces(NatToString(n)) == NatToString(n)
    ensures TrimSpaces("-" + NatToString(n)) == "-" + NatToString(n)
  {
    var d := NatToString(n);
    assert !IsJsSpace(d[0]) && !IsJsSpace(d[|d| - 1]);
    assert ("-" + d)[|"-" + d| - 1] == d[|d| - 1];
  }

  /** `Number(String(n)) == n` for every integer. */
  lemma ToNumberOfIntString(n: int)
    ensures ToNumber(Str(IntToString(n))) == n
  {
    var d := NatToString(if n < 0 then -n else n);
    ParseNatToString(if n < 0 then -n else n);
    TrimNumeral(if n < 0 then -n else n);
    if n < 0 {
      assert ("-" + d)[1..] == d;
    }
  }
}
