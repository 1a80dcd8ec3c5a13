/**
 * JavaScript values as the three services see them: JSON request bodies,
 * signed-token payloads, query strings. This module fixes the parts of the
 * language semantics the route handlers depend on: `undefined`, truthiness,
 * `String(v)` (template literals), `startsWith`/`endsWith`, decimal
 * formatting of integers, and `slice(0, parseInt(limit))`.
 */
module Js {

  datatype Option<+T> = None | Some(value: T)

  datatype Result<+T, +E> = Ok(value: T) | Err(error: E)

  /** A JSON value. Numbers are integers: every number the services produce
      or compare (timestamps, `exp`, `iat`, `expires_in`) is one. */
  datatype Json =
    | JNull
    | JBool(b: bool)
    | JNum(n: int)
    | JStr(s: string)
    | JArr(items: seq<Json>)
    | JObj(fields: map<string, Json>)

  /** A JSON object, as a map from property name to value. */
  type Obj = map<string, Json>

  /** `o.k`: `undefined` (None) when the property is absent. */
  function Field(o: Obj, k: string): (r: Option<Json>)
    ensures r.Some? <==> k in o
    ensures r.Some? ==> r.value == o[k]
  {
    if k in o then Some(o[k]) else None
  }

  /** `v.k` for a value that is neither null nor undefined: only an object has
      the properties the handlers read; on any other value they are undefined. */
  function Prop(v: Json, k: string): (r: Option<Json>)
    ensures r.Some? <==> v.JObj? && k in v.fields
  {
    if v.JObj? then Field(v.fields, k) else None
  }

  /** `v?.k` */
  function OptProp(v: Option<Json>, k: string): (r: Option<Json>)
    ensures v.None? ==> r.None?
  {
    if v.Some? then Prop(v.value, k) else None
  }

  /** The object `{...o, k: v}` after JSON serialisation: a property whose
      value is undefined is dropped. */
  function WithField(o: Obj, k: string, v: Option<Json>): (r: Obj)
    ensures v.Some? ==> k in r && r[k] == v.value
    ensures v.None? ==> r == o
    ensures forall k' :: k' != k ==> Field(r, k') == Field(o, k')
  {
    if v.Some? then o[k := v.value] else o
  }

  /** JavaScript truthiness of a possibly undefined JSON value. */
  predicate Truthy(v: Option<Json>)
  {
    match v
    case None => false
    case Some(JNull) => false
    case Some(JBool(b)) => b
    case Some(JNum(n)) => n != 0
    case Some(JStr(s)) => s != ""
    case Some(_) => true
  }

  /** Truthiness of a possibly missing query-string or form field. */
  predicate TruthyStr(v: Option<string>)
  {
    v.Some? && v.value != ""
  }

  /** `v || fallback` */
  function OrElse(v: Option<Json>, fallback: Json): (r: Json)
    ensures Truthy(v) ==> r == v.value
    ensures !Truthy(v) ==> r == fallback
  {
    if Truthy(v) then v.value else fallback
  }

  /** `a === b` where `b` is a string or undefined. */
  predicate StrictEqualsStr(a: Option<Json>, b: Option<string>)
  {
    match b
    case None => a.None?
    case Some(s) => a == Some(JStr(s))
  }

  // ---------------------------------------------------------------------------
  // Strings

  predicate StartsWith(s: string, prefix: string)
  {
    |prefix| <= |s| && s[..|prefix|] == prefix
  }

  predicate EndsWith(s: string, suffix: string)
  {
    |suffix| <= |s| && s[|s| - |suffix|..] == suffix
  }

  lemma StartsWithAppend(p: string, rest: string)
    ensures StartsWith(p + rest, p)
  {
    assert (p + rest)[..|p|] == p;
  }

  lemma EndsWithAppend(rest: string, s: string)
    ensures EndsWith(rest + s, s)
  {
    assert (rest + s)[|rest|..] == s;
  }

  predicate IsDigit(c: char)
  {
    '0' <= c <= '9'
  }

  predicate AllDigits(s: string)
  {
    forall i :: 0 <= i < |s| ==> IsDigit(s[i])
  }

  function DigitChar(d: nat): (c: char)
    requires d < 10
    ensures IsDigit(c)
  {
    (48 + d) as char
  }

  function DigitValue(c: char): (d: nat)
    requires IsDigit(c)
    ensures d < 10
  {
    c as int - 48
  }

  /** The decimal numeral JavaScript prints for a non-negative integer. */
  function NatToDecimal(n: nat): (s: string)
    ensures 1 <= |s|
    ensures AllDigits(s)
  {
    if n < 10 then [DigitChar(n)] else NatToDecimal(n / 10) + [DigitChar(n % 10)]
  }

  /** The value of a string of decimal digits (the inverse of NatToDecimal). */
  function DecimalValue(s: string): nat
    requires AllDigits(s)
  {
    if s == [] then 0 else 10 * DecimalValue(s[..|s| - 1]) + DigitValue(s[|s| - 1])
  }

  lemma {:induction false} DecimalRoundTrip(n: nat)
    ensures DecimalValue(NatToDecimal(n)) == n
  {
    if n >= 10 {
      var s := NatToDecimal(n);
      assert s[..|s| - 1] == NatToDecimal(n / 10);
      DecimalRoundTrip(n / 10);
    }
  }

  /** Distinct numbers print as distinct numerals. */
  lemma DecimalInjective(a: nat, b: nat)
    ensures NatToDecimal(a) == NatToDecimal(b) <==> a == b
  {
    DecimalRoundTrip(a);
    DecimalRoundTrip(b);
  }

  /** `${n}` for an integer. */
  function IntToString(n: int): string
  {
    if n < 0 then "-" + NatToDecimal(-n) else NatToDecimal(n)
  }

  /** `String(v)`, as a template literal or `URLSearchParams` prints a value. */
  function JsString(v: Json): string
    decreases v, 1
  {
    match v
    case JNull => "null"
    case JBool(b) => if b then "true" else "false"
    case JNum(n) => IntToString(n)
    case JStr(s) => s
    case JArr(_) => JoinFrom(v, 0)
    case JObj(_) => "[object Object]"
  }

  /** `Array.prototype.join(",")` of the elements of `arr` from index `i` on;
      a null element prints as the empty string. */
  function JoinFrom(arr: Json, i: nat): string
    requires arr.JArr?
    decreases arr, 0, |arr.items| - i
  {
    if i >= |arr.items| then ""
    else
      var e := arr.items[i];
      var head := if e.JNull? then "" else JsString(e);
      if i + 1 < |arr.items| then head + "," + JoinFrom(arr, i + 1) else head
  }

  /** `String(v)` for a value that may be undefined. */
  function OptString(v: Option<Json>): (s: string)
    ensures v.None? ==> s == "undefined"
    ensures v.Some? && v.value.JStr? ==> s == v.value.s
  {
    if v.None? then "undefined" else JsString(v.value)
  }

  /** `String(v)` for a query or form field that may be missing. */
  function OptStr(v: Option<string>): (s: string)
    ensures v.None? ==> s == "undefined"
    ensures v.Some? ==> s == v.value
  {
    if v.None? then "undefined" else v.value
  }

  // ---------------------------------------------------------------------------
  // parseInt and Array.prototype.slice(0, end)

  /** A number as `parseInt` returns it. */
  datatype IntArg = Int(n: int) | NaN

  /** The longest prefix of `s` made of decimal digits. */
  function LeadingDigits(s: string): (d: string)
    ensures AllDigits(d) && StartsWith(s, d)
    ensures |d| < |s| ==> !IsDigit(s[|d|])
  {
    if s == [] || !IsDigit(s[0]) then ""
    else
      var rest := LeadingDigits(s[1..]);
      assert s[..1 + |rest|] == [s[0]] + s[1..][..|rest|];
      [s[0]] + rest
  }

  /** `parseInt(s)` for a decimal numeral with an optional sign. */
  function ParseInt(s: string): (r: IntArg)
  {
    var neg := |s| > 0 && s[0] == '-';
    var body := if |s| > 0 && (s[0] == '-' || s[0] == '+') then s[1..] else s;
    var digits := LeadingDigits(body);
    if digits == [] then NaN
    else
      var v: int := DecimalValue(digits);
      if neg then Int(-v) else Int(v)
  }

  lemma {:induction false} ParseIntOfDecimal(n: nat)
    ensures ParseInt(NatToDecimal(n)) == Int(n)
  {
    var s := NatToDecimal(n);
    assert s[0] != '-' && s[0] != '+' by { assert IsDigit(s[0]); }
    AllDigitsLeading(s);
    DecimalRoundTrip(n);
  }

  lemma {:induction false} AllDigitsLeading(s: string)
    requires AllDigits(s)
    ensures LeadingDigits(s) == s
  {
    if s != [] {
      AllDigitsLeading(s[1..]);
    }
  }

  /** The end index `slice(0, end)` stops at, for an array of length `len`. */
  function SliceEnd(len: nat, end: IntArg): (k: nat)
    ensures k <= len
    ensures end.NaN? ==> k == 0
    ensures end.Int? && 0 <= end.n <= len ==> k == end.n
    ensures end.Int? && end.n > len ==> k == len
    ensures end.Int? && end.n < 0 ==> k == if len + end.n < 0 then 0 else len + end.n
  {
    match end
    case NaN => 0
    case Int(n) =>
      if n < 0 then (if len + n < 0 then 0 else len + n)
      else if n > len then len
      else n
  }

  /** `s.slice(0, end)` */
  function Take<T>(s: seq<T>, end: IntArg): (r: seq<T>)
    ensures |r| == SliceEnd(|s|, end)
    ensures r == s[..|r|]
  {
    s[..SliceEnd(|s|, end)]
  }

  /** `parseInt(limit)` for a `limit` query parameter that defaults to the
      number 10, which `parseInt` reads through its decimal string. */
  function LimitArg(limit: Option<string>): (r: IntArg)
    ensures limit.None? ==> r == Int(10)
    ensures limit.Some? ==> r == ParseInt(limit.value)
  {
    ParseIntOfDecimal(10);
    ParseInt(if limit.None? then NatToDecimal(10) else limit.value)
  }
}
