/**
 * JavaScript values as the pipeline sees them: the parsed JSON artifacts,
 * the flat records exchanged between the stores and the browser, and the
 * handful of JavaScript coercions the code relies on (truthiness, `||`,
 * optional property reads, `for...in`, `Number()`/`isNaN`, `parseInt`,
 * `toLowerCase`).
 */
module Js {

  datatype Option<+T> = None | Some(value: T)

  /** A value produced by JSON.parse. An object keeps its members in
      enumeration order; JSON.parse never yields two members with one key. */
  datatype Json =
    | JNull
    | JBool(b: bool)
    | JNum(n: real)
    | JStr(s: string)
    | JArr(items: seq<Json>)
    | JObj(members: seq<(string, Json)>)

  /** The result of a property read: `None` is `undefined`. */
  type Value = Option<Json>

  /** A flat record: a JavaScript object whose keys are tag and field names. */
  type Record = map<string, Json>

  /** JavaScript truthiness; `undefined` is falsy. */
  predicate Truthy(v: Value)
  {
    match v
    case None => false
    case Some(j) =>
      match j
      case JNull => false
      case JBool(b) => b
      case JNum(n) => n != 0.0
      case JStr(s) => s != ""
      case _ => true
  }

  /** `a || b` */
  function Or(a: Value, b: Value): (r: Value)
    ensures Truthy(a) ==> r == a
    ensures !Truthy(a) ==> r == b
  {
    if Truthy(a) then a else b
  }

  /** `a || d` where the default `d` is a defined value. */
  function OrDefault(a: Value, d: Json): (r: Json)
    ensures Truthy(a) ==> Some(r) == a
    ensures !Truthy(a) ==> r == d
  {
    if Truthy(a) then a.value else d
  }

  /** `a ?? b`: `b` exactly when `a` is null or undefined. */
  function Coalesce(a: Value, b: Value): (r: Value)
    ensures a.Some? && a.value != JNull ==> r == a
    ensures a.None? || a.value == JNull ==> r == b
  {
    if a.Some? && a.value != JNull then a else b
  }

  /** The value of the first member with key `key`, if any. */
  function Lookup(members: seq<(string, Json)>, key: string): (r: Value)
    ensures r.Some? <==> exists i :: 0 <= i < |members| && members[i].0 == key
    ensures r.Some? ==> exists i :: 0 <= i < |members| && members[i] == (key, r.value)
  {
    if |members| == 0 then None
    else if members[0].0 == key then Some(members[0].1)
    else
      var r := Lookup(members[1..], key);
      assert forall i :: 1 <= i < |members| ==> members[i] == members[1..][i - 1];
      r
  }

  /** `j.key` on a value that is neither null nor undefined: only an object
      has the named properties this pipeline reads. */
  function Prop(j: Json, key: string): (r: Value)
    ensures !j.JObj? ==> r.None?
  {
    match j
    case JObj(ms) => Lookup(ms, key)
    case _ => None
  }

  /** `v?.key`: undefined when `v` is null or undefined. */
  function OptProp(v: Value, key: string): (r: Value)
    ensures v.None? || v.value == JNull ==> r.None?
    ensures v.Some? ==> r == Prop(v.value, key)
  {
    match v
    case None => None
    case Some(j) => Prop(j, key)
  }

  /** A record's field: undefined when the key is missing. */
  function Field(r: Record, key: string): (v: Value)
    ensures v.Some? <==> key in r
    ensures key in r ==> v.value == r[key]
  {
    if key in r then Some(r[key]) else None
  }

  /** `v === s` for a string literal `s`. */
  predicate IsStr(v: Value, s: string)
  {
    v == Some(JStr(s))
  }

  // ---------------------------------------------------------------------
  // Decimal text

  predicate IsDigit(c: char)
  {
    '0' <= c <= '9'
  }

  function DigitValue(c: char): (d: nat)
    requires IsDigit(c)
    ensures d < 10
  {
    (c as int) - ('0' as int)
  }

  function DigitChar(d: nat): (c: char)
    requires d < 10
    ensures IsDigit(c) && DigitValue(c) == d
  {
    (('0' as int) + d) as char
  }

  /** The decimal numeral of a natural number, as `String(n)` writes it. */
  function NatToString(n: nat): (s: string)
    ensures |s| > 0
    ensures forall i :: 0 <= i < |s| ==> IsDigit(s[i])
    decreases n
  {
    if n < 10 then [DigitChar(n)] else NatToString(n / 10) + [DigitChar(n % 10)]
  }

  predicate AllDigits(s: string)
  {
    forall i :: 0 <= i < |s| ==> IsDigit(s[i])
  }

  /** The value of a string of decimal digits. */
  function DigitsValue(s: string): nat
    requires AllDigits(s)
  {
    if |s| == 0 then 0 else 10 * DigitsValue(s[..|s| - 1]) + DigitValue(s[|s| - 1])
  }

  lemma {:induction false} NatToStringValue(n: nat)
    ensures AllDigits(NatToString(n)) && DigitsValue(NatToString(n)) == n
    decreases n
  {
    var s := NatToString(n);
    if n >= 10 {
      NatToStringValue(n / 10);
      assert s[..|s| - 1] == NatToString(n / 10);
    }
  }

  /** `String(n)` is one-to-one on array indices, so `for...in` over an
      array or a string never yields the same key twice. */
  lemma NatToStringInjective(m: nat, n: nat)
    requires NatToString(m) == NatToString(n)
    ensures m == n
  {
    NatToStringValue(m);
    NatToStringValue(n);
  }

  /** The length of the longest prefix of `s` made of decimal digits. */
  function DigitRun(s: string): (k: nat)
    ensures k <= |s| && AllDigits(s[..k])
    ensures k < |s| ==> !IsDigit(s[k])
  {
    if |s| == 0 || !IsDigit(s[0]) then 0
    else
      var k := 1 + DigitRun(s[1..]);
      assert s[..k] == [s[0]] + s[1..][..k - 1];
      k
  }

  predicate IsWhite(c: char)
  {
    c == ' ' || c == '\t' || c == '\n' || c == '\r' || c == '\U{000B}' || c == '\U{000C}'
  }

  function TrimStart(s: string): (r: string)
    ensures |r| <= |s| && r == s[|s| - |r|..]
    ensures |r| > 0 ==> !IsWhite(r[0])
  {
    if |s| > 0 && IsWhite(s[0]) then TrimStart(s[1..]) else s
  }

  function TrimEnd(s: string): (r: string)
    ensures |r| <= |s| && r == s[..|r|]
    ensures |r| > 0 ==> !IsWhite(r[|r| - 1])
  {
    if |s| > 0 && IsWhite(s[|s| - 1]) then TrimEnd(s[..|s| - 1]) else s
  }

  function Pow10(k: nat): (p: nat)
    ensures p >= 1
  {
    if k == 0 then 1 else 10 * Pow10(k - 1)
  }

  /** An unsigned decimal literal `d+`, `d+.d*` or `.d+`, taken whole. */
  function UnsignedDecimal(s: string): (r: Option<real>)
    ensures r.Some? ==> r.value >= 0.0
  {
    var k := DigitRun(s);
    if k == |s| then
      (if k == 0 then None else Some(DigitsValue(s) as real))
    else if s[k] != '.' then None
    else
      var frac := s[k + 1..];
      var f := DigitRun(frac);
      if f != |frac| || (k == 0 && f == 0) then None
      else Some(DigitsValue(s[..k]) as real + (DigitsValue(frac) as real) / (Pow10(f) as real))
  }

  /** `Number(s)` for a string: blank text is 0, a signed decimal literal is
      its value, anything else is NaN (`None`). */
  function StringToNumber(s: string): (r: Option<real>)
    ensures TrimEnd(TrimStart(s)) == "" ==> r == Some(0.0)
  {
    var t := TrimEnd(TrimStart(s));
    if t == "" then Some(0.0)
    else if t[0] == '-' || t[0] == '+' then
      match UnsignedDecimal(t[1..])
      case None => None
      case Some(x) => Some(if t[0] == '-' then -x else x)
    else UnsignedDecimal(t)
  }

  /** `Number(v)` for the values `isNaN` is applied to; `None` is NaN.
      An object is NaN. An array converts through its joined text: the empty
      array is 0, an array of two or more elements has a comma in its text
      and is NaN, and a one-element array converts as the text of its element
      (so `[null]` is 0 and `[true]` is NaN). */
  function ToNumber(j: Json): (r: Option<real>)
    ensures j.JNum? ==> r == Some(j.n)
    ensures j.JObj? ==> r.None?
    ensures j.JArr? && |j.items| == 0 ==> r == Some(0.0)
    ensures j.JArr? && |j.items| >= 2 ==> r.None?
    ensures j.JArr? && |j.items| == 1 ==> r == (if j.items[0].JBool? then None else ToNumber(j.items[0]))
  {
    match j
    case JNull => Some(0.0)
    case JBool(b) => Some(if b then 1.0 else 0.0)
    case JNum(n) => Some(n)
    case JStr(s) => StringToNumber(s)
    case JArr(items) =>
      if |items| == 0 then Some(0.0)
      else if |items| >= 2 || items[0].JBool? then None
      else ToNumber(items[0])
    case JObj(_) => None
  }

  predicate IsNaN(j: Json)
  {
    ToNumber(j).None?
  }

  // ---------------------------------------------------------------------
  // parseInt

  /** The result of `parseInt`: an integer or NaN. */
  datatype JsInt = NaN | Int(i: int)

  /** `x || 0` on a `parseInt` result: NaN (and -0) become 0. */
  function OrZero(x: JsInt): (r: int)
    ensures x.Int? ==> r == x.i
    ensures x.NaN? ==> r == 0
  {
    match x
    case NaN => 0
    case Int(i) => i
  }

  predicate IsHexDigit(c: char)
  {
    IsDigit(c) || 'a' <= c <= 'f' || 'A' <= c <= 'F'
  }

  function HexValue(c: char): (d: nat)
    requires IsHexDigit(c)
    ensures d < 16
  {
    if IsDigit(c) then DigitValue(c)
    else if 'a' <= c <= 'f' then (c as int) - ('a' as int) + 10
    else (c as int) - ('A' as int) + 10
  }

  function HexRun(s: string): (k: nat)
    ensures k <= |s|
    ensures forall i :: 0 <= i < k ==> IsHexDigit(s[i])
  {
    if |s| == 0 || !IsHexDigit(s[0]) then 0 else 1 + HexRun(s[1..])
  }

  function HexDigitsValue(s: string): nat
    requires forall i :: 0 <= i < |s| ==> IsHexDigit(s[i])
  {
    if |s| == 0 then 0 else 16 * HexDigitsValue(s[..|s| - 1]) + HexValue(s[|s| - 1])
  }

  /** `parseInt(s, 10)` (when `radix10`) or `parseInt(s)` (which reads a
      `0x`/`0X` prefix as hexadecimal): skip leading white space, read an
      optional sign and the longest run of digits; NaN when there is none. */
  function ParseIntString(s: string, radix10: bool): (r: JsInt)
    ensures (forall i :: 0 <= i < |s| ==> IsWhite(s[i])) ==> r == NaN
  {
    var t := TrimStart(s);
    var neg := |t| > 0 && t[0] == '-';
    var u := if |t| > 0 && (t[0] == '-' || t[0] == '+') then t[1..] else t;
    var magnitude: Option<nat> :=
      if !radix10 && |u| >= 2 && u[0] == '0' && (u[1] == 'x' || u[1] == 'X') then
        var h := HexRun(u[2..]);
        if h == 0 then None else Some(HexDigitsValue(u[2..][..h]))
      else
        var k := DigitRun(u);
        if k == 0 then None else Some(DigitsValue(u[..k]));
    match magnitude
    case None => NaN
    case Some(m) => Int(if neg then -(m as int) else m)
  }

  /** `parseInt` reads what follows the white space and the sign: a
      nonempty run of decimal digits is read as its value in either radix
      mode. */
  lemma ParseIntReadsDigits(s: string, radix10: bool)
    requires |s| > 0 && AllDigits(s)
    ensures ParseIntString(s, radix10) == Int(DigitsValue(s))
  {
    assert !IsWhite(s[0]);
    assert TrimStart(s) == s;
    assert !(|s| >= 2 && s[0] == '0' && (s[1] == 'x' || s[1] == 'X')) by {
      if |s| >= 2 { assert IsDigit(s[1]); }
    }
    assert DigitRun(s) == |s|;
    assert s[..|s|] == s;
  }

  /** The same run of digits after a minus sign reads as its negation. */
  lemma ParseIntReadsNegatedDigits(s: string, radix10: bool)
    requires |s| > 0 && AllDigits(s)
    ensures ParseIntString("-" + s, radix10) == Int(-(DigitsValue(s) as int))
  {
    var t := "-" + s;
    assert TrimStart(t) == t;
    assert t[1..] == s;
    assert !(|s| >= 2 && s[0] == '0' && (s[1] == 'x' || s[1] == 'X')) by {
      if |s| >= 2 { assert IsDigit(s[1]); }
    }
    assert DigitRun(s) == |s|;
    assert s[..|s|] == s;
  }

  /** Truncation toward zero, what `parseInt(String(n))` yields for a number
      written without an exponent. */
  function Trunc(n: real): (i: int)
    ensures n >= 0.0 ==> i == n.Floor
    ensures n < 0.0 ==> i == -((-n).Floor)
  {
    if n >= 0.0 then n.Floor else -((-n).Floor)
  }

  /** `parseInt(v)` (default radix) or `parseInt(v, 10)` for a JavaScript
      value: the argument is first converted to a string, so `undefined`,
      `null`, booleans and objects give NaN. */
  function ParseInt(v: Value, radix10: bool): (r: JsInt)
    ensures v.Some? && v.value.JNum? ==> r == Int(Trunc(v.value.n))
    ensures v.None? || v.value == JNull || v.value.JBool? || v.value.JObj? ==> r == NaN
  {
    match v
    case None => NaN
    case Some(j) =>
      match j
      case JNum(n) => Int(Trunc(n))
      case JStr(s) => ParseIntString(s, radix10)
      case _ => NaN
  }

  // ---------------------------------------------------------------------
  // Timestamps

  /** A stored timestamp as it appears in a flat record's `_time`. */
  function TimeJson(t: nat): (j: Json)
    ensures TimeValue(j) == Some(t)
  {
    JNum(t as real)
  }

  /** The timestamp a `_time` value denotes, if it denotes one. */
  function TimeValue(j: Json): Option<nat>
  {
    if j.JNum? && j.n >= 0.0 && (j.n.Floor as real) == j.n then Some(j.n.Floor as nat) else None
  }

  // ---------------------------------------------------------------------
  // Strings

  function LowerChar(c: char): (d: char)
    ensures !('A' <= c <= 'Z') ==> d == c
  {
    if 'A' <= c <= 'Z' then (c as int + 32) as char else c
  }

  /** `s.toLowerCase()` on ASCII letters. */
  function ToLower(s: string): (r: string)
    ensures |r| == |s|
    ensures forall i :: 0 <= i < |s| ==> r[i] == LowerChar(s[i])
  {
    seq(|s|, i requires 0 <= i < |s| => LowerChar(s[i]))
  }

  /** `for (const k in j)`: an object yields its members, an array or a
      string its indices (as strings) with the element or the one-character
      string at that index; every other value yields nothing. */
  function Entries(j: Json): (es: seq<(string, Json)>)
    ensures j.JObj? ==> es == j.members
    ensures j.JArr? ==> |es| == |j.items|
    ensures j.JStr? ==> |es| == |j.s|
    ensures !(j.JObj? || j.JArr? || j.JStr?) ==> es == []
  {
    match j
    case JObj(ms) => ms
    case JArr(items) => seq(|items|, i requires 0 <= i < |items| => (NatToString(i), items[i]))
    case JStr(s) => seq(|s|, i requires 0 <= i < |s| => (NatToString(i), JStr([s[i]])))
    case _ => []
  }
}
