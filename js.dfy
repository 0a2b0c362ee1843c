/**
  The JavaScript values that cross the application's boundaries (query records,
  form payloads, multipart fields) and the conversions it applies to them:
  `Number(s)`, `parseInt(s)`, `String(v)` and truthiness.
  Numbers are integral or NaN; fractions, exponents, hexadecimal and Infinity are
  not modelled.
*/
module Js {
  import opened Text
  import opened Wrappers

  /** A JavaScript number: an integer, or NaN. */
  datatype Number = NaN | Int(v: int)

  /** A JavaScript value as the application passes it around. */
  datatype Value =
    | Undefined
    | Null
    | Bool(b: bool)
    | Num(n: Number)
    | Str(s: string)
    | Arr(items: seq<Value>)
    | Obj(fields: seq<(string, Value)>)

  function NumberToString(n: Number): string
  {
    match n
    case NaN => "NaN"
    case Int(v) => IntToString(v)
  }

  /** `!!n` for a number: 0 and NaN are falsy. */
  predicate NumberTruthy(n: Number)
  {
    n.Int? && n.v != 0
  }

  /** `!!v`. */
  predicate Truthy(v: Value)
  {
    match v
    case Undefined => false
    case Null => false
    case Bool(b) => b
    case Num(n) => NumberTruthy(n)
    case Str(s) => s != ""
    case Arr(_) => true
    case Obj(_) => true
  }

  /** An optional sign followed by at least one decimal digit, read as an integer. */
  function SignedDigits(t: string): (n: Number)
  {
    if |t| >= 2 && t[0] == '-' && AllDigits(t[1..]) then Int(0 - DigitsValue(t[1..]))
    else if |t| >= 2 && t[0] == '+' && AllDigits(t[1..]) then Int(DigitsValue(t[1..]))
    else if |t| >= 1 && AllDigits(t) then Int(DigitsValue(t))
    else NaN
  }

  /** `Number(s)` for a string: surrounding whitespace is ignored and a blank string is 0. */
  function ToNumber(s: string): (n: Number)
  {
    var t := Trim(s);
    if t == "" then Int(0) else SignedDigits(t)
  }

  /** `Number(x)` where `x` is a string that may be `null` (as `URLSearchParams.get` returns). */
  function NullableToNumber(s: Option<string>): Number
  {
    match s
    case None => Int(0)
    case Some(t) => ToNumber(t)
  }

  lemma TrimOfNoWhitespaceEnds(s: string)
    requires s != [] && !IsJsWhitespace(s[0]) && !IsJsWhitespace(s[|s| - 1])
    ensures Trim(s) == s
  {
  }

  /** `Number(String(i)) === i`. */
  lemma ToNumberOfIntToString(i: int)
    ensures ToNumber(IntToString(i)) == Int(i)
  {
    var s := IntToString(i);
    var d := NatToString(if i < 0 then -i else i);
    assert IsDigit(d[0]) && IsDigit(d[|d| - 1]);
    assert s[|s| - 1] == d[|d| - 1];
    TrimOfNoWhitespaceEnds(s);
    NatToStringValue(if i < 0 then -i else i);
    if i < 0 {
      assert s[1..] == d;
    }
  }

  /** `parseInt(s)`: leading whitespace, an optional sign, then the longest run of digits. */
  function ParseInt(s: string): (n: Number)
  {
    var t := TrimStart(s);
    var neg := |t| >= 1 && t[0] == '-';
    var body := if |t| >= 1 && (t[0] == '-' || t[0] == '+') then t[1..] else t;
    var k := DigitRun(body);
    if k == 0 then NaN
    else
      assert AllDigits(body[..k]);
      Int(if neg then 0 - DigitsValue(body[..k]) else DigitsValue(body[..k]))
  }

  /** The length of the longest all-digit prefix of `s`. */
  function DigitRun(s: string): (k: nat)
    ensures k <= |s| && AllDigits(s[..k])
    ensures k < |s| ==> !IsDigit(s[k])
    decreases |s|
  {
    if s != [] && IsDigit(s[0]) then
      var k := 1 + DigitRun(s[1..]);
      assert s[..k] == [s[0]] + s[1..][..k - 1];
      k
    else 0
  }

  /** `String(v)`. */
  function ToJsString(v: Value): string
    decreases v, 1
  {
    match v
    case Undefined => "undefined"
    case Null => "null"
    case Bool(b) => if b then "true" else "false"
    case Num(n) => NumberToString(n)
    case Str(s) => s
    case Arr(items) => Join(seq(|items|, i requires 0 <= i < |items| => JoinElement(items[i])), ",")
    case Obj(_) => "[object Object]"
  }

  /** How `Array.prototype.join` renders one element: `null` and `undefined` become "". */
  function JoinElement(v: Value): string
    decreases v, 2
  {
    if v.Undefined? || v.Null? then "" else ToJsString(v)
  }

  /** Wraps strings as JavaScript string values. */
  function Strs(xs: seq<string>): (r: seq<Value>)
    ensures |r| == |xs| && forall i | 0 <= i < |xs| :: r[i] == Str(xs[i])
  {
    seq(|xs|, i requires 0 <= i < |xs| => Str(xs[i]))
  }

  // ------------------------------------------------------------------- JSON

  function HexDigit(d: nat): char
    requires d < 16
  {
    "0123456789abcdef"[d]
  }

  /** How `JSON.stringify` writes one character inside a string literal. */
  function JsonChar(c: char): string
  {
    if c == '"' then "\\\"" else if c == '\\' then "\\\\"
    else if c == '\n' then "\\n" else if c == '\r' then "\\r" else if c == '\t' then "\\t"
    else if c == '\U{0008}' then "\\b" else if c == '\U{000C}' then "\\f"
    else if (c as int) < 0x20 then "\\u00" + [HexDigit(c as int / 16), HexDigit(c as int % 16)]
    else [c]
  }

  /** A string as a JSON string literal. */
  function JsonQuote(s: string): string
  {
    "\"" + JsonChars(s) + "\""
  }

  function JsonChars(s: string): string
    decreases |s|
  {
    if s == [] then "" else JsonChar(s[0]) + JsonChars(s[1..])
  }

  /**
    `JSON.stringify(v)`: `None` stands for the `undefined` it returns for `undefined`.
    NaN is written as `null`; inside arrays `undefined` becomes `null`, and object
    members whose value is `undefined` are skipped.
  */
  function JsonStringify(v: Value): (r: Option<string>)
    ensures r.None? <==> v.Undefined?
    decreases v, 0
  {
    match v
    case Undefined => None
    case Null => Some("null")
    case Bool(b) => Some(if b then "true" else "false")
    case Num(n) => Some(if n.NaN? then "null" else IntToString(n.v))
    case Str(s) => Some(JsonQuote(s))
    case Arr(items) =>
      Some("[" + Join(seq(|items|, i requires 0 <= i < |items| => JsonElement(items[i])), ",") + "]")
    case Obj(fields) =>
      var rendered := seq(|fields|, i requires 0 <= i < |fields| => JsonStringify(fields[i].1));
      var keys := seq(|fields|, i requires 0 <= i < |fields| => fields[i].0);
      Some("{" + Join(JsonMembers(keys, rendered), ",") + "}")
  }

  /** An array element: `undefined` is written as `null`. */
  function JsonElement(v: Value): string
    decreases v, 1
  {
    match JsonStringify(v)
    case None => "null"
    case Some(s) => s
  }

  /** The `"key":value` members of an object, skipping those whose value is `undefined`. */
  function JsonMembers(keys: seq<string>, rendered: seq<Option<string>>): seq<string>
    requires |keys| == |rendered|
    decreases |keys|
  {
    if keys == [] then []
    else
      var rest := JsonMembers(keys[1..], rendered[1..]);
      match rendered[0]
      case None => rest
      case Some(text) => [JsonQuote(keys[0]) + ":" + text] + rest
  }
}
