/** The JavaScript values the client code passes around, and the few built-in
    operations on them whose results the modelled code depends on: truthiness,
    `String(v)` (and template-literal interpolation), `JSON.stringify`, property
    access, `String.prototype.includes` and `split`, and the two
    percent-encodings used to build URLs. */
module Js {
  import opened Wrappers

  /** A JSON value. Numbers are integers; an object's fields have distinct names
      and are kept in insertion order, as JavaScript keeps them. */
  datatype Json =
    | Null
    | Bool(b: bool)
    | Num(n: int)
    | Str(s: string)
    | Arr(items: seq<Json>)
    | Obj(fields: seq<Field>)

  datatype Field = Field(name: string, value: Json)

  /** A JavaScript value as the modelled code sees it: `undefined` or a JSON value. */
  datatype JsValue = Undefined | Defined(json: Json)

  predicate JsonTruthy(j: Json) {
    match j
    case Null => false
    case Bool(b) => b
    case Num(n) => n != 0
    case Str(s) => s != ""
    case Arr(_) => true
    case Obj(_) => true
  }

  /** `!!v` */
  predicate Truthy(v: JsValue) {
    v.Defined? && JsonTruthy(v.json)
  }

  /** `v || fallback` */
  function Or(v: JsValue, fallback: Json): Json {
    if Truthy(v) then v.json else fallback
  }

  // ---------------------------------------------------------------------------
  // Property access

  /** The value of the first field called `name` (the only one, in a well-formed object). */
  function FieldValue(fields: seq<Field>, name: string): (v: JsValue)
    ensures v.Undefined? <==> forall i :: 0 <= i < |fields| ==> fields[i].name != name
    ensures v.Defined? ==> exists i :: 0 <= i < |fields| && fields[i] == Field(name, v.json)
  {
    if fields == [] then Undefined
    else if fields[0].name == name then Defined(fields[0].value)
    else FieldValue(fields[1..], name)
  }

  /** `v?.name`: `undefined` on `undefined` and `null`; an object's own field;
      `undefined` for every other value. The one inherited property the modelled code reads,
      an array's `length`, is taken from the array where it is read. */
  function OptionalMember(v: JsValue, name: string): JsValue {
    if v.Defined? && v.json.Obj? then FieldValue(v.json.fields, name) else Undefined
  }

  /** The message of the TypeError that `v.name` throws on `undefined` or `null` (V8's wording). */
  function CannotRead(v: JsValue, name: string): string {
    "Cannot read properties of " + (if v.Undefined? then "undefined" else "null") + " (reading '" + name + "')"
  }

  /** `v.name`: throws a TypeError on `undefined` and `null`. */
  function Member(v: JsValue, name: string): (r: Result<JsValue>)
    ensures r.Err? <==> v.Undefined? || v.json.Null?
  {
    if v.Undefined? || v.json.Null? then Err(CannotRead(v, name)) else Ok(OptionalMember(v, name))
  }

  /** `obj.name = v` on an object: an existing field keeps its place, a new one goes last. */
  function SetField(fields: seq<Field>, name: string, v: Json): (r: seq<Field>)
    ensures FieldValue(r, name) == Defined(v)
    ensures forall n :: n != name ==> FieldValue(r, n) == FieldValue(fields, n)
  {
    if fields == [] then [Field(name, v)]
    else if fields[0].name == name then [Field(name, v)] + fields[1..]
    else [fields[0]] + SetField(fields[1..], name, v)
  }

  // ---------------------------------------------------------------------------
  // Decimal rendering of integers (`String(n)` for an integral number)

  predicate IsDigit(c: char) {
    '0' <= c <= '9'
  }

  function DigitChar(d: nat): (c: char)
    requires d < 10
    ensures IsDigit(c)
  {
    (d + '0' as int) as char
  }

  function DigitValue(c: char): int {
    c as int - '0' as int
  }

  /** The decimal digits of `n`, without leading zeros. */
  function Digits(n: nat): (s: string)
    ensures |s| > 0
    ensures forall i :: 0 <= i < |s| ==> IsDigit(s[i])
  {
    if n < 10 then [DigitChar(n)] else Digits(n / 10) + [DigitChar(n % 10)]
  }

  /** The number a string of decimal digits denotes. */
  function DigitsValue(s: string): int {
    if s == [] then 0 else DigitsValue(s[..|s| - 1]) * 10 + DigitValue(s[|s| - 1])
  }

  function NumStr(n: int): string {
    if n < 0 then "-" + Digits(-n) else Digits(n)
  }

  /** Reading the digits back gives the number: the rendering loses nothing. */
  lemma {:induction false} DigitsRoundTrip(n: nat)
    ensures DigitsValue(Digits(n)) == n
  {
    if n >= 10 {
      DigitsRoundTrip(n / 10);
      var s := Digits(n);
      assert s[..|s| - 1] == Digits(n / 10);
    }
  }

  /** Distinct integers render to distinct strings, so ids never collide in cache keys. */
  lemma NumStrInjective(a: int, b: int)
    requires NumStr(a) == NumStr(b)
    ensures a == b
  {
    NumStrSign(a);
    NumStrSign(b);
    assert (a < 0) == (b < 0);
    if a < 0 {
      assert Digits(-a) == NumStr(a)[1..] == NumStr(b)[1..] == Digits(-b);
      DigitsRoundTrip(-a);
      DigitsRoundTrip(-b);
    } else {
      DigitsRoundTrip(a);
      DigitsRoundTrip(b);
    }
  }

  lemma NumStrSign(n: int)
    ensures |NumStr(n)| > 0 && (NumStr(n)[0] == '-' <==> n < 0)
  {
    if n >= 0 {
      assert IsDigit(Digits(n)[0]);
    }
  }

  /** A rendered number never contains a `:`. */
  lemma NumStrHasNoColon(n: int)
    ensures ':' !in NumStr(n)
  {
    var s := NumStr(n);
    forall i | 0 <= i < |s| ensures s[i] != ':' {
      if n < 0 && i > 0 {
        assert s[i] == Digits(-n)[i - 1];
      }
    }
  }

  // ---------------------------------------------------------------------------
  // String(v), template interpolation `${v}` and localStorage.setItem's conversion

  function ToText(v: JsValue): string {
    match v
    case Undefined => "undefined"
    case Defined(j) => JsonText(j)
  }

  function JsonText(j: Json): string {
    match j
    case Null => "null"
    case Bool(b) => if b then "true" else "false"
    case Num(n) => NumStr(n)
    case Str(s) => s
    case Arr(items) =>
      // Array.prototype.join renders null elements as empty strings
      Join(seq(|items|, i requires 0 <= i < |items| => if items[i].Null? then "" else JsonText(items[i])), ",")
    case Obj(_) => "[object Object]"
  }

  // ---------------------------------------------------------------------------
  // JSON.stringify

  function Stringify(j: Json): string {
    match j
    case Null => "null"
    case Bool(b) => if b then "true" else "false"
    case Num(n) => NumStr(n)
    case Str(s) => Quote(s)
    case Arr(items) =>
      "[" + Join(seq(|items|, i requires 0 <= i < |items| => Stringify(items[i])), ",") + "]"
    case Obj(fields) =>
      "{" + Join(seq(|fields|, i requires 0 <= i < |fields| => Quote(fields[i].name) + ":" + Stringify(fields[i].value)), ",") + "}"
  }

  /** `JSON.stringify(v)`, which returns `undefined` for `undefined`. */
  function StringifyValue(v: JsValue): Option<string> {
    if v.Undefined? then None else Some(Stringify(v.json))
  }

  function Quote(s: string): string {
    "\"" + Escape(s) + "\""
  }

  function Escape(s: string): string {
    if s == [] then "" else EscapeChar(s[0]) + Escape(s[1..])
  }

  function EscapeChar(c: char): string {
    if c == '"' then "\\\""
    else if c == '\\' then "\\\\"
    else if c == '\n' then "\\n"
    else if c == '\r' then "\\r"
    else if c == '\t' then "\\t"
    else if c as int == 8 then "\\b"
    else if c as int == 12 then "\\f"
    else if c as int < 0x20 then "\\u00" + [HexDigit(c as int / 16, false), HexDigit(c as int % 16, false)]
    else [c]
  }

  function HexDigit(d: int, upper: bool): char
    requires 0 <= d < 16
  {
    if d < 10 then (d + '0' as int) as char
    else if upper then (d - 10 + 'A' as int) as char
    else (d - 10 + 'a' as int) as char
  }

  // ---------------------------------------------------------------------------
  // Strings

  function Join(parts: seq<string>, sep: string): string {
    if |parts| == 0 then ""
    else if |parts| == 1 then parts[0]
    else parts[0] + sep + Join(parts[1..], sep)
  }

  predicate OccursAt(s: string, part: string, i: int) {
    0 <= i && i + |part| <= |s| && s[i..i + |part|] == part
  }

  /** `s.includes(part)` */
  predicate Contains(s: string, part: string) {
    exists i | 0 <= i <= |s| - |part| :: OccursAt(s, part, i)
  }

  /** `s.split(sep)` for a one-character separator. */
  function Split(s: string, sep: char): (parts: seq<string>)
    ensures |parts| >= 1
  {
    if s == [] then [""]
    else
      var rest := Split(s[1..], sep);
      if s[0] == sep then [""] + rest else [[s[0]] + rest[0]] + rest[1..]
  }

  // ---------------------------------------------------------------------------
  // Percent-encoding

  predicate IsAlphaNumeric(c: char) {
    IsDigit(c) || 'a' <= c <= 'z' || 'A' <= c <= 'Z'
  }

  /** The UTF-8 bytes of one character. */
  function Utf8(c: char): seq<nat> {
    var cp := c as int;
    if cp < 0x80 then [cp]
    else if cp < 0x800 then [0xC0 + cp / 64, 0x80 + cp % 64]
    else if cp < 0x10000 then [0xE0 + cp / 4096, 0x80 + cp / 64 % 64, 0x80 + cp % 64]
    else [0xF0 + cp / 262144, 0x80 + cp / 4096 % 64, 0x80 + cp / 64 % 64, 0x80 + cp % 64]
  }

  function PercentBytes(bytes: seq<nat>): string {
    if bytes == [] then ""
    else "%" + [HexDigit(bytes[0] / 16 % 16, true), HexDigit(bytes[0] % 16, true)] + PercentBytes(bytes[1..])
  }

  /** `encodeURIComponent(s)` */
  function EncodeUriComponent(s: string): string {
    if s == [] then ""
    else
      (if IsAlphaNumeric(s[0]) || s[0] in "-_.!~*'()" then [s[0]] else PercentBytes(Utf8(s[0])))
      + EncodeUriComponent(s[1..])
  }

  /** The application/x-www-form-urlencoded form of a name or value, as `URLSearchParams` writes it. */
  function FormEncode(s: string): string {
    if s == [] then ""
    else
      (if IsAlphaNumeric(s[0]) || s[0] in "*-._" then [s[0]]
       else if s[0] == ' ' then "+"
       else PercentBytes(Utf8(s[0])))
      + FormEncode(s[1..])
  }

  /** `new URLSearchParams()` after the given `append` calls, then `toString()`. */
  function QueryString(params: seq<(string, string)>): string {
    Join(seq(|params|, i requires 0 <= i < |params| => FormEncode(params[i].0) + "=" + FormEncode(params[i].1)), "&")
  }
}
