/** JavaScript values as the workers see them after `JSON.parse` or
    `res.json()`, and the coercions the code applies to them: truthiness,
    `String(v)`, `Number(v)`, property access with and without optional
    chaining, and `JSON.stringify`. */
module JsValue {
  import opened Wrappers
  import opened JsString

  /** A JavaScript number. Finite values are exact reals: rounding to a
      double is not modelled. (Negative zero is not distinguished.) */
  datatype JsNum = Finite(r: real) | PosInf | NegInf | NaN

  /** A value produced by `JSON.parse`, or `undefined`. A number carries the
      text `String(n)` gives for it, because converting a double to its
      shortest decimal form is not modelled. Object keys are distinct and in
      source order, as `JSON.parse` leaves them. */
  datatype Value =
    | Undefined
    | Null
    | Bool(b: bool)
    | Num(n: JsNum, text: string)
    | Str(s: string)
    | Arr(elems: seq<Value>)
    | Obj(fields: seq<(string, Value)>)

  /** A thrown exception; `String(err)` of an `Error` is its name, then `: `
      and the message when the message is not empty. */
  datatype Thrown = Thrown(name: string, message: string) {
    function Text(): string {
      if message == "" then name else name + ": " + message
    }
  }

  /** How a call ends: it returns, or it throws. */
  datatype Outcome = Normal | Threw(error: Thrown)

  /** `new Error(message)`. */
  function Error(message: string): Thrown {
    Thrown("Error", message)
  }

  /** `new TypeError(message)`. */
  function TypeError(message: string): Thrown {
    Thrown("TypeError", message)
  }

  /** The value is truthy (`!!v`). */
  predicate Truthy(v: Value) {
    match v
    case Undefined => false
    case Null => false
    case Bool(b) => b
    case Num(n, _) => n != NaN && n != Finite(0.0)
    case Str(s) => s != ""
    case Arr(_) => true
    case Obj(_) => true
  }

  /** `v || d`. */
  function Or(v: Value, d: Value): (r: Value)
    ensures Truthy(v) ==> r == v
    ensures !Truthy(v) ==> r == d
  {
    if Truthy(v) then v else d
  }

  /** `v ?? d`: only `null` and `undefined` are replaced. */
  function Coalesce(v: Value, d: Value): (r: Value)
    ensures (v == Undefined || v == Null) ==> r == d
    ensures !(v == Undefined || v == Null) ==> r == v
  {
    if v == Undefined || v == Null then d else v
  }

  /** `Array.isArray(v)`. */
  predicate IsArray(v: Value) {
    v.Arr?
  }

  /** `typeof v === 'object'` (true for `null` and for arrays). */
  predicate IsObjectType(v: Value) {
    v.Null? || v.Arr? || v.Obj?
  }

  /** `String(v)`. */
  function ToJsString(v: Value): string
    decreases v, 1
  {
    match v
    case Undefined => "undefined"
    case Null => "null"
    case Bool(b) => if b then "true" else "false"
    case Num(_, text) => text
    case Str(s) => s
    case Arr(es) => JoinElements(es)
    case Obj(_) => "[object Object]"
  }

  /** `es.join(',')` as `String` applies it to an array: `null` and
      `undefined` elements print as empty strings. */
  function JoinElements(es: seq<Value>): string
    decreases es, 0
  {
    if |es| == 0 then ""
    else
      var first := if es[0] == Undefined || es[0] == Null then "" else ToJsString(es[0]);
      if |es| == 1 then first else first + "," + JoinElements(es[1..])
  }

  // ---------------------------------------------------------------------------
  // Number(v)

  predicate IsDigitIn(c: char, base: nat) {
    DigitValue(c) < base
  }

  /** The digit value of `c` in bases up to 16 (16 for a non-digit). */
  function DigitValue(c: char): nat {
    if '0' <= c <= '9' then c as nat - '0' as nat
    else if 'a' <= c <= 'f' then c as nat - 'a' as nat + 10
    else if 'A' <= c <= 'F' then c as nat - 'A' as nat + 10
    else 16
  }

  /** Length of the longest prefix of `s` made of digits of `base`. */
  function DigitRun(s: string, base: nat): (n: nat)
    ensures n <= |s|
    ensures forall i :: 0 <= i < n ==> IsDigitIn(s[i], base)
    ensures n < |s| ==> !IsDigitIn(s[n], base)
  {
    if |s| > 0 && IsDigitIn(s[0], base) then 1 + DigitRun(s[1..], base) else 0
  }

  /** The value of a digit string in `base`, most significant digit first. */
  function DigitsValue(ds: string, base: nat): nat
    requires forall i :: 0 <= i < |ds| ==> IsDigitIn(ds[i], base)
  {
    if |ds| == 0 then 0 else DigitsValue(ds[..|ds| - 1], base) * base + DigitValue(ds[|ds| - 1])
  }

  function Pow10(k: nat): (p: nat)
    ensures p >= 1
  {
    if k == 0 then 1 else 10 * Pow10(k - 1)
  }

  /** `m * 10^e` for an integer exponent. */
  function Scale(m: nat, e: int): real {
    if e >= 0 then (m * Pow10(e)) as real else m as real / Pow10(-e) as real
  }

  /** An exponent part `[eE][+-]?digits` that makes up the whole of `s`. */
  function ParseExponent(s: string): Option<int> {
    if |s| < 2 || (s[0] != 'e' && s[0] != 'E') then None
    else
      var sign := if s[1] == '-' then -1 else 1;
      var ds := if s[1] == '+' || s[1] == '-' then s[2..] else s[1..];
      if |ds| > 0 && DigitRun(ds, 10) == |ds| then Some(sign * DigitsValue(ds, 10)) else None
  }

  /** StrUnsignedDecimalLiteral: `Infinity`, or digits with an optional
      fraction and exponent (at least one digit before the exponent). */
  function ParseUnsignedDecimal(t: string): Option<JsNum> {
    if t == "Infinity" then Some(PosInf)
    else
      var n := DigitRun(t, 10);
      var intPart, rest := t[..n], t[n..];
      var hasPoint := |rest| > 0 && rest[0] == '.';
      var afterPoint := if hasPoint then rest[1..] else rest;
      var m := if hasPoint then DigitRun(afterPoint, 10) else 0;
      var fracPart, tail := afterPoint[..m], afterPoint[m..];
      if |intPart| + |fracPart| == 0 then None
      else
        var e := if tail == "" then Some(0) else ParseExponent(tail);
        match e
        case None => None
        case Some(k) => Some(Finite(Scale(DigitsValue(intPart + fracPart, 10), k - |fracPart|)))
  }

  /** `0x`, `0o` or `0b` followed by at least one digit of that base. */
  function ParseNonDecimal(t: string): Option<JsNum> {
    if |t| < 3 || t[0] != '0' then None
    else
      var base := if t[1] in "xX" then 16 else if t[1] in "oO" then 8 else if t[1] in "bB" then 2 else 0;
      var ds := t[2..];
      if base > 0 && DigitRun(ds, base) == |ds| then Some(Finite(DigitsValue(ds, base) as real)) else None
  }

  function Negate(n: JsNum): JsNum {
    match n
    case Finite(r) => Finite(-r)
    case PosInf => NegInf
    case NegInf => PosInf
    case NaN => NaN
  }

  /** StringToNumber: surrounding white space is ignored, the empty string is
      0, anything that is not a numeric literal is NaN. */
  function StringToNumber(s: string): JsNum {
    var t := Trim(s);
    if t == "" then Finite(0.0)
    else match ParseNonDecimal(t)
      case Some(n) => n
      case None =>
        var neg := t[0] == '-';
        var body := if t[0] == '+' || t[0] == '-' then t[1..] else t;
        match ParseUnsignedDecimal(body)
        case None => NaN
        case Some(n) => if neg then Negate(n) else n
  }

  /** `Number(v)`. */
  function ToNumber(v: Value): JsNum {
    match v
    case Undefined => NaN
    case Null => Finite(0.0)
    case Bool(b) => Finite(if b then 1.0 else 0.0)
    case Num(n, _) => n
    case Str(s) => StringToNumber(s)
    case Arr(_) => StringToNumber(ToJsString(v))
    case Obj(_) => NaN
  }

  /** `Number.isFinite(n)`. */
  predicate IsFinite(n: JsNum) {
    n.Finite?
  }

  /** A number is truthy unless it is NaN or zero (`n || 0` keeps it). */
  predicate NumTruthy(n: JsNum) {
    n != NaN && n != Finite(0.0)
  }

  // ---------------------------------------------------------------------------
  // Property access

  /** The value stored under `key` (the last entry with that key). */
  function Lookup(fields: seq<(string, Value)>, key: string): Value {
    if |fields| == 0 then Undefined
    else if fields[|fields| - 1].0 == key then fields[|fields| - 1].1
    else Lookup(fields[..|fields| - 1], key)
  }

  /** The entry at `i` is what a key lookup finds when no later entry has
      the same key. */
  lemma {:induction false} LookupAt(fields: seq<(string, Value)>, key: string, i: nat)
    requires i < |fields| && fields[i].0 == key
    requires forall j :: i < j < |fields| ==> fields[j].0 != key
    ensures Lookup(fields, key) == fields[i].1
  {
    if i < |fields| - 1 {
      LookupAt(fields[..|fields| - 1], key, i);
    }
  }

  /** A key no entry has is looked up as `undefined`. */
  lemma {:induction false} LookupAbsent(fields: seq<(string, Value)>, key: string)
    requires forall i :: 0 <= i < |fields| ==> fields[i].0 != key
    ensures Lookup(fields, key) == Undefined
  {
    if |fields| > 0 {
      LookupAbsent(fields[..|fields| - 1], key);
    }
  }

  /** `v.key` for a key that is not an array index; reading a property of
      `null` or `undefined` throws a TypeError. */
  function Field(v: Value, key: string): Result<Value, Thrown> {
    match v
    case Undefined => Err(TypeError("Cannot read properties of undefined (reading '" + key + "')"))
    case Null => Err(TypeError("Cannot read properties of null (reading '" + key + "')"))
    case Obj(fields) => Ok(Lookup(fields, key))
    case _ => Ok(Undefined)
  }

  /** `v?.key`. */
  function OptField(v: Value, key: string): Value {
    match v
    case Obj(fields) => Lookup(fields, key)
    case _ => Undefined
  }

  /** `v?.[i]`: an array element, a one-character string, or the property
      named by the index. */
  function OptIndex(v: Value, i: nat): Value {
    match v
    case Arr(es) => if i < |es| then es[i] else Undefined
    case Str(s) => if i < |s| then Str([s[i]]) else Undefined
    case Obj(fields) => Lookup(fields, NatToString(i))
    case _ => Undefined
  }

  // ---------------------------------------------------------------------------
  // JSON.stringify

  function HexDigit(d: nat): char
    requires d < 16
  {
    if d < 10 then ('0' as int + d) as char else ('a' as int + d - 10) as char
  }

  /** The JSON escape of one character. */
  function EscapeChar(c: char): string {
    if c == '"' then "\\\""
    else if c == '\\' then "\\\\"
    else if c == '\U{8}' then "\\b"
    else if c == '\U{C}' then "\\f"
    else if c == '\n' then "\\n"
    else if c == '\r' then "\\r"
    else if c == '\t' then "\\t"
    else if c < ' ' then "\\u00" + [HexDigit(c as nat / 16), HexDigit(c as nat % 16)]
    else [c]
  }

  function EscapeString(s: string): string {
    if s == [] then "" else EscapeChar(s[0]) + EscapeString(s[1..])
  }

  /** `JSON.stringify(s)` for a string. */
  function Quote(s: string): string {
    "\"" + EscapeString(s) + "\""
  }

  /** `JSON.stringify(v)`; for `undefined` at top level, the text a template
      literal shows. */
  function Stringify(v: Value): string
    decreases v, 1
  {
    match v
    case Undefined => "undefined"
    case Null => "null"
    case Bool(b) => if b then "true" else "false"
    case Num(n, text) => if n.Finite? then text else "null"
    case Str(s) => Quote(s)
    case Arr(es) => "[" + StringifyElements(es) + "]"
    case Obj(fields) => "{" + StringifyFields(fields) + "}"
  }

  /** Array elements: `undefined` is written as `null`. */
  function StringifyElements(es: seq<Value>): string
    decreases es, 0
  {
    if |es| == 0 then ""
    else
      var first := if es[0] == Undefined then "null" else Stringify(es[0]);
      if |es| == 1 then first else first + "," + StringifyElements(es[1..])
  }

  /** Object members: members whose value is `undefined` are skipped. */
  function StringifyFields(fields: seq<(string, Value)>): string
    decreases fields, 0
  {
    if |fields| == 0 then ""
    else if fields[0].1 == Undefined then StringifyFields(fields[1..])
    else
      assert fields[0].1 < fields[0];
      var first := Quote(fields[0].0) + ":" + Stringify(fields[0].1);
      var rest := StringifyFields(fields[1..]);
      if rest == "" then first else first + "," + rest
  }

  /** A list of strings as a JSON array value. */
  function StrArray(ss: seq<string>): (v: Value)
    ensures v.Arr? && |v.elems| == |ss|
    ensures forall i :: 0 <= i < |ss| ==> v.elems[i] == Str(ss[i])
  {
    Arr(seq(|ss|, i requires 0 <= i < |ss| => Str(ss[i])))
  }
}
