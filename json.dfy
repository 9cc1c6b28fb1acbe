/** The values the client exchanges with the server: what `JSON.parse`
    yields for an inbound frame, and what `send` hands to `JSON.stringify`.
    Numbers are modelled as integers. */
module Json {

  datatype Value =
    | Undefined
    | Null
    | Bool(b: bool)
    | Num(n: int)
    | Str(s: string)
    | Arr(items: seq<Value>)
    | Obj(fields: map<string, Value>)

  /** JavaScript truthiness: `!v` is true exactly when this is false. */
  predicate Truthy(v: Value) {
    match v
    case Undefined => false
    case Null => false
    case Bool(b) => b
    case Num(n) => n != 0
    case Str(s) => s != ""
    case Arr(_) => true
    case Obj(_) => true
  }

  /** `v[key]` for a value that is neither `null` nor `undefined` (reading a
      property of those throws a TypeError, which callers handle). Only the
      own fields of a parsed object are seen. */
  function Field(v: Value, key: string): Value
    requires !v.Null? && !v.Undefined?
  {
    if v.Obj? && key in v.fields then v.fields[key] else Undefined
  }

  /** The property key a value is converted to when it indexes an object
      (`obj[v]`): JavaScript's ToString. */
  function ToKey(v: Value): string
    decreases v, 1
  {
    match v
    case Undefined => "undefined"
    case Null => "null"
    case Bool(b) => if b then "true" else "false"
    case Num(n) => if n < 0 then "-" + Decimal(-n) else Decimal(n)
    case Str(s) => s
    case Arr(_) => JoinKeys(v, 0)
    case Obj(_) => "[object Object]"
  }

  /** `Array.prototype.join(",")` from position `i` on: `null` and
      `undefined` elements become the empty string. */
  function JoinKeys(v: Value, i: nat): string
    requires v.Arr? && i <= |v.items|
    decreases v, 0, |v.items| - i
  {
    if i == |v.items| then ""
    else
      var x := v.items[i];
      (if i == 0 then "" else ",")
      + (if x.Undefined? || x.Null? then "" else ToKey(x))
      + JoinKeys(v, i + 1)
  }

  /** The decimal digits of `n`. */
  function Decimal(n: nat): string {
    if n < 10 then [DigitChar(n)] else Decimal(n / 10) + [DigitChar(n % 10)]
  }

  function DigitChar(d: nat): char
    requires d < 10
  {
    "0123456789"[d]
  }

  /** The text one send puts on the wire: `JSON.stringify(payload)`, kept
      as the payload itself since the encoder is not modelled, or the
      empty string that `send(data, false)` transmits. */
  datatype Text = Encoded(payload: Value) | Blank
}
