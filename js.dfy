/** JavaScript values as the handlers, services and stores see them, together
    with the truthiness rules and the error shapes the source relies on. */
module Js {

  datatype Option<+T> = None | Some(value: T)

  /** A JavaScript value. Numbers are modelled as integers. `Date(ms)` is a
      Date object holding epoch milliseconds. */
  datatype Json =
    | Undefined
    | Null
    | Bool(b: bool)
    | Num(n: int)
    | Str(s: string)
    | Date(ms: int)
    | Arr(items: seq<Json>)
    | Obj(fields: map<string, Json>)

  /** A plain object: request bodies, DTO outputs and stored documents. */
  type Doc = map<string, Json>

  /** Property read `d.key`: a missing key reads as `undefined`. */
  function Get(d: Doc, key: string): Json
  {
    if key in d then d[key] else Undefined
  }

  /** Property read `v.key` on any value: only objects have properties here. */
  function Prop(v: Json, key: string): Json
  {
    if v.Obj? then Get(v.fields, key) else Undefined
  }

  /** JavaScript truthiness: `undefined`, `null`, `false`, `0` and `""` are falsy;
      every object (arrays and dates included) is truthy. */
  predicate Truthy(v: Json)
  {
    match v
    case Undefined => false
    case Null => false
    case Bool(b) => b
    case Num(n) => n != 0
    case Str(s) => s != ""
    case _ => true
  }

  /** `a || b` */
  function Or(a: Json, b: Json): (r: Json)
    ensures Truthy(a) ==> r == a
    ensures !Truthy(a) ==> r == b
  {
    if Truthy(a) then a else b
  }

  /** `typeof v === "object"`: true for null, arrays, dates and plain objects. */
  predicate IsObjectLike(v: Json)
  {
    v.Null? || v.Arr? || v.Obj? || v.Date?
  }

  /** The string a template literal `${v}` or `String(v)` produces; dates
      render as their epoch milliseconds (see README). */
  function Display(v: Json): string
    decreases v
  {
    match v
    case Undefined => "undefined"
    case Null => "null"
    case Bool(b) => if b then "true" else "false"
    case Num(n) => IntToString(n)
    case Str(s) => s
    case Date(ms) => IntToString(ms)
    case Arr(items) => JoinDisplay(items, 0, v)
    case Obj(_) => "[object Object]"
  }

  /** `items.join(",")` where `null` and `undefined` items render as "". */
  function JoinDisplay(items: seq<Json>, i: nat, ghost parent: Json): string
    requires parent == Arr(items)
    decreases parent, |items| - i
  {
    if i >= |items| then ""
    else
      assert items[i] in parent.items;
      var here := if items[i].Undefined? || items[i].Null? then "" else Display(items[i]);
      if i + 1 == |items| then here else here + "," + JoinDisplay(items, i + 1, parent)
  }

  function DigitChar(d: nat): char
    requires d < 10
  {
    ['0', '1', '2', '3', '4', '5', '6', '7', '8', '9'][d]
  }

  /** Decimal rendering of a natural number, as `String(n)` gives it. */
  function NatToString(n: nat): (s: string)
    ensures |s| > 0
    decreases n
  {
    if n < 10 then [DigitChar(n)] else NatToString(n / 10) + [DigitChar(n % 10)]
  }

  function IntToString(n: int): string
  {
    if n < 0 then "-" + NatToString(-n) else NatToString(n)
  }

  /** `typeof v` */
  function TypeOf(v: Json): string
  {
    match v
    case Undefined => "undefined"
    case Bool(_) => "boolean"
    case Num(_) => "number"
    case Str(_) => "string"
    case _ => "object"
  }

  /** The two error classes the services throw: `HttpError` carries a status
      code, a plain `Error` does not. */
  datatype Error =
    | HttpError(statusCode: int, message: string)
    | PlainError(message: string)

  datatype Outcome<+T> = Ok(value: T) | Err(error: Error)

  /** `error.statusCode || 500` */
  function StatusOr500(e: Error): (status: int)
    ensures e.HttpError? && e.statusCode != 0 ==> status == e.statusCode
    ensures e.PlainError? || e.statusCode == 0 ==> status == 500
  {
    if e.HttpError? && e.statusCode != 0 then e.statusCode else 500
  }

  /** `error.message || fallback` */
  function MessageOr(e: Error, fallback: string): string
  {
    if e.message != "" then e.message else fallback
  }
}
