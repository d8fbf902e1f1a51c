/** The JavaScript values that flow through the proxy and the panel (request
    bodies, upstream payloads, form fields), with the few operators the code
    applies to them: truthiness, `a || b`, optional and plain property reads,
    indexing, and the string conversion of a template literal. */
module JsValues {

  import opened Wrappers
  import opened Text

  /** A JSON-like JavaScript value. Numbers are integers; objects are maps
      from property names to values. */
  datatype Value =
    | Undefined
    | Null
    | Bool(b: bool)
    | Num(n: int)
    | Str(s: string)
    | Arr(items: seq<Value>)
    | Obj(fields: map<string, Value>)

  /** JavaScript's truthiness: `undefined`, `null`, `false`, `0` and `''`
      are falsy, every other value (including `[]` and `{}`) is truthy. */
  predicate Truthy(v: Value) {
    match v
    case Undefined => false
    case Null => false
    case Bool(b) => b
    case Num(n) => n != 0
    case Str(s) => s != ""
    case Arr(_) => true
    case Obj(_) => true
  }

  predicate IsNullish(v: Value) {
    v.Undefined? || v.Null?
  }

  /** `a || b`: the first operand when it is truthy, the second otherwise. */
  function Or(a: Value, b: Value): (r: Value)
    ensures Truthy(a) ==> r == a
    ensures !Truthy(a) ==> r == b
  {
    if Truthy(a) then a else b
  }

  /** `v?.key`, and `v.key` on a value that is not nullish, for the data
      properties the model reads: the property of an object, `undefined`
      for a missing property and for any other value. Built-in properties
      such as `length` of a string or an array are not read through `Get`
      (`ServerDeals` reads `length` on its own). */
  function Get(v: Value, key: string): (r: Value)
    ensures v.Obj? && key in v.fields ==> r == v.fields[key]
    ensures !(v.Obj? && key in v.fields) ==> r == Undefined
  {
    if v.Obj? && key in v.fields then v.fields[key] else Undefined
  }

  /** `v.key` without optional chaining: None when it throws a TypeError
      because `v` is `null` or `undefined`. */
  function Read(v: Value, key: string): (r: Option<Value>)
    ensures r.None? <==> IsNullish(v)
    ensures r.Some? ==> r.value == Get(v, key)
  {
    if IsNullish(v) then None else Some(Get(v, key))
  }

  /** `v[i]` on a value that is not nullish: an array element, a
      one-character string, an object's own property named by the digits of
      `i`, or `undefined` when there is none. */
  function At(v: Value, i: nat): (r: Option<Value>)
    ensures r.None? <==> IsNullish(v)
    ensures v.Arr? ==> r == Some(if i < |v.items| then v.items[i] else Undefined)
    ensures v.Str? ==> r == Some(if i < |v.s| then Str([v.s[i]]) else Undefined)
    ensures v.Obj? ==> r == Some(Get(v, NatToString(i)))
    ensures v.Bool? || v.Num? ==> r == Some(Undefined)
  {
    if IsNullish(v) then None
    else if v.Arr? && i < |v.items| then Some(v.items[i])
    else if v.Str? && i < |v.s| then Some(Str([v.s[i]]))
    else if v.Obj? then Some(Get(v, NatToString(i)))
    else Some(Undefined)
  }

  function DigitChar(d: nat): char
    requires d < 10
  {
    "0123456789"[d]
  }

  function NatToString(n: nat): (r: string)
    ensures |r| >= 1
    decreases n
  {
    if n < 10 then [DigitChar(n)] else NatToString(n / 10) + [DigitChar(n % 10)]
  }

  /** `String(v)`, which is also what `${v}` in a template literal gives. An
      array joins its elements with "," and shows `null` and `undefined`
      elements as empty. */
  function ToJsString(v: Value): string
    decreases v
  {
    match v
    case Undefined => "undefined"
    case Null => "null"
    case Bool(b) => if b then "true" else "false"
    case Num(n) => if n < 0 then "-" + NatToString(-n) else NatToString(n)
    case Str(s) => s
    case Arr(items) =>
      Join(seq(|items|, i requires 0 <= i < |items| =>
        if IsNullish(items[i]) then "" else ToJsString(items[i])), ",")
    case Obj(_) => "[object Object]"
  }
}
