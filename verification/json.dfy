/** The values `JSON.parse` produces, and the JavaScript operations the
    suggestion post-processing applies to them: truthiness, property reads
    and `String(...)` coercion. */
module JsonValue {
  import opened Wrappers

  /** A parsed JSON value. Numbers are exact reals: `JSON.parse` never yields
      NaN or an infinity, and rounding to binary64 is not modelled. */
  datatype Json =
    | Null
    | Bool(b: bool)
    | Num(n: real)
    | Str(s: string)
    | Arr(items: seq<Json>)
    | Obj(fields: map<string, Json>)

  /** JavaScript truthiness of a parsed value. */
  predicate Truthy(j: Json) {
    match j
    case Null => false
    case Bool(b) => b
    case Num(n) => n != 0.0
    case Str(s) => s != ""
    case Arr(_) => true
    case Obj(_) => true
  }

  /** `j && typeof j === 'object'`: an array or an object (null is falsy). */
  predicate IsTruthyObject(j: Json) {
    j.Arr? || j.Obj?
  }

  /** The property read `j[key]` on a value that is not null: only an
      object's own fields are found (the keys read by the core are not
      inherited from `Object.prototype`); `None` stands for `undefined`. */
  function Member(j: Json, key: string): (r: Option<Json>)
    ensures r.Some? <==> j.Obj? && key in j.fields
  {
    if j.Obj? && key in j.fields then Some(j.fields[key]) else None
  }

  /** `j[key]` is present and truthy. */
  predicate TruthyMember(j: Json, key: string) {
    Member(j, key).Some? && Truthy(Member(j, key).value)
  }

  /** The TypeError message `String(o)` raises for an object it cannot
      convert to a primitive. */
  const NotPrimitive := "Cannot convert object to primitive value"

  /** `String(j)`. A parsed object whose own `toString` field is not callable
      (every JSON field value is) cannot be converted and throws; an object
      without that field renders as `[object Object]`; an array renders as
      its elements joined with commas, null elements as the empty string.
      How a number is rendered (`Number::toString`) is the `showNumber`
      parameter. */
  function ToJsString(j: Json, showNumber: real -> string): (r: Result<string, string>)
    ensures j.Str? ==> r == Success(j.s)
    ensures r.Failure? ==> r.error == NotPrimitive
    decreases j
  {
    match j
    case Null => Success("null")
    case Bool(b) => Success(if b then "true" else "false")
    case Num(n) => Success(showNumber(n))
    case Str(s) => Success(s)
    case Arr(items) => JoinItems(items, showNumber)
    case Obj(fields) => if "toString" in fields then Failure(NotPrimitive) else Success("[object Object]")
  }

  /** `Array.prototype.join(",")` on parsed elements. */
  function JoinItems(items: seq<Json>, showNumber: real -> string): (r: Result<string, string>)
    ensures r.Failure? ==> r.error == NotPrimitive
    decreases items
  {
    if items == [] then Success("")
    else
      var head := if items[0].Null? then Success("") else ToJsString(items[0], showNumber);
      if head.Failure? then head
      else if |items| == 1 then head
      else
        var tail := JoinItems(items[1..], showNumber);
        if tail.Failure? then tail else Success(head.value + "," + tail.value)
  }
}
