/**
 * JavaScript values as they reach the application from JSON responses and form state,
 * with the three operations the code applies to them: truthiness, property access
 * (`v.key`, `v?.key`) and `a || b`, plus `String(v)` as used by template literals.
 * Numbers are integers here; fractional and NaN values are not modelled.
 */
module JsValue {
  import opened JsText

  datatype Json =
    | Undefined
    | Null
    | Bool(b: bool)
    | Num(n: int)
    | Str(s: string)
    | Arr(items: seq<Json>)
    | Obj(fields: map<string, Json>)

  /** JavaScript truthiness: `undefined`, `null`, `false`, `0` and `''` are falsy. */
  predicate Truthy(v: Json) {
    match v
    case Undefined => false
    case Null => false
    case Bool(b) => b
    case Num(n) => n != 0
    case Str(s) => s != ""
    case Arr(_) => true
    case Obj(_) => true
  }

  /** `typeof v === 'object' && v !== null` */
  predicate IsObject(v: Json) {
    v.Arr? || v.Obj?
  }

  /** `v?.key` on a record: the field's value, or `undefined` when there is none. */
  function Get(v: Json, key: string): (r: Json)
    ensures !v.Obj? ==> r == Undefined
    ensures v.Obj? && key !in v.fields ==> r == Undefined
    ensures v.Obj? && key in v.fields ==> r == v.fields[key]
  {
    if v.Obj? && key in v.fields then v.fields[key] else Undefined
  }

  /** `a || b`: the first operand when it is truthy, otherwise the second. */
  function Or(a: Json, b: Json): (r: Json)
    ensures Truthy(a) ==> r == a
    ensures !Truthy(a) ==> r == b
    ensures Truthy(r) <==> Truthy(a) || Truthy(b)
  {
    if Truthy(a) then a else b
  }

  /** `String(v)`; arrays print their elements joined by commas, with `null` and `undefined` as empty. */
  function ToText(v: Json): (r: string)
    ensures v.Str? ==> r == v.s
    decreases v
  {
    match v
    case Undefined => "undefined"
    case Null => "null"
    case Bool(b) => if b then "true" else "false"
    case Num(n) => IntToString(n)
    case Str(s) => s
    case Arr(items) =>
      Join(seq(|items|, i requires 0 <= i < |items| =>
        if items[i].Undefined? || items[i].Null? then "" else ToText(items[i])), ",")
    case Obj(_) => "[object Object]"
  }

  /**
   * The message of the `TypeError` raised by reading a property of `null` or `undefined`, in
   * the wording of Hermes, the engine React Native runs.
   */
  function ReadErrorMessage(property: string, v: Json): string {
    "Cannot read property '" + property + "' of " + (if v.Null? then "null" else "undefined")
  }
}
