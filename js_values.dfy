/**
 * JSON response bodies as the browser client reads them: optional property
 * access (`v?.key`), nullish coalescing (`a ?? b`), truthiness and `String(v)`.
 * A property that is absent reads as `None`, JavaScript's `undefined`.
 */
module JsValues {
  import opened Values
  import JsText

  /** A parsed JSON value. JSON numbers are finite, so a number is a `real`. */
  datatype Json =
    | JNull
    | JBool(b: bool)
    | JNum(x: real)
    | JStr(s: string)
    | JArr(items: seq<Json>)
    | JObj(fields: map<string, Json>)

  /** `v?.key`: the property when `v` is an object that has it, else undefined. */
  function Field(v: Option<Json>, key: string): Option<Json>
  {
    if v.Some? && v.value.JObj? && key in v.value.fields then Some(v.value.fields[key]) else None
  }

  /** `null` or `undefined`. */
  predicate Nullish(v: Option<Json>)
  {
    v.None? || v.value.JNull?
  }

  /** `a ?? b`. */
  function Coalesce(a: Option<Json>, b: Option<Json>): (r: Option<Json>)
    ensures !Nullish(a) ==> r == a
    ensures Nullish(a) ==> r == b
  {
    if Nullish(a) then b else a
  }

  /** The value an `if (v)` test accepts. JSON has no NaN, so 0 is the only falsy number. */
  predicate Truthy(v: Option<Json>)
  {
    match v
    case None => false
    case Some(JNull) => false
    case Some(JBool(b)) => b
    case Some(JNum(x)) => x != 0.0
    case Some(JStr(s)) => s != ""
    case Some(_) => true
  }

  /**
   * `String(v)`. `numberText` is the engine's Number-to-String conversion,
   * which the model leaves abstract. Arrays are joined with "," and their
   * `null` elements print as the empty string; objects print as "[object Object]".
   */
  function ToJsString(v: Option<Json>, numberText: real -> string): string
  {
    match v
    case None => "undefined"
    case Some(j) => JsonText(j, numberText)
  }

  function JsonText(j: Json, numberText: real -> string): string
  {
    match j
    case JNull => "null"
    case JBool(b) => if b then "true" else "false"
    case JNum(x) => numberText(x)
    case JStr(s) => s
    case JArr(items) =>
      JsText.Join(seq(|items|, i requires 0 <= i < |items| =>
        if items[i].JNull? then "" else JsonText(items[i], numberText)), ",")
    case JObj(_) => "[object Object]"
  }
}
