/** Values as the JavaScript code sees them: optional results, request-body
    fields that may be absent or JSON null, and the two different tests the
    code applies to them (falsiness `!x` and `x == null`). */
module Js {

  datatype Option<+T> = None | Some(value: T)

  /** A field of a JSON request body: absent (`undefined`), `null`, or a value. */
  datatype Slot<+T> = Missing | Null | Given(value: T)

  /** `x == null` in JavaScript: true of both `undefined` and `null`. */
  predicate Nullish<T>(x: Slot<T>) {
    x.Missing? || x.Null?
  }

  /** `!x` for a text field: absent, null or the empty string. */
  predicate FalsyText(x: Slot<string>) {
    match x
    case Given(s) => s == ""
    case _ => true
  }

  /** `!x` for a numeric field: absent, null or zero. */
  predicate FalsyNum(x: Slot<int>) {
    match x
    case Given(n) => n == 0
    case _ => true
  }

  /** `x || fallback` for a text field. */
  function TextOr(x: Slot<string>, fallback: string): string {
    if FalsyText(x) then fallback else x.value
  }

  /** A text field as stored in a nullable SQL column. */
  function Column(x: Slot<string>): Option<string> {
    match x
    case Given(s) => Some(s)
    case _ => None
  }
}
