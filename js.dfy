/** JavaScript string values as the components see them: a property that is
    missing (`undefined`), a storage key that is absent (`null`), or a string. */
module Js {

  datatype JsString = Undefined | Null | Str(s: string)

  /** JavaScript truthiness of such a value: only a non-empty string is truthy. */
  predicate Truthy(v: JsString) {
    v.Str? && v.s != ""
  }

  /** The operator `a || b`. */
  function Or(a: JsString, b: JsString): JsString {
    if Truthy(a) then a else b
  }

  /** `String(v)`, which is what a template literal and `localStorage.setItem`
      store for the value. */
  function ToString(v: JsString): string {
    match v
    case Undefined => "undefined"
    case Null => "null"
    case Str(s) => s
  }
}
