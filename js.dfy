/** Values as the JavaScript front-end sees them: an optional string stands for a
    field that may be missing (`undefined`/`null`) or present, and JavaScript's
    truthiness treats a missing field and the empty string alike. */
module Js {

  datatype Option<+T> = None | Some(value: T)

  /** A string-valued field that may be absent. */
  type JsStr = Option<string>

  /** `!!v` for a string-valued field: present and non-empty. */
  predicate Truthy(v: JsStr) {
    v.Some? && v.value != ""
  }

  /** `a || b` on string-valued fields: `a` when it is truthy, otherwise `b`. */
  function Or(a: JsStr, b: JsStr): (r: JsStr)
    ensures Truthy(a) ==> r == a
    ensures !Truthy(a) ==> r == b
  {
    if Truthy(a) then a else b
  }

  /** `a || "literal"`: the field's text when truthy, otherwise the literal. */
  function OrElse(a: JsStr, default: string): (r: string)
    ensures Truthy(a) ==> r == a.value
    ensures !Truthy(a) ==> r == default
  {
    if Truthy(a) then a.value else default
  }

  /** `${v}` in a template literal: the text, or "undefined" when missing. */
  function Template(v: JsStr): (r: string)
    ensures v.Some? ==> r == v.value
  {
    if v.Some? then v.value else "undefined"
  }

  /** `map.get(key)` / `localStorage.getItem(key)`: `None` (null) when absent. */
  function Lookup(m: map<string, string>, key: string): (r: JsStr)
    ensures r.Some? <==> key in m
    ensures key in m ==> r.value == m[key]
  {
    if key in m then Some(m[key]) else None
  }
}
