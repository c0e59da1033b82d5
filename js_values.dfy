/** Loosely typed JavaScript values: what the form holds in its fields, their
    truthiness, the `||` and `??` defaults and `Number(...)`. */
module JsValues {
  import opened JsNumbers

  /** An optional property: `None` is an absent (undefined) property. */
  datatype Option<+T> = None | Some(value: T)

  datatype JsValue = Undefined | Null | Bool(b: bool) | Str(s: string) | Num(n: JsNumber)

  /** JavaScript truthiness: undefined, null, false, "", 0 and NaN are falsy. */
  predicate Truthy(v: JsValue) {
    match v
    case Undefined => false
    case Null => false
    case Bool(b) => b
    case Str(s) => s != ""
    case Num(n) => n.Finite? && n.value != 0.0
  }

  /** `a || b` */
  function Or(a: JsValue, b: JsValue): JsValue {
    if Truthy(a) then a else b
  }

  /** `r` is what `v || d` yields: `v` itself when it is truthy, else `d`. */
  predicate Defaulted(r: JsValue, v: JsValue, d: JsValue) {
    (Truthy(v) ==> r == v) && (!Truthy(v) ==> r == d)
  }

  /** `a ?? b` */
  function Coalesce(a: JsValue, b: JsValue): JsValue {
    if a.Undefined? || a.Null? then b else a
  }

  /** `s || d` on an optional string property. */
  function StrOr(s: Option<string>, d: string): string {
    if s.Some? && s.value != "" then s.value else d
  }

  /** `Number(v)`. */
  function ToNumber(v: JsValue): JsNumber {
    match v
    case Undefined => NaN
    case Null => Finite(0.0)
    case Bool(b) => Finite(if b then 1.0 else 0.0)
    case Str(s) => StringToNumber(s)
    case Num(n) => n
  }

  /** `v > 0`: a comparison with a number converts `v` with `Number` first. */
  predicate IsPositive(v: JsValue) {
    ToNumber(v).Finite? && ToNumber(v).value > 0.0
  }
}
