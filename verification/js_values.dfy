/**
 * The slice of JavaScript values the dashboard manipulates, with the
 * ECMAScript abstract operations ToNumber (unary `+`, `Number(x)`) and
 * ToBoolean (`!!x`, `Boolean(x)`, `if (x)`) and the `??` and `||` operators.
 *
 * Numbers are exact reals; floating-point rounding is not modelled.
 * A string carries its text (for truthiness) together with the number
 * JavaScript would coerce it to, so string-to-number parsing is given as
 * data rather than modelled.
 */
module JsValues {
  import opened Wrappers

  /** A JavaScript number: finite, or NaN. */
  datatype Num = Finite(r: real) | NaN

  /** A JavaScript value as far as the dashboard can observe it. */
  datatype JsVal =
    | Undefined
    | Null
    | Bool(b: bool)
    | Number(n: Num)
    | Str(text: string, asNumber: Num)
      /** a plain object, with or without an own `value` field */
    | Obj(field: Option<JsVal>)

  /** `v == null` (loose equality): true for null and undefined only. */
  predicate IsNullish(v: JsVal) {
    v.Undefined? || v.Null?
  }

  /** ToNumber: what `+v` and `Number(v)` produce. */
  function ToNumber(v: JsVal): Num {
    match v
    case Undefined => NaN
    case Null => Finite(0.0)
    case Bool(b) => Finite(if b then 1.0 else 0.0)
    case Number(n) => n
    case Str(_, n) => n
    case Obj(_) => NaN
  }

  /** ToBoolean: the truthiness of `v`. */
  predicate Truthy(v: JsVal) {
    match v
    case Undefined => false
    case Null => false
    case Bool(b) => b
    case Number(n) => n.Finite? && n.r != 0.0
    case Str(s, _) => |s| > 0
    case Obj(_) => true
  }

  /** `v ?? d`. */
  function Coalesce(v: JsVal, d: JsVal): JsVal {
    if IsNullish(v) then d else v
  }

  /** `n || d` for a number `n`: NaN and 0 are falsy. */
  function OrNumber(n: Num, d: real): real {
    if n.Finite? && n.r != 0.0 then n.r else d
  }

  /** `Math.max(a, b)` on finite numbers. */
  function Max(a: real, b: real): real {
    if a >= b then a else b
  }

  /** `Math.min(a, b)` on finite numbers. */
  function Min(a: real, b: real): real {
    if a <= b then a else b
  }

  /** `Math.round(x)`: the nearest integer, halves rounded up. */
  function Round(x: real): int {
    (x + 0.5).Floor
  }

  /** `Number.isInteger(x)` on a finite number. */
  predicate IsInteger(x: real) {
    x == x.Floor as real
  }
}
