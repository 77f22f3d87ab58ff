/**
 * The value-coercion helpers of src/services/normalize.js: `readValue`,
 * `toNum`, `toBool` and the display formatter `fmt`.
 */
module Normalize {
  import opened Wrappers
  import opened JsValues
  import opened Decimal

  /** `readValue(tagObj)`: unwraps a `{ value }` record, maps null/undefined to null. */
  function ReadValue(v: JsVal): (r: JsVal)
    ensures IsNullish(v) ==> r == Null
    ensures v.Obj? && v.field.Some? ==> r == v.field.value
    ensures !IsNullish(v) && !(v.Obj? && v.field.Some?) ==> r == v
  {
    if IsNullish(v) then Null
    else if v.Obj? && v.field.Some? then v.field.value
    else v
  }

  /** `toNum(v, d)`: the coerced number, or `d` for null, undefined and NaN. */
  function ToNum(v: JsVal, d: real): (r: real)
    ensures IsNullish(v) || ToNumber(v).NaN? ==> r == d
    ensures !IsNullish(v) && ToNumber(v).Finite? ==> r == ToNumber(v).r
  {
    if IsNullish(v) || ToNumber(v).NaN? then d else ToNumber(v).r
  }

  /** `toBool(v)`: a non-zero number after coercion; null is false. */
  predicate ToBool(v: JsVal)
    ensures ToBool(v) <==> !IsNullish(v) && ToNumber(v).Finite? && ToNumber(v).r != 0.0
  {
    ToNum(v, 0.0) != 0.0
  }

  /** Which branch of `fmt` a value takes, with the number it renders. */
  datatype Rendering =
    | Dashes                  // "--"
    | Grouped(n: real)        // n.toLocaleString('pt-BR')
    | OneDecimal(n: real)     // n.toFixed(1)
    | IntegerText(k: int)     // String(n) for an integral n

  /** The branch `fmt(v)` takes. */
  function FmtCase(v: JsVal): (r: Rendering)
    ensures r.Dashes? <==> IsNullish(v) || ToNumber(v).NaN?
    ensures r.Grouped? <==> !r.Dashes? && (ToNumber(v).r >= 1000.0 || ToNumber(v).r <= -1000.0)
    ensures r.Grouped? ==> r.n == ToNumber(v).r
    ensures r.IntegerText? ==> ToNumber(v) == Finite(r.k as real) && -1000 < r.k < 1000
    ensures r.OneDecimal? ==> ToNumber(v) == Finite(r.n) && !IsInteger(r.n) && -1000.0 < r.n < 1000.0
  {
    if IsNullish(v) || ToNumber(v).NaN? then Dashes
    else
      var n := ToNumber(v).r;
      if (if n < 0.0 then -n else n) >= 1000.0 then Grouped(n)
      else if IsInteger(n) then IntegerText(n.Floor)
      else OneDecimal(n)
  }

  /**
   * Text of a rendering. The locale-grouped and one-decimal renderings come
   * from the host (`toLocaleString('pt-BR')`, `toFixed(1)`) and are parameters.
   */
  function Render(c: Rendering, localeText: real -> string, fixedText: real -> string): string {
    match c
    case Dashes => "--"
    case Grouped(n) => localeText(n)
    case OneDecimal(n) => fixedText(n)
    case IntegerText(k) => IntToString(k)
  }

  /** `fmt(v)`. */
  function Fmt(v: JsVal, localeText: real -> string, fixedText: real -> string): (r: string)
    ensures IsNullish(v) || ToNumber(v).NaN? ==> r == "--"
    ensures !IsNullish(v) && ToNumber(v).Finite? && (ToNumber(v).r >= 1000.0 || ToNumber(v).r <= -1000.0) ==>
      r == localeText(ToNumber(v).r)
    ensures !IsNullish(v) && ToNumber(v).Finite? && -1000.0 < ToNumber(v).r < 1000.0 && IsInteger(ToNumber(v).r) ==>
      r == IntToString(ToNumber(v).r.Floor)
    ensures !IsNullish(v) && ToNumber(v).Finite? && -1000.0 < ToNumber(v).r < 1000.0 && !IsInteger(ToNumber(v).r) ==>
      r == fixedText(ToNumber(v).r)
  {
    Render(FmtCase(v), localeText, fixedText)
  }

  /** The fallback the dashboard passes for a missing value: the string "--", which coerces to NaN. */
  const Placeholder: JsVal := Str("--", NaN)

  /** A missing or BAD tag, passed as `fmt(tag ?? "--")`, renders as "--". */
  lemma FmtMissingTagIsDashes(v: JsVal, localeText: real -> string, fixedText: real -> string)
    requires IsNullish(v)
    ensures Fmt(Coalesce(v, Placeholder), localeText, fixedText) == "--"
  {
  }

  /**
   * A small integer renders as its plain decimal text, whatever the host
   * formatters do: no '.', at most four characters, and it reads back as itself.
   */
  lemma FmtSmallInteger(v: JsVal, k: int, localeText: real -> string, fixedText: real -> string)
    requires !IsNullish(v) && ToNumber(v) == Finite(k as real) && -1000 < k < 1000
    ensures var s := Fmt(v, localeText, fixedText);
      && s == IntToString(k)
      && '.' !in s
      && |s| <= 4
      && ParseInt(s) == Some(k)
  {
    assert FmtCase(v) == IntegerText(k);
    ParseIntToString(k);
    if k < 0 {
      NatToStringShort(-k);
    } else {
      NatToStringShort(k);
    }
  }

  /** Worked cases: 7 renders "7", 3.5 goes to one decimal, 1234 is grouped, null is "--". */
  lemma FmtExamples(localeText: real -> string, fixedText: real -> string)
    ensures Fmt(Number(Finite(7.0)), localeText, fixedText) == "7"
    ensures FmtCase(Number(Finite(3.5))) == OneDecimal(3.5)
    ensures FmtCase(Number(Finite(1234.0))) == Grouped(1234.0)
    ensures FmtCase(Number(Finite(-1000.0))) == Grouped(-1000.0)
    ensures FmtCase(Number(Finite(999.0))) == IntegerText(999)
    ensures Fmt(Null, localeText, fixedText) == "--"
    ensures Fmt(Number(NaN), localeText, fixedText) == "--"
  {
    assert (7.0).Floor == 7;
    assert (999.0).Floor == 999;
    assert (3.5).Floor == 3;
  }

  /** `toNum` gives the fallback for null but 0 for the empty string. */
  lemma ToNumFallbacks(d: real)
    ensures ToNum(Null, d) == d && ToNum(Undefined, d) == d
    ensures ToNum(Str("", Finite(0.0)), d) == 0.0
    ensures !ToBool(Null)
  {
  }

  /**
   * `toBool` and JavaScript truthiness agree on everything but strings and
   * objects: the string "0" is truthy yet `toBool("0")` is false.
   */
  lemma ToBoolAgreesWithTruthiness(v: JsVal)
    ensures !v.Str? && !v.Obj? ==> (ToBool(v) <==> Truthy(v))
    ensures v == Str("0", Finite(0.0)) ==> Truthy(v) && !ToBool(v)
  {
  }

  /** `readValue` yields undefined only for a record whose `value` field is undefined. */
  lemma ReadValueUndefined(v: JsVal)
    ensures ReadValue(v) == Undefined <==> v == Obj(Some(Undefined))
  {
  }
}
