/**
 * The JavaScript values the plugin's decision logic inspects, and the three
 * JavaScript operators it leans on: truthiness (`if (x)`, `a || b`, `a && b`),
 * nullish coalescing (`a ?? b`) and property access with optional chaining
 * (`a?.b`). Numbers are integers here (no NaN, no Infinity, no fractions).
 */
module JsValues {

  datatype Option<+T> = None | Some(value: T)

  datatype JsValue =
    | Undefined
    | Null
    | Bool(b: bool)
    | Num(n: int)
    | Str(s: string)
    | Arr(elems: seq<JsValue>)
    | Obj(fields: map<string, JsValue>)

  /** JavaScript truthiness: `undefined`, `null`, `false`, `0` and `""` are falsy. */
  predicate Truthy(v: JsValue)
  {
    match v
    case Undefined => false
    case Null => false
    case Bool(b) => b
    case Num(n) => n != 0
    case Str(s) => s != ""
    case Arr(_) => true
    case Obj(_) => true
  }

  /** `v?.key`: an absent property, or any access through a non-object, yields `undefined`. */
  function Prop(v: JsValue, key: string): (r: JsValue)
    ensures v.Obj? && key in v.fields ==> r == v.fields[key]
    ensures !v.Obj? || key !in v.fields ==> r == Undefined
  {
    if v.Obj? && key in v.fields then v.fields[key] else Undefined
  }

  /** `obj[key]` on a plain object held as a map of its own properties. */
  function Field(m: map<string, JsValue>, key: string): JsValue
  {
    Prop(Obj(m), key)
  }

  /** `a ?? b` */
  function Coalesce(a: JsValue, b: JsValue): (r: JsValue)
    ensures a != Undefined && a != Null ==> r == a
    ensures a == Undefined || a == Null ==> r == b
  {
    if a == Undefined || a == Null then b else a
  }

  /** `typeof v === 'object'`; note that `typeof null` is `'object'` too. */
  predicate IsTypeofObject(v: JsValue)
  {
    v.Null? || v.Arr? || v.Obj?
  }

  predicate IsDigit(c: char)
  {
    '0' <= c <= '9'
  }

  /**
   * The migration's `isNumeric(n)`, `!isNaN(parseFloat(n)) && isFinite(n)`,
   * read as: a number, or a string that is an optionally signed run of
   * decimal digits. Booleans, `null`, `undefined` and objects are not numeric.
   */
  predicate IsNumeric(v: JsValue)
  {
    match v
    case Num(_) => true
    case Str(s) => IsIntegerLiteral(s)
    case _ => false
  }

  predicate IsIntegerLiteral(s: string)
  {
    var digits := if |s| > 0 && (s[0] == '-' || s[0] == '+') then s[1..] else s;
    |digits| > 0 && forall i :: 0 <= i < |digits| ==> IsDigit(digits[i])
  }

  /** The decimal spelling of a natural number, as `String(n)` gives it. */
  function NatToString(n: nat): (r: string)
    ensures |r| > 0
    ensures forall i :: 0 <= i < |r| ==> IsDigit(r[i])
    decreases n
  {
    var d := [(n % 10) as char + '0'];
    if n < 10 then d else NatToString(n / 10) + d
  }

  function IntToString(n: int): (r: string)
    ensures |r| > 0
  {
    if n < 0 then "-" + NatToString(-n) else NatToString(n)
  }

  /**
   * String conversion of a value whose `typeof` is not `'object'`, as `+=`
   * on a string performs it.
   */
  function ToJsString(v: JsValue): (r: string)
    requires !IsTypeofObject(v)
    ensures v.Str? ==> r == v.s
    ensures v == Undefined ==> r == "undefined"
  {
    match v
    case Undefined => "undefined"
    case Bool(b) => if b then "true" else "false"
    case Num(n) => IntToString(n)
    case Str(s) => s
  }
}
