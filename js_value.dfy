/**
 * The JavaScript values the core handles untyped (`any`, `unknown`):
 * persisted state, response bodies, thrown values. Numbers are integers.
 */
module JsValue {
  import opened Wrappers

  datatype Value =
    | Undefined
    | Null
    | Bool(b: bool)
    | Num(n: int)
    | Str(s: string)
    | Arr(items: seq<Value>)
    | Obj(fields: map<string, Value>)
    | Func(source: string)

  /** A thrown value: an `Error` instance, or anything else `throw` was given. */
  datatype Thrown = ErrorInstance(message: string) | NonError(value: Value)

  /** JavaScript truthiness (`if (v)`, `!v`, `v || d`). */
  predicate Truthy(v: Value)
  {
    match v
    case Undefined => false
    case Null => false
    case Bool(b) => b
    case Num(n) => n != 0
    case Str(s) => s != ""
    case _ => true
  }

  /** `v == null`: reading a property of such a value throws a TypeError. */
  predicate Nullish(v: Value)
  {
    v.Undefined? || v.Null?
  }

  /** The `typeof` operator. */
  function TypeOf(v: Value): string
  {
    match v
    case Undefined => "undefined"
    case Null => "object"
    case Bool(_) => "boolean"
    case Num(_) => "number"
    case Str(_) => "string"
    case Arr(_) => "object"
    case Obj(_) => "object"
    case Func(_) => "function"
  }

  function DigitChar(d: nat): char
    requires d < 10
  {
    "0123456789"[d]
  }

  /** The decimal numeral of `n`, as `String(n)` writes it. */
  function NatToString(n: nat): (s: string)
    ensures |s| > 0
    decreases n
  {
    if n < 10 then [DigitChar(n)] else NatToString(n / 10) + [DigitChar(n % 10)]
  }

  function DigitValue(c: char): (d: nat)
    requires '0' <= c <= '9'
    ensures d < 10
  {
    (c as int - '0' as int) as nat
  }

  /** The value of a string of decimal digits. */
  function DigitsValue(s: string): nat
    requires forall i :: 0 <= i < |s| ==> '0' <= s[i] <= '9'
  {
    if s == [] then 0 else 10 * DigitsValue(s[..|s| - 1]) + DigitValue(s[|s| - 1])
  }

  /**
   * The array index a property key denotes: a canonical decimal numeral
   * (no sign, no leading zero except "0" itself), or nothing.
   */
  function IndexKey(key: string): Option<nat>
  {
    if key != [] && (forall i :: 0 <= i < |key| ==> '0' <= key[i] <= '9') && (key[0] != '0' || key == "0")
    then Some(DigitsValue(key))
    else None
  }

  /**
   * The property read `v[key]` for a value that is not null or undefined.
   * Own properties only, plus `length` and index keys of arrays and
   * strings; properties inherited from a prototype are not modelled.
   */
  function Get(v: Value, key: string): Value
    requires !Nullish(v)
  {
    match v
    case Obj(fields) => if key in fields then fields[key] else Undefined
    case Arr(items) =>
      if key == "length" then Num(|items|)
      else (match IndexKey(key)
            case Some(i) => if i < |items| then items[i] else Undefined
            case None => Undefined)
    case Str(s) =>
      if key == "length" then Num(|s|)
      else (match IndexKey(key)
            case Some(i) => if i < |s| then Str([s[i]]) else Undefined
            case None => Undefined)
    case _ => Undefined
  }

  function Join(parts: seq<string>, sep: string): string
  {
    if parts == [] then ""
    else if |parts| == 1 then parts[0]
    else parts[0] + sep + Join(parts[1..], sep)
  }

  /** `String(v)`: how a value reads once converted to a string. */
  function StringOf(v: Value): string
    decreases v
  {
    match v
    case Undefined => "undefined"
    case Null => "null"
    case Bool(b) => if b then "true" else "false"
    case Num(n) => if n < 0 then "-" + NatToString(-n) else NatToString(n)
    case Str(s) => s
    case Arr(items) =>
      // Array.prototype.join writes null and undefined elements as ""
      Join(seq(|items|, i requires 0 <= i < |items| =>
             if Nullish(items[i]) then "" else StringOf(items[i])), ",")
    case Obj(_) => "[object Object]"
    case Func(source) => source
  }

  /**
   * Whether a value can be handed to a structured-clone storage backend:
   * it holds no function anywhere.
   */
  predicate Cloneable(v: Value)
    decreases v
  {
    match v
    case Func(_) => false
    case Arr(items) => forall i :: 0 <= i < |items| ==> Cloneable(items[i])
    case Obj(fields) => forall k :: k in fields ==> Cloneable(fields[k])
    case _ => true
  }
}
