/** The few JavaScript language operations the bridge's code relies on:
    values as they cross the message bus, property reads, destructuring
    with defaults, truthiness and template-literal string conversion. */
module Js {

  datatype Option<T> = None | Some(value: T)

  /** A JSON-like JavaScript value. Numbers are integers here. */
  datatype Value =
    | Undefined
    | Null
    | Bool(b: bool)
    | Num(n: int)
    | Str(s: string)
    | Arr(items: seq<Value>)
    | Obj(props: map<string, Value>)

  /** How an expression or an awaited call ends: normally with a value, or
      by throwing (a rejected promise) an Error with the given message. */
  datatype Completion<T> = Normal(value: T) | Throw(message: string)

  /** Message of the TypeError raised by reading a property of null or undefined. */
  function TypeErrorText(base: Value, key: string): string
  {
    "Cannot read properties of " + (if base.Null? then "null" else "undefined")
    + " (reading '" + key + "')"
  }

  /** `base[key]`: throws on null and undefined; strings and arrays have a
      `length`; every other missing property reads as undefined. */
  function Prop(base: Value, key: string): Completion<Value>
  {
    match base
    case Undefined => Throw(TypeErrorText(base, key))
    case Null => Throw(TypeErrorText(base, key))
    case Str(s) => Normal(if key == "length" then Num(|s|) else Undefined)
    case Arr(items) => Normal(if key == "length" then Num(|items|) else Undefined)
    case Obj(props) => Normal(if key in props then props[key] else Undefined)
    case _ => Normal(Undefined)
  }

  /** Object destructuring `const { ... } = v` succeeds exactly when `v` is neither null nor undefined. */
  predicate Destructurable(v: Value)
  {
    !v.Undefined? && !v.Null?
  }

  /** The binding `key = default` of a destructuring pattern: the default
      replaces undefined only (not null, not other falsy values). */
  function Field(v: Value, key: string, default: Value): Value
    requires Destructurable(v)
  {
    var x := Prop(v, key).value;
    if x.Undefined? then default else x
  }

  /** JavaScript truthiness, as used by `if (x)` and `x || y`. */
  predicate Truthy(v: Value)
  {
    match v
    case Undefined => false
    case Null => false
    case Bool(b) => b
    case Num(n) => n != 0
    case Str(s) => s != ""
    case _ => true
  }

  function DigitChar(d: nat): char
    requires d < 10
  {
    "0123456789"[d]
  }

  function NatToStr(n: nat): string
  {
    if n < 10 then [DigitChar(n)] else NatToStr(n / 10) + [DigitChar(n % 10)]
  }

  function IntToStr(n: int): string
  {
    if n < 0 then "-" + NatToStr(-n) else NatToStr(n)
  }

  function JoinComma(parts: seq<string>): string
  {
    if |parts| == 0 then ""
    else if |parts| == 1 then parts[0]
    else parts[0] + "," + JoinComma(parts[1..])
  }

  /** `${v}` in a template literal. An array joins its elements with commas,
      writing null and undefined elements as empty strings. */
  function ToStr(v: Value): string
  {
    match v
    case Undefined => "undefined"
    case Null => "null"
    case Bool(b) => if b then "true" else "false"
    case Num(n) => IntToStr(n)
    case Str(s) => s
    case Arr(items) =>
      JoinComma(seq(|items|, i requires 0 <= i < |items| =>
        if items[i].Undefined? || items[i].Null? then "" else ToStr(items[i])))
    case Obj(_) => "[object Object]"
  }
}
