/** The slice of JavaScript's runtime that the payment service depends on:
    the values JSON.parse can produce, property reads that throw on
    `undefined`/`null`, and the numeric coercion used by `*` and `+`. */
module Js {

  datatype Option<+T> = None | Some(value: T)

  datatype Result<+T, +E> = Ok(value: T) | Err(error: E)

  /** A value produced by JSON.parse. Numbers are restricted to integers. */
  datatype Value =
    | Null
    | Bool(b: bool)
    | Num(n: int)
    | Str(s: string)
    | Arr(items: seq<Value>)
    | Obj(fields: map<string, Value>)

  /** What a property read `x.key` yields: `undefined`, or a value. */
  datatype Prop = Undefined | Defined(value: Value)

  /** "Cannot read properties of undefined/null (reading 'key')". */
  datatype TypeError = CannotRead(key: string)

  predicate Nullish(p: Prop) {
    p == Undefined || p == Defined(Null)
  }

  /** The property read `p.key`: it throws exactly when `p` is undefined or
      null, finds the key among an object's own fields, and yields
      `undefined` for every other value (none of the keys read by the
      service is a property of a primitive or an array). */
  function Get(p: Prop, key: string): (r: Result<Prop, TypeError>)
    ensures r.Err? <==> Nullish(p)
    ensures r.Err? ==> r.error == CannotRead(key)
    ensures r.Ok? ==> (r.value.Defined? <==> p.value.Obj? && key in p.value.fields)
    ensures r.Ok? && r.value.Defined? ==> r.value.value == p.value.fields[key]
  {
    match p
    case Undefined => Err(CannotRead(key))
    case Defined(Null) => Err(CannotRead(key))
    case Defined(Obj(fields)) => if key in fields then Ok(Defined(fields[key])) else Ok(Undefined)
    case Defined(_) => Ok(Undefined)
  }

  /** A JavaScript number in this model: an integer, or NaN. */
  datatype Number = Finite(i: int) | NaN

  /** ToNumber for the operand of `*`: undefined is NaN, null is 0, a
      boolean is 0 or 1, a number is itself. Strings, arrays and objects are
      taken as NaN (see README, "Left out"). */
  function ToNumber(p: Prop): Number {
    match p
    case Undefined => NaN
    case Defined(Null) => Finite(0)
    case Defined(Bool(b)) => Finite(if b then 1 else 0)
    case Defined(Num(n)) => Finite(n)
    case Defined(_) => NaN
  }
}
