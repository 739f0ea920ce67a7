/**
 * JavaScript values as they cross the services' JSON boundaries, and the
 * language rules the modelled code leans on: truthiness, property access on
 * a missing field, `typeof`, and thrown errors.
 */
module Js {

  datatype Option<+T> = None | Some(value: T)

  /** A JSON-like JavaScript value. `Undefined` is the value of a missing field. */
  datatype Value =
    | Undefined
    | Null
    | Bool(b: bool)
    | Num(n: int)
    | Str(s: string)
    | Arr(items: seq<Value>)
    | Obj(fields: map<string, Value>)

  /** A plain object, e.g. one database row or one request body. */
  type Record = map<string, Value>

  /** `process.env`: variables that are unset are absent. */
  type Env = map<string, string>

  /** JavaScript truthiness: `undefined`, `null`, `false`, `0` and `""` are falsy. */
  predicate Truthy(v: Value)
  {
    match v
    case Undefined => false
    case Null => false
    case Bool(b) => b
    case Num(n) => n != 0
    case Str(s) => s != ""
    case Arr(_) => true
    case Obj(_) => true
  }

  /** Reading a property of these throws a TypeError. */
  predicate Nullish(v: Value)
  {
    v.Undefined? || v.Null?
  }

  /** `r[key]` on a plain object. */
  function Field(r: Record, key: string): Value
  {
    if key in r then r[key] else Undefined
  }

  /** `v[key]` on a value that is not nullish; only objects carry named fields here. */
  function Get(v: Value, key: string): Value
  {
    match v
    case Obj(m) => Field(m, key)
    case _ => Undefined
  }

  /** `v[0]`: the first element of an array, the first character of a string, field "0" of an object. */
  function First(v: Value): Value
  {
    match v
    case Arr(xs) => if |xs| > 0 then xs[0] else Undefined
    case Str(s) => if |s| > 0 then Str([s[0]]) else Undefined
    case Obj(m) => Field(m, "0")
    case _ => Undefined
  }

  /** The `typeof` operator. */
  function TypeOf(v: Value): string
  {
    match v
    case Undefined => "undefined"
    case Bool(_) => "boolean"
    case Num(_) => "number"
    case Str(_) => "string"
    case _ => "object"
  }

  /** One entry of an ORM error's `errors` list. */
  datatype ErrorItem = ErrorItem(path: Option<string>, message: string, value: Option<string>)

  /** A thrown error: its `name`, its `message` and, for ORM errors, its `errors` list. */
  datatype Exception = Exception(name: string, message: string, errors: seq<ErrorItem>)

  /** `new Error(message)`. */
  function PlainError(message: string): Exception
  {
    Exception("Error", message, [])
  }

  /** A completed call: the value returned, or the error thrown. */
  datatype Result<+T> = Ok(value: T) | Err(error: Exception)
  {
    predicate IsFailure() { Err? }

    function PropagateFailure<U>(): Result<U>
      requires Err?
    {
      Err(error)
    }

    function Extract(): T
      requires Ok?
    {
      value
    }
  }

  /** A completed call that returns nothing. */
  datatype Outcome = Done | Failed(error: Exception)
}
