/**
 * The platform's context value, reduced to what the registry relies on: an
 * immutable chain of key/value bindings that answers `Value(key)` with the
 * innermost binding for that key. Deadlines and cancellation are not modelled.
 */
module Contexts {
  import opened Wrappers

  /** Go's int64. */
  newtype int64 = x: int | -0x8000_0000_0000_0000 <= x < 0x8000_0000_0000_0000

  /** The dynamic type of a value, as a type assertion `.(T)` sees it. */
  datatype Type = Int64Type | StringType | NamedStringType(typeName: string)

  /**
   * A value carried by a context, tagged with its dynamic type. A named string
   * type (`type userDefinedType string`) is a type of its own: its values are
   * never equal to plain strings with the same characters.
   */
  datatype Value = Int64(i: int64) | String(s: string) | NamedString(typeName: string, s: string)

  function TypeOf(v: Value): Type
  {
    match v
    case Int64(_) => Int64Type
    case String(_) => StringType
    case NamedString(n, _) => NamedStringType(n)
  }

  /** The zero value of a type. */
  function Zero(t: Type): (z: Value)
    ensures TypeOf(z) == t
  {
    match t
    case Int64Type => Int64(0)
    case StringType => String("")
    case NamedStringType(n) => NamedString(n, "")
  }

  /** `context.Background()` and `context.WithValue(parent, key, val)`. */
  datatype Context = Background | WithValue(parent: Context, key: Value, val: Value)

  /** `ctx.Value(key)`: the innermost binding of `key`, or nothing. */
  function Lookup(ctx: Context, key: Value): Option<Value>
  {
    match ctx
    case Background => None
    case WithValue(parent, k, v) => if k == key then Some(v) else Lookup(parent, key)
  }
}
