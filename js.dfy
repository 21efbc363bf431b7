/**
  The small part of JavaScript's value semantics that the two components rely on:
  truthiness (what `&&` and `if (x)` test), nullishness (what `?.` and `??`
  short-circuit on) and reading a property by key.
 */
module Js {

  /** A JavaScript value of `any` type. Numbers are kept as integers (see README). */
  datatype Value =
    | Undefined
    | Null
    | Bool(b: bool)
    | Num(n: int)
    | Str(s: string)
    | Arr(elems: seq<Value>)
    | Obj(fields: map<string, Value>)

  /** `v == null` with loose equality: only `undefined` and `null`. */
  predicate Nullish(v: Value) {
    v.Undefined? || v.Null?
  }

  /** ToBoolean: `undefined`, `null`, `false`, `0` and `""` are falsy, everything else truthy. */
  predicate Truthy(v: Value) {
    match v
    case Undefined | Null => false
    case Bool(b) => b
    case Num(n) => n != 0
    case Str(s) => s != ""
    case Arr(_) | Obj(_) => true
  }

  /** The property read `v[key]`; reading from `undefined` or `null` throws, so it is excluded. */
  function Get(v: Value, key: string): Value
    requires !Nullish(v)
  {
    if v.Obj? && key in v.fields then v.fields[key] else Undefined
  }

  /** The optional read `v?.[key]`: `undefined` when `v` is nullish. */
  function OptionalGet(v: Value, key: string): Value {
    if Nullish(v) then Undefined else Get(v, key)
  }
}
