/**
 * JavaScript values as the request handlers and hooks see them: the parsed
 * JSON bodies, the rows returned by the backend and the records the handlers
 * build. Numbers are integers here (no fractions, no NaN, no -0).
 */
module Js {

  import opened Wrappers

  datatype Value =
    | Undefined
    | Null
    | Bool(b: bool)
    | Num(n: int)
    | Str(s: string)
    | Arr(items: seq<Value>)
    | Obj(fields: map<string, Value>)

  /** JavaScript truthiness: only undefined, null, false, 0 and '' are falsy. */
  predicate Truthy(v: Value) {
    match v
    case Undefined => false
    case Null => false
    case Bool(b) => b
    case Num(n) => n != 0
    case Str(s) => s != ""
    case Arr(_) => true
    case Obj(_) => true
  }

  /** `o[key]` on a plain object: a missing property reads as undefined. */
  function Get(o: map<string, Value>, key: string): (v: Value)
    ensures key !in o ==> v == Undefined
    ensures key in o ==> v == o[key]
  {
    if key in o then o[key] else Undefined
  }

  /** `a || b` on values: the left operand when it is truthy, otherwise the right one. */
  function Or(a: Value, b: Value): (v: Value)
    ensures Truthy(a) ==> v == a
    ensures !Truthy(a) ==> v == b
  {
    if Truthy(a) then a else b
  }

  /** An optional string as a JS value: a missing one is undefined. */
  function OptStr(s: Option<string>): (v: Value)
    ensures s.None? <==> v == Undefined
    ensures s.Some? ==> v == Str(s.value)
  {
    match s
    case None => Undefined
    case Some(x) => Str(x)
  }

  /** Whether destructuring `const { ... } = v` succeeds: only null and undefined throw. */
  predicate Destructurable(v: Value) {
    v != Null && v != Undefined
  }

  /** `v.key` on a value that can be destructured; only plain objects have the properties used here. */
  function Prop(v: Value, key: string): (r: Value)
    ensures v.Obj? ==> r == Get(v.fields, key)
    ensures !v.Obj? ==> r == Undefined
  {
    if v.Obj? then Get(v.fields, key) else Undefined
  }

  /** A Postgres change notification: `{ eventType, new, old }`. */
  datatype Change = Change(eventType: string, newRecord: Value, oldRecord: Value)
}
