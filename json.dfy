/**
 * The JSON values the order handler reads (request body, store replies), with the
 * two JavaScript operations it applies to them: truthiness tests (`!x`) and property
 * reads (`x.key`). Numbers are reals; JSON has no NaN or infinity, so none are modelled.
 */
module Json {
  import opened Wrappers

  datatype Value =
    | Undefined
    | Null
    | Bool(b: bool)
    | Num(n: real)
    | Str(s: string)
    | Arr(elems: seq<Value>)
    | Obj(fields: map<string, Value>)

  /** JavaScript truthiness: `undefined`, `null`, `false`, `0` and `""` are falsy. */
  predicate Truthy(v: Value) {
    match v
    case Undefined => false
    case Null => false
    case Bool(b) => b
    case Num(n) => n != 0.0
    case Str(s) => s != ""
    case Arr(_) => true
    case Obj(_) => true
  }

  /** `v == null` in JavaScript's loose sense: the values whose properties cannot be read. */
  predicate Nullish(v: Value) {
    v.Undefined? || v.Null?
  }

  /**
   * The value found under `key` when reading it does not throw: an object's own
   * entry, and `undefined` for a missing entry or a non-object. The keys the handler
   * reads are none of the built-in properties of strings or arrays.
   */
  function Get(v: Value, key: string): Value {
    if v.Obj? && key in v.fields then v.fields[key] else Undefined
  }

  /** `v.key`: a TypeError (`None`) on null or undefined, otherwise the value under `key`. */
  function Prop(v: Value, key: string): (r: Option<Value>)
    ensures r.None? <==> Nullish(v)
    ensures r.Some? ==> r.value == Get(v, key)
  {
    if Nullish(v) then None else Some(Get(v, key))
  }

  /** `Array.isArray(v) && v.length !== 0`. */
  predicate IsNonEmptyArray(v: Value) {
    v.Arr? && |v.elems| > 0
  }
}
