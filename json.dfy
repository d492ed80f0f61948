/**
 JavaScript values as far as the library inspects them: the JSON values plus
 `undefined`, which can stand as a property value of an in-memory object
 (never in JSON text). Numbers are integers here.
 */
module Json {
  import opened Wrappers

  datatype Value =
    | Undefined
    | Null
    | Bool(b: bool)
    | Num(n: int)
    | Str(s: string)
    | Arr(items: seq<Value>)
    | Obj(fields: map<string, Value>)

  /** JavaScript truthiness (`if(v)`, `v || w`). */
  predicate Truthy(v: Value) {
    match v
    case Undefined => false
    case Null => false
    case Bool(b) => b
    case Num(n) => n != 0
    case Str(s) => s != ""
    case Arr(_) => true
    case Obj(_) => true
  }

  /** `v == null` (loose equality: null or undefined). */
  predicate IsNullish(v: Value) {
    v.Undefined? || v.Null?
  }

  /** `typeof v === 'object' && v != null && !Array.isArray(v)`. */
  predicate IsPlainObject(v: Value) {
    v.Obj?
  }

  /** Reading `v[key]` on a value that is not null or undefined: own keys of an
      object, `undefined` for everything else (prototype properties such as a
      string's `length` are not modelled). */
  function Get(v: Value, key: string): Value {
    if v.Obj? && key in v.fields then v.fields[key] else Undefined
  }

  /** `key in v` for an object. */
  predicate HasKey(v: Value, key: string) {
    v.Obj? && key in v.fields
  }

  /** The object `{}`. */
  function EmptyObject(): Value {
    Obj(map[])
  }
}
