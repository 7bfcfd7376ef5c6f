/**
 * Stored and exchanged data is JSON. The model treats a JSON value as opaque
 * except for its JavaScript truthiness, which the guards of the source test.
 */
module Json {

  /** A JSON value. Numbers are integers here; fractional numbers and NaN are not modelled. */
  datatype Value =
    | Null
    | Bool(b: bool)
    | Num(n: int)
    | Str(s: string)
    | Arr(elems: seq<Value>)
    | Obj(fields: map<string, Value>)

  /** JavaScript truthiness: `null`, `false`, `0` and `""` are falsy; arrays and objects are truthy. */
  predicate Truthy(v: Value) {
    match v
    case Null => false
    case Bool(b) => b
    case Num(n) => n != 0
    case Str(s) => s != ""
    case Arr(_) => true
    case Obj(_) => true
  }

  /** `m[key]` is present and truthy: what `const { key } = m; if (key) ...` tests. */
  predicate TruthyAt(m: map<string, Value>, key: string) {
    key in m && Truthy(m[key])
  }
}
