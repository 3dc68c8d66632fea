/** Loosely typed JSON-like records, as the Flo web service returns them and as
    the integration's shared cache stores them, with Python's truthiness and
    `dict.get` lookups. */
module Values {

  datatype Option<+T> = None | Some(value: T)

  /** A decoded JSON value. Numbers are integers: readings are taken in
      hundredths of their unit, so no floating point is involved. */
  datatype Value =
    | Null
    | Bool(b: bool)
    | Num(n: int)
    | Str(s: string)
    | Dict(d: map<string, Value>)
    | List(items: seq<Value>)

  /** Python truthiness: `None`, `False`, `0`, `''`, `{}` and `[]` are falsy. */
  predicate Truthy(v: Value) {
    match v
    case Null => false
    case Bool(b) => b
    case Num(n) => n != 0
    case Str(s) => s != ""
    case Dict(d) => d != map[]
    case List(items) => items != []
  }

  /** `m.get(k)` on a Python dict: the entry, or `None` when the key is absent. */
  function Lookup(m: map<string, Value>, k: string): (r: Value)
    ensures k in m ==> r == m[k]
    ensures k !in m ==> r == Null
    ensures r != Null ==> k in m
  {
    if k in m then m[k] else Null
  }

  /** `v.get(k)`, which Python only allows when `v` is a dict. */
  function Get(v: Value, k: string): (r: Value)
    requires v.Dict?
    ensures r != Null ==> k in v.d && r == v.d[k]
  {
    Lookup(v.d, k)
  }

  /** A value that code guarded by `if v:` may call `.get` on. */
  predicate DictIfTruthy(v: Value) {
    Truthy(v) ==> v.Dict?
  }
}
