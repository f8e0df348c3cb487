/** The JSON values the agent exchanges with the LLM, the host and the
    storage layer, as Python holds them after `json.loads`. JSON numbers are
    integers here (floats are not modelled). Decoding and encoding are
    parameters of the operations that use them. */
module JsonValue {
  import opened Wrappers
  import PyDict

  datatype Json =
    | Null
    | Bool(b: bool)
    | Int(i: int)
    | Str(s: string)
    | Arr(items: seq<Json>)
    | Obj(fields: PyDict.Dict<Json>)

  /** Python truthiness: `None`, `False`, `0`, `""`, `[]` and `{}` are false. */
  predicate Truthy(j: Json) {
    match j
    case Null => false
    case Bool(b) => b
    case Int(i) => i != 0
    case Str(s) => s != []
    case Arr(a) => a != []
    case Obj(f) => f != []
  }

  /** `obj.get(key)` on a decoded object: `None` (Python `None`) when absent. */
  function Field(fields: PyDict.Dict<Json>, key: string): Json {
    PyDict.Get(fields, key).GetOr(Null)
  }

  /** `obj.get(key, default)` */
  function FieldOr(fields: PyDict.Dict<Json>, key: string, default: Json): Json {
    PyDict.Get(fields, key).GetOr(default)
  }

  /** The empty object `{}`. */
  const EmptyObject: Json := Obj([])

  /** `str(value)` / `f"{value}"`: a string is its own text; any other value
      is rendered by `show`, which stands for Python's `str`. */
  function Format(j: Json, show: Json -> string): string {
    if j.Str? then j.s else show(j)
  }

  /** `j.get(key, default)` on a value that should be a dict; a non-dict
      yields the default. */
  function Lookup(j: Json, key: string, default: Json): Json {
    if j.Obj? then FieldOr(j.fields, key, default) else default
  }

  /** `len(j)` for a string, list or dict (0 for the other values). */
  function Len(j: Json): nat {
    match j
    case Str(s) => |s|
    case Arr(a) => |a|
    case Obj(f) => |f|
    case _ => 0
  }
}
