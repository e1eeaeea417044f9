/** JSON-like values, standing for the Python dictionaries, lists and
    scalars that the agents exchange, with Python's truthiness. */
module Json {
  import opened Text

  /** A decoded JSON document. Floats are not modelled; objects are maps
      from key to value. */
  datatype Value =
    | Null
    | Bool(b: bool)
    | Num(n: int)
    | Str(s: string)
    | Arr(items: seq<Value>)
    | Obj(fields: map<string, Value>)

  /** Python's truth value: `None`, `False`, `0`, `""`, `[]` and `{}` are false. */
  predicate Truthy(v: Value) {
    match v
    case Null => false
    case Bool(b) => b
    case Num(n) => n != 0
    case Str(s) => |s| > 0
    case Arr(a) => |a| > 0
    case Obj(m) => |m| > 0
  }

  /** `m.get(k, default)`. */
  function Get(m: map<string, Value>, k: string, default: Value): Value {
    if k in m then m[k] else default
  }

  /** The member `k` of an object, `None` when there is none. */
  function At(v: Value, k: string): Value {
    if v.Obj? && k in v.fields then v.fields[k] else Null
  }

  /** Python's `a or b`. */
  function Or(a: Value, b: Value): Value {
    if Truthy(a) then a else b
  }

  /** The empty dictionary `{}`. */
  const Empty: Value := Obj(map[])

  /** `{"status": "error", key: text}`, the error shape every component returns. */
  function StatusError(key: string, text: string): Value {
    Obj(map["status" := Str("error"), key := Str(text)])
  }

  /** A two-key `{"status": "error", ...}` object. */
  predicate IsStatusError(v: Value) {
    v.Obj? && |v.fields| == 2 && "status" in v.fields && v.fields["status"] == Str("error")
  }

  /** The Python type name of a value, as it appears in an `AttributeError`. */
  function TypeName(v: Value): string {
    match v
    case Null => "NoneType"
    case Bool(_) => "bool"
    case Num(_) => "int"
    case Str(_) => "str"
    case Arr(_) => "list"
    case Obj(_) => "dict"
  }

  /** The text of the `AttributeError` raised by calling `.get` on a non-dictionary. */
  function NoGetError(v: Value): string {
    "'" + TypeName(v) + "' object has no attribute 'get'"
  }

  /** `str(v)` inside an f-string; containers are rendered only by their brackets. */
  function Display(v: Value): string {
    match v
    case Null => "None"
    case Bool(b) => if b then "True" else "False"
    case Num(n) => IntToString(n)
    case Str(s) => s
    case Arr(_) => "[...]"
    case Obj(_) => "{...}"
  }
}
