/** The dynamically typed values that flow through the bot as rows of the database, JSON
    documents and keyword arguments: Python's `None`, `bool`, `int`, `float`, `str`, `list` and `dict`,
    with Python's truthiness and `str(...)`. */
module Values {
  import opened Common

  datatype Value =
    | VNone
    | VBool(b: bool)
    | VInt(i: int)
    | VNum(r: real)
    | VStr(s: string)
    | VList(items: seq<Value>)
    | VDict(d: map<string, Value>)

  /** A database row or a JSON object. */
  type Row = map<string, Value>

  /** Python's `bool(v)`: `None`, `False`, zero, the empty string, list and dict are false. */
  predicate Truthy(v: Value) {
    match v
    case VNone => false
    case VBool(b) => b
    case VInt(i) => i != 0
    case VNum(r) => r != 0.0
    case VStr(s) => s != []
    case VList(items) => items != []
    case VDict(d) => d != map[]
  }

  /** `row.get(key, default)`. */
  function Get(row: Row, key: string, default: Value): (v: Value)
    ensures key in row ==> v == row[key]
    ensures key !in row ==> v == default
  {
    if key in row then row[key] else default
  }

  /** `f"{v}"`. Floats, lists and dicts are rendered by placeholders, not by Python's `repr`. */
  function Show(v: Value): string {
    match v
    case VNone => "None"
    case VBool(b) => if b then "True" else "False"
    case VInt(i) => IntToString(i)
    case VNum(_) => "<float>"
    case VStr(s) => s
    case VList(_) => "<list>"
    case VDict(_) => "<dict>"
  }
}
