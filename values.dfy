/**
  Python values as they cross the services' JSON boundaries, Python's truth
  test, `dict.get`, and `str()` as f-strings apply it.
*/
module Values {
  import opened Strings

  /** A JSON-compatible Python value. Dict key order is not represented. */
  datatype Value =
    | Null
    | Bool(b: bool)
    | Int(i: int)
    | Float(r: real)
    | Str(s: string)
    | List(items: seq<Value>)
    | Object(fields: map<string, Value>)

  /** A JSON object: a request or response body. */
  type Body = map<string, Value>

  /** What an endpoint answers: a status code and a JSON body. */
  datatype HttpResponse = HttpResponse(status: int, body: Body)

  /** `bool(v)` */
  predicate Truthy(v: Value) {
    match v
    case Null => false
    case Bool(b) => b
    case Int(i) => i != 0
    case Float(r) => r != 0.0
    case Str(s) => s != ""
    case List(items) => items != []
    case Object(fields) => fields != map[]
  }

  /** `d.get(key, default)` */
  function Get(d: Body, key: string, default: Value): Value {
    if key in d then d[key] else default
  }

  /**
    `str(v)`, which is what an f-string inserts. `None`, booleans, integers
    and strings are rendered as Python does; floats, lists and dicts are
    rendered by `repr`, which stands for Python's own formatting.
  */
  function Format(repr: Value -> string, v: Value): string {
    match v
    case Null => "None"
    case Bool(b) => if b then "True" else "False"
    case Int(i) => IntToDecimal(i)
    case Str(s) => s
    case _ => repr(v)
  }
}
