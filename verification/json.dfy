/** An already-parsed JSON value, as `json.loads` and Flask's
    `request.get_json` hand it to the servers, and the Python truthiness
    the handlers apply to it. */
module Json {
  /** A JSON document. Numbers are only compared with zero; objects are
      Python dicts, so a repeated key has already been resolved. */
  datatype Json =
    | Null
    | Bool(b: bool)
    | Number(n: real)
    | String(s: string)
    | Array(items: seq<Json>)
    | Object(members: map<string, Json>)

  /** What a JSON parser makes of a text: a value, or a parse error. */
  datatype Parsed = Malformed | Value(json: Json)

  /** Python truthiness of the object a JSON value decodes to:
      `None`, `False`, `0`, `""`, `[]` and `{}` are false. */
  predicate Truthy(j: Json) {
    match j
    case Null => false
    case Bool(b) => b
    case Number(n) => n != 0.0
    case String(s) => s != ""
    case Array(items) => items != []
    case Object(members) => members != map[]
  }

  /** Python's `dict.get(key)`: the member, or `None` when it is absent. */
  function Get(members: map<string, Json>, key: string): (r: Json)
    ensures key in members ==> r == members[key]
    ensures key !in members ==> r == Null
  {
    if key in members then members[key] else Null
  }
}
