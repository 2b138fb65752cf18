/** JSON values and the dictionary look-ups the Python scripts perform on them. */
module Json {
  datatype Json =
    | Null
    | Bool(value: bool)
    | Number(number: real)
    | Str(text: string)
    | Arr(items: seq<Json>)
    | Obj(fields: map<string, Json>)

  type Dict = map<string, Json>

  /** `d.get(key, default)`. */
  function GetOr(d: Dict, key: string, default: Json): Json { if key in d then d[key] else default }

  /** `d.get(key)`. */
  function Get(d: Dict, key: string): Json { GetOr(d, key, Null) }

  /** `d.setdefault(key, default)`. */
  function SetDefault(d: Dict, key: string, default: Json): Dict { if key in d then d else d[key := default] }

  /** Python's truth value. */
  predicate Truthy(j: Json) {
    match j
    case Null => false
    case Bool(b) => b
    case Number(n) => n != 0.0
    case Str(s) => s != ""
    case Arr(items) => items != []
    case Obj(fields) => fields != map[]
  }

  /** Python's `or`. */
  function Or(a: Json, b: Json): Json { if Truthy(a) then a else b }

  /** `{field: d.get(field) for field in fields}`. */
  function Project(d: Dict, fields: seq<string>): Dict {
    map field | field in fields :: Get(d, field)
  }
}
