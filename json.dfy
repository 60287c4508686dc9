/** JSON values as the core receives them from `json.loads` and from dataset items, and the two
    Python operations the core applies to them with a string key: `key in v` and `v[key]`. */
module Json {
  import opened Base
  import opened Text

  /** A decoded JSON document. Numbers are integers only. */
  datatype Json =
    | JNull
    | JBool(b: bool)
    | JNum(n: int)
    | JStr(s: string)
    | JArr(items: seq<Json>)
    | JObj(fields: map<string, Json>)

  /** The Python type name that appears in `TypeError` messages. */
  function TypeName(v: Json): string
  {
    match v
    case JNull => "NoneType"
    case JBool(_) => "bool"
    case JNum(_) => "int"
    case JStr(_) => "str"
    case JArr(_) => "list"
    case JObj(_) => "dict"
  }

  /** Python's `key in v` for a string `key`: key membership on a dict, element membership on a
      list, substring search on a string, and a `TypeError` on every other value. */
  function PyIn(key: string, v: Json): (r: Result<bool>)
    ensures v.JObj? ==> r == Ok(key in v.fields)
    ensures r.Raised? <==> (v.JNull? || v.JBool? || v.JNum?)
  {
    match v
    case JObj(m) => Ok(key in m)
    case JArr(xs) => Ok(JStr(key) in xs)
    case JStr(s) => Ok(Contains(s, key))
    case _ => Raised("argument of type '" + TypeName(v) + "' is not iterable")
  }

  /** Python's `v[key]` for a string `key` (KeyError renders as the quoted key). */
  function PySubscript(v: Json, key: string): (r: Result<Json>)
    ensures r.Ok? <==> v.JObj? && key in v.fields
    ensures r.Ok? ==> r.value == v.fields[key]
  {
    match v
    case JObj(m) => if key in m then Ok(m[key]) else Raised("'" + key + "'")
    case JArr(_) => Raised("list indices must be integers or slices, not str")
    case JStr(_) => Raised("string indices must be integers, not 'str'")
    case _ => Raised("'" + TypeName(v) + "' object is not subscriptable")
  }

  /** `d.get(key, default)` on a dict. */
  function Get(m: map<string, Json>, key: string, default: Json): (r: Json)
    ensures key in m ==> r == m[key]
    ensures key !in m ==> r == default
  {
    if key in m then m[key] else default
  }
}
