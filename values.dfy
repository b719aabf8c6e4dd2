/** JSON-like values: what the Python code keeps in dictionaries (response
    records, YAML configurations, OAuth user info) and in ORM row attributes. */
module Values {
  import opened Dates

  datatype Value =
    | VNone
    | VBool(b: bool)
    | VInt(i: int)
    | VStr(s: string)
    | VDate(date: Date)
    | VList(items: seq<Value>)
    | VDict(entries: map<string, Value>)

  /** Python's truth test (`if v:` / `v or w`) on these values. */
  predicate Truthy(v: Value) {
    match v
    case VNone => false
    case VBool(b) => b
    case VInt(i) => i != 0
    case VStr(s) => s != ""
    case VDate(_) => true
    case VList(items) => |items| > 0
    case VDict(entries) => |entries| > 0
  }

  /** `d.get(key, default)`. */
  function DictGet(d: map<string, Value>, key: string, default: Value): (r: Value)
    ensures key in d ==> r == d[key]
    ensures key !in d ==> r == default
  {
    if key in d then d[key] else default
  }

  /** `a or b`: the first operand when it is truthy, else the second. */
  function Or(a: Value, b: Value): (r: Value)
    ensures Truthy(a) ==> r == a
    ensures !Truthy(a) ==> r == b
  {
    if Truthy(a) then a else b
  }
}
