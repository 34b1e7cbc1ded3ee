/** JSON values as Python's `json` module decodes them; an object is a dict in key order. */
module Json {
  import opened Wrappers
  import opened Dicts
  import opened Strings

  datatype JsonValue =
    | JNull
    | JBool(b: bool)
    | JNum(n: int)
    | JStr(s: string)
    | JArr(items: seq<JsonValue>)
    | JObj(fields: Dict<JsonValue>)

  /** Python truthiness of a decoded value: null, false, 0, "" and empty containers are false. */
  predicate JTruthy(v: JsonValue)
  {
    match v
    case JNull => false
    case JBool(b) => b
    case JNum(n) => n != 0
    case JStr(s) => s != ""
    case JArr(items) => items != []
    case JObj(fields) => fields != []
  }

  /** The text of a decoded string value, `None` for an absent or any other value. */
  function AsString(v: Option<JsonValue>): (r: Option<string>)
    ensures r.Some? <==> v.Some? && v.value.JStr?
    ensures r.Some? ==> v == Some(JStr(r.value))
  {
    if v.Some? && v.value.JStr? then Some(v.value.s) else None
  }

  /** `type(v).__name__` of a decoded value. */
  function PyTypeName(v: JsonValue): (r: string)
    ensures r != ""
  {
    match v
    case JNull => "NoneType"
    case JBool(_) => "bool"
    case JNum(_) => "int"
    case JStr(_) => "str"
    case JArr(_) => "list"
    case JObj(_) => "dict"
  }

  /** `repr(v)` of a decoded value; a string is quoted with single quotes. */
  function PyRepr(v: JsonValue): (r: string)
    ensures r != ""
  {
    match v
    case JNull => "None"
    case JBool(b) => if b then "True" else "False"
    case JNum(n) => IntToString(n)
    case JStr(s) => "'" + s + "'"
    case JArr(items) => "[" + Join(seq(|items|, i requires 0 <= i < |items| => PyRepr(items[i])), ", ") + "]"
    case JObj(fields) =>
      "{" + Join(seq(|fields|, i requires 0 <= i < |fields| => "'" + fields[i].0 + "': " + PyRepr(fields[i].1)), ", ") + "}"
  }

  /** `str(v)`, as an f-string formats it: a string is its own text, anything else its `repr`. */
  function PyStr(v: JsonValue): (r: string)
    ensures v.JStr? ==> r == v.s
    ensures !v.JStr? ==> r == PyRepr(v)
  {
    if v.JStr? then v.s else PyRepr(v)
  }
}
