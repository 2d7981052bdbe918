/** Decoded JSON values as the dashboard's Python code sees them, and the few
    dict/list/str operations it applies to them, each with the exception
    CPython raises when the value has the wrong shape. */
module JsonValues {
  import opened Outcomes

  /** A decoded JSON document. Numbers are integers only. */
  datatype Json =
    | JNull
    | JBool(b: bool)
    | JInt(i: int)
    | JStr(s: string)
    | JArr(items: seq<Json>)
    | JObj(fields: map<string, Json>)

  /** A JSON object: a request body, a stored profile. */
  type Object = map<string, Json>

  /** The Python type name of a decoded value, as error messages show it. */
  function TypeName(j: Json): string {
    match j
    case JNull => "NoneType"
    case JBool(_) => "bool"
    case JInt(_) => "int"
    case JStr(_) => "str"
    case JArr(_) => "list"
    case JObj(_) => "dict"
  }

  /** `str(KeyError(key))` for the literal keys the dashboard uses. */
  function KeyErrorText(key: string): string {
    "'" + key + "'"
  }

  /** `j.get(key, default)`: only a dict has `get`. */
  function Get(j: Json, key: string, default: Json): Outcome<Json> {
    match j
    case JObj(f) => Ok(if key in f then f[key] else default)
    case _ => Err("'" + TypeName(j) + "' object has no attribute 'get'")
  }

  /** `j[key]` with a str key. */
  function Index(j: Json, key: string): Outcome<Json> {
    match j
    case JObj(f) => if key in f then Ok(f[key]) else Err(KeyErrorText(key))
    case JArr(_) => Err("list indices must be integers or slices, not str")
    case JStr(_) => Err("string indices must be integers, not 'str'")
    case _ => Err("'" + TypeName(j) + "' object is not subscriptable")
  }

  /** `j[0]`. */
  function First(j: Json): Outcome<Json> {
    match j
    case JArr(xs) => if |xs| > 0 then Ok(xs[0]) else Err("list index out of range")
    case JStr(s) => if |s| > 0 then Ok(JStr(s[..1])) else Err("string index out of range")
    case JObj(_) => Err("0")
    case _ => Err("'" + TypeName(j) + "' object is not subscriptable")
  }

  /** `key in j` with a str key: a dict tests its keys, a list its elements,
      a str its substrings. */
  function Contains(j: Json, key: string): Outcome<bool> {
    match j
    case JObj(f) => Ok(key in f)
    case JArr(xs) => Ok(JStr(key) in xs)
    case JStr(s) => Ok(IsSubstring(key, s))
    case _ => Err("argument of type '" + TypeName(j) + "' is not iterable")
  }

  predicate IsSubstring(needle: string, hay: string)
    decreases |hay|
  {
    needle <= hay || (|hay| > 0 && IsSubstring(needle, hay[1..]))
  }

  /** `all(key in body for key in keys)`: the keys are present, whatever
      their values. */
  predicate HasKeys(body: Object, keys: seq<string>) {
    forall i :: 0 <= i < |keys| ==> keys[i] in body
  }

  /** A one-entry object such as `{"error": "..."}`. */
  function Single(key: string, text: string): Json {
    JObj(map[key := JStr(text)])
  }
}
