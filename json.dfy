/**
 * The already-parsed JSON request body, and the two pieces of Python
 * semantics the handler relies on: looking up a field with a default, and
 * the truthiness test that decides whether a request streams.
 */
module Json {
  import opened Wrappers

  /** A JSON value as Python's json module hands it over. Numbers are kept as reals. */
  datatype Value =
    | JNull
    | JBool(b: bool)
    | JNum(r: real)
    | JStr(s: string)
    | JArr(items: seq<Value>)
    | JObj(fields: map<string, Value>)

  /** The entry stored under `key`, if any. */
  function Field(d: map<string, Value>, key: string): Option<Value>
  {
    if key in d then Some(d[key]) else None
  }

  /** A field lookup with a default: a present key wins even when its value is null. */
  function Get(d: map<string, Value>, key: string, default: Value): Value
  {
    if key in d then d[key] else default
  }

  /** Python truthiness of a JSON value: null, false, zero and empty containers are false. */
  predicate Truthy(v: Value)
  {
    match v
    case JNull => false
    case JBool(b) => b
    case JNum(r) => r != 0.0
    case JStr(s) => s != ""
    case JArr(items) => items != []
    case JObj(fields) => fields != map[]
  }

  /**
   * Python's string conversion for the values whose text is fixed: strings, None and
   * the two booleans. Numbers and containers are not rendered.
   */
  function PyStr(v: Value): Option<string>
  {
    match v
    case JStr(s) => Some(s)
    case JNull => Some("None")
    case JBool(b) => Some(if b then "True" else "False")
    case _ => None
  }
}
