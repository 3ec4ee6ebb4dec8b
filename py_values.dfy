/**
 * The handful of Python value semantics the core relies on: JSON-shaped values as
 * `json.loads` produces them, `dict.get`, truthiness, `len()`, the exceptions that
 * the core can raise, and f-string rendering of an optional string.
 */
module PyValues {

  datatype Option<+T> = None | Some(value: T)

  datatype Result<+T, +E> = Success(value: T) | Failure(error: E)

  /** The exceptions the modelled code can raise or receive from a collaborator. */
  datatype PyError =
    | AttributeError     // a method (`.get`, `.split`, `.replace`) called on the wrong type
    | TypeError          // `len()` of a value that has no length
    | IndexError         // indexing an empty list
    | ServiceError       // any failure reported by a remote service

  /**
   * A Python value as `json.loads` builds it: None, bool, a number (int and float
   * are not told apart), str, list or dict. A plain Python string is `JStr`.
   */
  datatype Json =
    | JNull
    | JBool(b: bool)
    | JNum(n: real)
    | JStr(s: string)
    | JArr(items: seq<Json>)
    | JObj(fields: map<string, Json>)

  /** Python truthiness of a value. */
  predicate Truthy(v: Json) {
    match v
    case JNull => false
    case JBool(b) => b
    case JNum(n) => n != 0.0
    case JStr(s) => s != ""
    case JArr(items) => |items| != 0
    case JObj(fields) => |fields| != 0
  }

  /** `d.get(key, default)` on a dict. */
  function GetOr(d: map<string, Json>, key: string, default: Json): Json {
    if key in d then d[key] else default
  }

  /** `d.get(key)`: None when the key is absent. */
  function Get(d: map<string, Json>, key: string): Json {
    GetOr(d, key, JNull)
  }

  /** `len(v)`: None where Python raises TypeError (None, bool, numbers). */
  function PyLen(v: Json): Option<nat> {
    match v
    case JStr(s) => Some(|s|)
    case JArr(items) => Some(|items|)
    case JObj(fields) => Some(|fields|)
    case _ => None
  }

  /** How an f-string renders an `Optional[str]`: the string, or the text "None". */
  function PyStr(o: Option<string>): string {
    match o
    case Some(s) => s
    case None => "None"
  }
}
