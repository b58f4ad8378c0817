/**
 * Decoded JSON values as the Python code sees them after `response.json()`,
 * together with the two pieces of Python semantics the call-handling code
 * relies on: truthiness (`if token:`, `if calls:`) and `len()`.
 */
module JsonValues {

  /** A decoded JSON document: `None`, `bool`, `int`, `str`, `list` or `dict`. */
  datatype Json =
    | JNull
    | JBool(b: bool)
    | JInt(n: int)
    | JStr(s: string)
    | JList(items: seq<Json>)
    | JObj(fields: map<string, Json>)

  /** Python truthiness: `None`, `False`, `0` and empty containers are false. */
  predicate Truthy(j: Json) {
    match j
    case JNull => false
    case JBool(b) => b
    case JInt(n) => n != 0
    case JStr(s) => s != ""
    case JList(items) => items != []
    case JObj(fields) => |fields| != 0
  }

  /** True when `len()` is defined on the value; on `None`, `bool` and `int` it raises `TypeError`. */
  predicate HasLen(j: Json) {
    j.JStr? || j.JList? || j.JObj?
  }

  /** Python's `len()` on a sized value. */
  function Len(j: Json): (n: nat)
    requires HasLen(j)
    ensures n == 0 <==> !Truthy(j)
  {
    match j
    case JStr(s) => |s|
    case JList(items) => |items|
    case JObj(fields) => |fields|
  }

  /** Why an HTTP exchange did not produce a decoded body. */
  datatype Failure =
    | Transport          // connection error, timeout: `requests.exceptions.RequestException`
    | HttpStatus(code: int) // `raise_for_status()` on a 4xx or 5xx answer
    | Undecodable        // `response.json()` raised

  /**
   * The outcome of one HTTP request followed by `raise_for_status()` and
   * `response.json()`: the network is an oracle, so a response is an input.
   */
  datatype Response = Decoded(body: Json) | Failed(reason: Failure)
}
