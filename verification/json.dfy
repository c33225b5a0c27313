/** Values produced by `json.loads`, and Python's `str()` of them. */
module JsonValue {
  import opened Text

  /** A parsed JSON value. Numbers are integers; JSON floats are not part of this model. */
  datatype Json =
    | JNull
    | JBool(b: bool)
    | JNum(n: int)
    | JStr(s: string)
    | JArr(items: seq<Json>)
    | JObj(fields: map<string, Json>)

  /** Python truthiness, as `x or default` tests it. */
  predicate Truthy(v: Json) {
    match v
    case JNull => false
    case JBool(b) => b
    case JNum(n) => n != 0
    case JStr(s) => s != ""
    case JArr(items) => items != []
    case JObj(fields) => fields != map[]
  }

  /** Python's `str(v)` (and `f"{v}"`). Strings, integers, booleans and None are
      written as Python writes them; the repr of a list or dict (quoting, key order)
      is supplied by `repr`. */
  function PyStr(v: Json, repr: Json -> string): string {
    match v
    case JNull => "None"
    case JBool(b) => if b then "True" else "False"
    case JNum(n) => IntToDecimal(n)
    case JStr(s) => s
    case _ => repr(v)
  }
}
