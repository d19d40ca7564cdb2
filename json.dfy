/**
 * Decoded JSON values, as Python's `json.loads` and org.json hand them to the
 * code. Integers and floats are both `JNum`; the code never tells them apart.
 */
module Json {
  datatype Json =
    | JNull
    | JBool(b: bool)
    | JNum(n: real)
    | JStr(s: string)
    | JArr(items: seq<Json>)
    | JObj(fields: map<string, Json>)

  /** Python truthiness: `if value:`. */
  predicate Truthy(v: Json) {
    match v
    case JNull => false
    case JBool(b) => b
    case JNum(n) => n != 0.0
    case JStr(s) => s != []
    case JArr(xs) => xs != []
    case JObj(m) => m != map[]
  }

  /** `d.get(key)`: the value, or None when the key is absent. */
  function Get(m: map<string, Json>, key: string): Json {
    if key in m then m[key] else JNull
  }
}
