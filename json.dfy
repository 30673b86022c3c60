/**
 * The JSON values the core receives from `json.loads`. Parsing itself is an oracle
 * (a function parameter of type `string -> Option<Json>`); this module only names the values.
 */
module Json {

  datatype Json =
    | JNull
    | JBool(b: bool)
    | JNum(n: real)
    | JStr(s: string)
    | JArr(items: seq<Json>)
    | JObj(fields: map<string, Json>)

  /** The empty object `{}`, which the reader substitutes for a payload that is not JSON. */
  const EmptyObject: Json := JObj(map[])

  /** Python truthiness of a decoded JSON value (`if value:`). */
  predicate Truthy(j: Json) {
    match j
    case JNull => false
    case JBool(b) => b
    case JNum(n) => n != 0.0
    case JStr(s) => s != []
    case JArr(items) => items != []
    case JObj(fields) => fields != map[]
  }
}
