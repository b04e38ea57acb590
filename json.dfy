/**
 * Decoded JSON values, as the model-output parser hands them to the
 * consolidation engine (numbers are kept as integers).
 */
module JsonValues {

  datatype Json =
    | JNull
    | JBool(b: bool)
    | JNum(n: int)
    | JStr(s: string)
    | JArr(items: seq<Json>)
    | JObj(fields: map<string, Json>)

  /** Python truthiness of a decoded value: null, false, 0, "", [] and {} are falsy. */
  predicate Truthy(v: Json)
  {
    match v
    case JNull => false
    case JBool(b) => b
    case JNum(n) => n != 0
    case JStr(s) => s != ""
    case JArr(items) => items != []
    case JObj(fields) => fields != map[]
  }

  /** `fields.get(key, default)` on a decoded object. */
  function GetOr(fields: map<string, Json>, key: string, default: Json): Json
  {
    if key in fields then fields[key] else default
  }
}
