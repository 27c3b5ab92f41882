/**
 * JSON values as both tiers exchange them. The JSON grammar itself is not
 * modelled: parsing and serialising are passed around as functions.
 */
module Json {
  import opened Wrappers

  datatype Json =
    | JNull
    | JBool(b: bool)
    | JNum(n: int)
    | JStr(s: string)
    | JArr(items: seq<Json>)
    | JObj(fields: map<string, Json>)

  /** Python truthiness of a decoded value; a missing key (`dict.get` giving `None`) is falsy. */
  predicate PyTruthy(v: Option<Json>)
  {
    match v
    case None => false
    case Some(JNull) => false
    case Some(JBool(b)) => b
    case Some(JNum(n)) => n != 0
    case Some(JStr(s)) => s != ""
    case Some(JArr(items)) => |items| > 0
    case Some(JObj(fields)) => |fields| > 0
  }

  /** Python `d.get(key)` on a decoded object. */
  function Get(fields: map<string, Json>, key: string): Option<Json>
  {
    if key in fields then Some(fields[key]) else None
  }
}
