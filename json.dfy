/**
 * A parsed JSON document as `json.loads` returns it: the oracle's replies are handled as
 * these values. Objects are Python dicts; their key order is not modelled.
 */
module Json {
  import opened Wrappers

  datatype Json =
    | JNull
    | JBool(b: bool)
    | JNum(n: real)
    | JStr(s: string)
    | JArr(items: seq<Json>)
    | JObj(fields: map<string, Json>)

  /** The number Python sees in `min`/`max`: ints, floats and bools (True is 1, False is 0).
   *  Any other value makes `min(1.0, v)` raise TypeError. */
  function AsNumber(v: Json): (r: Option<real>)
    ensures r.Some? <==> (v.JNum? || v.JBool?)
  {
    match v
    case JNum(n) => Some(n)
    case JBool(b) => Some(if b then 1.0 else 0.0)
    case _ => None
  }
}
