/**
  An already-parsed JSON document, as the SwiftyJSON `JSON` value presents it
  to the theme loader. Only the accessors the loader uses are modelled:
  subscripting by a key, `.string` and `.double`.
 */
module JsonTree {
  import opened Wrappers

  datatype Json =
    | JNull
    | JBool(b: bool)
    | JNum(n: real)
    | JStr(s: string)
    | JArr(items: seq<Json>)
    | JObj(fields: map<string, Json>)

  /** `json[key]`: the member stored under `key`, or null when `json` is not an
      object or has no such member. Subscripting never fails. */
  function Member(json: Json, key: string): (r: Json)
    ensures json.JObj? && key in json.fields ==> r == json.fields[key]
    ensures !(json.JObj? && key in json.fields) ==> r == JNull
  {
    match json
    case JObj(fields) => if key in fields then fields[key] else JNull
    case _ => JNull
  }

  /** `json.string`: present exactly when the value is a JSON string. */
  function StringValue(json: Json): (r: Option<string>)
    ensures r.Some? <==> json.JStr?
    ensures r.Some? ==> r.value == json.s
  {
    if json.JStr? then Some(json.s) else None
  }

  /** `json.double`: present exactly when the value is a JSON number. */
  function NumberValue(json: Json): (r: Option<real>)
    ensures r.Some? <==> json.JNum?
    ensures r.Some? ==> r.value == json.n
  {
    if json.JNum? then Some(json.n) else None
  }
}
