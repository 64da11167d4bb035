/** JSON values as they travel through request bodies and the `users.cost_configuration` column,
    with JavaScript's truthiness and property access on them. */
module Json {
  import opened Wrappers

  datatype Json =
    | JNull
    | JBool(b: bool)
    | JNumber(n: real)
    | JString(s: string)
    | JArray(items: seq<Json>)
    | JObject(fields: map<string, Json>)

  /** JavaScript's ToBoolean on a parsed JSON value (NaN cannot occur in JSON). */
  predicate Truthy(j: Json) {
    match j
    case JNull => false
    case JBool(b) => b
    case JNumber(n) => n != 0.0
    case JString(s) => s != ""
    case JArray(_) => true
    case JObject(_) => true
  }

  /** `j.key`: only an object has own members; anything else yields `undefined` (None).
      (`null.key` throws; callers that can meet `null` handle it themselves.) */
  function Member(j: Json, key: string): Option<Json> {
    if j.JObject? && key in j.fields then Some(j.fields[key]) else None
  }

  /** `j.key || fallback` where a missing member reads as `undefined`. */
  function MemberOr(j: Json, key: string, fallback: Json): Json {
    match Member(j, key)
    case Some(v) => if Truthy(v) then v else fallback
    case None => fallback
  }

  /** `typeof j.key === "number"`. */
  predicate IsNumberMember(j: Json, key: string) {
    Member(j, key).Some? && Member(j, key).value.JNumber?
  }
}
