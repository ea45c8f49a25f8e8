/** JSON values, standing for the `any`-typed request bodies and fetch
    payloads the routes and the upgrade page inspect. Numbers are integers:
    the only numeric field read is a price in cents. */
module Json {
  import opened Common

  datatype Json =
    | JNull
    | JBool(b: bool)
    | JNum(n: int)
    | JStr(s: string)
    | JArr(items: seq<Json>)
    | JObj(fields: map<string, Json>)

  /** `x?.key`: the member of an object, undefined for anything else. */
  function Member(x: Json, key: string): (r: Option<Json>)
    ensures r.Some? <==> x.JObj? && key in x.fields
  {
    if x.JObj? && key in x.fields then Some(x.fields[key]) else None
  }

  /** A member read where only a string is meaningful; any other JSON value
      compares unequal to every string literal, so it reads as absent. */
  function StringMember(x: Json, key: string): (r: Option<string>)
    ensures r.Some? <==> Member(x, key).Some? && Member(x, key).value.JStr?
  {
    match Member(x, key)
    case Some(JStr(s)) => Some(s)
    case _ => None
  }

  /** A response of a JSON route: its status and its body. */
  datatype JsonResponse = JsonResponse(status: int, body: Json)

  /** `{ error, details }`; a details value that is undefined is dropped when
      the body is serialised. */
  function ErrorObject(error: string, details: Option<string>): (j: Json)
    ensures j.JObj? && StringMember(j, "error") == Some(error)
    ensures StringMember(j, "details") == details
    ensures j.fields.Keys <= {"error", "details"}
  {
    if details.Some? then JObj(map["error" := JStr(error), "details" := JStr(details.value)])
    else JObj(map["error" := JStr(error)])
  }
}
