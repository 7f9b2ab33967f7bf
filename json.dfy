/** Untyped JSON payloads, as the upstream service returns them. */
module JsonValue {

  /** A JSON value. Numbers are kept integral: nothing in this model looks at them. */
  datatype Json =
    | JNull
    | JBool(b: bool)
    | JNumber(n: int)
    | JString(s: string)
    | JArray(items: seq<Json>)
    | JObject(members: map<string, Json>)
}
