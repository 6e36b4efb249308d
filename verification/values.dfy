/** JSON values as they cross the two service boundaries: tool arguments,
    tool results and input schemas. The client never looks inside them. */
module Values {

  datatype Json =
    | JNull
    | JBool(b: bool)
    | JNumber(n: int)
    | JString(s: string)
    | JArray(items: seq<Json>)
    | JObject(members: seq<(string, Json)>)
}
