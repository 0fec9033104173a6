/**
 * The values that Python's `json.loads` can produce. Only the value domain is
 * modelled; the parser itself is an uninterpreted collaborator of the analyzer.
 */
module Json {

  datatype Json =
    | JNull
    | JBool(b: bool)
    | JNumber(n: real)
    | JString(s: string)
    | JArray(items: seq<Json>)
    | JObject(fields: map<string, Json>)
}
