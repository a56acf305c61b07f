/**
 * JSON values as the validator and the pipeline see them. Numbers are
 * integers only: the pipeline turns a numeric receiver id into a key
 * segment, and only the integer case is modelled.
 */
module Json {

  datatype Json =
    | JNull
    | JBool(b: bool)
    | JNumber(n: int)
    | JString(s: string)
    | JArray(items: seq<Json>)
    | JObject(fields: map<string, Json>)
}
