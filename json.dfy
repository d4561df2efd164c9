/**
 * JSON documents as trees. The settings file and the request/response schemas
 * (Python `Dict[str, Any]`) are values of this type; rendering a tree as text
 * and reading text back into a tree are not part of this model.
 */
module Json {

  datatype Value =
    | JNull
    | JBool(b: bool)
    | JInt(i: int)
    | JString(s: string)
    | JArray(items: seq<Value>)
    | JObject(fields: map<string, Value>)

  /** A JSON object's members, as a dictionary from keys to values. */
  type Object = map<string, Value>

  /** The JSON document `{}`. */
  const EmptyObject: Value := JObject(map[])
}
