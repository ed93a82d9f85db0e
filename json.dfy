/** The values that Go's `interface{}` fields of the configuration can hold. */
module Json {

  /**
   * A dynamic value as the JSON encoder sees it. `Unencodable` stands for a Go
   * value that has no JSON representation (a function, a channel, a cyclic
   * structure). The encoder itself is opaque in this model, so no contract
   * ties its errors to this case.
   */
  datatype JsonValue =
    | JNull
    | JBool(b: bool)
    | JNumber(n: int)
    | JString(s: string)
    | JArray(items: seq<JsonValue>)
    | JObject(members: map<string, JsonValue>)
    | Unencodable(kind: string)

  /** A `map[string]interface{}` that is not nil. */
  type Document = map<string, JsonValue>
}
