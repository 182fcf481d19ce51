/** Abstract JSON documents, as json.load produces them and json.dump writes them. */
module Documents {

  /**
   * A JSON value. Numbers are modelled as integers; objects as maps from
   * member name to value (a Python dict has no duplicate keys).
   */
  datatype Json =
    | JNull
    | JBool(b: bool)
    | JNumber(n: int)
    | JString(s: string)
    | JArray(items: seq<Json>)
    | JObject(fields: map<string, Json>)
}
