/** A JSON document as serde_json hands it to a derived `Deserialize`:
    integer and fractional numbers are told apart, and an object is a map
    from key to value. */
module Json {

  datatype Json =
    | JNull
    | JBool(b: bool)
    | JInt(n: int)        // a number serde_json reads as an integer (no fraction, no exponent, not `-0`)
    | JReal(r: real)      // any other number
    | JString(s: string)
    | JArray(items: seq<Json>)
    | JObject(fields: map<string, Json>)
}
