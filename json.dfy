/** The values `json.loads` (and aiohttp's `response.json()`) produce in Python:
    None, bool, int, float, str, list and dict with string keys. */
module JsonValue {

  datatype Json =
    | JNull
    | JBool(b: bool)
    | JInt(i: int)
    | JFloat(x: real)
    | JString(s: string)
    | JArray(items: seq<Json>)
    | JObject(fields: map<string, Json>)
}
