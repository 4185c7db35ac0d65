/** JSON values as the view model exchanges them with Foundation's JSONSerialization
    and with the ZSM authenticator SDK. Every options, result and configuration
    document the view model handles is a JSON object (`[String: Any]`).
 */
module Json {

  datatype Option<+T> = None | Some(value: T)

  /** A JSON value. Numbers are integers: every number the view model writes is one. */
  datatype Json =
    | JNull
    | JBool(b: bool)
    | JNumber(n: int)
    | JString(s: string)
    | JArray(items: seq<Json>)
    | JObject(fields: map<string, Json>)

  /** `[String: Any]`, the dictionary type of every document. */
  type JsonObject = map<string, Json>

  /** JSONSerialization, which the model does not look inside: `parse` is
      `jsonObject(with:)` (None when it throws) and `format` is the view model's
      `formatJSON`, pretty-printing included, whatever it returns. */
  datatype Codec = Codec(parse: string -> Option<Json>, format: JsonObject -> string)

  /** `try? JSONSerialization.jsonObject(with: text.data(using: .utf8)) as? [String: Any]`:
      the text parses, and to an object. (`data(using: .utf8)` never fails on a
      Swift string, so it adds no case of its own.) */
  function ParseObject(codec: Codec, text: string): (r: Option<JsonObject>)
    ensures r.Some? <==> codec.parse(text).Some? && codec.parse(text).value.JObject?
    ensures r.Some? ==> codec.parse(text) == Some(JObject(r.value))
  {
    match codec.parse(text)
    case Some(JObject(fields)) => Some(fields)
    case _ => None
  }

  /** `obj[key] as? String`: present and a string, or nothing. */
  function StringField(obj: JsonObject, key: string): (r: Option<string>)
    ensures r.Some? <==> key in obj && obj[key].JString?
    ensures r.Some? ==> obj[key] == JString(r.value)
  {
    if key in obj && obj[key].JString? then Some(obj[key].s) else None
  }
}
