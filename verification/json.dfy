/**
 * Decoded JSON values, as the HTTP fetch hands them to the client, together
 * with the two pieces of Python behaviour the client relies on: subscripting
 * (`x[key]`) and truthiness (`x or default`).
 */
module JsonValues {
  import opened Wrappers

  /** A decoded JSON document. Numbers are integers in this model. */
  datatype Json =
    | JNull
    | JBool(b: bool)
    | JNum(n: int)
    | JString(str: string)
    | JArray(items: seq<Json>)
    | JObject(fields: map<string, Json>)

  /** The exceptions the modelled code can raise or propagate. */
  datatype Exception =
    | KeyError(key: string)       // a mapping lacks the subscripted key
    | TypeError                   // a non-mapping is subscripted by a string, or is not iterable
    | AttributeError              // `.get` is called on something that is not a mapping
    | InvalidUrl                  // a fetch is asked for a URL that is not a string
    | FetchError(reason: string)  // transport or decoding failure reported by the fetch

  /** The HTTP-plus-JSON fetch, seen as an oracle from URL to decoded body or failure. */
  type Net = string -> Result<Json, Exception>

  /** Python's `value[key]` for a string key. */
  function Subscript(value: Json, key: string): (r: Result<Json, Exception>)
    ensures r.Ok? <==> value.JObject? && key in value.fields
    ensures r.Ok? ==> r.value == value.fields[key]
    ensures r.Err? ==> r.error == (if value.JObject? then KeyError(key) else TypeError)
  {
    match value
    case JObject(m) => if key in m then Ok(m[key]) else Err(KeyError(key))
    case _ => Err(TypeError)
  }

  /** Python's `value.get(key)` with no default: a missing key gives `None`; only mappings have `.get`. */
  function DictGet(value: Json, key: string): (r: Result<Json, Exception>)
    ensures r.Err? <==> !value.JObject?
    ensures r.Err? ==> r.error == AttributeError
    ensures r.Ok? ==> r.value == (if key in value.fields then value.fields[key] else JNull)
  {
    match value
    case JObject(m) => Ok(if key in m then m[key] else JNull)
    case _ => Err(AttributeError)
  }

  /** Python's truth value of a decoded JSON value (`bool(value)`). */
  predicate Truthy(value: Json) {
    match value
    case JNull => false
    case JBool(b) => b
    case JNum(n) => n != 0
    case JString(s) => s != ""
    case JArray(a) => a != []
    case JObject(m) => m != map[]
  }
}
