/**
 * JSON values and the stored strings of the browser's key-value storage.
 *
 * The text syntax of JSON is not modelled: a stored string is described by
 * what `JSON.parse` makes of it. `Serialized(v)` stands for any text that
 * parses to `v` (in particular, what `JSON.stringify(v)` writes), and
 * `Malformed(chars)` for text that makes `JSON.parse` throw, the empty
 * string `Malformed("")` among them.
 */
module Json {
  import opened Wrappers
  import JsString

  datatype JsonValue =
    | JNull
    | JBool(b: bool)
    | JNumber(n: int)
    | JString(s: string)
    | JArray(items: seq<JsonValue>)
    | JObject(fields: map<string, JsonValue>)

  datatype StoredString = Serialized(value: JsonValue) | Malformed(chars: string)

  /** The empty string, the one stored string that is falsy. */
  const EmptyString := Malformed("")

  /** `JSON.parse(text)`, with a thrown SyntaxError as `None`. */
  function Parse(text: StoredString): (r: Option<JsonValue>)
    ensures r.Some? <==> text.Serialized?
    ensures text.Serialized? ==> r.value == text.value
  {
    match text
    case Serialized(v) => Some(v)
    case Malformed(_) => None
  }

  /** `JSON.stringify(v)` */
  function Stringify(v: JsonValue): (text: StoredString)
    ensures Parse(text) == Some(v)
    ensures text != EmptyString
  {
    Serialized(v)
  }

  /** The entries `Object.entries` gives for an array: its elements under the keys "0", "1", ... */
  function ArrayEntries(items: seq<JsonValue>): map<string, JsonValue>
  {
    if items == [] then map[]
    else
      var n := |items| - 1;
      ArrayEntries(items[..n])[JsString.NatToString(n, 10) := items[n]]
  }

  /**
   * The guard `typeof parsed === "object" && parsed !== null` followed by
   * `Object.entries(parsed)`: objects and arrays have entries, every other
   * value is rejected.
   */
  function ObjectEntries(v: JsonValue): (r: Option<map<string, JsonValue>>)
    ensures r.Some? <==> v.JObject? || v.JArray?
    ensures v.JObject? ==> r == Some(v.fields)
  {
    match v
    case JObject(fields) => Some(fields)
    case JArray(items) => Some(ArrayEntries(items))
    case _ => None
  }
}
