/**
 * Decoded JSON values, as `encoding/json` hands them to the client when it
 * unmarshals into `interface{}`: numbers are float64 (here exact decimals),
 * objects are `map[string]interface{}`, arrays are `[]interface{}`.
 * The byte-level encoding and decoding are not part of this model.
 */
module Json {
  import opened Wrappers
  import opened GoStrconv

  datatype JsonValue =
    | JNull
    | JBool(b: bool)
    | JNumber(n: Decimal)
    | JString(s: string)
    | JArray(items: seq<JsonValue>)
    | JObject(fields: map<string, JsonValue>)

  type Object = map<string, JsonValue>

  /** A chat message {role, content}. */
  datatype Message = Message(role: string, content: string)

  function MessageJson(m: Message): (v: JsonValue)
    ensures v.JObject? && v.fields.Keys == {"role", "content"}
  {
    JObject(map["role" := JString(m.role), "content" := JString(m.content)])
  }

  function MessagesJson(ms: seq<Message>): (v: JsonValue)
    ensures v.JArray? && |v.items| == |ms|
    ensures forall i :: 0 <= i < |ms| ==> v.items[i] == MessageJson(ms[i])
  {
    JArray(seq(|ms|, i requires 0 <= i < |ms| => MessageJson(ms[i])))
  }

  /** `m[k].(string)`: the string stored under k, if any. */
  function StringAt(m: Object, k: string): (r: Option<string>)
    ensures r.Some? <==> k in m && m[k].JString?
    ensures r.Some? ==> m[k] == JString(r.value)
  {
    if k in m && m[k].JString? then Some(m[k].s) else None
  }

  /** `m[k].(map[string]interface{})`: the object stored under k, if any. */
  function ObjectAt(m: Object, k: string): (r: Option<Object>)
    ensures r.Some? <==> k in m && m[k].JObject?
    ensures r.Some? ==> m[k] == JObject(r.value)
  {
    if k in m && m[k].JObject? then Some(m[k].fields) else None
  }

  /**
   * json.Unmarshal of a whole body into `map[string]interface{}`: None is a
   * syntax error (body None) or a type error (not an object and not null);
   * a JSON null leaves the map nil, which reads as empty.
   */
  function DecodeObject(body: Option<JsonValue>): (r: Option<Object>)
    ensures r.Some? <==> body.Some? && (body.value.JObject? || body.value.JNull?)
    ensures body.Some? && body.value.JObject? ==> r == Some(body.value.fields)
    ensures body == Some(JNull) ==> r == Some(map[])
  {
    match body
    case None => None
    case Some(JObject(m)) => Some(m)
    case Some(JNull) => Some(map[])
    case Some(_) => None
  }
}
