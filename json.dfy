/**
  Decoded JSON values as the payment backend, the Node relay and the payment
  gateway exchange them, and the HTTP replies that carry them.
 */
module Json {
  import opened Wrappers

  datatype Json =
    | JNull
    | JBool(b: bool)
    | JNum(n: real)
    | JStr(s: string)
    | JArr(items: seq<Json>)
    | JObj(fields: map<string, Json>)

  /** JavaScript truthiness of a decoded value: `null`, `false`, `0` and `""`
      are falsy; every array and every object is truthy. */
  predicate JsTruthy(j: Json) {
    match j
    case JNull => false
    case JBool(b) => b
    case JNum(n) => n != 0.0
    case JStr(s) => s != ""
    case JArr(_) => true
    case JObj(_) => true
  }

  /** `value?.key` in JavaScript (and `d.get(key)` on a Python dict): the
      member when `value` is an object that has it. */
  function Member(j: Json, key: string): (r: Option<Json>)
    ensures r.Some? <==> j.JObj? && key in j.fields
    ensures r.Some? ==> r.value == j.fields[key]
  {
    if j.JObj? && key in j.fields then Some(j.fields[key]) else None
  }

  /** A member read as text (`d.get(key)` or `d[key]` where a string is
      expected): Some exactly when `j` is an object whose `key` member is a
      string, and then that string. */
  function TextMember(j: Json, key: string): (r: Option<string>)
    ensures r.Some? <==> exists s :: Member(j, key) == Some(JStr(s))
    ensures r.Some? ==> Member(j, key) == Some(JStr(r.value))
  {
    match Member(j, key)
    case Some(JStr(s)) => Some(s)
    case _ => None
  }

  /** The body of an HTTP reply: JSON when it parses, otherwise the raw text. */
  datatype Body = Parsed(json: Json) | Text(text: string)

  /** What an outbound HTTP call produces: a reply, or no reply at all
      (connection refused, timeout, DNS failure). */
  datatype HttpResponse = Response(status: int, body: Body) | ConnectionError
}
