/** What the local web server hands back to its caller, and the JSON values it reads from the
    music service's responses. */
module Http {
  import opened PyBuiltins

  /** A JSON value as `response.json()` turns it into Python objects. */
  datatype Json =
    | JNull
    | JBool(b: bool)
    | JNum(n: int)
    | JStr(s: string)
    | JArr(elems: seq<Json>)
    | JObj(fields: map<string, Json>)

  /** The response a route handler produces:
      `jsonify(value)` (status 200), a bare string (status 200), a `(message, status)` pair, or the
      500 page Flask serves when the handler raises. */
  datatype Reply =
    | JsonBody(value: Json)
    | Text(message: string)
    | WithStatus(message: string, status: int)
    | InternalError

  /** `body.get(key, [])` on the decoded response: `None` stands for the `AttributeError` raised
      when the body is not a JSON object. */
  function GetOrEmptyList(body: Json, key: string): (r: Option<Json>)
    ensures body.JObj? <==> r.Some?
    ensures body.JObj? && key !in body.fields ==> r == Some(JArr([]))
    ensures body.JObj? && key in body.fields ==> r == Some(body.fields[key])
  {
    match body
    case JObj(fields) => Some(if key in fields then fields[key] else JArr([]))
    case _ => None
  }

  /** The elements a `for` loop visits in a JSON value: those of an array, the one-character
      strings of a string, nothing for an empty object. A non-empty object would yield its keys
      as strings; no handler here can use those, so that case joins the values that cannot be
      iterated at all (`None`, `TypeError`). */
  function Elements(v: Json): (r: Option<seq<Json>>)
    ensures v.JArr? ==> r == Some(v.elems)
    ensures v.JStr? ==> r.Some? && |r.value| == |v.s|
    ensures v.JNull? || v.JBool? || v.JNum? ==> r == None
  {
    match v
    case JArr(xs) => Some(xs)
    case JStr(s) => Some(seq(|s|, i requires 0 <= i < |s| => JStr([s[i]])))
    case JObj(m) => if m == map[] then Some([]) else None
    case _ => None
  }

  /** The check every playback action makes: success exactly on 204 No Content, otherwise the
      failure message with the service's own status passed through. */
  function NoContentReply(status: int, success: string, failure: string): (r: Reply)
    ensures r == Text(success) <==> status == 204
    ensures r != Text(success) ==> r == WithStatus(failure, status)
  {
    if status == 204 then Text(success) else WithStatus(failure, status)
  }
}
