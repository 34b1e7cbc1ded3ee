/**
 * The request handler shared by the ModelStudio memory tools
 * (tools/modelstudio_memory/base.py): the headers every request carries, and
 * how the reply, or the failure to get one, becomes the decoded body or one
 * of the memory exceptions. The HTTP session is a parameter: a function from
 * the request sent to what came back.
 */
module MemoryBase {
  import opened Wrappers
  import opened Strings
  import opened Dicts
  import opened Json
  import opened MemoryErrors
  import opened MemorySchemas

  lemma HeaderKeysDistinct()
    ensures "Content-Type" != "User-Agent" && "Content-Type" != "Authorization" && "User-Agent" != "Authorization"
  {
    assert "Content-Type"[0] != "User-Agent"[0] && "Content-Type"[0] != "Authorization"[0];
    assert "User-Agent"[0] != "Authorization"[0];
  }

  /** `_get_headers`. */
  function Headers(apiKey: string): (h: Dict<string>)
    ensures Keys(h) == ["Content-Type", "User-Agent", "Authorization"]
    ensures Get(h, "Content-Type") == Some("application/json")
    ensures Get(h, "User-Agent") == Some("agentscope-runtime")
    ensures Get(h, "Authorization") == Some("Bearer " + apiKey)
  {
    var h := [("Content-Type", "application/json"), ("User-Agent", "agentscope-runtime"), ("Authorization", "Bearer " + apiKey)];
    HeaderKeysDistinct();
    assert UniqueKeys(h);
    GetUnique(h, h[0].0, h[0].1);
    GetUnique(h, h[1].0, h[1].1);
    GetUnique(h, h[2].0, h[2].1);
    h
  }

  /** What `session.request` is called with. */
  datatype SentRequest = SentRequest(
    verb: string,
    url: string,
    headers: Dict<string>,
    json: Option<Dict<Value>>,
    params: Option<Dict<Value>>)

  /** What `response.json()` gives: a value, a content type that is not JSON (a client error), or text that does not parse. */
  datatype BodyDecode = Decoded(value: JsonValue) | WrongContentType(detail: string) | Malformed(detail: string)

  /** What came back: a reply, an `aiohttp.ClientError`, or any other exception, each with its text. */
  datatype Exchange =
    | Replied(status: int, body: BodyDecode, text: string)
    | ClientFailure(detail: string)
    | OtherFailure(detail: string)

  /** The outcome of a memory operation: a value, a memory exception, or another Python exception. */
  datatype Outcome<T> = Done(value: T) | ApiFailure(error: MemoryError) | PyFailure(kind: string, message: string)

  /** The class an error status is raised as. */
  function StatusClass(status: int): (c: ErrorClass)
    ensures status == 401 || status == 403 <==> c == MemoryAuthenticationError
    ensures c == MemoryNotFoundError <==> status == 404
    ensures c == MemoryValidationError <==> 400 <= status < 500 && status !in {401, 403, 404}
    ensures c == MemoryAPIError <==> !(400 <= status < 500)
    ensures c != MemoryNetworkError
  {
    if status == 401 || status == 403 then MemoryAuthenticationError
    else if status == 404 then MemoryNotFoundError
    else if status == 400 then MemoryValidationError
    else if 400 <= status < 500 then MemoryValidationError
    else MemoryAPIError
  }

  function NetworkError(verb: string, url: string, detail: string): MemoryError
  {
    NewError(MemoryNetworkError, "Network error during " + verb + " request to " + url + ": " + detail)
  }

  function UnexpectedError(verb: string, url: string, detail: string): MemoryError
  {
    NewError(MemoryAPIError, "Unexpected error during " + verb + " request to " + url + ": " + detail)
  }

  /** The error data of a reply that is not 200: the decoded body, or the text as its message. */
  function ErrorData(body: BodyDecode, text: string): JsonValue
  {
    if body.Decoded? then body.value else JObj([("message", JStr(text))])
  }

  /** The exception the error data of a reply is raised as. */
  function ErrorFromData(verb: string, url: string, status: int, data: JsonValue): (e: MemoryError)
    ensures !data.JObj? ==> e == UnexpectedError(verb, url, "'" + PyTypeName(data) + "' object has no attribute 'get'")
    ensures data.JObj? ==> e.cls == StatusClass(status) && e.statusCode == Some(status)
    ensures data.JObj? ==> e.errorCode == Get(data.fields, "code").GetOr(JStr("Unknown"))
    ensures data.JObj? ==> e.message == PyStr(Get(data.fields, "message").GetOr(JStr("Unknown error")))
    ensures data.JObj? ==> e.requestId == Get(data.fields, "request_id").GetOr(JStr(""))
    ensures data == JObj([]) ==>
              e.errorCode == JStr("Unknown") && e.message == "Unknown error" && e.requestId == JStr("")
  {
    if !data.JObj? then UnexpectedError(verb, url, "'" + PyTypeName(data) + "' object has no attribute 'get'")
    else
      var d := data.fields;
      NewError(StatusClass(status), PyStr(Get(d, "message").GetOr(JStr("Unknown error"))), Some(status),
               Get(d, "code").GetOr(JStr("Unknown")), Get(d, "request_id").GetOr(JStr("")))
  }

  /** What `_request` makes of an exchange. */
  function Handle(verb: string, url: string, ex: Exchange): (r: Outcome<JsonValue>)
    ensures r.Done? <==> ex.Replied? && ex.status == 200 && ex.body.Decoded?
    ensures r.Done? ==> r.value == ex.body.value
    ensures !r.Done? ==> r.ApiFailure?
    ensures ex.Replied? && ex.status != 200 ==> r.error == ErrorFromData(verb, url, ex.status, ErrorData(ex.body, ex.text))
    ensures ex.ClientFailure? || (ex.Replied? && ex.status == 200 && ex.body.WrongContentType?) ==>
              r.error.cls == MemoryNetworkError && r.error.statusCode.None?
    ensures ex.OtherFailure? || (ex.Replied? && ex.status == 200 && ex.body.Malformed?) ==>
              r.error.cls == MemoryAPIError && r.error.statusCode.None?
  {
    match ex
    case ClientFailure(detail) => ApiFailure(NetworkError(verb, url, detail))
    case OtherFailure(detail) => ApiFailure(UnexpectedError(verb, url, detail))
    case Replied(status, body, text) =>
      if status == 200 then
        match body
        case Decoded(v) => Done(v)
        case WrongContentType(detail) => ApiFailure(NetworkError(verb, url, detail))
        case Malformed(detail) => ApiFailure(UnexpectedError(verb, url, detail))
      else ApiFailure(ErrorFromData(verb, url, status, ErrorData(body, text)))
  }

  /** `_request(method, url, json=…, params=…)`, sending through `send`. */
  function Request(apiKey: string, verb: string, url: string, json: Option<Dict<Value>>, params: Option<Dict<Value>>,
                   send: SentRequest -> Exchange): Outcome<JsonValue>
  {
    Handle(verb, url, send(SentRequest(verb, url, Headers(apiKey), json, params)))
  }

  /** A body that is not JSON becomes the message, with the default code and request id. */
  lemma TextBecomesMessage(verb: string, url: string, status: int, detail: string, text: string)
    requires status != 200
    ensures Handle(verb, url, Replied(status, Malformed(detail), text)).error
      == NewError(StatusClass(status), text, Some(status), JStr("Unknown"), JStr(""))
    ensures Handle(verb, url, Replied(status, WrongContentType(detail), text)).error
      == NewError(StatusClass(status), text, Some(status), JStr("Unknown"), JStr(""))
  {
    var d := [("message", JStr(text))];
    GetCons("message", JStr(text), [], "message");
    GetCons("message", JStr(text), [], "code");
    GetCons("message", JStr(text), [], "request_id");
  }
}
