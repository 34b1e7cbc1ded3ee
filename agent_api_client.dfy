/**
 * The agent-API client helpers (agent_api_client.py): the server-sent-event
 * line parser, the dispatch of a decoded JSON event to its class, the
 * filtering the two stream loops apply to the response lines, text
 * extraction, the one-message request builder and the request headers.
 */
module AgentApiClient {
  import opened Wrappers
  import opened Dicts
  import opened Strings
  import opened Json

  /** `parse_sse_line`: the field and value of one line, `(None, None)` for a line it does not recognise. */
  function ParseSseLine(line: string): (r: (Option<string>, Option<string>))
    ensures r.0.None? <==> r.1.None?
    ensures r.0 == Some("data") <==> StartsWith(Strip(line), "data: ")
    ensures r.0 == Some("data") ==> r.1 == Some(Strip(line)[6..])
    ensures r.0 == Some("event") ==> r.1 == Some(Strip(Drop(Strip(line), 7)))
    ensures r.0 == Some("id") ==> r.1 == Some(Strip(Drop(Strip(line), 4)))
    ensures r.0 == Some("retry") ==> r.1 == Some(Strip(Drop(Strip(line), 7)))
    ensures r.0.None? <==>
      !(StartsWith(Strip(line), "data: ") || StartsWith(Strip(line), "event:")
        || StartsWith(Strip(line), "id: ") || StartsWith(Strip(line), "retry:"))
  {
    var s := Strip(line);
    if StartsWith(s, "data: ") then (Some("data"), Some(s[6..]))
    else if StartsWith(s, "event:") then (Some("event"), Some(Strip(Drop(s, 7))))
    else if StartsWith(s, "id: ") then (Some("id"), Some(Strip(s[4..])))
    else if StartsWith(s, "retry:") then (Some("retry"), Some(Strip(Drop(s, 7))))
    else (None, None)
  }

  /** Python's `s[n:]`, which is empty when `s` is shorter than `n`. */
  function Drop(s: string, n: nat): (r: string)
    ensures n <= |s| ==> r == s[n..]
    ensures n > |s| ==> r == ""
  {
    if n <= |s| then s[n..] else ""
  }

  /**
   * `parse_sse_line` as the event-stream format means it: the value of an
   * `event:` or `retry:` line is everything after the colon, with one
   * leading space removed (the stripping removes it here).
   */
  function ParseSseLineIntended(line: string): (r: (Option<string>, Option<string>))
    ensures r.0 == ParseSseLine(line).0
    ensures r.0 != Some("event") && r.0 != Some("retry") ==> r == ParseSseLine(line)
    ensures r.0 == Some("event") || r.0 == Some("retry") ==> r.1 == Some(Strip(Drop(Strip(line), 6)))
  {
    var s := Strip(line);
    if StartsWith(s, "data: ") then (Some("data"), Some(s[6..]))
    else if StartsWith(s, "event:") then (Some("event"), Some(Strip(s[6..])))
    else if StartsWith(s, "id: ") then (Some("id"), Some(Strip(s[4..])))
    else if StartsWith(s, "retry:") then (Some("retry"), Some(Strip(s[6..])))
    else (None, None)
  }

  /** With a space after the colon the parser as written and the intended one agree. */
  lemma ParseSseLineSpaced(name: string, value: string)
    requires name == "event" || name == "retry"
    requires Strip(name + ": " + value) == name + ": " + value
    ensures ParseSseLine(name + ": " + value) == ParseSseLineIntended(name + ": " + value)
  {
    var s := name + ": " + value;
    assert s[..6] == name + ":";
    if name == "event" {
      assert !StartsWith(s, "data: ");
    } else {
      assert !StartsWith(s, "data: ") && !StartsWith(s, "event:") && !StartsWith(s, "id: ");
    }
    StripNoLeadingSpace(s[6..]);
  }

  /** Stripping never keeps a leading space, so stripping one more character first changes nothing after a space. */
  lemma StripNoLeadingSpace(t: string)
    requires t != [] && t[0] == ' '
    ensures Strip(t) == Strip(t[1..])
  {
  }

  /**
   * With no space after the colon the parser as written loses the value's
   * first character; the intended parser keeps it.
   */
  lemma ParseSseLineDropsFirstChar()
    ensures ParseSseLine("event:x") == (Some("event"), Some(""))
    ensures ParseSseLineIntended("event:x") == (Some("event"), Some("x"))
  {
    var e := "event:x";
    assert TrimLeft(e) == e && TrimRight(e) == e;
    assert StartsWith(e, "event:") by { assert e[..6] == "event:"; }
    assert !StartsWith(e, "data: ") by { assert e[..6][0] == 'e'; }
    assert Drop(e, 7) == "" && Drop(e, 6) == "x";
    assert TrimLeft("x") == "x" && TrimRight("x") == "x";
  }

  /** The same loss on a `retry:` line. */
  lemma ParseSseLineDropsRetryDigit()
    ensures ParseSseLine("retry:5") == (Some("retry"), Some(""))
    ensures ParseSseLineIntended("retry:5") == (Some("retry"), Some("5"))
  {
    var r := "retry:5";
    assert TrimLeft(r) == r && TrimRight(r) == r;
    assert StartsWith(r, "retry:") by { assert r[..6] == "retry:"; }
    assert !StartsWith(r, "data: ") by { assert r[..6][0] == 'r'; }
    assert !StartsWith(r, "event:") by { assert r[..6][0] == 'r'; }
    assert !StartsWith(r, "id: ") by { assert r[..4][0] == 'r'; }
    assert Drop(r, 7) == "" && Drop(r, 6) == "5";
    assert TrimLeft("5") == "5" && TrimRight("5") == "5";
  }

  /** A bare `data:` line carries no field at all. */
  lemma ParseSseLineBareData()
    ensures ParseSseLine("data:") == (None, None)
  {
    var d := "data:";
    assert TrimLeft(d) == d && TrimRight(d) == d;
    assert !StartsWith(d, "id: ") by { assert d[..4][0] == 'd'; }
  }

  /** Nor does a `data: ` line with an empty payload, which strips to the bare line. */
  lemma ParseSseLineEmptyPayload()
    ensures ParseSseLine("data: ") == (None, None)
  {
    assert Strip("data: ") == Strip("data:") by {
      assert TrimLeft("data: ") == "data: " && TrimRight("data: ") == "data:";
      assert TrimLeft("data:") == "data:" && TrimRight("data:") == "data:";
    }
    ParseSseLineBareData();
  }

  /** The event classes `parse_event_from_json` can build. */
  datatype EventClass =
    | ResponseClass | MessageClass
    | TextContentClass | ImageContentClass | DataContentClass | ContentClass
    | EventBaseClass

  /** An event built from a decoded JSON object. */
  datatype ParsedEvent = ParsedEvent(cls: EventClass, fields: Dict<JsonValue>)

  /** `content_class_map.get(content_type, Content)`; `None` for an unhashable type, which raises. */
  function ContentClassOf(contentType: JsonValue): (r: Option<EventClass>)
    ensures contentType == JStr("text") ==> r == Some(TextContentClass)
    ensures contentType == JStr("image") ==> r == Some(ImageContentClass)
    ensures contentType == JStr("data") ==> r == Some(DataContentClass)
    ensures r.None? <==> contentType.JArr? || contentType.JObj?
  {
    match contentType
    case JStr(s) =>
      if s == "text" then Some(TextContentClass)
      else if s == "image" then Some(ImageContentClass)
      else if s == "data" then Some(DataContentClass)
      else Some(ContentClass)
    case JArr(_) => None
    case JObj(_) => None
    case _ => Some(ContentClass)
  }

  /**
   * `parse_event_from_json`. `valid` stands for the pydantic validation of
   * the chosen class; every failure, including a value that is not a dict,
   * gives `None`.
   */
  function ParseEvent(data: JsonValue, valid: (EventClass, Dict<JsonValue>) -> bool): (r: Option<ParsedEvent>)
    ensures r.Some? ==> data.JObj? && HasKey(data.fields, "object") && r.value.fields == data.fields && valid(r.value.cls, data.fields)
    ensures data.JObj? && !HasKey(data.fields, "object") ==> r.None?
    ensures data.JObj? && Get(data.fields, "object") == Some(JStr("response")) ==>
      r == (if valid(ResponseClass, data.fields) then Some(ParsedEvent(ResponseClass, data.fields)) else None)
    ensures data.JObj? && Get(data.fields, "object") == Some(JStr("message")) ==>
      r == (if valid(MessageClass, data.fields) then Some(ParsedEvent(MessageClass, data.fields)) else None)
    ensures r.Some? && Get(data.fields, "object") == Some(JStr("content")) ==>
      Some(r.value.cls) == ContentClassOf(Get(data.fields, "type").GetOr(JStr("")))
    ensures r.Some? && !(Get(data.fields, "object") in {Some(JStr("response")), Some(JStr("message")), Some(JStr("content"))}) ==>
      r.value.cls == EventBaseClass
  {
    if !data.JObj? then None
    else
      var fields := data.fields;
      var obj := Get(fields, "object");
      var cls :=
        if obj == Some(JStr("response")) then Some(ResponseClass)
        else if obj == Some(JStr("message")) then Some(MessageClass)
        else if obj == Some(JStr("content")) then ContentClassOf(Get(fields, "type").GetOr(JStr("")))
        else if obj.Some? then Some(EventBaseClass)
        else None;
      if cls.Some? && valid(cls.value, fields) then Some(ParsedEvent(cls.value, fields)) else None
  }

  /**
   * What one response line contributes to the stream: an event only for a
   * non-empty data field that decodes as JSON (`decode` stands for
   * `json.loads`) and parses to an event.
   */
  function LineEvent(line: string, decode: string -> Option<JsonValue>, valid: (EventClass, Dict<JsonValue>) -> bool): (r: Option<ParsedEvent>)
    ensures r.Some? ==> ParseSseLine(line).0 == Some("data") && ParseSseLine(line).1.value != ""
    ensures r.Some? ==>
      && decode(ParseSseLine(line).1.value).Some?
      && r == ParseEvent(decode(ParseSseLine(line).1.value).value, valid)
  {
    if line == "" then None
    else
      var (field, value) := ParseSseLine(line);
      if field != Some("data") || !Truthy(value) then None
      else
        var data := decode(value.value);
        if data.None? then None else ParseEvent(data.value, valid)
  }

  /** The events of a whole response, in arrival order. */
  function StreamedEvents(lines: seq<string>, decode: string -> Option<JsonValue>, valid: (EventClass, Dict<JsonValue>) -> bool): seq<ParsedEvent>
  {
    Somes(seq(|lines|, i requires 0 <= i < |lines| => LineEvent(lines[i], decode, valid)))
  }

  /** Every event the stream yields comes from some line, and every line that parses to an event yields it. */
  lemma StreamedEventsMembers(lines: seq<string>, decode: string -> Option<JsonValue>, valid: (EventClass, Dict<JsonValue>) -> bool, e: ParsedEvent)
    ensures e in StreamedEvents(lines, decode, valid) <==> exists i :: 0 <= i < |lines| && LineEvent(lines[i], decode, valid) == Some(e)
  {
    var s := seq(|lines|, i requires 0 <= i < |lines| => LineEvent(lines[i], decode, valid));
    SomesMembers(s, e);
    assert forall i :: 0 <= i < |lines| ==> s[i] == LineEvent(lines[i], decode, valid);
  }

  /**
   * The loop of `stream` and `astream` over the response lines. The bytes
   * of `stream` are decoded and stripped before `parse_sse_line` strips
   * again, which changes nothing, so both loops are this one.
   */
  method Stream(lines: seq<string>, decode: string -> Option<JsonValue>, valid: (EventClass, Dict<JsonValue>) -> bool)
    returns (events: seq<ParsedEvent>)
    ensures events == StreamedEvents(lines, decode, valid)
  {
    ghost var all := seq(|lines|, i requires 0 <= i < |lines| => LineEvent(lines[i], decode, valid));
    events := [];
    var i := 0;
    while i < |lines|
      invariant 0 <= i <= |lines|
      invariant events == Somes(all[..i])
    {
      SomesSnoc(all, i);
      var event := ReadLine(lines[i], decode, valid);
      assert event == all[i];
      if event.Some? {
        events := events + [event.value];
      }
      i := i + 1;
    }
    assert all[..i] == all;
  }

  /** The checks the stream loops make on one line before they yield an event. */
  method ReadLine(line: string, decode: string -> Option<JsonValue>, valid: (EventClass, Dict<JsonValue>) -> bool)
    returns (event: Option<ParsedEvent>)
    ensures event == LineEvent(line, decode, valid)
  {
    event := None;
    if line != "" {
      var (field, value) := ParseSseLine(line);
      if field == Some("data") && Truthy(value) {
        var data := decode(value.value);
        if data.Some? {
          event := ParseEvent(data.value, valid);
        }
      }
    }
  }

  /** An item of a message's content; only text items carry text. */
  datatype ContentItem = TextItem(text: Option<string>) | OtherItem

  /** The events `extract_text_from_event` distinguishes. */
  datatype ApiEvent =
    | TextContentEvent(text: Option<string>)
    | MessageEventOf(status: string, content: Option<seq<ContentItem>>)
    | OtherApiEvent

  /** The non-empty texts of a message's content items, in order. */
  function Texts(items: seq<ContentItem>): (r: seq<string>)
    ensures forall k :: 0 <= k < |r| ==> r[k] != ""
    decreases |items|
  {
    if items == [] then []
    else
      var last := items[|items| - 1];
      Texts(items[..|items| - 1]) + (if last.TextItem? && Truthy(last.text) then [last.text.value] else [])
  }

  /** `"".join(parts)`. */
  function Concat(parts: seq<string>): string
  {
    if parts == [] then "" else Concat(parts[..|parts| - 1]) + parts[|parts| - 1]
  }

  /** A concatenation of non-empty texts is empty only when there are none. */
  lemma {:induction false} ConcatNonEmpty(parts: seq<string>)
    requires forall k :: 0 <= k < |parts| ==> parts[k] != ""
    ensures Concat(parts) == "" <==> parts == []
    decreases |parts|
  {
    if parts != [] {
      assert |Concat(parts)| >= |parts[|parts| - 1]|;
    }
  }

  /** `extract_text_from_event` as a specification. */
  function ExtractedText(event: ApiEvent): Option<string>
  {
    match event
    case TextContentEvent(text) => text
    case MessageEventOf(status, content) =>
      if status == "completed" && content.Some? && content.value != [] then
        var texts := Texts(content.value);
        if texts != [] then Some(Concat(texts)) else None
      else None
    case OtherApiEvent => None
  }

  /** A message's extracted text is never empty: it is the joined non-empty texts or `None`. */
  lemma ExtractedTextOfMessage(status: string, content: Option<seq<ContentItem>>)
    ensures var r := ExtractedText(MessageEventOf(status, content));
      && (r.Some? <==> status == "completed" && content.Some? && Texts(content.value) != [])
      && (r.Some? ==> r.value != "" && r.value == Concat(Texts(content.value)))
  {
    if content.Some? {
      ConcatNonEmpty(Texts(content.value));
    }
  }

  /** `extract_text_from_event`, with its loop over the content items. */
  method ExtractText(event: ApiEvent) returns (r: Option<string>)
    ensures r == ExtractedText(event)
  {
    match event
    case TextContentEvent(text) => r := text;
    case MessageEventOf(status, content) =>
      if status == "completed" && content.Some? && content.value != [] {
        var items := content.value;
        var texts: seq<string> := [];
        var i := 0;
        while i < |items|
          invariant 0 <= i <= |items|
          invariant texts == Texts(items[..i])
        {
          assert items[..i + 1][..i] == items[..i];
          if items[i].TextItem? && Truthy(items[i].text) {
            texts := texts + [items[i].text.value];
          }
          i := i + 1;
        }
        assert items[..i] == items;
        r := if texts != [] then Some(Concat(texts)) else None;
      } else {
        r := None;
      }
    case OtherApiEvent => r := None;
  }

  /**
   * The one user message of `create_simple_text_request`: the role, the
   * type and one text content holding the query. The other fields of
   * `Message` (its generated id, object, status and the like) keep their
   * defaults and are not part of this value.
   */
  function SimpleMessage(query: string): JsonValue
  {
    JObj([("role", JStr("user")), ("type", JStr("message")),
          ("content", JArr([JObj([("type", JStr("text")), ("text", JStr(query))])]))])
  }

  /**
   * The fields `create_simple_text_request` passes to `AgentRequest`: the
   * message and the streaming flag, the session id when it is given, then
   * the keyword arguments over them.
   */
  function SimpleRequestParams(query: string, sessionId: Option<string>, kwargs: Dict<JsonValue>): Dict<JsonValue>
  {
    Update(BaseParams(query, sessionId), kwargs)
  }

  /** The fields before the keyword arguments are applied. */
  function BaseParams(query: string, sessionId: Option<string>): Dict<JsonValue>
  {
    var base := [("input", JArr([SimpleMessage(query)])), ("stream", JBool(true))];
    if Truthy(sessionId) then base + [("session_id", JStr(sessionId.value))] else base
  }

  /** Without keyword arguments the request holds the message, the streaming flag and the session id when given, and nothing else. */
  lemma BaseParamsGet(query: string, sessionId: Option<string>, k: string)
    ensures var p := BaseParams(query, sessionId);
      && (k == "input" ==> Get(p, k) == Some(JArr([SimpleMessage(query)])))
      && (k == "stream" ==> Get(p, k) == Some(JBool(true)))
      && (k == "session_id" ==> Get(p, k) == if Truthy(sessionId) then Some(JStr(sessionId.value)) else None)
      && (k != "input" && k != "stream" && k != "session_id" ==> Get(p, k).None?)
  {
    var p := BaseParams(query, sessionId);
    if Truthy(sessionId) {
      assert Keys(p) == ["input", "stream", "session_id"];
    } else {
      assert Keys(p) == ["input", "stream"];
    }
  }

  /** A keyword argument wins; otherwise the request streams one user message holding the query, with the session id only when given. */
  lemma SimpleRequestFields(query: string, sessionId: Option<string>, kwargs: Dict<JsonValue>, k: string)
    requires UniqueKeys(kwargs)
    ensures var p := SimpleRequestParams(query, sessionId, kwargs);
      && (HasKey(kwargs, k) ==> Get(p, k) == Get(kwargs, k))
      && (!HasKey(kwargs, k) && k == "input" ==> Get(p, k) == Some(JArr([SimpleMessage(query)])))
      && (!HasKey(kwargs, k) && k == "stream" ==> Get(p, k) == Some(JBool(true)))
      && (!HasKey(kwargs, k) && k == "session_id" ==>
            Get(p, k) == if Truthy(sessionId) then Some(JStr(sessionId.value)) else None)
      && (!HasKey(kwargs, k) && k != "input" && k != "stream" && k != "session_id" ==> Get(p, k).None?)
  {
    GetUpdate(BaseParams(query, sessionId), kwargs, k);
    BaseParamsGet(query, sessionId, k);
  }

  /** `HTTPAgentAPIClient`; `headers or {}` is stored, so `None` is the empty dict. */
  datatype HttpClient = HttpClient(endpoint: string, token: Option<string>, timeout: real, headers: Dict<string>)

  /** The headers every request starts from. */
  function DefaultHeaders(): Dict<string>
  {
    [("Content-Type", "application/json"), ("Accept", "text/event-stream"), ("Cache-Control", "no-cache")]
  }

  /** `_prepare_headers`: the defaults, the custom headers over them, then the bearer token. */
  function PrepareHeaders(client: HttpClient): Dict<string>
  {
    var headers := Update(DefaultHeaders(), client.headers);
    if Truthy(client.token) then Put(headers, "Authorization", "Bearer " + client.token.value) else headers
  }

  /** A token's Authorization wins over everything, custom headers win over the defaults. */
  lemma PrepareHeadersGet(client: HttpClient, k: string)
    requires UniqueKeys(client.headers)
    ensures var h := PrepareHeaders(client);
      && (Truthy(client.token) && k == "Authorization" ==> Get(h, k) == Some("Bearer " + client.token.value))
      && (!(Truthy(client.token) && k == "Authorization") ==>
            Get(h, k) == if HasKey(client.headers, k) then Get(client.headers, k) else Get(DefaultHeaders(), k))
  {
    var headers := Update(DefaultHeaders(), client.headers);
    GetUpdate(DefaultHeaders(), client.headers, k);
    if Truthy(client.token) {
      GetPut(headers, "Authorization", "Bearer " + client.token.value, k);
    }
  }

  /** The three defaults are present whatever the custom headers hold. */
  lemma PrepareHeadersKeys(client: HttpClient)
    ensures HasKey(PrepareHeaders(client), "Content-Type")
    ensures HasKey(PrepareHeaders(client), "Accept")
    ensures HasKey(PrepareHeaders(client), "Cache-Control")
    ensures HasKey(PrepareHeaders(client), "Authorization") <==> Truthy(client.token) || HasKey(client.headers, "Authorization")
  {
    var d := DefaultHeaders();
    assert Keys(d)[0] == "Content-Type" && Keys(d)[1] == "Accept" && Keys(d)[2] == "Cache-Control";
    assert |Keys(d)| == 3 && Keys(d) == [Keys(d)[0], Keys(d)[1], Keys(d)[2]];
    assert !HasKey(d, "Authorization");
    UpdateKeys(d, client.headers, "Content-Type");
    UpdateKeys(d, client.headers, "Accept");
    UpdateKeys(d, client.headers, "Cache-Control");
    UpdateKeys(d, client.headers, "Authorization");
    var h := Update(d, client.headers);
    if Truthy(client.token) {
      var p := Put(h, "Authorization", "Bearer " + client.token.value);
      GetPut(h, "Authorization", "Bearer " + client.token.value, "Authorization");
      assert PrepareHeaders(client) == p;
    } else {
      assert PrepareHeaders(client) == h;
    }
  }
}
