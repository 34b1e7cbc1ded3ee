/**
 * `message_to_ms_agent_framework_message`
 * (adapters/ms_agent_framework/message.py): runtime messages to Microsoft
 * agent framework `ChatMessage` objects, one by one, and a list grouped by
 * original id.
 */
module MsAgentMessage {
  import opened Wrappers
  import opened Dicts
  import opened Strings
  import opened Json
  import opened RuntimeMessage

  /** The agent framework contents the conversion builds. */
  datatype ChatContent =
    | FunctionCallContent(callId: JsonValue, name: JsonValue, arguments: JsonValue)
    | FunctionResultContent(callId: JsonValue, result: JsonValue)
    | TextReasoningContent(reasoning: JsonValue)
    | TextContent(text: string)
    | UriContent(data: JsonValue, ctype: string)
    | DataContent(data: JsonValue, ctype: string)

  /** A `ChatMessage`; `additionalProperties` is `None` when the conversion does not set it. */
  datatype ChatMessage = ChatMessage(
    authorName: JsonValue,
    role: string,
    additionalProperties: Option<JsonValue>,
    messageId: JsonValue,
    contents: seq<ChatContent>)

  /** `message.role or "assistant"`, and "tool" for every call output. */
  function ChatRole(m: Message): (r: string)
    ensures r != ""
    ensures IsCallOutput(m.mtype) ==> r == "tool"
    ensures !IsCallOutput(m.mtype) && Truthy(m.role) ==> r == m.role.value
    ensures !IsCallOutput(m.mtype) && !Truthy(m.role) ==> r == "assistant"
  {
    if IsCallOutput(m.mtype) then "tool"
    else if Truthy(m.role) then m.role.value
    else "assistant"
  }

  /** `type_mapping`: the attribute each supported content type is read from; video is not supported. */
  function ChatAttrFor(t: string): Option<string>
  {
    if t == "text" then Some("text")
    else if t == "image" then Some("image_url")
    else if t == "audio" then Some("data")
    else if t == "data" then Some("data")
    else if t == "file" then Some("file_url")
    else None
  }

  /** The result of a tool call: the loaded output, the raw text when it does not load, "" when none was found or it loads as `None`. */
  function ToolResult(found: Option<JsonValue>, codec: Codec): (r: JsonValue)
    ensures r != JNull
    ensures found.None? ==> r == JStr("")
    ensures found.Some? && (found.value.JArr? || found.value.JObj?) ==> r == found.value
    ensures found.Some? && NonBlank(found.value) && codec.decode(found.value.s).None? ==> r == found.value
  {
    if found.None? then JStr("")
    else
      var loaded := TryLoads(found.value, JStr(""), true, codec.decode);
      if loaded == JNull then JStr("") else loaded
  }

  /** A result text produced by a dumper the parser inverts comes back as the value it encodes, unless that is `null`. */
  lemma ToolResultDumped(x: JsonValue, codec: Codec)
    requires codec.decode(codec.dump(x)) == Some(x) && Strip(codec.dump(x)) != ""
    ensures ToolResult(Some(JStr(codec.dump(x))), codec) == if x == JNull then JStr("") else x
  {
    TryLoadsText(codec.dump(x), JStr(""), true, codec.decode);
  }

  /** What one content of a plain message becomes. */
  function ChatContentOf(c: Content, codec: Codec): (r: Result<ChatContent>)
    ensures ChatAttrFor(c.ctype.GetOr("text")).None? && Truthy(c.ctype) ==> r.Err? && r.kind == "ValueError"
    ensures r.Ok? && r.value.UriContent? ==>
      && Some(r.value.ctype) == c.ctype
      && ((c.ctype == Some("image") && Get(c.attrs, "image_url") == Some(r.value.data))
          || (c.ctype == Some("audio") && Get(c.attrs, "data") == Some(r.value.data)))
    ensures r.Ok? && r.value.DataContent? ==>
      && Some(r.value.ctype) == c.ctype
      && ((c.ctype == Some("data") && Get(c.attrs, "data") == Some(r.value.data))
          || (c.ctype == Some("file") && Get(c.attrs, "file_url") == Some(r.value.data)))
    ensures r.Ok? ==> !r.value.FunctionCallContent? && !r.value.FunctionResultContent? && !r.value.TextReasoningContent?
  {
    var t := if Truthy(c.ctype) then c.ctype.value else "text";
    match ChatAttrFor(t)
    case None => Err("ValueError", "Unsupported message type: " + t)
    case Some(attr) =>
      match Get(c.attrs, attr)
      case None => Err("AttributeError", "content has no attribute '" + attr + "'")
      case Some(value) =>
        if t == "image" || t == "audio" then Ok(UriContent(value, t))
        else if t == "data" || t == "file" then Ok(DataContent(value, t))
        else if value.JStr? then Ok(TextContent(value.s))
        else Ok(TextContent(codec.dump(value)))
  }

  /** A text content keeps its string as it is and dumps anything else to JSON text. */
  lemma TextContentOf(c: Content, codec: Codec, value: JsonValue)
    requires !Truthy(c.ctype) || c.ctype.value == "text"
    requires Get(c.attrs, "text") == Some(value)
    ensures ChatContentOf(c, codec) == Ok(TextContent(if value.JStr? then value.s else codec.dump(value)))
  {
  }

  function ContentResults(cs: seq<Content>, codec: Codec): (r: seq<Result<ChatContent>>)
    ensures |r| == |cs| && forall i :: 0 <= i < |cs| ==> r[i] == ChatContentOf(cs[i], codec)
  {
    Map(cs, c => ChatContentOf(c, codec))
  }

  /** `msg_content`: the content of every runtime content in order, or the first one's error. */
  function ChatContents(cs: seq<Content>, codec: Codec): Result<seq<ChatContent>>
  {
    Collect(ContentResults(cs, codec))
  }

  /** The loop that builds `msg_content`. */
  method ConvertContents(cs: seq<Content>, codec: Codec) returns (r: Result<seq<ChatContent>>)
    ensures r == ChatContents(cs, codec)
  {
    r := CollectEach(cs, c => ChatContentOf(c, codec));
  }

  /** `result["contents"]`, or the exception its computation raises. */
  function ConvertedContents(m: Message, codec: Codec): Result<seq<ChatContent>>
  {
    if IsCall(m.mtype) then
      (match LastPayload(m.content, "arguments")
       case Err(kind, message) => Err(kind, message)
       case Ok(found) =>
         (match CallIdAndName(m.content)
          case Err(kind, message) => Err(kind, message)
          case Ok((id, name)) => Ok([FunctionCallContent(id, name, ToolArgs(found, codec))])))
    else if IsCallOutput(m.mtype) then
      (match LastPayload(m.content, "output")
       case Err(kind, message) => Err(kind, message)
       case Ok(found) =>
         (match CallIdAndName(m.content)
          case Err(kind, message) => Err(kind, message)
          case Ok((id, _)) => Ok([FunctionResultContent(id, ToolResult(found, codec))])))
    else if m.mtype == Reasoning then
      (match FirstText(m.content)
       case Err(kind, message) => Err(kind, message)
       case Ok(text) => Ok([TextReasoningContent(text)]))
    else ChatContents(m.content, codec)
  }

  /** `_convert_one`. */
  function ConvertedOne(m: Message, codec: Codec): (r: Result<ChatMessage>)
    ensures r.Ok? <==> ConvertedContents(m, codec).Ok?
    ensures r.Ok? ==>
      && r.value.messageId == ConvertedId(m)
      && r.value.role == ChatRole(m)
      && r.value.authorName == MsgName(m)
      && r.value.additionalProperties == MsgMetadata(m)
      && r.value.contents == ConvertedContents(m, codec).value
  {
    match ConvertedContents(m, codec)
    case Err(kind, message) => Err(kind, message)
    case Ok(contents) => Ok(ChatMessage(MsgName(m), ChatRole(m), MsgMetadata(m), ConvertedId(m), contents))
  }

  /** A call becomes one function-call content whose arguments come from the last content with usable arguments. */
  lemma ConvertedCall(m: Message, codec: Codec)
    requires IsCall(m.mtype) && ConvertedOne(m, codec).Ok?
    ensures var c := ConvertedOne(m, codec).value.contents;
      && LastPayload(m.content, "arguments").Ok?
      && CallIdAndName(m.content).Ok?
      && c == [FunctionCallContent(CallIdAndName(m.content).value.0, CallIdAndName(m.content).value.1,
                                   ToolArgs(LastPayload(m.content, "arguments").value, codec))]
  {
  }

  /** A call output becomes a "tool" message with one function-result content over the last usable output. */
  lemma ConvertedCallOutput(m: Message, codec: Codec)
    requires IsCallOutput(m.mtype) && ConvertedOne(m, codec).Ok?
    ensures ConvertedOne(m, codec).value.role == "tool"
    ensures var c := ConvertedOne(m, codec).value.contents;
      && LastPayload(m.content, "output").Ok?
      && CallIdAndName(m.content).Ok?
      && c == [FunctionResultContent(CallIdAndName(m.content).value.0, ToolResult(LastPayload(m.content, "output").value, codec))]
  {
  }

  /** A reasoning message becomes one reasoning content holding its first content's text. */
  lemma ConvertedReasoning(m: Message, codec: Codec)
    requires m.mtype == Reasoning && ConvertedOne(m, codec).Ok?
    ensures FirstText(m.content).Ok?
    ensures ConvertedOne(m, codec).value.contents == [TextReasoningContent(FirstText(m.content).value)]
  {
  }

  /** A plain message fails exactly when one of its contents does, with the first such content's error; otherwise it keeps one content per content. */
  lemma PlainContentErrors(m: Message, codec: Codec)
    requires !IsCall(m.mtype) && !IsCallOutput(m.mtype) && m.mtype != Reasoning
    ensures ConvertedOne(m, codec).Ok? <==> forall i :: 0 <= i < |m.content| ==> ChatContentOf(m.content[i], codec).Ok?
    ensures ConvertedOne(m, codec).Ok? ==>
      && |ConvertedOne(m, codec).value.contents| == |m.content|
      && forall i :: 0 <= i < |m.content| ==> Ok(ConvertedOne(m, codec).value.contents[i]) == ChatContentOf(m.content[i], codec)
    ensures ConvertedOne(m, codec).Err? ==>
      exists i :: FirstErr(ContentResults(m.content, codec), i)
        && ConvertedOne(m, codec) == Err(ChatContentOf(m.content[i], codec).kind, ChatContentOf(m.content[i], codec).message)
  {
    var rs := ContentResults(m.content, codec);
    CollectOk(rs);
    if Collect(rs).Err? {
      CollectErr(rs);
    }
  }

  /** An unsupported content type, video among them, makes the whole message fail with ValueError when nothing before it fails. */
  lemma UnsupportedContent(m: Message, codec: Codec, i: nat)
    requires !IsCall(m.mtype) && !IsCallOutput(m.mtype) && m.mtype != Reasoning
    requires i < |m.content| && Truthy(m.content[i].ctype) && ChatAttrFor(m.content[i].ctype.value).None?
    requires forall j :: 0 <= j < i ==> ChatContentOf(m.content[j], codec).Ok?
    ensures ConvertedOne(m, codec).Err? && ConvertedOne(m, codec).kind == "ValueError"
  {
    var rs := ContentResults(m.content, codec);
    assert FirstErr(rs, i);
    CollectFirstErr(rs, i);
  }

  /** `_convert_one` as the loops compute it. */
  method ConvertOne(m: Message, codec: Codec) returns (r: Result<ChatMessage>)
    ensures r == ConvertedOne(m, codec)
  {
    var contents: Result<seq<ChatContent>>;
    if IsCall(m.mtype) || IsCallOutput(m.mtype) {
      var found := FindPayload(m.content, if IsCall(m.mtype) then "arguments" else "output");
      if found.Err? {
        return Err(found.kind, found.message);
      }
      var call := CallIdAndName(m.content);
      if call.Err? {
        return Err(call.kind, call.message);
      }
      var (id, name) := call.value;
      if IsCall(m.mtype) {
        contents := Ok([FunctionCallContent(id, name, ToolArgs(found.value, codec))]);
      } else {
        contents := Ok([FunctionResultContent(id, ToolResult(found.value, codec))]);
      }
    } else if m.mtype == Reasoning {
      var text := FirstText(m.content);
      if text.Err? {
        return Err(text.kind, text.message);
      }
      contents := Ok([TextReasoningContent(text.value)]);
    } else {
      contents := ConvertContents(m.content, codec);
      if contents.Err? {
        return Err(contents.kind, contents.message);
      }
    }
    return Ok(ChatMessage(MsgName(m), ChatRole(m), MsgMetadata(m), ConvertedId(m), contents.value));
  }

  datatype Output = OneChat(msg: ChatMessage) | ChatList(msgs: seq<ChatMessage>)

  /** The grouping entries: key, the first message's author name, role and additional properties, and its contents. */
  function Entries(ms: seq<Message>, convs: seq<ChatMessage>): (r: seq<(JsonValue, (JsonValue, string, Option<JsonValue>), seq<ChatContent>)>)
    requires |ms| == |convs|
    ensures |r| == |ms| && forall i :: 0 <= i < |ms| ==>
      r[i] == (GroupKey(ms[i], convs[i].messageId), (convs[i].authorName, convs[i].role, convs[i].additionalProperties), convs[i].contents)
  {
    seq(|ms|, i requires 0 <= i < |ms| =>
      (GroupKey(ms[i], convs[i].messageId), (convs[i].authorName, convs[i].role, convs[i].additionalProperties), convs[i].contents))
  }

  function ChatOf(g: Group<JsonValue, (JsonValue, string, Option<JsonValue>), ChatContent>): ChatMessage
  {
    ChatMessage(g.head.0, g.head.1, g.head.2, g.key, g.items)
  }

  function Regrouped(gs: seq<Group<JsonValue, (JsonValue, string, Option<JsonValue>), ChatContent>>): (r: seq<ChatMessage>)
    ensures |r| == |gs| && forall i :: 0 <= i < |gs| ==> r[i] == ChatOf(gs[i])
  {
    seq(|gs|, i requires 0 <= i < |gs| => ChatOf(gs[i]))
  }

  function Ids(msgs: seq<ChatMessage>): (r: seq<JsonValue>)
    ensures |r| == |msgs| && forall i :: 0 <= i < |msgs| ==> r[i] == msgs[i].messageId
  {
    seq(|msgs|, i requires 0 <= i < |msgs| => msgs[i].messageId)
  }

  /** The list case: every message converted, then grouped; a list or dict original id is unhashable. */
  function GroupedChats(ms: seq<Message>, codec: Codec): Result<seq<ChatMessage>>
  {
    var rs := Map(ms, m => ConvertedOne(m, codec));
    CollectOk(rs);
    match Collect(rs)
    case Err(kind, message) => Err(kind, message)
    case Ok(convs) =>
      if exists i :: 0 <= i < |ms| && !Hashable(GroupKey(ms[i], convs[i].messageId)) then Err("TypeError", "unhashable type")
      else Ok(Regrouped(Grouped(Entries(ms, convs))))
  }

  /** `message_to_ms_agent_framework_message`. */
  function Converted(input: Input, codec: Codec): Result<Output>
  {
    match input
    case OneMessage(m) =>
      (match ConvertedOne(m, codec)
       case Err(kind, message) => Err(kind, message)
       case Ok(msg) => Ok(OneChat(msg)))
    case MessageList(ms) =>
      (match GroupedChats(ms, codec)
       case Err(kind, message) => Err(kind, message)
       case Ok(msgs) => Ok(ChatList(msgs)))
    case NotAMessage => Err("TypeError", "Expected Message or list[Message]")
  }

  /**
   * A converted list has one message per original id, in order of first
   * appearance among the converted ids; each carries the first message's
   * author name, role and additional properties and the contents of all
   * messages with its id, concatenated in input order.
   */
  lemma GroupedChatsSpec(ms: seq<Message>, codec: Codec)
    requires GroupedChats(ms, codec).Ok?
    ensures var rs := Map(ms, m => ConvertedOne(m, codec));
      && Collect(rs).Ok? && |Collect(rs).value| == |ms|
      && var convs := Collect(rs).value;
      && var out := GroupedChats(ms, codec).value;
      && Ids(out) == FirstAppearances(Ids(convs))
      && forall i :: 0 <= i < |out| ==>
        && out[i].contents == ItemsOf(Entries(ms, convs), out[i].messageId)
        && FirstHead(Entries(ms, convs), out[i].messageId) == Some((out[i].authorName, out[i].role, out[i].additionalProperties))
  {
    var rs := Map(ms, m => ConvertedOne(m, codec));
    CollectOk(rs);
    var convs := Collect(rs).value;
    var e := Entries(ms, convs);
    forall i | 0 <= i < |ms| ensures e[i].0 == convs[i].messageId {
      GroupKeyIsConvertedId(ms[i]);
    }
    assert EntryKeys(e) == Ids(convs);
    GroupedKeys(e);
    GroupedContents(e);
    var gs := Grouped(e);
    assert Ids(Regrouped(gs)) == GroupKeys(gs);
  }

  /** The top-level conversion as the loops compute it. */
  method MessageToMsAgentMessage(input: Input, codec: Codec) returns (r: Result<Output>)
    ensures r == Converted(input, codec)
  {
    match input {
      case OneMessage(m) =>
        var one := ConvertOne(m, codec);
        if one.Err? {
          return Err(one.kind, one.message);
        }
        return Ok(OneChat(one.value));
      case MessageList(ms) =>
        var grouped := ConvertList(ms, codec);
        if grouped.Err? {
          return Err(grouped.kind, grouped.message);
        }
        return Ok(ChatList(grouped.value));
      case NotAMessage =>
        return Err("TypeError", "Expected Message or list[Message]");
    }
  }

  /** `converted_list = [_convert_one(m) for m in messages]` followed by the grouping loop. */
  method ConvertList(ms: seq<Message>, codec: Codec) returns (r: Result<seq<ChatMessage>>)
    ensures r == GroupedChats(ms, codec)
  {
    var converted := CollectEach(ms, m => ConvertedOne(m, codec));
    if converted.Err? {
      return Err(converted.kind, converted.message);
    }
    var convs := converted.value;
    CollectOk(Map(ms, m => ConvertedOne(m, codec)));
    if exists j :: 0 <= j < |ms| && !Hashable(GroupKey(ms[j], convs[j].messageId)) {
      return Err("TypeError", "unhashable type");
    }
    var gs := GroupEntries(Entries(ms, convs));
    return Ok(Regrouped(gs));
  }
}
