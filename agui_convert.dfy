/**
 * AG-UI requests into agent-API requests (agui_adapter_utils.py): the
 * message conversion `convert_ag_ui_messages_to_agent_api_messages`, the
 * tool conversion `convert_ag_ui_tool`, the user id taken from the
 * forwarded props, and `convert_agui_request_to_agent_request`.
 */
module AguiConvert {
  import opened Wrappers
  import opened Dicts
  import opened Json
  import opened Strings

  /** An item of a multimodal user message; `dumped` is the item's `model_dump(exclude_none=True)`. */
  datatype InputContent =
    | TextInput(text: Option<string>)
    | BinaryInput(mimeType: Option<string>, url: Option<string>, data: Option<string>, dumped: Dict<JsonValue>)
    | OtherInput

  /** A user message's content: a string, a list of items, or anything else. */
  datatype UserContent = UserText(s: string) | UserParts(parts: seq<InputContent>) | UserOtherContent

  datatype ToolCall = ToolCall(id: Option<string>, name: Option<string>, arguments: Option<string>)

  /** The AG-UI message classes; `OtherMsg` is any class the conversion does not know. */
  datatype AguiMessage =
    | DeveloperMsg(id: string, content: Option<string>)
    | SystemMsg(id: string, content: Option<string>)
    | UserMsg(id: string, user: UserContent)
    | AssistantMsg(id: string, text: Option<string>, toolCalls: Option<seq<ToolCall>>)
    | ToolMsg(id: string, toolCallId: Option<string>, output: Option<string>, error: Option<string>)
    | ActivityMsg(id: string)
    | OtherMsg(id: string)

  datatype MessageType = MessageKind | FunctionCallKind | FunctionCallOutputKind
  datatype Role = SystemRole | UserRole | AssistantRole | ToolRole

  /** Agent-API contents; `CallData` and `CallOutputData` are data contents holding a dumped `FunctionCall` or `FunctionCallOutput`. */
  datatype ApiContent =
    | ApiText(text: string)
    | ApiImage(imageUrl: string)
    | ApiData(data: Dict<JsonValue>)
    | CallData(callId: string, name: string, arguments: string)
    | CallOutputData(callId: string, output: string)

  datatype ApiMessage = ApiMessage(id: string, mtype: MessageType, role: Role, content: seq<ApiContent>)

  /**
   * Identifiers `uuid4()` would generate: `uuid(i, 0)` for message `i`
   * and `uuid(i, k + 1)` for its tool call `k`.
   */
  type Uuids = (nat, nat) -> string

  /** `ag_ui_msg.id or f"msg_{uuid4()}"`. */
  function MessageId(m: AguiMessage, i: nat, uuid: Uuids): (r: string)
    ensures m.id != "" ==> r == m.id
    ensures m.id == "" ==> r == "msg_" + uuid(i, 0)
  {
    if m.id != "" then m.id else "msg_" + uuid(i, 0)
  }

  /** One item of a user message's list; items of any other class are skipped. */
  function PartContent(item: InputContent): (r: Option<ApiContent>)
    ensures item.TextInput? ==> r == Some(ApiText(item.text.GetOr("")))
    ensures item.BinaryInput? && StartsWithImage(item.mimeType) ==>
      r == (if Truthy(OrElse(item.url, item.data)) then Some(ApiImage(OrElse(item.url, item.data).value)) else None)
    ensures item.BinaryInput? && !StartsWithImage(item.mimeType) ==> r == Some(ApiData(item.dumped))
    ensures item.OtherInput? ==> r.None?
  {
    match item
    case TextInput(text) => Some(ApiText(text.GetOr("")))
    case BinaryInput(mimeType, url, data, dumped) =>
      if StartsWithImage(mimeType) then
        var imageUrl := OrElse(url, data);
        if Truthy(imageUrl) then Some(ApiImage(imageUrl.value)) else None
      else Some(ApiData(dumped))
    case OtherInput => None
  }

  /** `(item.mime_type or "").startswith("image/")`. */
  predicate StartsWithImage(mimeType: Option<string>)
  {
    var m := mimeType.GetOr("");
    |m| >= 6 && m[..6] == "image/"
  }

  /** The converted items of a user message, in order. */
  function PartContents(parts: seq<InputContent>): seq<ApiContent>
  {
    Somes(seq(|parts|, k requires 0 <= k < |parts| => PartContent(parts[k])))
  }

  /** The contents of a user message; a message that yields none gets one empty text. */
  function UserContents(user: UserContent): (r: Result<seq<ApiContent>>)
    ensures r.Err? <==> user.UserOtherContent?
    ensures r.Err? ==> r.kind == "ValueError"
    ensures r.Ok? ==> |r.value| > 0
    ensures user.UserText? ==> r == Ok([ApiText(user.s)])
    ensures user.UserParts? && PartContents(user.parts) == [] ==> r == Ok([ApiText("")])
    ensures user.UserParts? && PartContents(user.parts) != [] ==> r == Ok(PartContents(user.parts))
  {
    match user
    case UserText(s) => Ok([ApiText(s)])
    case UserParts(parts) =>
      var contents := PartContents(parts);
      Ok(if contents != [] then contents else [ApiText("")])
    case UserOtherContent => Err("ValueError", "Unsupported user message content")
  }

  /** A tool call of an assistant message as a function-call data content. */
  function CallContent(call: ToolCall, i: nat, k: nat, uuid: Uuids): (r: ApiContent)
    ensures r.CallData?
    ensures r.callId == (if Truthy(call.id) then call.id.value else "call_" + uuid(i, k + 1))
    ensures r.name == call.name.GetOr("")
    ensures r.arguments == (if Truthy(call.arguments) then call.arguments.value else "{}")
  {
    CallData(if Truthy(call.id) then call.id.value else "call_" + uuid(i, k + 1),
             call.name.GetOr(""),
             if Truthy(call.arguments) then call.arguments.value else "{}")
  }

  /** The output a tool message reports: its content, else its error, else nothing. */
  function ToolOutput(output: Option<string>, error: Option<string>): (r: string)
    ensures Truthy(output) ==> r == output.value
    ensures !Truthy(output) && Truthy(error) ==> r == "error: " + error.value
    ensures !Truthy(output) && !Truthy(error) ==> r == ""
  {
    if Truthy(output) then output.value
    else if Truthy(error) then "error: " + error.value
    else ""
  }

  /** The conversion of message number `i`: `None` when the message is dropped. */
  function ConvertOne(m: AguiMessage, i: nat, uuid: Uuids): (r: Result<Option<ApiMessage>>)
    ensures r.Err? <==> m.OtherMsg? || (m.UserMsg? && m.user.UserOtherContent?)
    ensures r.Err? ==> r.kind == "ValueError"
    ensures r.Ok? && r.value.Some? ==> r.value.value.id == MessageId(m, i, uuid) && |r.value.value.content| > 0
    ensures r == Ok(None) <==> m.ActivityMsg? || (m.AssistantMsg? && !(m.toolCalls.Some? && m.toolCalls.value != []) && !Truthy(m.text))
  {
    var id := MessageId(m, i, uuid);
    match m
    case DeveloperMsg(_, content) => Ok(Some(ApiMessage(id, MessageKind, SystemRole, [ApiText(content.GetOr(""))])))
    case SystemMsg(_, content) => Ok(Some(ApiMessage(id, MessageKind, SystemRole, [ApiText(content.GetOr(""))])))
    case UserMsg(_, user) =>
      var contents := UserContents(user);
      if contents.Err? then Err(contents.kind, contents.message)
      else Ok(Some(ApiMessage(id, MessageKind, UserRole, contents.value)))
    case AssistantMsg(_, text, toolCalls) =>
      if toolCalls.Some? && toolCalls.value != [] then
        var calls := toolCalls.value;
        Ok(Some(ApiMessage(id, FunctionCallKind, AssistantRole,
                           seq(|calls|, k requires 0 <= k < |calls| => CallContent(calls[k], i, k, uuid)))))
      else if Truthy(text) then Ok(Some(ApiMessage(id, MessageKind, AssistantRole, [ApiText(text.value)])))
      else Ok(None)
    case ToolMsg(_, toolCallId, output, error) =>
      Ok(Some(ApiMessage(id, FunctionCallOutputKind, ToolRole, [CallOutputData(toolCallId.GetOr(""), ToolOutput(output, error))])))
    case ActivityMsg(_) => Ok(None)
    case OtherMsg(_) => Err("ValueError", "Unsupported AG-UI message type")
  }

  /** The role and type each message class converts to. */
  lemma ConvertOneKinds(m: AguiMessage, i: nat, uuid: Uuids)
    requires ConvertOne(m, i, uuid).Ok? && ConvertOne(m, i, uuid).value.Some?
    ensures var a := ConvertOne(m, i, uuid).value.value;
      && ((m.DeveloperMsg? || m.SystemMsg?) ==> a.role == SystemRole && a.mtype == MessageKind && a.content == [ApiText(m.content.GetOr(""))])
      && (m.UserMsg? ==> a.role == UserRole && a.mtype == MessageKind)
      && (m.AssistantMsg? ==> a.role == AssistantRole)
      && (m.AssistantMsg? && m.toolCalls.Some? && m.toolCalls.value != [] ==>
            a.mtype == FunctionCallKind && |a.content| == |m.toolCalls.value|
            && forall k :: 0 <= k < |a.content| ==> a.content[k] == CallContent(m.toolCalls.value[k], i, k, uuid))
      && (m.ToolMsg? ==>
            && a.role == ToolRole && a.mtype == FunctionCallOutputKind
            && a.content == [CallOutputData(m.toolCallId.GetOr(""), ToolOutput(m.output, m.error))])
  {
  }

  /**
   * `convert_ag_ui_messages_to_agent_api_messages` as a specification: the
   * first message that cannot be converted raises, otherwise the converted
   * messages in order, dropped ones left out.
   */
  function ConvertAll(msgs: seq<AguiMessage>, uuid: Uuids): Result<seq<ApiMessage>>
    decreases |msgs|
  {
    if msgs == [] then Ok([])
    else
      var before := ConvertAll(msgs[..|msgs| - 1], uuid);
      var last := ConvertOne(msgs[|msgs| - 1], |msgs| - 1, uuid);
      if before.Err? then before
      else if last.Err? then Err(last.kind, last.message)
      else Ok(before.value + (if last.value.Some? then [last.value.value] else []))
  }

  /** The per-message conversions, in order. */
  function Each(msgs: seq<AguiMessage>, uuid: Uuids): (r: seq<Result<Option<ApiMessage>>>)
    ensures |r| == |msgs| && forall i :: 0 <= i < |msgs| ==> r[i] == ConvertOne(msgs[i], i, uuid)
  {
    seq(|msgs|, i requires 0 <= i < |msgs| => ConvertOne(msgs[i], i, uuid))
  }

  /** The kept results of a sequence of per-message conversions that all succeeded. */
  function Kept(rs: seq<Result<Option<ApiMessage>>>): seq<ApiMessage>
    requires forall i :: 0 <= i < |rs| ==> rs[i].Ok?
  {
    Somes(seq(|rs|, i requires 0 <= i < |rs| => rs[i].value))
  }

  /**
   * The conversion succeeds exactly when every message converts, and then
   * its result is the converted messages in their original order, with the
   * dropped ones left out.
   */
  lemma {:induction false} ConvertAllOrder(msgs: seq<AguiMessage>, uuid: Uuids)
    ensures ConvertAll(msgs, uuid).Ok? <==> forall i :: 0 <= i < |msgs| ==> ConvertOne(msgs[i], i, uuid).Ok?
    ensures ConvertAll(msgs, uuid).Ok? ==> ConvertAll(msgs, uuid).value == Kept(Each(msgs, uuid))
    decreases |msgs|
  {
    if msgs != [] {
      var n := |msgs| - 1;
      var init := msgs[..n];
      ConvertAllOrder(init, uuid);
      EachPrefix(msgs, uuid);
      if ConvertAll(msgs, uuid).Ok? {
        KeptSnoc(Each(init, uuid), ConvertOne(msgs[n], n, uuid));
      }
    }
  }

  lemma EachPrefix(msgs: seq<AguiMessage>, uuid: Uuids)
    requires msgs != []
    ensures Each(msgs, uuid) == Each(msgs[..|msgs| - 1], uuid) + [ConvertOne(msgs[|msgs| - 1], |msgs| - 1, uuid)]
  {
  }

  lemma KeptSnoc(rs: seq<Result<Option<ApiMessage>>>, r: Result<Option<ApiMessage>>)
    requires forall i :: 0 <= i < |rs| ==> rs[i].Ok?
    requires r.Ok?
    ensures Kept(rs + [r]) == Kept(rs) + (if r.value.Some? then [r.value.value] else [])
  {
    var vs := seq(|rs + [r]|, i requires 0 <= i < |rs + [r]| => (rs + [r])[i].value);
    assert vs[..|rs|] == seq(|rs|, i requires 0 <= i < |rs| => rs[i].value);
  }

  /** `convert_ag_ui_messages_to_agent_api_messages`: one pass over the messages, stopping at the first that raises. */
  method ConvertMessages(msgs: seq<AguiMessage>, uuid: Uuids) returns (r: Result<seq<ApiMessage>>)
    ensures r == ConvertAll(msgs, uuid)
  {
    var converted: seq<ApiMessage> := [];
    var i := 0;
    while i < |msgs|
      invariant 0 <= i <= |msgs|
      invariant ConvertAll(msgs[..i], uuid) == Ok(converted)
    {
      assert msgs[..i + 1][..i] == msgs[..i] && msgs[..i + 1][i] == msgs[i];
      var one := ConvertOne(msgs[i], i, uuid);
      assert ConvertAll(msgs[..i + 1], uuid) ==
        if one.Err? then Err(one.kind, one.message)
        else Ok(converted + (if one.value.Some? then [one.value.value] else []));
      if one.Err? {
        ConvertAllErr(msgs, i + 1, uuid);
        return Err(one.kind, one.message);
      }
      if one.value.Some? {
        converted := converted + [one.value.value];
      } else {
        assert converted + [] == converted;
      }
      i := i + 1;
    }
    assert msgs[..i] == msgs;
    r := Ok(converted);
  }

  /** Once a prefix raises, the whole conversion raises the same error. */
  lemma {:induction false} ConvertAllErr(msgs: seq<AguiMessage>, n: nat, uuid: Uuids)
    requires 0 < n <= |msgs| && ConvertAll(msgs[..n], uuid).Err?
    ensures ConvertAll(msgs, uuid) == ConvertAll(msgs[..n], uuid)
    decreases |msgs| - n
  {
    if n < |msgs| {
      assert msgs[..n + 1][..n] == msgs[..n];
      ConvertAllErr(msgs, n + 1, uuid);
    } else {
      assert msgs[..n] == msgs;
    }
  }

  /**
   * The user id of the forwarded props: the first of "user_id", "userId"
   * they hold, else "default_user_id". Props that are not a dict are
   * tested with Python's `in`, and subscripting them then raises TypeError,
   * as does `in` on a number or `True`.
   */
  function UserIdOf(forwarded: JsonValue): (r: Result<JsonValue>)
    ensures forwarded.JObj? && HasKey(forwarded.fields, "user_id") ==> r == Ok(Get(forwarded.fields, "user_id").value)
    ensures forwarded.JObj? && !HasKey(forwarded.fields, "user_id") && HasKey(forwarded.fields, "userId") ==>
      r == Ok(Get(forwarded.fields, "userId").value)
    ensures !JTruthy(forwarded) ==> r == Ok(JStr("default_user_id"))
    ensures r.Ok? && r != Ok(JStr("default_user_id")) ==> forwarded.JObj?
  {
    match forwarded
    case JObj(fields) =>
      if HasKey(fields, "user_id") then Ok(Get(fields, "user_id").value)
      else if HasKey(fields, "userId") then Ok(Get(fields, "userId").value)
      else Ok(JStr("default_user_id"))
    case JNull => Ok(JStr("default_user_id"))
    case JBool(b) => if b then Err("TypeError", "argument of type 'bool' is not iterable") else Ok(JStr("default_user_id"))
    case JNum(n) => if n != 0 then Err("TypeError", "argument of type 'int' is not iterable") else Ok(JStr("default_user_id"))
    case JStr(s) =>
      if Contains(s, "user_id") || Contains(s, "userId") then Err("TypeError", "string indices must be integers")
      else Ok(JStr("default_user_id"))
    case JArr(items) =>
      if JStr("user_id") in items || JStr("userId") in items then Err("TypeError", "list indices must be integers or slices, not str")
      else Ok(JStr("default_user_id"))
  }

  /** An AG-UI tool; `parameters` is any JSON, `null` when absent. */
  datatype AguiTool = AguiTool(name: string, description: string, parameters: JsonValue)

  /** `FunctionParameters` when the schema has the expected shape, else the parameters kept as given. */
  datatype ToolParameters =
    | Structured(properties: Dict<JsonValue>, required: Option<seq<string>>)
    | Raw(value: JsonValue)

  datatype ApiTool = ApiTool(name: string, description: string, parameters: ToolParameters)

  /** The strings of a list of JSON strings, `None` when an item is not a string. */
  function StringList(items: seq<JsonValue>): (r: Option<seq<string>>)
    ensures r.Some? <==> forall k :: 0 <= k < |items| ==> items[k].JStr?
    ensures r.Some? ==> |r.value| == |items| && forall k :: 0 <= k < |items| ==> items[k] == JStr(r.value[k])
  {
    if forall k :: 0 <= k < |items| ==> items[k].JStr? then Some(seq(|items|, k requires 0 <= k < |items| => items[k].s)) else None
  }

  /** `convert_ag_ui_tool`: absent parameters become an empty object schema. */
  function ConvertTool(tool: AguiTool): (r: ApiTool)
    ensures r.name == tool.name && r.description == tool.description
    ensures tool.parameters.JNull? ==> r.parameters == Structured([], Some([]))
    ensures !tool.parameters.JNull? && !tool.parameters.JObj? ==> r.parameters == Raw(tool.parameters)
    ensures r.parameters.Structured? ==>
      || tool.parameters.JNull?
      || (tool.parameters.JObj? && Get(tool.parameters.fields, "type") == Some(JStr("object"))
          && Get(tool.parameters.fields, "properties") == Some(JObj(r.parameters.properties)))
    ensures r.parameters.Raw? ==> r.parameters.value == tool.parameters
  {
    match tool.parameters
    case JNull => ApiTool(tool.name, tool.description, Structured([], Some([])))
    case JObj(params) =>
      var schemaType := Get(params, "type");
      var properties := Get(params, "properties");
      var required := Get(params, "required");
      if schemaType == Some(JStr("object")) && properties.Some? && properties.value.JObj? then
        var kept := if required.Some? && required.value.JArr? then StringList(required.value.items) else None;
        ApiTool(tool.name, tool.description, Structured(properties.value.fields, kept))
      else ApiTool(tool.name, tool.description, Raw(tool.parameters))
    case _ => ApiTool(tool.name, tool.description, Raw(tool.parameters))
  }

  /** An object schema keeps `required` only when it is a list of strings. */
  lemma ConvertToolRequired(tool: AguiTool)
    requires tool.parameters.JObj?
    requires ConvertTool(tool).parameters.Structured?
    ensures var req := Get(tool.parameters.fields, "required");
      var kept := ConvertTool(tool).parameters.required;
      && (kept.Some? <==> req.Some? && req.value.JArr? && forall k :: 0 <= k < |req.value.items| ==> req.value.items[k].JStr?)
      && (kept.Some? ==> req == Some(JArr(seq(|kept.value|, k requires 0 <= k < |kept.value| => JStr(kept.value[k])))))
  {
    var req := Get(tool.parameters.fields, "required");
    var kept := ConvertTool(tool).parameters.required;
    if kept.Some? {
      assert req.value.items == seq(|kept.value|, k requires 0 <= k < |kept.value| => JStr(kept.value[k]));
    }
  }

  /** The agent request built from an AG-UI request, before the agent-API schema validates it. */
  datatype AgentRequest = AgentRequest(
    input: seq<ApiMessage>,
    stream: bool,
    id: string,
    sessionId: string,
    userId: JsonValue,
    tools: seq<ApiTool>,
    state: JsonValue,
    forwardedProps: JsonValue,
    parentRunId: Option<string>,
    context: seq<JsonValue>)

  /** `convert_agui_request_to_agent_request` for an adapter with the given ids. */
  function ConvertRequest(threadId: string, runId: string, messages: seq<AguiMessage>, tools: seq<AguiTool>,
                          state: JsonValue, forwardedProps: JsonValue, parentRunId: Option<string>,
                          context: seq<JsonValue>, uuid: Uuids): (r: Result<AgentRequest>)
    ensures r.Ok? <==> ConvertAll(messages, uuid).Ok? && UserIdOf(forwardedProps).Ok?
    ensures r.Ok? ==> && r.value.input == ConvertAll(messages, uuid).value
                      && r.value.stream
                      && r.value.id == runId && r.value.sessionId == threadId
                      && r.value.userId == UserIdOf(forwardedProps).value
                      && |r.value.tools| == |tools|
                      && (forall k :: 0 <= k < |tools| ==> r.value.tools[k] == ConvertTool(tools[k]))
                      && r.value.state == state && r.value.forwardedProps == forwardedProps
                      && r.value.parentRunId == parentRunId && r.value.context == context
  {
    var converted := ConvertAll(messages, uuid);
    if converted.Err? then Err(converted.kind, converted.message)
    else
      var userId := UserIdOf(forwardedProps);
      if userId.Err? then Err(userId.kind, userId.message)
      else
        Ok(AgentRequest(converted.value, true, runId, threadId, userId.value,
                        seq(|tools|, k requires 0 <= k < |tools| => ConvertTool(tools[k])),
                        state, forwardedProps, parentRunId, context))
  }
}
