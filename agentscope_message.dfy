/**
 * `message_to_agentscope_msg` (adapters/agentscope/message.py): runtime
 * messages to AgentScope `Msg` objects, one by one, and a list grouped by
 * original id.
 */
module AgentScopeMessage {
  import opened Wrappers
  import opened Dicts
  import opened Strings
  import opened Json
  import opened RuntimeMessage

  /** Where an image, audio or video block's media comes from. */
  datatype Source = Base64Source(mediaType: string, data: JsonValue) | UrlSource(url: JsonValue)

  /** The AgentScope content blocks the conversion builds. */
  datatype Block =
    | ToolUseBlock(id: JsonValue, name: JsonValue, input: JsonValue)
    | ToolResultBlock(id: JsonValue, name: JsonValue, output: JsonValue)
    | ThinkingBlock(thinking: JsonValue)
    | TextBlock(text: string)
      /** `TextBlock(text=...)` without `type`: the typed dict gets no "type" key. */
    | UntypedTextBlock(text: string)
    | ImageBlock(source: Source)
    | AudioBlock(source: Source)
    | VideoBlock(source: Source)

  /** An AgentScope `Msg`; `metadata` is `None` when the conversion does not set it. */
  datatype Msg = Msg(id: JsonValue, name: JsonValue, role: string, metadata: Option<JsonValue>, content: seq<Block>)

  /**
   * The library code a tool result goes through: `mcp` stands for validating
   * a dict as an MCP `CallToolResult` and converting its content to blocks
   * (`None` when that raises), `shapes` for the key sets of the TextBlock,
   * ImageBlock, AudioBlock and VideoBlock typed dicts.
   */
  datatype Blocks = Blocks(mcp: JsonValue -> Option<JsonValue>, shapes: seq<set<string>>)

  /** `matches_typed_dict_structure`: a dict whose keys are exactly the typed dict's keys. */
  function MatchesTypedDictStructure(obj: JsonValue, keys: set<string>): (r: bool)
    ensures r <==> obj.JObj? && forall k :: HasKey(obj.fields, k) <==> k in keys
  {
    obj.JObj? && (set k | k in Keys(obj.fields)) == keys
  }

  /** `is_valid_block`: the value has the shape of one of the four block types. */
  predicate ValidBlock(obj: JsonValue, shapes: seq<set<string>>)
  {
    exists i :: 0 <= i < |shapes| && MatchesTypedDictStructure(obj, shapes[i])
  }

  /** The role label: "tool" becomes "system", an empty or missing role "assistant". */
  function RoleLabel(role: Option<string>): (r: string)
    ensures r != "tool" && r != ""
    ensures Truthy(role) && role.value != "tool" ==> r == role.value
    ensures role == Some("tool") ==> r == "system"
    ensures !Truthy(role) ==> r == "assistant"
  {
    if role == Some("tool") then "system"
    else if Truthy(role) then role.value
    else "assistant"
  }

  /** `value.split(";")[0].replace("data:", "")` and `value.split(",")[1]`, which raises without a comma. */
  function DataUrlParts(value: string): (r: Result<(string, string)>)
    ensures r.Err? <==> !HasChar(value, ',')
  {
    var media := ReplaceAll(Split(value, ';')[0], "data:", "");
    var pieces := Split(value, ',');
    if |pieces| < 2 then
      assert IndexOf(value, ',').None?;
      Err("IndexError", "list index out of range")
    else
      assert IndexOf(value, ',').Some?;
      Ok((media, pieces[1]))
  }

  /** Splitting `a + [c] + b` on `c` when neither side holds `c` gives the two sides. */
  lemma SplitPair(a: string, c: char, b: string)
    requires !HasChar(a, c) && !HasChar(b, c)
    ensures Split(a + [c] + b, c) == [a, b]
  {
    var s := a + [c] + b;
    IndexOfAfter(a, c, b);
    assert s[..|a|] == a && s[|a| + 1..] == b;
  }

  /** A character absent from `s` stays absent after a prefix without it. */
  lemma NoCharAfterPrefix(prefix: string, s: string, suffix: string, c: char)
    requires !HasChar(prefix, c) && !HasChar(s, c) && !HasChar(suffix, c)
    ensures !HasChar(prefix + s + suffix, c)
  {
    var t := prefix + s + suffix;
    forall i | 0 <= i < |t| ensures t[i] != c {
      if i < |prefix| {
        assert t[i] == prefix[i];
      } else if i < |prefix| + |s| {
        assert t[i] == s[i - |prefix|];
      } else {
        assert t[i] == suffix[i - |prefix| - |s|];
      }
    }
  }

  /** The fixed pieces of a base64 data URL hold neither separator. */
  lemma DataUrlLiterals()
    ensures !HasChar("data:", ';') && !HasChar("data:", ',') && !HasChar(";base64", ',')
  {
    var d := "data:";
    assert d[0] == 'd' && d[1] == 'a' && d[2] == 't' && d[3] == 'a' && d[4] == ':';
    var b := ";base64";
    assert b[0] == ';' && b[1] == 'b' && b[2] == 'a' && b[3] == 's' && b[4] == 'e' && b[5] == '6' && b[6] == '4';
  }

  /** A base64 data URL read as its head, the ';' and the rest, or as everything before the ',' and the payload. */
  lemma DataUrlShape(mediaType: string, payload: string)
    ensures "data:" + mediaType + ";base64," + payload == ("data:" + mediaType) + [';'] + ("base64," + payload)
    ensures "data:" + mediaType + ";base64," + payload == ("data:" + mediaType + ";base64") + [','] + payload
  {
    assert ";base64," == [';'] + "base64,";
    assert ";base64," == ";base64" + [','];
  }

  /** Removing "data:" from "data:" followed by a text without it leaves that text. */
  lemma ReplaceDataPrefix(mediaType: string)
    requires !Contains(mediaType, "data:")
    ensures ReplaceAll("data:" + mediaType, "data:", "") == mediaType
  {
    var head := "data:" + mediaType;
    assert head[..5] == "data:" && head[5..] == mediaType;
  }

  /** A base64 data URL splits back into the media type and the payload it was built from. */
  lemma DataUrlRoundTrip(mediaType: string, payload: string)
    requires !HasChar(mediaType, ';') && !HasChar(mediaType, ',') && !Contains(mediaType, "data:")
    requires !HasChar(payload, ',')
    ensures DataUrlParts("data:" + mediaType + ";base64," + payload) == Ok((mediaType, payload))
  {
    var value := "data:" + mediaType + ";base64," + payload;
    var head := "data:" + mediaType;
    DataUrlLiterals();
    NoCharAfterPrefix("data:", mediaType, "", ';');
    assert head + "" == head;
    DataUrlShape(mediaType, payload);
    SplitAfter(head, ';', "base64," + payload);
    var before := head + ";base64";
    NoCharAfterPrefix("data:", mediaType, ";base64", ',');
    SplitPair(before, ',', payload);
    ReplaceDataPrefix(mediaType);
  }

  /** An ASCII letter. */
  predicate IsAlpha(c: char)
  {
    ('a' <= c <= 'z') || ('A' <= c <= 'Z')
  }

  /** A character `urlparse` accepts in a scheme. */
  predicate SchemeChar(c: char)
  {
    IsAlpha(c) || ('0' <= c <= '9') || c == '+' || c == '-' || c == '.'
  }

  /** The scheme `urlparse` finds: the text before the first ":" when it is a valid scheme name, else none. */
  function UrlScheme(s: string): (r: Option<nat>)
    ensures r.Some? ==> 0 < r.value < |s| && s[r.value] == ':'
  {
    match IndexOf(s, ':')
    case None => None
    case Some(i) =>
      if i > 0 && IsAlpha(s[0]) && forall k :: 0 <= k < i ==> SchemeChar(s[k]) then Some(i) else None
  }

  /** The longest prefix without any of `/`, `?` and `#`. */
  function NetlocPrefix(s: string): (r: string)
    ensures |r| <= |s| && r == s[..|r|]
    decreases |s|
  {
    if s == [] || s[0] == '/' || s[0] == '?' || s[0] == '#' then []
    else [s[0]] + NetlocPrefix(s[1..])
  }

  /** `parsed_url.scheme and parsed_url.netloc`. */
  predicate HasSchemeAndNetloc(s: string)
  {
    match UrlScheme(s)
    case None => false
    case Some(i) =>
      var rest := s[i + 1..];
      StartsWith(rest, "//") && NetlocPrefix(rest[2..]) != ""
  }

  /** A URL of a scheme and a host has both parts. */
  lemma UrlWithHost(scheme: string, host: string, path: string)
    requires scheme != [] && IsAlpha(scheme[0]) && forall k :: 0 <= k < |scheme| ==> SchemeChar(scheme[k])
    requires host != [] && host[0] != '/' && host[0] != '?' && host[0] != '#'
    ensures HasSchemeAndNetloc(scheme + "://" + host + path)
  {
    var s := scheme + "://" + host + path;
    assert !HasChar(scheme, ':') by {
      forall k | 0 <= k < |scheme| ensures scheme[k] != ':' { assert SchemeChar(scheme[k]); }
    }
    assert s == scheme + [':'] + ("//" + host + path);
    IndexOfAfter(scheme, ':', "//" + host + path);
    assert s[|scheme| + 1..] == "//" + host + path;
    assert ("//" + host + path)[2..] == host + path;
  }

  /** A text without a colon, such as plain base64, names no scheme. */
  lemma NoColonNoUrl(s: string)
    requires !HasChar(s, ':')
    ensures !HasSchemeAndNetloc(s)
  {
  }

  /** `type_mapping`: the attribute each supported content type is read from. */
  function AttrFor(t: string): Option<string>
  {
    if t == "text" then Some("text")
    else if t == "image" then Some("image_url")
    else if t == "audio" then Some("data")
    else if t == "data" then Some("data")
    else if t == "video" then Some("video_url")
    else None
  }

  /** A value starting with "data:", which is a base64 payload rather than a URL. */
  predicate IsDataUrl(value: JsonValue)
  {
    JTruthy(value) && value.JStr? && StartsWith(value.s, "data:")
  }

  /** The base64 source of a `data:` value. */
  function DataSource(value: string): (r: Result<Source>)
    ensures r.Ok? <==> DataUrlParts(value).Ok?
    ensures r.Ok? ==> r.value == Base64Source(DataUrlParts(value).value.0, JStr(DataUrlParts(value).value.1))
  {
    match DataUrlParts(value)
    case Err(kind, message) => Err(kind, message)
    case Ok((media, payload)) => Ok(Base64Source(media, JStr(payload)))
  }

  /** An image: a `data:` value is split, another non-empty string is a URL, an empty value is dropped. */
  function ImageBlockOf(value: JsonValue): (r: Result<Option<Block>>)
    ensures !JTruthy(value) ==> r == Ok(None)
    ensures JTruthy(value) && value.JStr? && !StartsWith(value.s, "data:") ==> r == Ok(Some(ImageBlock(UrlSource(value))))
  {
    if !JTruthy(value) then Ok(None)
    else if !value.JStr? then Err("AttributeError", "object has no attribute 'startswith'")
    else if StartsWith(value.s, "data:") then
      (match DataSource(value.s)
       case Err(kind, message) => Err(kind, message)
       case Ok(source) => Ok(Some(ImageBlock(source))))
    else Ok(Some(ImageBlock(UrlSource(value))))
  }

  /**
   * An audio value: a `data:` value is split, a URL with a scheme and a host
   * is a URL, anything else `urlparse` accepts is base64 data of type
   * "audio/<format>". A non-empty value that is not a string makes
   * `urlparse` raise.
   */
  function AudioBlockOf(value: JsonValue, format: Option<JsonValue>, codec: Codec): (r: Result<Option<Block>>)
    ensures r.Ok? ==> r.value.Some? && r.value.value.AudioBlock?
    ensures value.JStr? && !StartsWith(value.s, "data:") && HasSchemeAndNetloc(value.s) ==> r == Ok(Some(AudioBlock(UrlSource(value))))
  {
    if IsDataUrl(value) then
      (match DataSource(value.s)
       case Err(kind, message) => Err(kind, message)
       case Ok(source) => Ok(Some(AudioBlock(source))))
    else if value.JStr? && HasSchemeAndNetloc(value.s) then Ok(Some(AudioBlock(UrlSource(value))))
    else if !value.JStr? && JTruthy(value) then Err("AttributeError", "object has no attribute 'decode'")
    else
      match format
      case None => Err("AttributeError", "content has no attribute 'format'")
      case Some(f) => Ok(Some(AudioBlock(Base64Source("audio/" + codec.show(f), value))))
  }

  /** A video: a `data:` value is split, any other value is taken as the URL. */
  function VideoBlockOf(value: JsonValue): (r: Result<Option<Block>>)
    ensures !IsDataUrl(value) ==> r == Ok(Some(VideoBlock(UrlSource(value))))
  {
    if IsDataUrl(value) then
      (match DataSource(value.s)
       case Err(kind, message) => Err(kind, message)
       case Ok(source) => Ok(Some(VideoBlock(source))))
    else Ok(Some(VideoBlock(UrlSource(value))))
  }

  /** What one content of a plain message becomes; `None` for an image that is dropped. */
  function ContentBlock(c: Content, codec: Codec): (r: Result<Option<Block>>)
    ensures AttrFor(c.ctype.GetOr("text")).None? && Truthy(c.ctype) ==> r.Err? && r.kind == "ValueError"
    ensures r.Ok? && r.value.Some? && r.value.value.TextBlock? ==> c.ctype.GetOr("text") in {"", "text", "data"}
    ensures r.Ok? && r.value.Some? && r.value.value.UntypedTextBlock? ==>
      var t := if Truthy(c.ctype) then c.ctype.value else "text";
      t in {"text", "data"} && Get(c.attrs, t).Some? && !Get(c.attrs, t).value.JStr? &&
      r.value.value.text == codec.dump(Get(c.attrs, t).value)
  {
    var t := if Truthy(c.ctype) then c.ctype.value else "text";
    match AttrFor(t)
    case None => Err("ValueError", "Unsupported message type: " + t)
    case Some(attr) =>
      match Get(c.attrs, attr)
      case None => Err("AttributeError", "content has no attribute '" + attr + "'")
      case Some(value) =>
        if t == "image" then ImageBlockOf(value)
        else if t == "audio" then AudioBlockOf(value, Get(c.attrs, "format"), codec)
        else if t == "video" then VideoBlockOf(value)
        else if value.JStr? then Ok(Some(TextBlock(value.s)))
        else Ok(Some(UntypedTextBlock(codec.dump(value))))
  }

  function ContentResults(cs: seq<Content>, codec: Codec): (r: seq<Result<Option<Block>>>)
    ensures |r| == |cs| && forall i :: 0 <= i < |cs| ==> r[i] == ContentBlock(cs[i], codec)
  {
    Map(cs, c => ContentBlock(c, codec))
  }

  /** `msg_content`: the blocks of every content in order, or the first content's error. */
  function ContentBlocks(cs: seq<Content>, codec: Codec): Result<seq<Block>>
  {
    match Collect(ContentResults(cs, codec))
    case Err(kind, message) => Err(kind, message)
    case Ok(blocks) => Ok(Somes(blocks))
  }

  /** The loop that builds `msg_content`. */
  method ConvertContents(cs: seq<Content>, codec: Codec) returns (r: Result<seq<Block>>)
    ensures r == ContentBlocks(cs, codec)
  {
    r := CollectPresent(cs, c => ContentBlock(c, codec));
  }

  /**
   * A tool result's output: a list of valid blocks or a valid block is kept,
   * another list or dict goes through the MCP conversion and falls back to
   * the raw value when that raises, and everything else is the raw value.
   */
  function ToolOutput(found: Option<JsonValue>, codec: Codec, blocks: Blocks): (r: JsonValue)
  {
    var raw := found.GetOr(JStr(""));
    var out := if found.Some? then TryLoads(found.value, JStr(""), true, codec.decode) else JStr("");
    match out
    case JArr(items) =>
      if forall k :: 0 <= k < |items| ==> ValidBlock(items[k], blocks.shapes) then out
      else blocks.mcp(JObj([("content", out), ("structuredContent", JNull), ("isError", JBool(false))])).GetOr(raw)
    case JObj(_) =>
      if ValidBlock(out, blocks.shapes) then out else blocks.mcp(out).GetOr(raw)
    case _ => raw
  }

  /**
   * A found output that is text and loads as something other than a list or
   * a dict (a number, a string, `null`) or does not load at all, is kept as
   * the text itself; no output found gives "".
   */
  lemma ToolOutputRaw(found: Option<JsonValue>, codec: Codec, blocks: Blocks)
    requires found.None? || (found.value.JStr? && !(codec.decode(found.value.s).Some? && (codec.decode(found.value.s).value.JArr? || codec.decode(found.value.s).value.JObj?)))
    ensures ToolOutput(found, codec, blocks) == found.GetOr(JStr(""))
  {
  }

  /** When the MCP conversion raises, the output is the raw value found. */
  lemma ToolOutputFallback(found: JsonValue, codec: Codec, blocks: Blocks)
    requires found.JArr? || found.JObj?
    requires forall v :: blocks.mcp(v).None?
    ensures ToolOutput(Some(found), codec, blocks) == found
  {
    assert TryLoads(found, JStr(""), true, codec.decode) == found;
    assert Some(found).GetOr(JStr("")) == found;
    if found.JArr? {
      var wrapped := JObj([("content", found), ("structuredContent", JNull), ("isError", JBool(false))]);
      assert blocks.mcp(wrapped).None?;
      assert ToolOutput(Some(found), codec, blocks) ==
        if forall k :: 0 <= k < |found.items| ==> ValidBlock(found.items[k], blocks.shapes) then found
        else blocks.mcp(wrapped).GetOr(found);
    } else {
      assert blocks.mcp(found).None?;
    }
  }

  /** The content of a converted message, or the exception its conversion raises. */
  function ConvertedContent(m: Message, codec: Codec, blocks: Blocks): Result<seq<Block>>
  {
    if IsCall(m.mtype) then
      (match LastPayload(m.content, "arguments")
       case Err(kind, message) => Err(kind, message)
       case Ok(found) =>
         (match CallIdAndName(m.content)
          case Err(kind, message) => Err(kind, message)
          case Ok((id, name)) => Ok([ToolUseBlock(id, name, ToolArgs(found, codec))])))
    else if IsCallOutput(m.mtype) then
      (match LastPayload(m.content, "output")
       case Err(kind, message) => Err(kind, message)
       case Ok(found) =>
         (match CallIdAndName(m.content)
          case Err(kind, message) => Err(kind, message)
          case Ok((id, name)) => Ok([ToolResultBlock(id, name, ToolOutput(found, codec, blocks))])))
    else if m.mtype == Reasoning then
      (match FirstText(m.content)
       case Err(kind, message) => Err(kind, message)
       case Ok(text) => Ok([ThinkingBlock(text)]))
    else ContentBlocks(m.content, codec)
  }

  /** `_convert_one`. */
  function ConvertedOne(m: Message, codec: Codec, blocks: Blocks): (r: Result<Msg>)
    ensures r.Ok? <==> ConvertedContent(m, codec, blocks).Ok?
    ensures r.Ok? ==>
      && r.value.id == ConvertedId(m)
      && r.value.role == RoleLabel(m.role)
      && r.value.name == MsgName(m)
      && r.value.metadata == MsgMetadata(m)
      && r.value.content == ConvertedContent(m, codec, blocks).value
  {
    match ConvertedContent(m, codec, blocks)
    case Err(kind, message) => Err(kind, message)
    case Ok(content) => Ok(Msg(ConvertedId(m), MsgName(m), RoleLabel(m.role), MsgMetadata(m), content))
  }

  /** A call becomes one tool-use block whose input comes from the last content with usable arguments. */
  lemma ConvertedCall(m: Message, codec: Codec, blocks: Blocks)
    requires IsCall(m.mtype) && ConvertedOne(m, codec, blocks).Ok?
    ensures var c := ConvertedOne(m, codec, blocks).value.content;
      && LastPayload(m.content, "arguments").Ok?
      && CallIdAndName(m.content).Ok?
      && c == [ToolUseBlock(CallIdAndName(m.content).value.0, CallIdAndName(m.content).value.1,
                            ToolArgs(LastPayload(m.content, "arguments").value, codec))]
  {
  }

  /** A call output becomes one tool-result block over the last usable output. */
  lemma ConvertedCallOutput(m: Message, codec: Codec, blocks: Blocks)
    requires IsCallOutput(m.mtype) && ConvertedOne(m, codec, blocks).Ok?
    ensures var c := ConvertedOne(m, codec, blocks).value.content;
      && LastPayload(m.content, "output").Ok?
      && CallIdAndName(m.content).Ok?
      && c == [ToolResultBlock(CallIdAndName(m.content).value.0, CallIdAndName(m.content).value.1,
                               ToolOutput(LastPayload(m.content, "output").value, codec, blocks))]
  {
  }

  /** A reasoning message becomes one thinking block holding its first content's text. */
  lemma ConvertedReasoning(m: Message, codec: Codec, blocks: Blocks)
    requires m.mtype == Reasoning && ConvertedOne(m, codec, blocks).Ok?
    ensures FirstText(m.content).Ok?
    ensures ConvertedOne(m, codec, blocks).value.content == [ThinkingBlock(FirstText(m.content).value)]
  {
  }

  /** A plain message fails exactly when one of its contents does, with the first such content's error. */
  lemma PlainContentErrors(m: Message, codec: Codec, blocks: Blocks)
    requires !IsCall(m.mtype) && !IsCallOutput(m.mtype) && m.mtype != Reasoning
    ensures ConvertedOne(m, codec, blocks).Ok? <==> forall i :: 0 <= i < |m.content| ==> ContentBlock(m.content[i], codec).Ok?
    ensures ConvertedOne(m, codec, blocks).Err? ==>
      exists i :: FirstErr(ContentResults(m.content, codec), i)
        && ConvertedOne(m, codec, blocks) == Err(ContentBlock(m.content[i], codec).kind, ContentBlock(m.content[i], codec).message)
  {
    var rs := ContentResults(m.content, codec);
    CollectOk(rs);
    if Collect(rs).Err? {
      CollectErr(rs);
    }
  }

  /** An unsupported content type makes the whole message fail with ValueError when nothing before it fails. */
  lemma UnsupportedContent(m: Message, codec: Codec, blocks: Blocks, i: nat)
    requires !IsCall(m.mtype) && !IsCallOutput(m.mtype) && m.mtype != Reasoning
    requires i < |m.content| && Truthy(m.content[i].ctype) && AttrFor(m.content[i].ctype.value).None?
    requires forall j :: 0 <= j < i ==> ContentBlock(m.content[j], codec).Ok?
    ensures ConvertedOne(m, codec, blocks).Err? && ConvertedOne(m, codec, blocks).kind == "ValueError"
  {
    var rs := ContentResults(m.content, codec);
    assert FirstErr(rs, i);
    CollectFirstErr(rs, i);
  }

  /** `_convert_one` as the loops compute it. */
  method ConvertOne(m: Message, codec: Codec, blocks: Blocks) returns (r: Result<Msg>)
    ensures r == ConvertedOne(m, codec, blocks)
  {
    var content: Result<seq<Block>>;
    if IsCall(m.mtype) || IsCallOutput(m.mtype) {
      var found := FindPayload(m.content, if IsCall(m.mtype) then "arguments" else "output");
      if found.Err? {
        return Err(found.kind, found.message);
      }
      var call := CallIdAndName(m.content);
      if call.Err? {
        return Err(call.kind, call.message);
      }
      var (id, name) := call.value;
      if IsCall(m.mtype) {
        content := Ok([ToolUseBlock(id, name, ToolArgs(found.value, codec))]);
      } else {
        content := Ok([ToolResultBlock(id, name, ToolOutput(found.value, codec, blocks))]);
      }
    } else if m.mtype == Reasoning {
      var text := FirstText(m.content);
      if text.Err? {
        return Err(text.kind, text.message);
      }
      content := Ok([ThinkingBlock(text.value)]);
    } else {
      content := ConvertContents(m.content, codec);
      if content.Err? {
        return Err(content.kind, content.message);
      }
    }
    return Ok(Msg(ConvertedId(m), MsgName(m), RoleLabel(m.role), MsgMetadata(m), content.value));
  }

  datatype Output = OneMsg(msg: Msg) | MsgList(msgs: seq<Msg>)

  /** The grouping entries: key, the first message's name, role and metadata, and its content. */
  function Entries(ms: seq<Message>, convs: seq<Msg>): (r: seq<(JsonValue, (JsonValue, string, Option<JsonValue>), seq<Block>)>)
    requires |ms| == |convs|
    ensures |r| == |ms| && forall i :: 0 <= i < |ms| ==>
      r[i] == (GroupKey(ms[i], convs[i].id), (convs[i].name, convs[i].role, convs[i].metadata), convs[i].content)
  {
    seq(|ms|, i requires 0 <= i < |ms| => (GroupKey(ms[i], convs[i].id), (convs[i].name, convs[i].role, convs[i].metadata), convs[i].content))
  }

  function MsgOf(g: Group<JsonValue, (JsonValue, string, Option<JsonValue>), Block>): Msg
  {
    Msg(g.key, g.head.0, g.head.1, g.head.2, g.items)
  }

  function Regrouped(gs: seq<Group<JsonValue, (JsonValue, string, Option<JsonValue>), Block>>): (r: seq<Msg>)
    ensures |r| == |gs| && forall i :: 0 <= i < |gs| ==> r[i] == MsgOf(gs[i])
  {
    seq(|gs|, i requires 0 <= i < |gs| => MsgOf(gs[i]))
  }

  function Ids(msgs: seq<Msg>): (r: seq<JsonValue>)
    ensures |r| == |msgs| && forall i :: 0 <= i < |msgs| ==> r[i] == msgs[i].id
  {
    seq(|msgs|, i requires 0 <= i < |msgs| => msgs[i].id)
  }

  /** The list case: every message converted, then grouped; a list or dict original id is unhashable. */
  function GroupedMsgs(ms: seq<Message>, codec: Codec, blocks: Blocks): Result<seq<Msg>>
  {
    var rs := Map(ms, m => ConvertedOne(m, codec, blocks));
    CollectOk(rs);
    match Collect(rs)
    case Err(kind, message) => Err(kind, message)
    case Ok(convs) =>
      if exists i :: 0 <= i < |ms| && !Hashable(GroupKey(ms[i], convs[i].id)) then Err("TypeError", "unhashable type")
      else Ok(Regrouped(Grouped(Entries(ms, convs))))
  }

  /** `message_to_agentscope_msg`. */
  function Converted(input: Input, codec: Codec, blocks: Blocks): Result<Output>
  {
    match input
    case OneMessage(m) =>
      (match ConvertedOne(m, codec, blocks)
       case Err(kind, message) => Err(kind, message)
       case Ok(msg) => Ok(OneMsg(msg)))
    case MessageList(ms) =>
      (match GroupedMsgs(ms, codec, blocks)
       case Err(kind, message) => Err(kind, message)
       case Ok(msgs) => Ok(MsgList(msgs)))
    case NotAMessage => Err("TypeError", "Expected Message or list[Message]")
  }

  /**
   * A converted list has one message per original id, in order of first
   * appearance among the converted ids; each carries the first message's
   * name, role and metadata and the contents of all messages with its id,
   * concatenated in input order.
   */
  lemma GroupedMsgsSpec(ms: seq<Message>, codec: Codec, blocks: Blocks)
    requires GroupedMsgs(ms, codec, blocks).Ok?
    ensures var rs := Map(ms, m => ConvertedOne(m, codec, blocks));
      && Collect(rs).Ok? && |Collect(rs).value| == |ms|
      && var convs := Collect(rs).value;
      && var out := GroupedMsgs(ms, codec, blocks).value;
      && Ids(out) == FirstAppearances(Ids(convs))
      && forall i :: 0 <= i < |out| ==>
        && out[i].content == ItemsOf(Entries(ms, convs), out[i].id)
        && FirstHead(Entries(ms, convs), out[i].id) == Some((out[i].name, out[i].role, out[i].metadata))
  {
    var rs := Map(ms, m => ConvertedOne(m, codec, blocks));
    CollectOk(rs);
    var convs := Collect(rs).value;
    var e := Entries(ms, convs);
    forall i | 0 <= i < |ms| ensures e[i].0 == convs[i].id {
      GroupKeyIsConvertedId(ms[i]);
    }
    assert EntryKeys(e) == Ids(convs);
    GroupedKeys(e);
    GroupedContents(e);
    var gs := Grouped(e);
    assert Ids(Regrouped(gs)) == GroupKeys(gs);
  }

  /** The top-level conversion as the loops compute it. */
  method MessageToAgentScopeMsg(input: Input, codec: Codec, blocks: Blocks) returns (r: Result<Output>)
    ensures r == Converted(input, codec, blocks)
  {
    match input {
      case OneMessage(m) =>
        var one := ConvertOne(m, codec, blocks);
        if one.Err? {
          return Err(one.kind, one.message);
        }
        return Ok(OneMsg(one.value));
      case MessageList(ms) =>
        var grouped := ConvertList(ms, codec, blocks);
        if grouped.Err? {
          return Err(grouped.kind, grouped.message);
        }
        return Ok(MsgList(grouped.value));
      case NotAMessage =>
        return Err("TypeError", "Expected Message or list[Message]");
    }
  }

  /** `converted_list = [_convert_one(m) for m in messages]` followed by the grouping loop. */
  method ConvertList(ms: seq<Message>, codec: Codec, blocks: Blocks) returns (r: Result<seq<Msg>>)
    ensures r == GroupedMsgs(ms, codec, blocks)
  {
    var converted := CollectEach(ms, m => ConvertedOne(m, codec, blocks));
    if converted.Err? {
      return Err(converted.kind, converted.message);
    }
    var convs := converted.value;
    CollectOk(Map(ms, m => ConvertedOne(m, codec, blocks)));
    if exists j :: 0 <= j < |ms| && !Hashable(GroupKey(ms[j], convs[j].id)) {
      return Err("TypeError", "unhashable type");
    }
    var gs := GroupEntries(Entries(ms, convs));
    return Ok(Regrouped(gs));
  }
}
