/**
 * The six ModelStudio memory tools (tools/modelstudio_memory/core.py): each
 * sends its input to its URL through the shared request handler and builds
 * its output from the decoded reply, with the defaults the code supplies for
 * fields the reply leaves out. A reply that does not have the expected shape
 * raises the Python exception the code would hit.
 */
module MemoryCore {
  import opened Wrappers
  import opened Strings
  import opened Dicts
  import opened Json
  import opened RuntimeMessage
  import opened MemorySchemas
  import opened MemoryConfig
  import opened MemoryBase

  /** `v.get(key, default)`: only a dict has `get`. */
  function GetOrDefault(v: JsonValue, key: string, default: JsonValue): (r: Result<JsonValue>)
    ensures r.Ok? <==> v.JObj?
    ensures v.JObj? ==> r.value == Get(v.fields, key).GetOr(default)
    ensures !v.JObj? ==> r == Err("AttributeError", "'" + PyTypeName(v) + "' object has no attribute 'get'")
  {
    if v.JObj? then Ok(Get(v.fields, key).GetOr(default))
    else Err("AttributeError", "'" + PyTypeName(v) + "' object has no attribute 'get'")
  }

  /** A `str` field of the output read with default "", as `result.get(key, "")`. */
  function TextOrEmpty(v: JsonValue, key: string, field: string): (r: Result<string>)
    ensures v.JObj? && !HasKey(v.fields, key) ==> r == Ok("")
    ensures v.JObj? && Get(v.fields, key).Some? && Get(v.fields, key).value.JStr? ==> r == Ok(Get(v.fields, key).value.s)
    ensures r.Ok? ==> v.JObj?
  {
    match GetOrDefault(v, key, JStr(""))
    case Err(k, m) => Err(k, m)
    case Ok(x) => RequiredStr(Some(x), field)
  }

  /** `for x in v`: a list gives its items, a dict its keys and a string its characters; nothing else is iterable. */
  function Iterated(v: JsonValue): (r: Result<seq<JsonValue>>)
    ensures v.JArr? ==> r == Ok(v.items)
    ensures r.Ok? <==> v.JArr? || v.JObj? || v.JStr?
    ensures v.JObj? ==> r.Ok? && |r.value| == |v.fields| && forall i :: 0 <= i < |v.fields| ==> r.value[i] == JStr(v.fields[i].0)
    ensures v.JStr? ==> r.Ok? && |r.value| == |v.s| && forall i :: 0 <= i < |v.s| ==> r.value[i] == JStr([v.s[i]])
  {
    match v
    case JArr(items) => Ok(items)
    case JObj(fields) => Ok(seq(|fields|, i requires 0 <= i < |fields| => JStr(fields[i].0)))
    case JStr(s) => Ok(seq(|s|, i requires 0 <= i < |s| => JStr([s[i]])))
    case _ => Err("TypeError", "'" + PyTypeName(v) + "' object is not iterable")
  }

  /** `[MemoryNode(**node) for node in items]`. */
  function NodesOf(items: seq<JsonValue>): (r: Result<seq<MemoryNode>>)
    ensures r.Ok? <==> forall i :: 0 <= i < |items| ==> NodeOf(items[i]).Ok?
    ensures r.Ok? ==> |r.value| == |items| && forall i :: 0 <= i < |items| ==> NodeOf(items[i]) == Ok(r.value[i])
  {
    CollectOk(Map(items, NodeOf));
    Collect(Map(items, NodeOf))
  }

  /** The nodes of an add reply: a single dict becomes a one-element list, a list is kept, anything else is empty. */
  function AddedNodes(raw: JsonValue): (r: seq<JsonValue>)
    ensures raw.JObj? ==> r == [raw]
    ensures raw.JArr? ==> r == raw.items
    ensures !raw.JObj? && !raw.JArr? ==> r == []
  {
    if raw.JObj? then [raw] else if raw.JArr? then raw.items else []
  }

  /** The output of `AddMemory` built from its decoded reply. */
  function AddMemoryResult(result: JsonValue): (r: Result<NodesOutput>)
    ensures r.Ok? ==> result.JObj?
    ensures r.Ok? ==> NodesOf(AddedNodes(Get(result.fields, "memory_nodes").GetOr(JArr([])))) == Ok(r.value.memoryNodes)
    ensures r.Ok? && !HasKey(result.fields, "request_id") ==> r.value.requestId == ""
    ensures result.JObj? && !HasKey(result.fields, "memory_nodes") && !HasKey(result.fields, "request_id") ==>
              r == Ok(NodesOutput([], ""))
  {
    match GetOrDefault(result, "memory_nodes", JArr([]))
    case Err(k, m) => Err(k, m)
    case Ok(raw) =>
      match NodesOf(AddedNodes(raw))
      case Err(k, m) => Err(k, m)
      case Ok(nodes) =>
        match TextOrEmpty(result, "request_id", "request_id")
        case Err(k, m) => Err(k, m)
        case Ok(rid) => Ok(NodesOutput(nodes, rid))
  }

  /** A reply holding one node as a dict, not in a list, still gives that one node. */
  lemma SingleNodeWrapped(node: JsonValue, requestId: string)
    requires NodeOf(node).Ok?
    ensures AddMemoryResult(JObj([("memory_nodes", node), ("request_id", JStr(requestId))]))
      == Ok(NodesOutput([NodeOf(node).value], requestId))
  {
    var d := [("memory_nodes", node), ("request_id", JStr(requestId))];
    var result := JObj(d);
    GetCons("memory_nodes", node, d[1..], "memory_nodes");
    GetCons("memory_nodes", node, d[1..], "request_id");
    GetCons("request_id", JStr(requestId), [], "request_id");
    assert GetOrDefault(result, "memory_nodes", JArr([])) == Ok(node);
    assert TextOrEmpty(result, "request_id", "request_id") == Ok(requestId);
    assert AddedNodes(node) == [node];
    var nodes := NodesOf([node]);
    assert nodes.Ok? && nodes.value == [NodeOf(node).value];
  }

  /** The output of `SearchMemory` built from its decoded reply. */
  function SearchMemoryResult(result: JsonValue): (r: Result<NodesOutput>)
    ensures r.Ok? ==> result.JObj?
    ensures r.Ok? ==> exists items :: Iterated(Get(result.fields, "memory_nodes").GetOr(JArr([]))) == Ok(items)
                                      && NodesOf(items) == Ok(r.value.memoryNodes)
    ensures r.Ok? && !HasKey(result.fields, "request_id") ==> r.value.requestId == ""
  {
    match GetOrDefault(result, "memory_nodes", JArr([]))
    case Err(k, m) => Err(k, m)
    case Ok(raw) =>
      match Iterated(raw)
      case Err(k, m) => Err(k, m)
      case Ok(items) =>
        match NodesOf(items)
        case Err(k, m) => Err(k, m)
        case Ok(nodes) =>
          match TextOrEmpty(result, "request_id", "request_id")
          case Err(k, m) => Err(k, m)
          case Ok(rid) => Ok(NodesOutput(nodes, rid))
  }

  /** Unlike `AddMemory`, a single node dict is not wrapped: its keys are iterated, and the first raises. */
  lemma SearchNodeDictRejected(node: Dict<JsonValue>)
    requires node != []
    ensures SearchMemoryResult(JObj([("memory_nodes", JObj(node))])).Err?
    ensures SearchMemoryResult(JObj([("memory_nodes", JObj(node))])).kind == "TypeError"
  {
    var d := [("memory_nodes", JObj(node))];
    GetCons("memory_nodes", JObj(node), [], "memory_nodes");
    var items := Iterated(JObj(node)).value;
    assert items[0] == JStr(node[0].0);
    assert NodeOf(items[0]).Err?;
    var rs := Map(items, NodeOf);
    assert rs[0] == NodeOf(items[0]);
    assert FirstErr(rs, 0);
    CollectFirstErr(rs, 0);
  }

  /** `args.page_size or 10` and `args.page_num or 1`. */
  function OrDefault(o: Option<int>, default: int): (r: int)
    ensures TruthyInt(o) ==> r == o.value
    ensures !TruthyInt(o) ==> r == default
  {
    if TruthyInt(o) then o.value else default
  }

  /** An `int` field of the output read with a default, as `result.get(key, default)`. */
  function IntOr(result: JsonValue, key: string, default: int): (r: Result<int>)
    ensures result.JObj? && !HasKey(result.fields, key) ==> r == Ok(default)
    ensures result.JObj? && Get(result.fields, key).Some? ==> r == RequiredInt(Get(result.fields, key).value, key)
    ensures !result.JObj? ==> r.Err?
  {
    match GetOrDefault(result, key, JNum(default))
    case Err(k, m) => Err(k, m)
    case Ok(v) => RequiredInt(v, key)
  }

  /** The output of `ListMemory` built from its decoded reply, with the request's paging as fallback. */
  function ListMemoryResult(args: ListMemoryInput, result: JsonValue): (r: Result<ListMemoryOutput>)
    ensures r.Ok? ==> result.JObj?
    ensures r.Ok? && !HasKey(result.fields, "page_size") ==> r.value.pageSize == OrDefault(args.pageSize, DefaultPageSize)
    ensures r.Ok? && !HasKey(result.fields, "page_num") ==> r.value.pageNum == OrDefault(args.pageNum, DefaultPageNum)
    ensures r.Ok? && !HasKey(result.fields, "total") ==> r.value.total == 0
    ensures r.Ok? && !HasKey(result.fields, "request_id") ==> r.value.requestId == ""
    ensures r.Ok? && Get(result.fields, "page_size").Some? ==>
              RequiredInt(Get(result.fields, "page_size").value, "page_size") == Ok(r.value.pageSize)
    ensures r.Ok? && Get(result.fields, "page_num").Some? ==>
              RequiredInt(Get(result.fields, "page_num").value, "page_num") == Ok(r.value.pageNum)
    ensures r.Ok? && Get(result.fields, "total").Some? ==>
              RequiredInt(Get(result.fields, "total").value, "total") == Ok(r.value.total)
  {
    match GetOrDefault(result, "memory_nodes", JArr([]))
    case Err(k, m) => Err(k, m)
    case Ok(raw) =>
      match Iterated(raw)
      case Err(k, m) => Err(k, m)
      case Ok(items) =>
        match NodesOf(items)
        case Err(k, m) => Err(k, m)
        case Ok(nodes) =>
          match IntOr(result, "page_size", OrDefault(args.pageSize, DefaultPageSize))
          case Err(k, m) => Err(k, m)
          case Ok(pageSize) =>
            match IntOr(result, "page_num", OrDefault(args.pageNum, DefaultPageNum))
            case Err(k, m) => Err(k, m)
            case Ok(pageNum) =>
              match IntOr(result, "total", 0)
              case Err(k, m) => Err(k, m)
              case Ok(total) =>
                match TextOrEmpty(result, "request_id", "request_id")
                case Err(k, m) => Err(k, m)
                case Ok(rid) => Ok(ListMemoryOutput(nodes, pageSize, pageNum, total, rid))
  }

  /** An empty reply to a request for page size 0 reports the fallback page size 10. */
  lemma EmptyListReply(userId: string)
    ensures ListMemoryResult(NewListMemoryInput(userId, pageSize := Some(0)), JObj([]))
      == Ok(ListMemoryOutput([], 10, 1, 0, ""))
  {
    assert Map([], NodeOf) == [];
  }

  /** The output of `DeleteMemory` built from its decoded reply. */
  function DeleteMemoryResult(result: JsonValue): (r: Result<DeleteMemoryOutput>)
    ensures r.Ok? <==> TextOrEmpty(result, "request_id", "request_id").Ok?
    ensures r.Ok? ==> r.value.requestId == TextOrEmpty(result, "request_id", "request_id").value
    ensures result.JObj? && !HasKey(result.fields, "request_id") ==> r == Ok(DeleteMemoryOutput(""))
  {
    match TextOrEmpty(result, "request_id", "request_id")
    case Err(k, m) => Err(k, m)
    case Ok(rid) => Ok(DeleteMemoryOutput(rid))
  }

  /** The output of `CreateProfileSchema` built from its decoded reply. */
  function CreateProfileSchemaResult(result: JsonValue): (r: Result<CreateProfileSchemaOutput>)
    ensures result.JObj? && !HasKey(result.fields, "profile_schema_id") && !HasKey(result.fields, "request_id") ==>
              r == Ok(CreateProfileSchemaOutput("", ""))
    ensures r.Ok? ==> result.JObj? && !HasKey(result.fields, "request_id") ==> r.value.requestId == ""
    ensures r.Ok? ==> TextOrEmpty(result, "profile_schema_id", "profile_schema_id") == Ok(r.value.profileSchemaId)
  {
    match TextOrEmpty(result, "profile_schema_id", "profile_schema_id")
    case Err(k, m) => Err(k, m)
    case Ok(sid) =>
      match TextOrEmpty(result, "request_id", "request_id")
      case Err(k, m) => Err(k, m)
      case Ok(rid) => Ok(CreateProfileSchemaOutput(sid, rid))
  }

  /** One profile attribute of the reply: `name` and `id` default to "", `value` to `None`. */
  function ProfileAttributeOf(item: JsonValue): (r: Result<UserProfileAttribute>)
    ensures !item.JObj? ==> r.Err? && r.kind == "AttributeError"
    ensures item.JObj? && !HasKey(item.fields, "name") && !HasKey(item.fields, "id") ==>
              r.Ok? && r.value.name == "" && r.value.id == ""
    ensures r.Ok? ==> r.value.value == Get(item.fields, "value").GetOr(JNull)
  {
    match GetOrDefault(item, "name", JStr(""))
    case Err(k, m) => Err(k, m)
    case Ok(name) =>
      var id := Get(item.fields, "id").GetOr(JStr(""));
      match RequiredStr(Some(name), "name")
      case Err(k, m) => Err(k, m)
      case Ok(n) =>
        match RequiredStr(Some(id), "id")
        case Err(k, m) => Err(k, m)
        case Ok(i) => Ok(UserProfileAttribute(n, i, Get(item.fields, "value").GetOr(JNull)))
  }

  /** The output of `GetUserProfile` built from its decoded reply, whose fields are camelCase. */
  function GetUserProfileResult(result: JsonValue): (r: Result<GetUserProfileOutput>)
    ensures r.Ok? ==> result.JObj?
    ensures r.Ok? ==> exists p :: Get(result.fields, "profile").GetOr(JObj([])) == JObj(p)
                                 && OptionalStr(Get(p, "schemaName"), "schema_name") == Ok(r.value.profile.schemaName)
                                 && OptionalStr(Get(p, "schemaDescription"), "schema_description")
                                    == Ok(r.value.profile.schemaDescription)
    ensures r.Ok? && !HasKey(result.fields, "requestId") ==> r.value.requestId == ""
    ensures r.Ok? && Get(result.fields, "requestId").Some? ==> Get(result.fields, "requestId") == Some(JStr(r.value.requestId))
  {
    match GetOrDefault(result, "profile", JObj([]))
    case Err(k, m) => Err(k, m)
    case Ok(profileRaw) =>
      match GetOrDefault(profileRaw, "attributes", JArr([]))
      case Err(k, m) => Err(k, m)
      case Ok(rawAttrs) =>
        match Iterated(rawAttrs)
        case Err(k, m) => Err(k, m)
        case Ok(items) =>
          match Collect(Map(items, ProfileAttributeOf))
          case Err(k, m) => Err(k, m)
          case Ok(attrs) =>
            match OptionalStr(Get(profileRaw.fields, "schemaDescription"), "schema_description")
            case Err(k, m) => Err(k, m)
            case Ok(desc) =>
              match OptionalStr(Get(profileRaw.fields, "schemaName"), "schema_name")
              case Err(k, m) => Err(k, m)
              case Ok(name) =>
                match TextOrEmpty(result, "requestId", "request_id")
                case Err(k, m) => Err(k, m)
                case Ok(rid) => Ok(GetUserProfileOutput(rid, UserProfile(desc, name, attrs)))
  }

  /** A reply without a profile gives an empty profile and, without `requestId`, an empty request id. */
  lemma EmptyProfileReply()
    ensures GetUserProfileResult(JObj([])) == Ok(GetUserProfileOutput("", UserProfile(None, None, [])))
  {
    assert Map([], ProfileAttributeOf) == [];
  }

  /** The snake_case `request_id` is not what the profile reply is read by. */
  lemma ProfileSnakeCaseIgnored(rid: string)
    ensures GetUserProfileResult(JObj([("request_id", JStr(rid))])) == Ok(GetUserProfileOutput("", UserProfile(None, None, [])))
  {
    GetCons("request_id", JStr(rid), [], "profile");
    GetCons("request_id", JStr(rid), [], "requestId");
    assert Map([], ProfileAttributeOf) == [];
  }

  /** A decoded reply turned into an output, or the failure passed on. */
  function Then<T>(o: Outcome<JsonValue>, build: JsonValue -> Result<T>): (r: Outcome<T>)
    ensures r.Done? <==> o.Done? && build(o.value).Ok?
    ensures r.Done? ==> r.value == build(o.value).value
    ensures o.ApiFailure? ==> r == ApiFailure(o.error)
    ensures o.Done? && build(o.value).Err? ==> r == PyFailure(build(o.value).kind, build(o.value).message)
  {
    match o
    case Done(v) =>
      (match build(v)
       case Ok(x) => Done(x)
       case Err(k, m) => PyFailure(k, m))
    case ApiFailure(e) => ApiFailure(e)
    case PyFailure(k, m) => PyFailure(k, m)
  }

  /** A 200 reply whose body decoded. */
  predicate DecodedOk(ex: Exchange)
  {
    ex.Replied? && ex.status == 200 && ex.body.Decoded?
  }

  /** The request `AddMemory` sends: a POST of the input's non-`None` fields. */
  function AddMemoryRequest(c: MemoryServiceConfig, args: AddMemoryInput): SentRequest
  {
    SentRequest("POST", AddMemoryUrl(c), Headers(c.apiKey), Some(ExcludeNone(AddMemoryFields(args))), None)
  }

  /** `AddMemory._arun`. */
  function AddMemory(c: MemoryServiceConfig, args: AddMemoryInput, send: SentRequest -> Exchange): (r: Outcome<NodesOutput>)
    ensures var ex := send(AddMemoryRequest(c, args));
            (r.Done? <==> DecodedOk(ex) && AddMemoryResult(ex.body.value).Ok?)
            && (r.Done? ==> r.value == AddMemoryResult(ex.body.value).value)
            && (ex.Replied? && ex.status != 200 ==>
                  r == ApiFailure(ErrorFromData("POST", AddMemoryUrl(c), ex.status, ErrorData(ex.body, ex.text))))
  {
    Then(Request(c.apiKey, "POST", AddMemoryUrl(c), Some(ExcludeNone(AddMemoryFields(args))), None, send), AddMemoryResult)
  }

  /** The request `SearchMemory` sends: a POST of the input's non-`None` fields. */
  function SearchMemoryRequest(c: MemoryServiceConfig, args: SearchMemoryInput): SentRequest
  {
    SentRequest("POST", SearchMemoryUrl(c), Headers(c.apiKey), Some(ExcludeNone(SearchMemoryFields(args))), None)
  }

  /** `SearchMemory._arun`. */
  function SearchMemory(c: MemoryServiceConfig, args: SearchMemoryInput, send: SentRequest -> Exchange): (r: Outcome<NodesOutput>)
    ensures var ex := send(SearchMemoryRequest(c, args));
            (r.Done? <==> DecodedOk(ex) && SearchMemoryResult(ex.body.value).Ok?)
            && (r.Done? ==> r.value == SearchMemoryResult(ex.body.value).value)
            && (ex.Replied? && ex.status != 200 ==>
                  r == ApiFailure(ErrorFromData("POST", SearchMemoryUrl(c), ex.status, ErrorData(ex.body, ex.text))))
  {
    Then(Request(c.apiKey, "POST", SearchMemoryUrl(c), Some(ExcludeNone(SearchMemoryFields(args))), None, send),
         SearchMemoryResult)
  }

  /** The request `ListMemory` sends: a GET with the input's non-`None` fields as query parameters. */
  function ListMemoryRequest(c: MemoryServiceConfig, args: ListMemoryInput): SentRequest
  {
    SentRequest("GET", ListMemoryUrl(c), Headers(c.apiKey), None, Some(ExcludeNone(ListMemoryFields(args))))
  }

  /** `ListMemory._arun`. */
  function ListMemory(c: MemoryServiceConfig, args: ListMemoryInput, send: SentRequest -> Exchange): (r: Outcome<ListMemoryOutput>)
    ensures var ex := send(ListMemoryRequest(c, args));
            (r.Done? <==> DecodedOk(ex) && ListMemoryResult(args, ex.body.value).Ok?)
            && (r.Done? ==> r.value == ListMemoryResult(args, ex.body.value).value)
            && (ex.Replied? && ex.status != 200 ==>
                  r == ApiFailure(ErrorFromData("GET", ListMemoryUrl(c), ex.status, ErrorData(ex.body, ex.text))))
  {
    Then(Request(c.apiKey, "GET", ListMemoryUrl(c), None, Some(ExcludeNone(ListMemoryFields(args))), send),
         (result: JsonValue) => ListMemoryResult(args, result))
  }

  /** The request `DeleteMemory` sends: a DELETE of the node's URL, without a body. */
  function DeleteMemoryRequest(c: MemoryServiceConfig, args: DeleteMemoryInput): SentRequest
  {
    SentRequest("DELETE", DeleteMemoryUrl(c, args.memoryNodeId), Headers(c.apiKey), None, None)
  }

  /** `DeleteMemory._arun`; a node that is not found surfaces as `MemoryNotFoundError` with the status 404. */
  function DeleteMemory(c: MemoryServiceConfig, args: DeleteMemoryInput, send: SentRequest -> Exchange)
    : (r: Outcome<DeleteMemoryOutput>)
    ensures var ex := send(DeleteMemoryRequest(c, args));
            (r.Done? <==> DecodedOk(ex) && DeleteMemoryResult(ex.body.value).Ok?)
            && (r.Done? ==> r.value == DeleteMemoryResult(ex.body.value).value)
            && (ex.Replied? && ex.status == 404 && ErrorData(ex.body, ex.text).JObj? ==>
                  r.ApiFailure? && r.error.cls == MemoryErrors.MemoryNotFoundError && r.error.statusCode == Some(404))
  {
    Then(Request(c.apiKey, "DELETE", DeleteMemoryUrl(c, args.memoryNodeId), None, None, send), DeleteMemoryResult)
  }

  /** The request `CreateProfileSchema` sends: a POST of the input's non-`None` fields. */
  function CreateProfileSchemaRequest(c: MemoryServiceConfig, args: CreateProfileSchemaInput): SentRequest
  {
    SentRequest("POST", CreateProfileSchemaUrl(c), Headers(c.apiKey), Some(ExcludeNone(CreateProfileSchemaFields(args))), None)
  }

  /** `CreateProfileSchema._arun`. */
  function CreateProfileSchema(c: MemoryServiceConfig, args: CreateProfileSchemaInput, send: SentRequest -> Exchange)
    : (r: Outcome<CreateProfileSchemaOutput>)
    ensures var ex := send(CreateProfileSchemaRequest(c, args));
            (r.Done? <==> DecodedOk(ex) && CreateProfileSchemaResult(ex.body.value).Ok?)
            && (r.Done? ==> r.value == CreateProfileSchemaResult(ex.body.value).value)
            && (ex.Replied? && ex.status != 200 ==>
                  r == ApiFailure(ErrorFromData("POST", CreateProfileSchemaUrl(c), ex.status, ErrorData(ex.body, ex.text))))
  {
    Then(Request(c.apiKey, "POST", CreateProfileSchemaUrl(c), Some(ExcludeNone(CreateProfileSchemaFields(args))), None, send),
         CreateProfileSchemaResult)
  }

  /** The request `GetUserProfile` sends: a GET with the user id as the only query parameter. */
  function GetUserProfileRequest(c: MemoryServiceConfig, args: GetUserProfileInput): SentRequest
  {
    SentRequest("GET", UserProfileUrl(c, args.schemaId), Headers(c.apiKey), None, Some([("user_id", JsonField(JStr(args.userId)))]))
  }

  /** `GetUserProfile._arun`. */
  function GetUserProfile(c: MemoryServiceConfig, args: GetUserProfileInput, send: SentRequest -> Exchange)
    : (r: Outcome<GetUserProfileOutput>)
    ensures var ex := send(GetUserProfileRequest(c, args));
            (r.Done? <==> DecodedOk(ex) && GetUserProfileResult(ex.body.value).Ok?)
            && (r.Done? ==> r.value == GetUserProfileResult(ex.body.value).value)
            && (ex.Replied? && ex.status != 200 ==>
                  r == ApiFailure(ErrorFromData("GET", UserProfileUrl(c, args.schemaId), ex.status, ErrorData(ex.body, ex.text))))
  {
    Then(Request(c.apiKey, "GET", UserProfileUrl(c, args.schemaId), None, Some([("user_id", JsonField(JStr(args.userId)))]), send),
         GetUserProfileResult)
  }
}
