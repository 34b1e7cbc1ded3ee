/**
 * The request and response models of the ModelStudio memory tools
 * (tools/modelstudio_memory/schemas.py): the inputs with their pydantic
 * defaults, what `model_dump(exclude_none=True)` sends for them, and how the
 * response models validate the decoded JSON they are built from.
 */
module MemorySchemas {
  import opened Wrappers
  import opened Strings
  import opened Dicts
  import opened Json
  import opened RuntimeMessage

  /** A dumped field: a JSON value, or a float such as `min_score`. */
  datatype Value = JsonField(j: JsonValue) | FloatField(x: real)

  /** A field whose value is `None`. */
  predicate IsNone(v: Value)
  {
    v == JsonField(JNull)
  }

  /** An optional field: its value, or `None`. */
  function OptField(o: Option<JsonValue>): Value
  {
    if o.Some? then JsonField(o.value) else JsonField(JNull)
  }

  /** `model_dump(exclude_none=True)`: the fields in order, without those that are `None`. */
  function ExcludeNone(fields: Dict<Value>): (r: Dict<Value>)
    ensures |r| <= |fields|
    ensures forall i :: 0 <= i < |r| ==> !IsNone(r[i].1)
    ensures forall i :: 0 <= i < |r| ==> r[i] in fields
    decreases |fields|
  {
    if fields == [] then []
    else (if IsNone(fields[0].1) then [] else [fields[0]]) + ExcludeNone(fields[1..])
  }

  /** A key of the dump has the value it has among the fields, unless that value is `None`. */
  lemma {:induction false} ExcludeNoneGet(fields: Dict<Value>, k: string)
    requires UniqueKeys(fields)
    ensures Get(fields, k).Some? && !IsNone(Get(fields, k).value) ==> Get(ExcludeNone(fields), k) == Get(fields, k)
    ensures Get(fields, k).None? || IsNone(Get(fields, k).value) ==> Get(ExcludeNone(fields), k).None?
    decreases |fields|
  {
    if fields != [] {
      var f := fields[0];
      var rest := fields[1..];
      assert fields == [f] + rest;
      assert UniqueKeys(rest);
      ExcludeNoneGet(rest, k);
      GetCons(f.0, f.1, rest, k);
      if f.0 == k {
        assert !HasKey(rest, k) by {
          forall j | 0 <= j < |rest| ensures Keys(rest)[j] != k {
            assert rest[j] == fields[j + 1];
          }
        }
      }
      if IsNone(f.1) {
        assert ExcludeNone(fields) == ExcludeNone(rest);
      } else {
        assert ExcludeNone(fields) == [f] + ExcludeNone(rest);
        GetCons(f.0, f.1, ExcludeNone(rest), k);
      }
    }
  }

  /** `Message`: a role and any content. */
  datatype Message = Message(role: string, content: JsonValue)

  /** A dumped message: its role, and its content unless that is `None`. */
  function MessageDump(m: Message): (r: JsonValue)
    ensures r.JObj? && Get(r.fields, "role") == Some(JStr(m.role))
    ensures m.content == JNull <==> !HasKey(r.fields, "content")
  {
    var d := [("role", JStr(m.role))] + (if m.content == JNull then [] else [("content", m.content)]);
    GetCons("role", JStr(m.role), d[1..], "role");
    assert Keys(d) == ["role"] + Keys(d[1..]);
    JObj(d)
  }

  function MessagesDump(ms: seq<Message>): (r: JsonValue)
    ensures r.JArr? && |r.items| == |ms|
    ensures forall i :: 0 <= i < |ms| ==> r.items[i] == MessageDump(ms[i])
  {
    JArr(Map(ms, MessageDump))
  }

  /** `AddMemoryInput`; `extra` holds the further fields the model allows. */
  datatype AddMemoryInput = AddMemoryInput(
    userId: string,
    messages: seq<Message>,
    metaData: Option<Dict<JsonValue>>,
    extra: Dict<Value>)

  /** `SearchMemoryInput`. */
  datatype SearchMemoryInput = SearchMemoryInput(
    userId: string,
    messages: seq<Message>,
    topK: Option<int>,
    minScore: Option<real>,
    extra: Dict<Value>)

  /** `ListMemoryInput`. */
  datatype ListMemoryInput = ListMemoryInput(
    userId: string,
    pageNum: Option<int>,
    pageSize: Option<int>,
    extra: Dict<Value>)

  /** `DeleteMemoryInput`. */
  datatype DeleteMemoryInput = DeleteMemoryInput(userId: string, memoryNodeId: string, extra: Dict<Value>)

  /** `ProfileAttribute`. */
  datatype ProfileAttribute = ProfileAttribute(
    name: string,
    description: Option<string>,
    immutable: Option<bool>,
    defaultValue: JsonValue)

  /** `CreateProfileSchemaInput`. */
  datatype CreateProfileSchemaInput = CreateProfileSchemaInput(
    name: string,
    description: Option<string>,
    attributes: seq<ProfileAttribute>,
    extra: Dict<Value>)

  /** `GetUserProfileInput`. */
  datatype GetUserProfileInput = GetUserProfileInput(schemaId: string, userId: string)

  const DefaultTopK: int := 100
  const DefaultMinScore: real := 0.0
  const DefaultPageNum: int := 1
  const DefaultPageSize: int := 10

  /** `SearchMemoryInput(...)` with the keywords left out taking their defaults. */
  function NewSearchMemoryInput(userId: string, messages: seq<Message>, topK: Option<int> := Some(DefaultTopK),
                                minScore: Option<real> := Some(DefaultMinScore), extra: Dict<Value> := []): SearchMemoryInput
  {
    SearchMemoryInput(userId, messages, topK, minScore, extra)
  }

  /** `ListMemoryInput(...)` with the keywords left out taking their defaults. */
  function NewListMemoryInput(userId: string, pageNum: Option<int> := Some(DefaultPageNum),
                              pageSize: Option<int> := Some(DefaultPageSize), extra: Dict<Value> := []): ListMemoryInput
  {
    ListMemoryInput(userId, pageNum, pageSize, extra)
  }

  /** `ProfileAttribute(...)` with the keywords left out taking their defaults. */
  function NewProfileAttribute(name: string, description: Option<string> := None, immutable: Option<bool> := Some(false),
                               defaultValue: JsonValue := JNull): ProfileAttribute
  {
    ProfileAttribute(name, description, immutable, defaultValue)
  }

  function OptStrValue(o: Option<string>): Value
  {
    if o.Some? then JsonField(JStr(o.value)) else JsonField(JNull)
  }

  function OptIntValue(o: Option<int>): Value
  {
    if o.Some? then JsonField(JNum(o.value)) else JsonField(JNull)
  }

  function OptRealValue(o: Option<real>): Value
  {
    if o.Some? then FloatField(o.value) else JsonField(JNull)
  }

  function AddMemoryFields(a: AddMemoryInput): Dict<Value>
  {
    [("user_id", JsonField(JStr(a.userId))),
     ("messages", JsonField(MessagesDump(a.messages))),
     ("meta_data", if a.metaData.Some? then JsonField(JObj(a.metaData.value)) else JsonField(JNull))]
    + a.extra
  }

  function SearchMemoryFields(a: SearchMemoryInput): Dict<Value>
  {
    [("user_id", JsonField(JStr(a.userId))),
     ("messages", JsonField(MessagesDump(a.messages))),
     ("top_k", OptIntValue(a.topK)),
     ("min_score", OptRealValue(a.minScore))]
    + a.extra
  }

  function ListMemoryFields(a: ListMemoryInput): Dict<Value>
  {
    [("user_id", JsonField(JStr(a.userId))),
     ("page_num", OptIntValue(a.pageNum)),
     ("page_size", OptIntValue(a.pageSize))]
    + a.extra
  }

  function AttributeDump(p: ProfileAttribute): JsonValue
  {
    var fields := [("name", JsonField(JStr(p.name))), ("description", OptStrValue(p.description)),
                   ("immutable", if p.immutable.Some? then JsonField(JBool(p.immutable.value)) else JsonField(JNull)),
                   ("default_value", JsonField(p.defaultValue))];
    JObj(seq(|ExcludeNone(fields)|, i requires 0 <= i < |ExcludeNone(fields)| => (ExcludeNone(fields)[i].0, ExcludeNone(fields)[i].1.j)))
  }

  function CreateProfileSchemaFields(a: CreateProfileSchemaInput): Dict<Value>
  {
    [("name", JsonField(JStr(a.name))),
     ("description", OptStrValue(a.description)),
     ("attributes", JsonField(JArr(Map(a.attributes, AttributeDump))))]
    + a.extra
  }

  /** The declared fields and the extra ones never share a name, as pydantic keeps them. */
  predicate ExtraApart(declared: seq<string>, extra: Dict<Value>)
  {
    UniqueKeys(extra) && forall i :: 0 <= i < |extra| ==> extra[i].0 !in declared
  }

  lemma DeclaredThenExtraUnique(declared: Dict<Value>, extra: Dict<Value>)
    requires UniqueKeys(declared) && ExtraApart(Keys(declared), extra)
    ensures UniqueKeys(declared + extra)
  {
    var d := declared + extra;
    forall i, j | 0 <= i < j < |d| ensures d[i].0 != d[j].0 {
      if j >= |declared| && i < |declared| {
        assert d[j] == extra[j - |declared|];
        assert Keys(declared)[i] == d[i].0;
      } else if i >= |declared| {
        assert d[i] == extra[i - |declared|] && d[j] == extra[j - |declared|];
      }
    }
  }

  const SearchDeclared := ["user_id", "messages", "top_k", "min_score"]

  /**
   * The search request a default-built input sends: top_k 100 and
   * min_score 0.0 are present, the user id is the caller's.
   */
  lemma SearchDefaultsSent(userId: string, messages: seq<Message>, extra: Dict<Value>)
    requires ExtraApart(SearchDeclared, extra)
    ensures Get(ExcludeNone(SearchMemoryFields(NewSearchMemoryInput(userId, messages, extra := extra))), "top_k")
      == Some(JsonField(JNum(100)))
    ensures Get(ExcludeNone(SearchMemoryFields(NewSearchMemoryInput(userId, messages, extra := extra))), "min_score")
      == Some(FloatField(0.0))
    ensures Get(ExcludeNone(SearchMemoryFields(NewSearchMemoryInput(userId, messages, extra := extra))), "user_id")
      == Some(JsonField(JStr(userId)))
  {
    var a := NewSearchMemoryInput(userId, messages, extra := extra);
    var declared: Dict<Value> := [("user_id", JsonField(JStr(userId))), ("messages", JsonField(MessagesDump(messages))),
                                 ("top_k", OptIntValue(a.topK)), ("min_score", OptRealValue(a.minScore))];
    assert Keys(declared) == SearchDeclared;
    DeclaredThenExtraUnique(declared, extra);
    var fields := SearchMemoryFields(a);
    assert fields == declared + extra;
    assert fields[0] == ("user_id", JsonField(JStr(userId)));
    assert fields[2] == ("top_k", JsonField(JNum(100)));
    assert fields[3] == ("min_score", FloatField(0.0));
    GetUnique(fields, "user_id", JsonField(JStr(userId)));
    GetUnique(fields, "top_k", JsonField(JNum(100)));
    GetUnique(fields, "min_score", FloatField(0.0));
    ExcludeNoneGet(fields, "top_k");
    ExcludeNoneGet(fields, "min_score");
    ExcludeNoneGet(fields, "user_id");
  }

  /** An optional field given as `None` is left out of the request altogether. */
  lemma NoneFieldNotSent(a: ListMemoryInput)
    requires ExtraApart(["user_id", "page_num", "page_size"], a.extra)
    requires a.pageSize.None?
    ensures !HasKey(ExcludeNone(ListMemoryFields(a)), "page_size")
  {
    var declared: Dict<Value> := [("user_id", JsonField(JStr(a.userId))), ("page_num", OptIntValue(a.pageNum)),
                                 ("page_size", OptIntValue(a.pageSize))];
    assert Keys(declared) == ["user_id", "page_num", "page_size"];
    DeclaredThenExtraUnique(declared, a.extra);
    var fields := ListMemoryFields(a);
    assert fields == declared + a.extra;
    assert fields[2] == ("page_size", JsonField(JNull));
    GetUnique(fields, "page_size", JsonField(JNull));
    ExcludeNoneGet(fields, "page_size");
  }

  /** `validate_attributes`: a schema needs at least one attribute. */
  function ValidateAttributes(a: CreateProfileSchemaInput): (r: Result<CreateProfileSchemaInput>)
    ensures r.Err? <==> a.attributes == []
    ensures r.Err? ==> r.kind == "ValidationError"
    ensures r.Ok? ==> r.value == a
  {
    if a.attributes == [] then Err("ValidationError", "Value error, attributes must contain at least one item")
    else Ok(a)
  }

  /** `MemoryNode`. */
  datatype MemoryNode = MemoryNode(
    memoryNodeId: Option<string>,
    content: string,
    event: Option<string>,
    oldContent: Option<string>)

  /** A required `str` field: a JSON string, anything else fails validation. */
  function RequiredStr(v: Option<JsonValue>, field: string): (r: Result<string>)
    ensures r.Ok? <==> v.Some? && v.value.JStr?
    ensures r.Ok? ==> v == Some(JStr(r.value))
    ensures r.Err? ==> r.kind == "ValidationError"
  {
    if v.Some? && v.value.JStr? then Ok(v.value.s) else Err("ValidationError", field)
  }

  /** An `Optional[str]` field: absent or `null` is `None`, a string is kept, anything else fails validation. */
  function OptionalStr(v: Option<JsonValue>, field: string): (r: Result<Option<string>>)
    ensures r.Ok? <==> v.None? || v.value.JNull? || v.value.JStr?
    ensures r == Ok(None) <==> v.None? || v.value.JNull?
    ensures r.Ok? && r.value.Some? ==> v == Some(JStr(r.value.value))
    ensures r.Err? ==> r.kind == "ValidationError"
  {
    if v.None? || v.value.JNull? then Ok(None)
    else if v.value.JStr? then Ok(Some(v.value.s))
    else Err("ValidationError", field)
  }

  /**
   * A required `int` field, validated in the lax mode: an integer as is, a
   * boolean as 0 or 1, and a string that reads as a decimal integer.
   */
  function RequiredInt(v: JsonValue, field: string): (r: Result<int>)
    ensures v.JNum? ==> r == Ok(v.n)
    ensures v.JBool? ==> r == Ok(if v.b then 1 else 0)
    ensures v.JStr? ==> (r.Ok? <==> ParseInt(v.s).Some?)
    ensures v.JStr? && r.Ok? ==> r.value == ParseInt(v.s).value
    ensures v.JNull? || v.JArr? || v.JObj? ==> r == Err("ValidationError", field)
  {
    match v
    case JNum(n) => Ok(n)
    case JBool(b) => Ok(if b then 1 else 0)
    case JStr(text) =>
      (match ParseInt(text)
       case Some(n) => Ok(n)
       case None => Err("ValidationError", field))
    case _ => Err("ValidationError", field)
  }

  /** `MemoryNode(**node)`: a mapping is required; `content` must be text; the optional fields text or `null`. */
  function NodeOf(node: JsonValue): (r: Result<MemoryNode>)
    ensures !node.JObj? ==> r.Err? && r.kind == "TypeError"
    ensures node.JObj? && r.Ok? ==> Some(JStr(r.value.content)) == Get(node.fields, "content")
    ensures node.JObj? ==> (RequiredStr(Get(node.fields, "content"), "content").Err? ==> r.Err?)
  {
    if !node.JObj? then Err("TypeError", "MemoryNode() argument after ** must be a mapping, not " + PyTypeName(node))
    else
      var d := node.fields;
      match OptionalStr(Get(d, "memory_node_id"), "memory_node_id")
      case Err(k, m) => Err(k, m)
      case Ok(id) =>
        match RequiredStr(Get(d, "content"), "content")
        case Err(k, m) => Err(k, m)
        case Ok(content) =>
          match OptionalStr(Get(d, "event"), "event")
          case Err(k, m) => Err(k, m)
          case Ok(event) =>
            match OptionalStr(Get(d, "old_content"), "old_content")
            case Err(k, m) => Err(k, m)
            case Ok(oldContent) => Ok(MemoryNode(id, content, event, oldContent))
  }

  /** A node dict with its fields as text is read back field by field. */
  lemma NodeOfFields(id: string, content: string)
    ensures NodeOf(JObj([("memory_node_id", JStr(id)), ("content", JStr(content))]))
      == Ok(MemoryNode(Some(id), content, None, None))
  {
    var d := [("memory_node_id", JStr(id)), ("content", JStr(content))];
    GetCons("memory_node_id", JStr(id), d[1..], "content");
    GetCons("memory_node_id", JStr(id), d[1..], "event");
    GetCons("memory_node_id", JStr(id), d[1..], "old_content");
    GetCons("content", JStr(content), [], "event");
    GetCons("content", JStr(content), [], "old_content");
    GetCons("memory_node_id", JStr(id), d[1..], "memory_node_id");
    GetCons("content", JStr(content), [], "content");
  }

  /** `UserProfileAttribute`. */
  datatype UserProfileAttribute = UserProfileAttribute(name: string, id: string, value: JsonValue)

  /** `UserProfile`. */
  datatype UserProfile = UserProfile(
    schemaDescription: Option<string>,
    schemaName: Option<string>,
    attributes: seq<UserProfileAttribute>)

  /** `GetUserProfileOutput`. */
  datatype GetUserProfileOutput = GetUserProfileOutput(requestId: string, profile: UserProfile)

  /**
   * A field with an alias, under `populate_by_name`: the alias is looked up
   * first, then the field name.
   */
  function ByAliasOrName(d: Dict<JsonValue>, alias: string, name: string): (r: Option<JsonValue>)
    ensures HasKey(d, alias) ==> r == Get(d, alias)
    ensures !HasKey(d, alias) ==> r == Get(d, name)
  {
    if HasKey(d, alias) then Get(d, alias) else Get(d, name)
  }

  /** A validated attribute entry: a mapping with text `name` and `id` and any `value`. */
  function UserAttributeOf(v: JsonValue): (r: Result<UserProfileAttribute>)
    ensures r.Ok? ==> v.JObj? && Get(v.fields, "name") == Some(JStr(r.value.name)) && Get(v.fields, "id") == Some(JStr(r.value.id))
  {
    if !v.JObj? then Err("ValidationError", "attributes")
    else
      match RequiredStr(Get(v.fields, "name"), "name")
      case Err(k, m) => Err(k, m)
      case Ok(name) =>
        match RequiredStr(Get(v.fields, "id"), "id")
        case Err(k, m) => Err(k, m)
        case Ok(id) => Ok(UserProfileAttribute(name, id, Get(v.fields, "value").GetOr(JNull)))
  }

  /** `UserProfile.model_validate(d)`: each aliased field by its camelCase alias or by its name. */
  function UserProfileOf(d: Dict<JsonValue>): (r: Result<UserProfile>)
    ensures r.Ok? ==> OptionalStr(ByAliasOrName(d, "schemaName", "schema_name"), "schemaName") == Ok(r.value.schemaName)
    ensures r.Ok? ==> OptionalStr(ByAliasOrName(d, "schemaDescription", "schema_description"), "schemaDescription")
                      == Ok(r.value.schemaDescription)
  {
    match OptionalStr(ByAliasOrName(d, "schemaDescription", "schema_description"), "schemaDescription")
    case Err(k, m) => Err(k, m)
    case Ok(desc) =>
      match OptionalStr(ByAliasOrName(d, "schemaName", "schema_name"), "schemaName")
      case Err(k, m) => Err(k, m)
      case Ok(name) =>
        var raw := Get(d, "attributes").GetOr(JArr([]));
        if !raw.JArr? then Err("ValidationError", "attributes")
        else
          match Collect(Map(raw.items, UserAttributeOf))
          case Err(k, m) => Err(k, m)
          case Ok(attrs) => Ok(UserProfile(desc, name, attrs))
  }

  /** A profile given by its camelCase aliases is accepted. */
  lemma AliasAccepted(name: string, description: string)
    ensures UserProfileOf([("schemaName", JStr(name)), ("schemaDescription", JStr(description))])
      == Ok(UserProfile(Some(description), Some(name), []))
  {
    var a := [("schemaName", JStr(name)), ("schemaDescription", JStr(description))];
    GetCons("schemaName", JStr(name), a[1..], "schemaName");
    GetCons("schemaName", JStr(name), a[1..], "schemaDescription");
    GetCons("schemaDescription", JStr(description), [], "schemaDescription");
    GetCons("schemaName", JStr(name), a[1..], "attributes");
    GetCons("schemaDescription", JStr(description), [], "attributes");
    assert ByAliasOrName(a, "schemaName", "schema_name") == Some(JStr(name));
    assert ByAliasOrName(a, "schemaDescription", "schema_description") == Some(JStr(description));
    assert Get(a, "attributes") == None;
    assert Map([], UserAttributeOf) == [];
  }

  /** The same profile given by its snake_case field names is accepted too. */
  lemma FieldNameAccepted(name: string, description: string)
    ensures UserProfileOf([("schema_name", JStr(name)), ("schema_description", JStr(description))])
      == Ok(UserProfile(Some(description), Some(name), []))
  {
    var b := [("schema_name", JStr(name)), ("schema_description", JStr(description))];
    GetCons("schema_name", JStr(name), b[1..], "schemaName");
    GetCons("schema_description", JStr(description), [], "schemaName");
    GetCons("schema_name", JStr(name), b[1..], "schemaDescription");
    GetCons("schema_description", JStr(description), [], "schemaDescription");
    GetCons("schema_name", JStr(name), b[1..], "schema_name");
    GetCons("schema_name", JStr(name), b[1..], "schema_description");
    GetCons("schema_description", JStr(description), [], "schema_description");
    GetCons("schema_name", JStr(name), b[1..], "attributes");
    GetCons("schema_description", JStr(description), [], "attributes");
    assert ByAliasOrName(b, "schemaName", "schema_name") == Some(JStr(name));
    assert ByAliasOrName(b, "schemaDescription", "schema_description") == Some(JStr(description));
    assert Get(b, "attributes") == None;
    assert Map([], UserAttributeOf) == [];
  }

  /** `GetUserProfileOutput.model_validate(d)`: `requestId` or `request_id`, and the profile. */
  function GetUserProfileOutputOf(d: Dict<JsonValue>): (r: Result<GetUserProfileOutput>)
    ensures r.Ok? ==> ByAliasOrName(d, "requestId", "request_id") == Some(JStr(r.value.requestId))
    ensures r.Ok? ==> exists p :: Get(d, "profile") == Some(JObj(p)) && UserProfileOf(p) == Ok(r.value.profile)
  {
    match RequiredStr(ByAliasOrName(d, "requestId", "request_id"), "requestId")
    case Err(k, m) => Err(k, m)
    case Ok(rid) =>
      match Get(d, "profile")
      case None => Err("ValidationError", "profile")
      case Some(p) =>
        if !p.JObj? then Err("ValidationError", "profile")
        else
          match UserProfileOf(p.fields)
          case Err(k, m) => Err(k, m)
          case Ok(profile) => Ok(GetUserProfileOutput(rid, profile))
  }

  /** `AddMemoryOutput` and `SearchMemoryOutput`. */
  datatype NodesOutput = NodesOutput(memoryNodes: seq<MemoryNode>, requestId: string)

  /** `ListMemoryOutput`. */
  datatype ListMemoryOutput = ListMemoryOutput(
    memoryNodes: seq<MemoryNode>,
    pageSize: int,
    pageNum: int,
    total: int,
    requestId: string)

  /** `DeleteMemoryOutput`. */
  datatype DeleteMemoryOutput = DeleteMemoryOutput(requestId: string)

  /** `CreateProfileSchemaOutput`. */
  datatype CreateProfileSchemaOutput = CreateProfileSchemaOutput(profileSchemaId: string, requestId: string)
}
