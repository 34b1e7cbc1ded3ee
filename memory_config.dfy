/**
 * The configuration of the ModelStudio memory service
 * (tools/modelstudio_memory/config.py): an API key, an endpoint and a service
 * id read from the environment, and the URL of each API operation, built by
 * appending a fixed path to the endpoint.
 */
module MemoryConfig {
  import opened Wrappers
  import opened Strings
  import opened Dicts

  const DefaultMemoryServiceEndpoint := "https://dashscope.aliyuncs.com/api/v2/apps/memory"
  const DefaultServiceId := "memory_service"

  /** `MemoryServiceConfig`. */
  datatype MemoryServiceConfig = MemoryServiceConfig(apiKey: string, serviceEndpoint: string, serviceId: string)

  /**
   * `from_env`: the key must be set and non-empty; the endpoint and the
   * service id fall back to their defaults only when unset.
   */
  function FromEnv(env: Dict<string>): (r: Result<MemoryServiceConfig>)
    ensures r.Err? <==> !Truthy(Get(env, "DASHSCOPE_API_KEY"))
    ensures r.Err? ==> r.kind == "ValueError"
    ensures r.Ok? ==> Get(env, "DASHSCOPE_API_KEY") == Some(r.value.apiKey)
    ensures r.Ok? ==> r.value.serviceEndpoint == Get(env, "MEMORY_SERVICE_ENDPOINT").GetOr(DefaultMemoryServiceEndpoint)
    ensures r.Ok? ==> r.value.serviceId == Get(env, "MODELSTUDIO_SERVICE_ID").GetOr(DefaultServiceId)
  {
    var apiKey := Get(env, "DASHSCOPE_API_KEY");
    if !Truthy(apiKey) then
      Err("ValueError", "DASHSCOPE_API_KEY environment variable is required. "
                        + "Please set it before using ModelStudio Memory components.")
    else
      Ok(MemoryServiceConfig(
        apiKey.value,
        Get(env, "MEMORY_SERVICE_ENDPOINT").GetOr(DefaultMemoryServiceEndpoint),
        Get(env, "MODELSTUDIO_SERVICE_ID").GetOr(DefaultServiceId)))
  }

  /** With only the key set, the endpoint and the service id are the defaults. */
  lemma OnlyKeySet(apiKey: string)
    requires apiKey != ""
    ensures FromEnv([("DASHSCOPE_API_KEY", apiKey)])
      == Ok(MemoryServiceConfig(apiKey, DefaultMemoryServiceEndpoint, DefaultServiceId))
  {
    GetCons("DASHSCOPE_API_KEY", apiKey, [], "DASHSCOPE_API_KEY");
    GetCons("DASHSCOPE_API_KEY", apiKey, [], "MEMORY_SERVICE_ENDPOINT");
    GetCons("DASHSCOPE_API_KEY", apiKey, [], "MODELSTUDIO_SERVICE_ID");
  }

  /** `config or MemoryServiceConfig.from_env()`: a given configuration wins. */
  function ConfigOrEnv(config: Option<MemoryServiceConfig>, env: Dict<string>): (r: Result<MemoryServiceConfig>)
    ensures config.Some? ==> r == Ok(config.value)
    ensures config.None? ==> r == FromEnv(env)
  {
    if config.Some? then Ok(config.value) else FromEnv(env)
  }

  function AddMemoryUrl(c: MemoryServiceConfig): (u: string)
    ensures StartsWith(u, c.serviceEndpoint) && u[|c.serviceEndpoint|..] == "/add"
  {
    var u := c.serviceEndpoint + "/add";
    assert u[..|c.serviceEndpoint|] == c.serviceEndpoint;
    u
  }

  function SearchMemoryUrl(c: MemoryServiceConfig): (u: string)
    ensures StartsWith(u, c.serviceEndpoint) && u[|c.serviceEndpoint|..] == "/memory_nodes/search"
  {
    var u := c.serviceEndpoint + "/memory_nodes/search";
    assert u[..|c.serviceEndpoint|] == c.serviceEndpoint;
    u
  }

  function ListMemoryUrl(c: MemoryServiceConfig): (u: string)
    ensures StartsWith(u, c.serviceEndpoint) && u[|c.serviceEndpoint|..] == "/memory_nodes"
  {
    var u := c.serviceEndpoint + "/memory_nodes";
    assert u[..|c.serviceEndpoint|] == c.serviceEndpoint;
    u
  }

  function DeleteMemoryUrl(c: MemoryServiceConfig, memoryNodeId: string): (u: string)
    ensures StartsWith(u, c.serviceEndpoint) && u[|c.serviceEndpoint|..] == "/memory_nodes/" + memoryNodeId
  {
    var u := c.serviceEndpoint + "/memory_nodes/" + memoryNodeId;
    assert u[..|c.serviceEndpoint|] == c.serviceEndpoint;
    u
  }

  function CreateProfileSchemaUrl(c: MemoryServiceConfig): (u: string)
    ensures StartsWith(u, c.serviceEndpoint) && u[|c.serviceEndpoint|..] == "/profile_schemas"
  {
    var u := c.serviceEndpoint + "/profile_schemas";
    assert u[..|c.serviceEndpoint|] == c.serviceEndpoint;
    u
  }

  function UserProfileUrl(c: MemoryServiceConfig, schemaId: string): (u: string)
    ensures StartsWith(u, c.serviceEndpoint)
    ensures u[|c.serviceEndpoint|..] == "/profile_schemas/" + schemaId + "/user_profile"
  {
    var u := c.serviceEndpoint + "/profile_schemas/" + schemaId + "/user_profile";
    assert u[..|c.serviceEndpoint|] == c.serviceEndpoint;
    u
  }

  /** The six operations of the API, each with the ids its URL holds. */
  datatype Route =
    | AddMemoryRoute
    | SearchMemoryRoute
    | ListMemoryRoute
    | DeleteMemoryRoute(memoryNodeId: string)
    | CreateProfileSchemaRoute
    | UserProfileRoute(schemaId: string)

  /** The HTTP method each operation is sent with. */
  function RouteMethod(r: Route): string
  {
    match r
    case AddMemoryRoute => "POST"
    case SearchMemoryRoute => "POST"
    case ListMemoryRoute => "GET"
    case DeleteMemoryRoute(_) => "DELETE"
    case CreateProfileSchemaRoute => "POST"
    case UserProfileRoute(_) => "GET"
  }

  /** The URL each operation is sent to. */
  function RouteUrl(c: MemoryServiceConfig, r: Route): string
  {
    match r
    case AddMemoryRoute => AddMemoryUrl(c)
    case SearchMemoryRoute => SearchMemoryUrl(c)
    case ListMemoryRoute => ListMemoryUrl(c)
    case DeleteMemoryRoute(id) => DeleteMemoryUrl(c, id)
    case CreateProfileSchemaRoute => CreateProfileSchemaUrl(c)
    case UserProfileRoute(id) => UserProfileUrl(c, id)
  }

  /** The operation a method name and a request path (the URL after the endpoint) stand for. */
  function ParsePath(verb: string, path: string): Option<Route>
  {
    if verb == "POST" then
      if path == "/add" then Some(AddMemoryRoute)
      else if path == "/memory_nodes/search" then Some(SearchMemoryRoute)
      else if path == "/profile_schemas" then Some(CreateProfileSchemaRoute)
      else None
    else if verb == "GET" then
      if path == "/memory_nodes" then Some(ListMemoryRoute)
      else if |path| >= 30 && path[..17] == "/profile_schemas/" && path[|path| - 13..] == "/user_profile"
              && !HasChar(path[17..|path| - 13], '/') then
        Some(UserProfileRoute(path[17..|path| - 13]))
      else None
    else if verb == "DELETE" then
      if |path| >= 14 && path[..14] == "/memory_nodes/" && !HasChar(path[14..], '/') then
        Some(DeleteMemoryRoute(path[14..]))
      else None
    else None
  }

  /** The operation a request (method and URL) is for, if any. */
  function ParseRoute(c: MemoryServiceConfig, verb: string, url: string): Option<Route>
  {
    if StartsWith(url, c.serviceEndpoint) then ParsePath(verb, url[|c.serviceEndpoint|..]) else None
  }

  /** Ids the URL keeps apart from the fixed path: no `/` in them. */
  predicate PlainIds(r: Route)
  {
    match r
    case DeleteMemoryRoute(id) => !HasChar(id, '/')
    case UserProfileRoute(id) => !HasChar(id, '/')
    case _ => true
  }

  lemma DeletePathRoundTrip(id: string)
    requires !HasChar(id, '/')
    ensures ParsePath("DELETE", "/memory_nodes/" + id) == Some(DeleteMemoryRoute(id))
  {
    var p := "/memory_nodes/" + id;
    assert p[..14] == "/memory_nodes/" && p[14..] == id;
  }

  lemma UserProfilePathRoundTrip(id: string)
    requires !HasChar(id, '/')
    ensures ParsePath("GET", "/profile_schemas/" + id + "/user_profile") == Some(UserProfileRoute(id))
  {
    var p := "/profile_schemas/" + id + "/user_profile";
    assert p[..17] == "/profile_schemas/";
    assert p[|p| - 13..] == "/user_profile";
    assert p[17..|p| - 13] == id;
    assert p != "/memory_nodes" by { assert |p| >= 30; }
  }

  lemma FixedPathsRoundTrip()
    ensures ParsePath("POST", "/add") == Some(AddMemoryRoute)
    ensures ParsePath("POST", "/memory_nodes/search") == Some(SearchMemoryRoute)
    ensures ParsePath("POST", "/profile_schemas") == Some(CreateProfileSchemaRoute)
    ensures ParsePath("GET", "/memory_nodes") == Some(ListMemoryRoute)
  {
    assert "/memory_nodes/search" != "/add";
    assert "/profile_schemas" != "/add" && "/profile_schemas" != "/memory_nodes/search";
  }

  /**
   * Every request names its operation: the method and URL of an operation
   * parse back to that operation, ids included. A node id "search" is no
   * exception, since deleting it uses DELETE and searching uses POST.
   */
  lemma RouteRoundTrip(c: MemoryServiceConfig, r: Route)
    requires PlainIds(r)
    ensures ParseRoute(c, RouteMethod(r), RouteUrl(c, r)) == Some(r)
  {
    FixedPathsRoundTrip();
    match r
    case DeleteMemoryRoute(id) => DeletePathRoundTrip(id);
    case UserProfileRoute(id) => UserProfilePathRoundTrip(id);
    case _ =>
  }

  /** So two operations never share a method and URL. */
  lemma RoutesDistinct(c: MemoryServiceConfig, r1: Route, r2: Route)
    requires PlainIds(r1) && PlainIds(r2) && r1 != r2
    ensures RouteMethod(r1) != RouteMethod(r2) || RouteUrl(c, r1) != RouteUrl(c, r2)
  {
    RouteRoundTrip(c, r1);
    RouteRoundTrip(c, r2);
  }
}
