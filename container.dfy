/**
 * The sandbox container record (`ContainerModel`) and its lifecycle states.
 * A record is the value the manager keeps per container name; its
 * validator normalises the session binding between the `session_ctx_id`
 * field and `meta["session_ctx_id"]`. Timestamps are integer seconds.
 */
module Container {
  import opened Wrappers

  datatype ContainerState = Warm | Running | Recycled | Error | Released

  /** The string value of each state. */
  function StateValue(s: ContainerState): (v: string)
    ensures v in {"warm", "running", "recycled", "error", "released"}
  {
    match s
    case Warm => "warm"
    case Running => "running"
    case Recycled => "recycled"
    case Error => "error"
    case Released => "released"
  }

  /** Parsing a state value; any other text is rejected. */
  function StateFromValue(v: string): (r: Option<ContainerState>)
    ensures r.Some? ==> StateValue(r.value) == v
    ensures v in {"warm", "running", "recycled", "error", "released"} ==> r.Some?
  {
    if v == "warm" then Some(Warm)
    else if v == "running" then Some(Running)
    else if v == "recycled" then Some(Recycled)
    else if v == "error" then Some(Error)
    else if v == "released" then Some(Released)
    else None
  }

  /** Every state has a distinct value, and parsing gives it back. */
  lemma StateValueRoundTrip(s: ContainerState)
    ensures StateFromValue(StateValue(s)) == Some(s)
  {
  }

  const SessionKey: string := "session_ctx_id"

  type Meta = map<string, string>

  datatype ContainerRecord = ContainerRecord(
    sessionId: string,
    containerId: string,
    containerName: string,
    url: string,
    ports: seq<int>,
    mountDir: Option<string>,
    storagePath: Option<string>,
    runtimeToken: Option<string>,
    version: Option<string>,
    meta: Option<Meta>,
    timeout: Option<int>,
    sandboxType: Option<string>,
    state: ContainerState,
    sessionCtxId: Option<string>,
    lastActiveAt: Option<int>,
    recycledAt: Option<int>,
    releasedAt: Option<int>,
    updatedAt: Option<int>,
    recycleReason: Option<string>)
  {
    /** `meta`, read as the empty dict when absent. */
    function MetaOrEmpty(): Meta
    {
      if meta.Some? then meta.value else map[]
    }

    /** `meta.get("session_ctx_id")`. */
    function MetaCtx(): Option<string>
    {
      if SessionKey in MetaOrEmpty() then Some(MetaOrEmpty()[SessionKey]) else None
    }
  }

  /**
   * A record given only its required fields: `meta` defaults to an empty
   * dict, `state` to RUNNING, and every other optional field to None.
   */
  function DefaultRecord(sessionId: string, containerId: string, containerName: string, url: string,
                         ports: seq<int>): (c: ContainerRecord)
    ensures c.sessionId == sessionId && c.containerId == containerId && c.containerName == containerName
    ensures c.url == url && c.ports == ports
    ensures c.state == Running && c.meta == Some(map[])
    ensures c.mountDir == None && c.storagePath == None && c.runtimeToken == None && c.version == None
    ensures c.timeout == None && c.sandboxType == None && c.sessionCtxId == None && c.lastActiveAt == None
    ensures c.recycledAt == None && c.releasedAt == None && c.updatedAt == None && c.recycleReason == None
  {
    ContainerRecord(sessionId, containerId, containerName, url, ports, None, None, None, None,
                    Some(map[]), None, None, Running, None, None, None, None, None, None)
  }

  /**
   * Validation leaves a defaulted record unbound and RUNNING: it is bound
   * as it stands, and once `updated_at` is stamped it is a validated record.
   */
  lemma DefaultRecordValidates(sessionId: string, containerId: string, containerName: string, url: string,
                               ports: seq<int>, now: int)
    ensures Bound(DefaultRecord(sessionId, containerId, containerName, url, ports))
    ensures Validated(DefaultRecord(sessionId, containerId, containerName, url, ports).(updatedAt := Some(now)))
  {
  }

  /** What every validated record satisfies. */
  predicate Validated(c: ContainerRecord)
  {
    && c.meta.Some?
    && c.updatedAt.Some?
    && (c.timeout.Some? ==> c.timeout.value >= 0)
    && Bound(c)
  }

  /**
   * The session binding is consistent: a truthy `session_ctx_id` field is
   * mirrored in `meta`, and a falsy one leaves no truthy id in `meta`.
   */
  predicate Bound(c: ContainerRecord)
  {
    && (Truthy(c.sessionCtxId) ==> c.MetaCtx() == c.sessionCtxId)
    && (!Truthy(c.sessionCtxId) ==> !Truthy(c.MetaCtx()))
  }

  /**
   * `ContainerModel(...)` validation: a negative timeout is rejected,
   * then `_compat_and_defaults` runs its four normalisation steps in order.
   */
  method CompatAndDefaults(raw: ContainerRecord, now: int) returns (r: Result<ContainerRecord>)
    ensures r.Err? <==> (raw.timeout.Some? && raw.timeout.value < 0)
    ensures r.Ok? ==> Validated(r.value)
    ensures r.Ok? ==> (r.value.sessionCtxId ==
      (if Truthy(raw.sessionCtxId) then raw.sessionCtxId
       else if Truthy(raw.MetaCtx()) then raw.MetaCtx() else raw.sessionCtxId))
    ensures r.Ok? ==> r.value.updatedAt == (if raw.updatedAt.None? then Some(now) else raw.updatedAt)
    ensures r.Ok? ==> forall k :: k in r.value.meta.value && k != SessionKey ==>
      k in raw.MetaOrEmpty() && r.value.meta.value[k] == raw.MetaOrEmpty()[k]
    ensures r.Ok? ==> forall k :: k in raw.MetaOrEmpty() && k != SessionKey ==>
      k in r.value.meta.value && r.value.meta.value[k] == raw.MetaOrEmpty()[k]
    ensures r.Ok? ==> r.value.MetaCtx() == (if Truthy(r.value.sessionCtxId) then r.value.sessionCtxId else raw.MetaCtx())
    ensures r.Ok? ==> r.value.(meta := raw.meta, sessionCtxId := raw.sessionCtxId, updatedAt := raw.updatedAt) == raw
    ensures Validated(raw) ==> r == Ok(raw)
  {
    if raw.timeout.Some? && raw.timeout.value < 0 {
      return Err("ValidationError", "timeout: Input should be greater than or equal to 0");
    }
    var c := raw;
    if c.meta.None? {
      c := c.(meta := Some(map[]));
    }
    if !Truthy(c.sessionCtxId) {
      var v := c.MetaCtx();
      if Truthy(v) {
        c := c.(sessionCtxId := v);
      }
    }
    if Truthy(c.sessionCtxId) {
      if c.MetaCtx() == c.sessionCtxId {
        assert c.meta.value[SessionKey := c.sessionCtxId.value] == c.meta.value;
      }
      c := c.(meta := Some(c.meta.value[SessionKey := c.sessionCtxId.value]));
    }
    if c.updatedAt.None? {
      c := c.(updatedAt := Some(now));
    }
    return Ok(c);
  }
}
