/**
 * The sandbox manager server's settings (sandbox/manager/server/config.py):
 * the DEFAULT_SANDBOX_TYPE parser, the WORKERS validator and the order in
 * which pydantic runs field validators, the fields read from the process
 * environment, and the `get_settings` cache.
 */
module ServerConfig {
  import opened Wrappers
  import opened Dicts
  import opened Strings
  import opened Json

  // ---------------------------------------------------------------------
  // DEFAULT_SANDBOX_TYPE
  // ---------------------------------------------------------------------

  /** A text that `strip` leaves as it is: empty, or no whitespace at either end. */
  predicate Stripped(s: string)
  {
    s == [] || (!IsSpace(s[0]) && !IsSpace(s[|s| - 1]))
  }

  lemma StripStripped(s: string)
    requires Stripped(s)
    ensures Strip(s) == s
  {
    assert TrimLeft(s) == s;
    assert TrimRight(s) == s;
  }

  /** Stripping keeps a slice of the text, so it adds no character. */
  lemma StripNoChar(s: string, c: char)
    requires !HasChar(s, c)
    ensures !HasChar(Strip(s), c)
  {
    var l := TrimLeft(s);
    var r := TrimRight(l);
    assert l == s[|s| - |l|..];
    assert r == l[..|r|];
    forall k | 0 <= k < |r| ensures r[k] != c {
      assert r[k] == l[k] == s[|s| - |l| + k];
    }
  }

  /** `item.strip()` when that is non-empty; `None` for an item the comprehension drops. */
  function StripOrDrop(item: string): (r: Option<string>)
    ensures r.Some? ==> r.value != "" && Stripped(r.value)
  {
    if Strip(item) == "" then None else Some(Strip(item))
  }

  /** An item of a parsed list: non-empty, stripped, and free of the separator. */
  predicate CleanItem(x: string)
  {
    x != "" && Stripped(x) && !HasChar(x, ',')
  }

  /** `[item.strip() for item in parts if item.strip()]`. */
  function CleanItems(parts: seq<string>): (r: seq<string>)
  {
    Somes(seq(|parts|, i requires 0 <= i < |parts| => StripOrDrop(parts[i])))
  }

  /** Every kept item is the stripped form of a piece, and a piece without commas gives an item without commas. */
  lemma CleanItemsClean(parts: seq<string>)
    requires forall i :: 0 <= i < |parts| ==> !HasChar(parts[i], ',')
    ensures forall k :: 0 <= k < |CleanItems(parts)| ==> CleanItem(CleanItems(parts)[k])
  {
    var opts := seq(|parts|, i requires 0 <= i < |parts| => StripOrDrop(parts[i]));
    forall k | 0 <= k < |CleanItems(parts)| ensures CleanItem(CleanItems(parts)[k]) {
      var x := CleanItems(parts)[k];
      SomesMembers(opts, x);
      var i :| 0 <= i < |opts| && opts[i] == Some(x);
      StripNoChar(parts[i], ',');
    }
  }

  /** Pieces that are already clean are kept, all of them, in order. */
  lemma CleanItemsOfClean(parts: seq<string>)
    requires forall i :: 0 <= i < |parts| ==> CleanItem(parts[i])
    ensures CleanItems(parts) == parts
  {
    var opts := seq(|parts|, i requires 0 <= i < |parts| => StripOrDrop(parts[i]));
    forall i | 0 <= i < |parts| ensures opts[i] == Some(parts[i]) {
      StripStripped(parts[i]);
    }
    SomesAllPresent(opts);
  }

  function Strs(xs: seq<string>): (r: seq<JsonValue>)
    ensures |r| == |xs| && forall k :: 0 <= k < |xs| ==> r[k] == JStr(xs[k])
  {
    seq(|xs|, k requires 0 <= k < |xs| => JStr(xs[k]))
  }

  /** `v.startswith("[") and v.endswith("]")`. */
  predicate Bracketed(s: string)
  {
    StartsWith(s, "[") && EndsWith(s, "]")
  }

  lemma BracketedLength(s: string)
    requires Bracketed(s)
    ensures |s| >= 2
  {
    assert s[..1] == "[" && s[|s| - 1..] == "]";
    assert s[0] == '[' && s[|s| - 1] == ']';
  }

  /** The list a text decodes to when the JSON parser is not used or fails. */
  function SplitItems(s: string): (r: seq<string>)
    ensures forall k :: 0 <= k < |r| ==> CleanItem(r[k])
  {
    CleanItemsClean(Split(s, ','));
    CleanItems(Split(s, ','))
  }

  /** What `parse_default_type` makes of a string once it is stripped. */
  function ParseStripped(s: string, decode: string -> Option<JsonValue>): (r: JsonValue)
    ensures Bracketed(s) && decode(s).Some? ==> r == decode(s).value
    ensures !(Bracketed(s) && decode(s).Some?) ==>
      && r.JArr?
      && forall k :: 0 <= k < |r.items| ==> r.items[k].JStr? && CleanItem(r.items[k].s)
  {
    if Bracketed(s) then
      BracketedLength(s);
      match decode(s)
      case Some(parsed) => parsed
      case None => JArr(Strs(SplitItems(s[1..|s| - 1])))
    else JArr(Strs(SplitItems(s)))
  }

  /**
   * `parse_default_type`: a string is stripped; a bracketed one is handed to
   * `json.loads` (whose result is returned as it is) and, when that fails, the
   * text between the brackets is split on commas; any other string is split
   * on commas. Items are stripped and empty ones dropped. A value that is not
   * a string passes through.
   */
  function ParseDefaultType(v: JsonValue, decode: string -> Option<JsonValue>): (r: JsonValue)
    ensures !v.JStr? ==> r == v
    ensures v.JStr? && Bracketed(Strip(v.s)) && decode(Strip(v.s)).Some? ==> r == decode(Strip(v.s)).value
    ensures v.JStr? && !(Bracketed(Strip(v.s)) && decode(Strip(v.s)).Some?) ==>
      && r.JArr?
      && forall k :: 0 <= k < |r.items| ==> r.items[k].JStr? && CleanItem(r.items[k].s)
  {
    if !v.JStr? then v else ParseStripped(Strip(v.s), decode)
  }

  lemma {:induction false} SplitJoin(items: seq<string>)
    requires items != [] && forall i :: 0 <= i < |items| ==> !HasChar(items[i], ',')
    ensures Split(Join(items, ","), ',') == items
    decreases |items|
  {
    if |items| > 1 {
      var rest := Join(items[1..], ",");
      var s := Join(items, ",");
      assert s == items[0] + [','] + rest;
      IndexOfAfter(items[0], ',', rest);
      assert s[..|items[0]|] == items[0] && s[|items[0]| + 1..] == rest;
      SplitJoin(items[1..]);
    }
  }

  lemma {:induction false} JoinEnds(items: seq<string>)
    requires items != [] && forall i :: 0 <= i < |items| ==> items[i] != ""
    ensures var s := Join(items, ",");
      && s != [] && s[0] == items[0][0]
      && s[|s| - 1] == items[|items| - 1][|items[|items| - 1]| - 1]
    decreases |items|
  {
    if |items| > 1 {
      JoinEnds(items[1..]);
    }
  }

  /**
   * A comma-joined list of clean items that does not start with "[" parses
   * back to exactly those items.
   */
  lemma ParseJoinedRoundTrip(items: seq<string>, decode: string -> Option<JsonValue>)
    requires items != [] && (forall i :: 0 <= i < |items| ==> CleanItem(items[i])) && items[0] != "" && items[0][0] != '['
    ensures ParseDefaultType(JStr(Join(items, ",")), decode) == JArr(Strs(items))
  {
    var s := Join(items, ",");
    JoinEnds(items);
    StripStripped(s);
    assert !StartsWith(s, "[");
    SplitJoin(items);
    CleanItemsOfClean(items);
  }

  /** A text between brackets is stripped and bracketed, and its inner text is the original. */
  lemma BracketedText(j: string)
    ensures var s := "[" + j + "]"; s[1..|s| - 1] == j && Bracketed(s)
    ensures Strip("[" + j + "]") == "[" + j + "]"
  {
    var s := "[" + j + "]";
    assert s[0] == '[' && s[|s| - 1] == ']';
    StripStripped(s);
    assert s[..1] == "[" && s[|s| - 1..] == "]";
    assert s[1..|s| - 1] == j;
  }

  /** Splitting a comma-joined list of clean items gives the items back. */
  lemma SplitItemsJoin(items: seq<string>)
    requires items != [] && forall i :: 0 <= i < |items| ==> CleanItem(items[i])
    ensures SplitItems(Join(items, ",")) == items
  {
    SplitJoin(items);
    CleanItemsOfClean(items);
  }

  /** A string that is already stripped is parsed as it stands. */
  lemma ParseOfStripped(s: string, decode: string -> Option<JsonValue>)
    requires Strip(s) == s
    ensures ParseDefaultType(JStr(s), decode) == ParseStripped(s, decode)
  {
  }

  lemma ParseBracketedText(j: string, decode: string -> Option<JsonValue>)
    requires decode("[" + j + "]").None?
    ensures ParseStripped("[" + j + "]", decode) == JArr(Strs(SplitItems(j)))
  {
    BracketedText(j);
  }

  /** A bracketed comma-joined list that is not JSON parses to the items between the brackets. */
  lemma ParseBracketedFallback(items: seq<string>, decode: string -> Option<JsonValue>)
    requires items != [] && forall i :: 0 <= i < |items| ==> CleanItem(items[i])
    requires decode("[" + Join(items, ",") + "]").None?
    ensures ParseDefaultType(JStr("[" + Join(items, ",") + "]"), decode) == JArr(Strs(items))
  {
    var j := Join(items, ",");
    SplitItemsJoin(items);
    BracketedText(j);
    ParseOfStripped("[" + j + "]", decode);
    ParseBracketedText(j, decode);
  }

  // ---------------------------------------------------------------------
  // WORKERS and the validation order
  // ---------------------------------------------------------------------

  /** The service fields, in declaration order. */
  const ServiceFields: seq<string> := ["HOST", "PORT", "WORKERS", "DEBUG", "BEARER_TOKEN"]

  /** The fields declared after the service fields, in declaration order. */
  const LaterFields: seq<string> := [
    "DEFAULT_SANDBOX_TYPE", "POOL_SIZE", "AUTO_CLEANUP", "CONTAINER_PREFIX_KEY",
    "CONTAINER_DEPLOYMENT", "DEFAULT_MOUNT_DIR", "READONLY_MOUNTS", "ALLOW_MOUNT_DIR",
    "STORAGE_FOLDER", "PORT_RANGE",
    "REDIS_ENABLED", "REDIS_SERVER", "REDIS_PORT", "REDIS_DB", "REDIS_USER",
    "REDIS_PASSWORD", "REDIS_PORT_KEY", "REDIS_CONTAINER_POOL_KEY",
    "FILE_SYSTEM", "OSS_ENDPOINT", "OSS_ACCESS_KEY_ID", "OSS_ACCESS_KEY_SECRET", "OSS_BUCKET_NAME",
    "K8S_NAMESPACE", "KUBECONFIG_PATH",
    "AGENT_RUN_ACCOUNT_ID", "AGENT_RUN_ACCESS_KEY_ID", "AGENT_RUN_ACCESS_KEY_SECRET",
    "AGENT_RUN_REGION_ID", "AGENT_RUN_CPU", "AGENT_RUN_MEMORY", "AGENT_RUN_VPC_ID",
    "AGENT_RUN_VSWITCH_IDS", "AGENT_RUN_SECURITY_GROUP_ID", "AGENT_RUN_PREFIX",
    "AGENT_RUN_LOG_PROJECT", "AGENT_RUN_LOG_STORE",
    "FC_ACCOUNT_ID", "FC_ACCESS_KEY_ID", "FC_ACCESS_KEY_SECRET", "FC_REGION_ID",
    "FC_CPU", "FC_MEMORY", "FC_VPC_ID", "FC_VSWITCH_IDS", "FC_SECURITY_GROUP_ID",
    "FC_PREFIX", "FC_LOG_PROJECT", "FC_LOG_STORE",
    "HEARTBEAT_TIMEOUT", "HEARTBEAT_SCAN_INTERVAL", "HEARTBEAT_LOCK_TTL",
    "MAX_SANDBOX_INSTANCES"]

  /** The fields of `Settings` in declaration order, the order pydantic validates them in. */
  const FieldOrder: seq<string> := ServiceFields + LaterFields

  /** `k` is validated before `field`: it comes earlier in `order`. */
  predicate Precedes(order: seq<string>, k: string, field: string)
    decreases |order|
  {
    order != [] && order[0] != field && (order[0] == k || Precedes(order[1..], k, field))
  }

  /** `info.data` when `field` is validated: the fields before it that have a value. */
  function DataBefore(order: seq<string>, field: string, values: Dict<JsonValue>): (r: Dict<JsonValue>)
    ensures forall k :: HasKey(r, k) ==> Precedes(order, k, field) && HasKey(values, k)
    decreases |order|
  {
    if order == [] || order[0] == field then []
    else
      var rest := DataBefore(order[1..], field, values);
      match Get(values, order[0])
      case Some(v) =>
        assert Keys([(order[0], v)] + rest) == [order[0]] + Keys(rest);
        [(order[0], v)] + rest
      case None => rest
  }

  /** Every field validated before `field` shows its value to `field`'s validator. */
  lemma {:induction false} DataBeforeGet(order: seq<string>, field: string, values: Dict<JsonValue>, k: string)
    requires Precedes(order, k, field)
    ensures Get(DataBefore(order, field, values), k) == Get(values, k)
    decreases |order|
  {
    var rest := DataBefore(order[1..], field, values);
    if order[0] != k {
      DataBeforeGet(order[1..], field, values, k);
    }
    match Get(values, order[0])
    case Some(v) => GetCons(order[0], v, rest, k);
    case None =>
  }

  /** `validate_workers`: 1 unless REDIS_ENABLED, among the fields validated so far, is truthy. */
  function ValidateWorkers(value: JsonValue, data: Dict<JsonValue>): (r: JsonValue)
    ensures !JTruthy(Get(data, "REDIS_ENABLED").GetOr(JBool(false))) ==> r == JNum(1)
    ensures JTruthy(Get(data, "REDIS_ENABLED").GetOr(JBool(false))) ==> r == value
  {
    if !JTruthy(Get(data, "REDIS_ENABLED").GetOr(JBool(false))) then JNum(1) else value
  }

  /** In `a + [field] + b`, exactly the fields of `a` precede `field`. */
  lemma {:induction false} PrecedesPrefix(a: seq<string>, field: string, b: seq<string>, k: string)
    requires field !in a
    ensures Precedes(a + [field] + b, k, field) <==> k in a
    decreases |a|
  {
    var o := a + [field] + b;
    if a == [] {
      assert o[0] == field;
    } else {
      assert o[0] == a[0] && o[1..] == a[1..] + [field] + b;
      PrecedesPrefix(a[1..], field, b, k);
    }
  }

  /** REDIS_ENABLED is declared after WORKERS, so WORKERS is validated before it. */
  lemma RedisAfterWorkers()
    ensures !Precedes(FieldOrder, "REDIS_ENABLED", "WORKERS")
  {
    assert FieldOrder == ["HOST", "PORT"] + ["WORKERS"] + (["DEBUG", "BEARER_TOKEN"] + LaterFields);
    PrecedesPrefix(["HOST", "PORT"], "WORKERS", ["DEBUG", "BEARER_TOKEN"] + LaterFields, "REDIS_ENABLED");
  }

  /** As declared, WORKERS is always 1, whatever REDIS_ENABLED and WORKERS are set to. */
  lemma WorkersAlwaysOne(value: JsonValue, values: Dict<JsonValue>)
    ensures ValidateWorkers(value, DataBefore(FieldOrder, "WORKERS", values)) == JNum(1)
  {
    RedisAfterWorkers();
    assert !HasKey(DataBefore(FieldOrder, "WORKERS", values), "REDIS_ENABLED");
  }

  /** The declaration order with REDIS_ENABLED ahead of WORKERS, as the validator needs it. */
  const IntendedOrder: seq<string> := ["REDIS_ENABLED"] + FieldOrder

  /** With REDIS_ENABLED validated first, an enabled Redis keeps the configured WORKERS. */
  lemma WorkersKeptWithRedis(value: JsonValue, values: Dict<JsonValue>)
    requires Get(values, "REDIS_ENABLED") == Some(JBool(true))
    ensures ValidateWorkers(value, DataBefore(IntendedOrder, "WORKERS", values)) == value
  {
    assert IntendedOrder[0] == "REDIS_ENABLED";
    assert Precedes(IntendedOrder, "REDIS_ENABLED", "WORKERS");
    DataBeforeGet(IntendedOrder, "WORKERS", values, "REDIS_ENABLED");
  }

  /** With REDIS_ENABLED validated first and not truthy, WORKERS is still 1. */
  lemma WorkersOneWithoutRedis(value: JsonValue, values: Dict<JsonValue>)
    requires !JTruthy(Get(values, "REDIS_ENABLED").GetOr(JBool(false)))
    ensures ValidateWorkers(value, DataBefore(IntendedOrder, "WORKERS", values)) == JNum(1)
  {
    assert IntendedOrder[0] == "REDIS_ENABLED";
    assert Precedes(IntendedOrder, "REDIS_ENABLED", "WORKERS");
    DataBeforeGet(IntendedOrder, "WORKERS", values, "REDIS_ENABLED");
  }

  // ---------------------------------------------------------------------
  // Settings from the environment
  // ---------------------------------------------------------------------

  /** The settings the sandbox manager reads; the cloud credentials are not part of this model. */
  datatype Settings = Settings(
    host: string,
    port: int,
    workers: int,
    redisEnabled: bool,
    defaultSandboxType: JsonValue,
    poolSize: int,
    heartbeatTimeout: int,
    heartbeatScanInterval: int,
    heartbeatLockTtl: int,
    maxSandboxInstances: int)

  /** Every field at its declared default. */
  const DefaultSettings := Settings("127.0.0.1", 8000, 1, false, JStr("base"), 0, 300, 0, 120, 0)

  /** HEARTBEAT_SCAN_INTERVAL 0 disables the heartbeat check. */
  predicate HeartbeatCheckEnabled(s: Settings)
  {
    s.heartbeatScanInterval != 0
  }

  /** MAX_SANDBOX_INSTANCES 0 means no limit. */
  function InstanceLimit(s: Settings): (r: Option<int>)
    ensures r.None? <==> s.maxSandboxInstances == 0
    ensures r.Some? ==> r.value == s.maxSandboxInstances
  {
    if s.maxSandboxInstances == 0 then None else Some(s.maxSandboxInstances)
  }

  /** pydantic's reading of a boolean from text. */
  function ParseBool(s: string): (r: Option<bool>)
    ensures r == Some(true) ==> Lower(s) in {"1", "on", "t", "true", "y", "yes"}
    ensures r == Some(false) ==> Lower(s) in {"0", "off", "f", "false", "n", "no"}
  {
    var l := Lower(s);
    if l in {"1", "on", "t", "true", "y", "yes"} then Some(true)
    else if l in {"0", "off", "f", "false", "n", "no"} then Some(false)
    else None
  }

  /** pydantic's message for a field whose text is not an integer. */
  function NotAnInt(name: string): string
  {
    name + ": Input should be a valid integer"
  }

  /** An integer field: the default when unset, else the parsed text or a validation error. */
  function IntField(env: Dict<string>, name: string, default: int): (r: Result<int>)
    ensures !HasKey(env, name) ==> r == Ok(default)
    ensures r.Err? <==> HasKey(env, name) && ParseInt(Get(env, name).value).None?
  {
    match Get(env, name)
    case None => Ok(default)
    case Some(text) =>
      match ParseInt(text)
      case None => Err("ValidationError", NotAnInt(name))
      case Some(n) => Ok(n)
  }

  /** A boolean field: the default when unset, else the parsed text or a validation error. */
  function BoolField(env: Dict<string>, name: string, default: bool): (r: Result<bool>)
    ensures !HasKey(env, name) ==> r == Ok(default)
    ensures r.Err? <==> HasKey(env, name) && ParseBool(Get(env, name).value).None?
  {
    match Get(env, name)
    case None => Ok(default)
    case Some(text) =>
      match ParseBool(text)
      case None => Err("ValidationError", name + ": Input should be a valid boolean")
      case Some(b) => Ok(b)
  }

  /** pydantic's reading of an `int` field from what its `before` validator returned. */
  function WorkersValue(v: JsonValue): (r: Result<int>)
    ensures v.JNum? ==> r == Ok(v.n)
    ensures v.JStr? ==> (r.Ok? <==> ParseInt(v.s).Some?) && (r.Ok? ==> r.value == ParseInt(v.s).value)
  {
    if v.JNum? then Ok(v.n)
    else if v.JStr? && ParseInt(v.s).Some? then Ok(ParseInt(v.s).value)
    else Err("ValidationError", NotAnInt("WORKERS"))
  }

  /**
   * WORKERS when the fields are validated in `order` and `data` holds the
   * values of the other fields: an unset field keeps its default 1 (the
   * validator does not run on defaults); a set one goes through
   * `validate_workers`, which sees the raw text, and only what it returns is
   * parsed.
   */
  function WorkersField(env: Dict<string>, order: seq<string>, data: Dict<JsonValue>): (r: Result<int>)
    ensures !HasKey(env, "WORKERS") ==> r == Ok(1)
    ensures !Precedes(order, "REDIS_ENABLED", "WORKERS") ==> r == Ok(1)
    ensures !JTruthy(Get(data, "REDIS_ENABLED").GetOr(JBool(false))) ==> r == Ok(1)
    ensures Precedes(order, "REDIS_ENABLED", "WORKERS") && Get(data, "REDIS_ENABLED") == Some(JBool(true)) ==>
      r == IntField(env, "WORKERS", 1)
  {
    match Get(env, "WORKERS")
    case None => Ok(1)
    case Some(text) =>
      var seen := DataBefore(order, "WORKERS", data);
      var redisFirst := Precedes(order, "REDIS_ENABLED", "WORKERS");
      if redisFirst then
        DataBeforeGet(order, "WORKERS", data, "REDIS_ENABLED");
        WorkersValue(ValidateWorkers(JStr(text), seen))
      else
        assert !HasKey(seen, "REDIS_ENABLED");
        WorkersValue(ValidateWorkers(JStr(text), seen))
  }

  /**
   * DEFAULT_SANDBOX_TYPE: the validator runs on a value read from the
   * environment; the default "base" is not validated and stays a string.
   */
  function SandboxTypeField(env: Dict<string>, decode: string -> Option<JsonValue>): (r: JsonValue)
    ensures !HasKey(env, "DEFAULT_SANDBOX_TYPE") ==> r == JStr("base")
    ensures HasKey(env, "DEFAULT_SANDBOX_TYPE") ==> r == ParseDefaultType(JStr(Get(env, "DEFAULT_SANDBOX_TYPE").value), decode)
  {
    match Get(env, "DEFAULT_SANDBOX_TYPE")
    case None => JStr("base")
    case Some(text) => ParseDefaultType(JStr(text), decode)
  }

  /**
   * `Settings()` with the fields validated in `order`: the modelled fields
   * read from the environment, or the first validation error.
   */
  function SettingsIn(order: seq<string>, env: Dict<string>, decode: string -> Option<JsonValue>): (r: Result<Settings>)
    ensures r.Ok? ==>
      && BoolField(env, "REDIS_ENABLED", false) == Ok(r.value.redisEnabled)
      && IntField(env, "PORT", 8000) == Ok(r.value.port)
      && WorkersField(env, order, [("REDIS_ENABLED", JBool(r.value.redisEnabled))]) == Ok(r.value.workers)
      && r.value.defaultSandboxType == SandboxTypeField(env, decode)
    ensures r.Err? <==>
      || IntField(env, "PORT", 8000).Err? || BoolField(env, "REDIS_ENABLED", false).Err?
      || (BoolField(env, "REDIS_ENABLED", false).Ok? &&
          WorkersField(env, order, [("REDIS_ENABLED", JBool(BoolField(env, "REDIS_ENABLED", false).value))]).Err?)
      || IntField(env, "POOL_SIZE", 0).Err? || IntField(env, "HEARTBEAT_TIMEOUT", 300).Err?
      || IntField(env, "HEARTBEAT_SCAN_INTERVAL", 0).Err? || IntField(env, "HEARTBEAT_LOCK_TTL", 120).Err?
      || IntField(env, "MAX_SANDBOX_INSTANCES", 0).Err?
  {
    var port := IntField(env, "PORT", 8000);
    var redis := BoolField(env, "REDIS_ENABLED", false);
    var pool := IntField(env, "POOL_SIZE", 0);
    var timeout := IntField(env, "HEARTBEAT_TIMEOUT", 300);
    var interval := IntField(env, "HEARTBEAT_SCAN_INTERVAL", 0);
    var ttl := IntField(env, "HEARTBEAT_LOCK_TTL", 120);
    var maxInstances := IntField(env, "MAX_SANDBOX_INSTANCES", 0);
    if port.Err? then Err(port.kind, port.message)
    else if redis.Err? then Err(redis.kind, redis.message)
    else
      var workers := WorkersField(env, order, [("REDIS_ENABLED", JBool(redis.value))]);
      if workers.Err? then Err(workers.kind, workers.message)
      else if pool.Err? then Err(pool.kind, pool.message)
      else if timeout.Err? then Err(timeout.kind, timeout.message)
      else if interval.Err? then Err(interval.kind, interval.message)
      else if ttl.Err? then Err(ttl.kind, ttl.message)
      else if maxInstances.Err? then Err(maxInstances.kind, maxInstances.message)
      else Ok(Settings(Get(env, "HOST").GetOr("127.0.0.1"), port.value, workers.value, redis.value,
                       SandboxTypeField(env, decode), pool.value, timeout.value, interval.value,
                       ttl.value, maxInstances.value))
  }

  /**
   * `Settings()` as declared: WORKERS is validated before REDIS_ENABLED, so
   * it is always 1 and its text is never parsed.
   */
  function FromEnv(env: Dict<string>, decode: string -> Option<JsonValue>): (r: Result<Settings>)
    ensures r.Ok? ==>
      && BoolField(env, "REDIS_ENABLED", false) == Ok(r.value.redisEnabled)
      && IntField(env, "PORT", 8000) == Ok(r.value.port)
      && r.value.workers == 1
      && r.value.defaultSandboxType == SandboxTypeField(env, decode)
    ensures r.Err? <==>
      || IntField(env, "PORT", 8000).Err? || BoolField(env, "REDIS_ENABLED", false).Err?
      || IntField(env, "POOL_SIZE", 0).Err? || IntField(env, "HEARTBEAT_TIMEOUT", 300).Err?
      || IntField(env, "HEARTBEAT_SCAN_INTERVAL", 0).Err? || IntField(env, "HEARTBEAT_LOCK_TTL", 120).Err?
      || IntField(env, "MAX_SANDBOX_INSTANCES", 0).Err?
  {
    RedisAfterWorkers();
    SettingsIn(FieldOrder, env, decode)
  }

  /**
   * `Settings()` with REDIS_ENABLED validated ahead of WORKERS, as
   * `validate_workers` needs: an enabled Redis keeps the configured WORKERS.
   */
  function FromEnvIntended(env: Dict<string>, decode: string -> Option<JsonValue>): (r: Result<Settings>)
    ensures r.Ok? ==>
      && BoolField(env, "REDIS_ENABLED", false) == Ok(r.value.redisEnabled)
      && (r.value.redisEnabled ==> IntField(env, "WORKERS", 1) == Ok(r.value.workers))
      && (!r.value.redisEnabled ==> r.value.workers == 1)
      && r.value.defaultSandboxType == SandboxTypeField(env, decode)
  {
    RedisFirstIntended();
    RedisSeen(true);
    RedisSeen(false);
    SettingsIn(IntendedOrder, env, decode)
  }

  /** In the intended order REDIS_ENABLED is validated before WORKERS. */
  lemma RedisFirstIntended()
    ensures Precedes(IntendedOrder, "REDIS_ENABLED", "WORKERS")
  {
    assert IntendedOrder[0] == "REDIS_ENABLED";
  }

  /** The data WORKERS is validated against holds the parsed REDIS_ENABLED. */
  lemma RedisSeen(b: bool)
    ensures Get([("REDIS_ENABLED", JBool(b))], "REDIS_ENABLED") == Some(JBool(b))
  {
    GetCons("REDIS_ENABLED", JBool(b), [], "REDIS_ENABLED");
  }

  /** An empty environment gives the declared defaults: no heartbeat check and no instance limit. */
  lemma EmptyEnvDefaults(decode: string -> Option<JsonValue>)
    ensures FromEnv([], decode) == Ok(DefaultSettings)
    ensures !HeartbeatCheckEnabled(DefaultSettings) && InstanceLimit(DefaultSettings).None?
  {
  }

  /** `load_dotenv(path, override)`: the file's variables, over the environment when `override` is set, else only where unset. */
  function LoadDotenv(env: Dict<string>, vars: Dict<string>, override: bool): Dict<string>
  {
    if override then Update(env, vars) else Update(vars, env)
  }

  lemma LoadDotenvGet(env: Dict<string>, vars: Dict<string>, override: bool, k: string)
    requires UniqueKeys(env) && UniqueKeys(vars)
    ensures override && HasKey(vars, k) ==> Get(LoadDotenv(env, vars, override), k) == Get(vars, k)
    ensures !override && HasKey(env, k) ==> Get(LoadDotenv(env, vars, override), k) == Get(env, k)
    ensures !HasKey(env, k) && !HasKey(vars, k) ==> Get(LoadDotenv(env, vars, override), k).None?
    ensures HasKey(env, k) && !HasKey(vars, k) ==> Get(LoadDotenv(env, vars, override), k) == Get(env, k)
  {
    if override {
      GetUpdate(env, vars, k);
    } else {
      GetUpdate(vars, env, k);
    }
  }

  /**
   * The environment after `get_settings` looks for its files: a given config
   * file that exists is loaded over the environment; otherwise ".env", else
   * ".env.example", fills only unset variables. `files` gives the variables
   * of each file that exists.
   */
  function LoadedEnv(env: Dict<string>, configFile: Option<string>, files: string -> Option<Dict<string>>): Dict<string>
  {
    if Truthy(configFile) && files(configFile.value).Some? then LoadDotenv(env, files(configFile.value).value, true)
    else if files(".env").Some? then LoadDotenv(env, files(".env").value, false)
    else if files(".env.example").Some? then LoadDotenv(env, files(".env.example").value, false)
    else env
  }

  /** The module-global `_settings` and the process environment it is built from. */
  class SettingsCache {
    var cached: Option<Settings>
    var env: Dict<string>

    constructor(env0: Dict<string>)
      ensures cached.None? && env == env0
    {
      cached := None;
      env := env0;
    }

    /**
     * `get_settings`: the first successful call loads the files and builds
     * the settings; every later call returns them unchanged and reads no
     * file. A call whose validation fails leaves nothing cached.
     */
    method GetSettings(configFile: Option<string>, files: string -> Option<Dict<string>>, decode: string -> Option<JsonValue>)
      returns (r: Result<Settings>)
      modifies this
      ensures old(cached).Some? ==> r == Ok(old(cached).value) && cached == old(cached) && env == old(env)
      ensures old(cached).None? ==> env == LoadedEnv(old(env), configFile, files) && r == FromEnv(env, decode)
      ensures old(cached).None? ==> cached == (if r.Ok? then Some(r.value) else None)
    {
      if cached.Some? {
        return Ok(cached.value);
      }
      env := LoadedEnv(env, configFile, files);
      r := FromEnv(env, decode);
      if r.Ok? {
        cached := Some(r.value);
      }
    }
  }
}
